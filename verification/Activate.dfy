/**
 The plain-text replies of the suppliers that speak the SMS-Activate protocol: a bought
 number, a refusal from a closed list, or something that may have taken the money.
 */
module Activate {
  import opened Base

  predicate IsDigit(c: char) {
    '0' <= c <= '9'
  }

  function TrimStart(s: string): string {
    if s != "" && IsSpace(s[0]) then TrimStart(s[1..]) else s
  }

  function TrimEnd(s: string): string {
    if s != "" && IsSpace(s[|s| - 1]) then TrimEnd(s[..|s| - 1]) else s
  }

  function Trim(s: string): string {
    TrimEnd(TrimStart(s))
  }

  function DigitsOf(s: string): string {
    if s == "" then "" else (if IsDigit(s[0]) then [s[0]] else "") + DigitsOf(s[1..])
  }

  /** Bare digits get a plus; a text without digits is left alone. */
  function NormalisePhone(raw: string): string {
    if DigitsOf(raw) == "" then raw else "+" + DigitsOf(raw)
  }

  // ---------------------------------------------------------------------
  // Replies
  // ---------------------------------------------------------------------

  datatype Refusal = OutOfStock | SourceUnavailable

  datatype PurchaseError = Rejected(refusal: Refusal) | Ambiguous

  datatype Activation = Activation(providerOrderId: string, phone: string)

  const DRY: set<string> := {"NO_NUMBERS", "NO_NUMBER"}
  const NO_FUNDS: set<string> := {"NO_BALANCE", "NO_MONEY", "NO_BALANCE_FORWARD"}
  const FAULTS: set<string> := {
    "BAD_KEY", "BAD_ACTION", "BAD_SERVICE", "WRONG_SERVICE", "WRONG_COUNTRY",
    "BAD_STATUS", "ERROR_NO_KEY", "WRONG_MAX_PRICE", "ACCOUNT_INACTIVE"}

  function ClassifyActivateError(token: string): PurchaseError {
    var upper := Upper(Trim(token));
    if upper in DRY then Rejected(OutOfStock)
    else if upper in NO_FUNDS || upper in FAULTS then Rejected(SourceUnavailable)
    else Ambiguous
  }

  const ACCESS := "ACCESS_NUMBER:"

  /** The position of the first colon, or the length. */
  function FirstColon(s: string): (n: nat)
    ensures n <= |s|
  {
    if s == "" || s[0] == ':' then 0 else 1 + FirstColon(s[1..])
  }

  function ParseBuy(body: string): Result<Activation, PurchaseError> {
    var trimmed := Trim(body);
    if |trimmed| >= |ACCESS| && trimmed[..|ACCESS|] == ACCESS then
      var rest := trimmed[|ACCESS|..];
      var n := FirstColon(rest);
      var id := Trim(rest[..n]);
      var phone := if n < |rest| then Trim(rest[n + 1..]) else "";
      if id == "" || phone == "" then Err(Ambiguous)
      else Ok(Activation(id, NormalisePhone(phone)))
    else Err(ClassifyActivateError(trimmed))
  }

  // ---------------------------------------------------------------------
  // Trimming
  // ---------------------------------------------------------------------

  predicate Trimmed(s: string) {
    s == "" || (!IsSpace(s[0]) && !IsSpace(s[|s| - 1]))
  }

  lemma {:induction false} TrimStartShape(s: string)
    ensures TrimStart(s) == "" || !IsSpace(TrimStart(s)[0])
    ensures DigitsOf(TrimStart(s)) == DigitsOf(s)
    ensures forall c :: c in TrimStart(s) ==> c in s
  {
    if s != "" && IsSpace(s[0]) { TrimStartShape(s[1..]); }
  }

  lemma {:induction false} DigitsOfAppend(s: string, t: string)
    ensures DigitsOf(s + t) == DigitsOf(s) + DigitsOf(t)
  {
    if s == "" {
      assert s + t == t;
    } else {
      assert (s + t)[1..] == s[1..] + t;
      DigitsOfAppend(s[1..], t);
    }
  }

  lemma {:induction false} TrimEndShape(s: string)
    ensures TrimEnd(s) == "" || (!IsSpace(TrimEnd(s)[|TrimEnd(s)| - 1]) && TrimEnd(s)[0] == s[0])
    ensures DigitsOf(TrimEnd(s)) == DigitsOf(s)
    ensures forall c :: c in TrimEnd(s) ==> c in s
  {
    if s != "" && IsSpace(s[|s| - 1]) {
      var n := |s| - 1;
      assert s == s[..n] + [s[n]];
      DigitsOfAppend(s[..n], [s[n]]);
      TrimEndShape(s[..n]);
    }
  }

  lemma {:induction false} TrimShape(s: string)
    ensures Trimmed(Trim(s)) && DigitsOf(Trim(s)) == DigitsOf(s)
    ensures forall c :: c in Trim(s) ==> c in s
  {
    TrimStartShape(s);
    TrimEndShape(TrimStart(s));
  }

  lemma {:induction false} TrimmedStays(s: string)
    requires Trimmed(s)
    ensures Trim(s) == s
  {
  }

  /** Trimming a text whose beginning holds still works on the rest alone. */
  lemma {:induction false} TrimTail(a: string, b: string)
    requires a != "" && !IsSpace(a[0]) && TrimEnd(b) != ""
    ensures Trim(a + b) == a + TrimEnd(b)
  {
    assert TrimStart(a + b) == a + b;
    TrimEndAppend(a, b);
  }

  lemma {:induction false} TrimEndAppend(a: string, b: string)
    requires TrimEnd(b) != ""
    ensures TrimEnd(a + b) == a + TrimEnd(b)
  {
    var n := |b| - 1;
    assert (a + b)[|a + b| - 1] == b[n];
    if IsSpace(b[n]) {
      assert (a + b)[..|a + b| - 1] == a + b[..n];
      TrimEndAppend(a, b[..n]);
    }
  }

  /** Trimming the end first leaves less to trim at the start, and the same in the end. */
  lemma {:induction false} TrimOfTrimEnd(s: string)
    ensures Trim(TrimEnd(s)) == Trim(s)
  {
    TrimEndShape(s);
    if s != "" && IsSpace(s[|s| - 1]) {
      var n := |s| - 1;
      TrimOfTrimEnd(s[..n]);
      TrimDropsLast(s);
    }
  }

  lemma {:induction false} TrimDropsLast(s: string)
    requires s != "" && IsSpace(s[|s| - 1])
    ensures Trim(s) == Trim(s[..|s| - 1])
  {
    var n := |s| - 1;
    if IsSpace(s[0]) {
      if n > 0 {
        TrimDropsLast(s[1..]);
        assert s[1..][..n - 1] == s[..n][1..];
      } else {
        assert s[1..] == "" && s[..n] == "";
      }
    } else {
      assert TrimStart(s) == s && TrimStart(s[..n]) == s[..n];
    }
  }

  // ---------------------------------------------------------------------
  // Phones
  // ---------------------------------------------------------------------

  lemma {:induction false} DigitsOfIsDigits(s: string)
    ensures DigitsOf(DigitsOf(s)) == DigitsOf(s)
  {
    if s != "" {
      DigitsOfIsDigits(s[1..]);
      if IsDigit(s[0]) {
        assert DigitsOf(s)[1..] == DigitsOf(s[1..]);
      } else {
        assert DigitsOf(s) == DigitsOf(s[1..]);
      }
    }
  }

  /** A text without digits is no phone and stays as it is; any other becomes a plus and its digits. */
  lemma {:induction false} PhonesAreDigits(raw: string)
    ensures (forall i :: 0 <= i < |raw| ==> !IsDigit(raw[i])) <==> DigitsOf(raw) == ""
    ensures (forall i :: 0 <= i < |raw| ==> !IsDigit(raw[i])) ==> NormalisePhone(raw) == raw
    ensures (exists i :: 0 <= i < |raw| && IsDigit(raw[i])) ==> NormalisePhone(raw) == "+" + DigitsOf(raw)
  {
    if raw != "" {
      PhonesAreDigits(raw[1..]);
      assert raw == [raw[0]] + raw[1..];
    }
  }

  /** Normalising a second time changes nothing. */
  lemma NormaliseTwice(raw: string)
    ensures NormalisePhone(NormalisePhone(raw)) == NormalisePhone(raw)
  {
    DigitsOfIsDigits(raw);
    var digits := DigitsOf(raw);
    assert ("+" + digits)[1..] == digits;
    assert DigitsOf("+" + digits) == DigitsOf(digits);
  }

  // ---------------------------------------------------------------------
  // Round trips
  // ---------------------------------------------------------------------

  lemma {:induction false} FirstColonAt(id: string, phone: string)
    requires ':' !in id
    ensures FirstColon(id + (":" + phone)) == |id|
  {
    var s := id + (":" + phone);
    if id != "" {
      assert s[0] == id[0] && s[1..] == id[1..] + (":" + phone);
      FirstColonAt(id[1..], phone);
    }
  }

  lemma {:induction false} BeforeFirstColon(s: string)
    ensures ':' !in s[..FirstColon(s)]
    ensures FirstColon(s) < |s| ==> s[FirstColon(s)] == ':'
  {
    if s != "" && s[0] != ':' {
      BeforeFirstColon(s[1..]);
      assert s[..FirstColon(s)] == [s[0]] + s[1..][..FirstColon(s[1..])];
    }
  }

  function Line(id: string, phone: string): string {
    ACCESS + (id + (":" + phone))
  }

  /** What the parser makes of a line with an id without colons. */
  lemma {:induction false} ParseLine(body: string, id: string, phone: string)
    requires Trim(body) == Line(id, phone) && ':' !in id
    ensures ParseBuy(body) == if Trim(id) == "" || Trim(phone) == "" then Err(Ambiguous)
                              else Ok(Activation(Trim(id), NormalisePhone(Trim(phone))))
  {
    var trimmed := Trim(body);
    var rest := id + (":" + phone);
    assert trimmed[..|ACCESS|] == ACCESS && trimmed[|ACCESS|..] == rest;
    FirstColonAt(id, phone);
    assert rest[..|id|] == id && rest[|id| + 1..] == phone;
  }

  function Head(id: string): (h: string)
    ensures h != "" && h[0] == 'A'
  {
    ACCESS + id + ":"
  }

  lemma {:induction false} LineHead(id: string, phone: string)
    ensures Line(id, phone) == Head(id) + phone
  {
  }

  lemma {:induction false} TrimOfLine(id: string, phone: string)
    requires TrimEnd(phone) != ""
    ensures Trim(Line(id, phone)) == Line(id, TrimEnd(phone))
  {
    LineHead(id, phone);
    LineHead(id, TrimEnd(phone));
    TrimTail(Head(id), phone);
  }

  lemma {:induction false} NotBlank(phone: string)
    ensures Trim(phone) != "" ==> TrimEnd(phone) != ""
    ensures DigitsOf(phone) != "" ==> Trim(phone) != ""
  {
    TrimOfTrimEnd(phone);
    TrimShape(phone);
    TrimEndShape(phone);
  }

  lemma {:induction false} PhoneText(phone: string)
    requires DigitsOf(phone) != ""
    ensures TrimEnd(phone) != "" && Trim(TrimEnd(phone)) != ""
    ensures NormalisePhone(Trim(TrimEnd(phone))) == "+" + DigitsOf(phone)
  {
    NotBlank(phone);
    TrimOfTrimEnd(phone);
    TrimShape(phone);
  }

  /** Printing then parsing: any trimmed id without colons, and any phone text with a digit in it. */
  lemma {:induction false} ParseUndoesPrinting(id: string, phone: string)
    requires id != "" && Trimmed(id) && ':' !in id && DigitsOf(phone) != ""
    ensures ParseBuy(Line(id, phone)) == Ok(Activation(id, "+" + DigitsOf(phone)))
  {
    PhoneText(phone);
    TrimmedStays(id);
    TrimOfLine(id, phone);
    ParseLine(Line(id, phone), id, TrimEnd(phone));
  }

  lemma PhoneIsKept(phone: string)
    requires Trimmed(phone) && phone != ""
    ensures NormalisePhone(phone) != "" && Trimmed(NormalisePhone(phone))
  {
    var digits := DigitsOf(phone);
    if digits != "" {
      DigitsOnly(phone);
      assert NormalisePhone(phone)[0] == '+';
      assert NormalisePhone(phone)[|digits|] == digits[|digits| - 1];
    }
  }

  lemma {:induction false} DigitsOnly(s: string)
    ensures forall i :: 0 <= i < |DigitsOf(s)| ==> IsDigit(DigitsOf(s)[i])
  {
    if s != "" { DigitsOnly(s[1..]); }
  }

  // ---------------------------------------------------------------------
  // Everything else is ambiguous
  // ---------------------------------------------------------------------

  /** The body, trimmed, is an access line with an id and a phone that are not blank. */
  ghost predicate IsPurchase(body: string) {
    exists id, phone :: Buys(body, id, phone)
  }

  ghost predicate Buys(body: string, id: string, phone: string) {
    Trim(body) == Line(id, phone) && ':' !in id && Trim(id) != "" && Trim(phone) != ""
  }

  lemma {:induction false} LineParts(t: string) returns (id: string, phone: string)
    requires IsLine(t) && FirstColon(t[|ACCESS|..]) < |t| - |ACCESS|
    ensures var rest := t[|ACCESS|..];
      t == Line(id, phone) && ':' !in id && id == rest[..FirstColon(rest)] && phone == rest[FirstColon(rest) + 1..]
  {
    var rest := t[|ACCESS|..];
    var n := FirstColon(rest);
    BeforeFirstColon(rest);
    id, phone := rest[..n], rest[n + 1..];
    assert rest == id + (":" + phone);
    assert t == ACCESS + rest;
  }

  /** Where a purchase was read from. */
  lemma {:induction false} PurchaseParts(body: string) returns (id: string, phone: string)
    requires ParseBuy(body).Ok?
    ensures Buys(body, id, phone) && ParseBuy(body).value == Activation(Trim(id), NormalisePhone(Trim(phone)))
  {
    id, phone := LineParts(Trim(body));
  }

  /** The fourteen words with which a supplier says that nothing was sold. */
  predicate IsRefusal(body: string) {
    Upper(Trim(body)) in {
      "NO_NUMBERS", "NO_NUMBER", "NO_BALANCE", "NO_MONEY", "NO_BALANCE_FORWARD",
      "BAD_KEY", "BAD_ACTION", "BAD_SERVICE", "WRONG_SERVICE", "WRONG_COUNTRY",
      "BAD_STATUS", "ERROR_NO_KEY", "WRONG_MAX_PRICE", "ACCOUNT_INACTIVE"}
  }

  /** Parsing then printing: what was read prints as a line that reads the same. */
  lemma {:induction false} PrintedAgainReadsTheSame(body: string)
    requires ParseBuy(body).Ok?
    ensures var a := ParseBuy(body).value;
      && a.providerOrderId != "" && Trimmed(a.providerOrderId) && ':' !in a.providerOrderId
      && ParseBuy(Line(a.providerOrderId, a.phone)) == ParseBuy(body)
  {
    var id, phone := PurchaseParts(body);
    TrimShape(id);
    TrimShape(phone);
    PhoneIsKept(Trim(phone));
    LineReadsBack(Trim(id), NormalisePhone(Trim(phone)));
    NormaliseTwice(Trim(phone));
  }

  lemma {:induction false} LineReadsBack(id: string, phone: string)
    requires id != "" && Trimmed(id) && ':' !in id && phone != "" && Trimmed(phone)
    ensures ParseBuy(Line(id, phone)) == Ok(Activation(id, NormalisePhone(phone)))
  {
    TrimmedStays(id);
    TrimmedStays(phone);
    assert TrimEnd(phone) == phone;
    TrimOfLine(id, phone);
    ParseLine(Line(id, phone), id, phone);
  }

  lemma {:induction false} PurchaseIff(body: string)
    ensures ParseBuy(body).Ok? <==> IsPurchase(body)
  {
    if IsPurchase(body) {
      var id, phone :| Buys(body, id, phone);
      ParseLine(body, id, phone);
    }
    if ParseBuy(body).Ok? {
      var id, phone := PurchaseParts(body);
    }
  }

  predicate IsLine(t: string) {
    |t| >= |ACCESS| && t[..|ACCESS|] == ACCESS
  }

  lemma LinesAreNotRefusals(body: string)
    requires IsLine(Trim(body))
    ensures !IsRefusal(body)
  {
    var t := Trim(body);
    assert t[..|ACCESS|][1] == 'C' && t[..|ACCESS|][2] == 'C' && t[..|ACCESS|][3] == 'E';
    assert Upper(t)[1] == 'C' && Upper(t)[2] == 'C' && Upper(t)[3] == 'E';
  }

  /**
   A refusal is a word of the closed list, whatever its case and the space around it; all that is
   neither is ambiguous.
   */
  lemma {:induction false} AmbiguousIff(body: string)
    ensures ParseBuy(body) == Err(Ambiguous) <==> !IsPurchase(body) && !IsRefusal(body)
    ensures ParseBuy(body).Err? && ParseBuy(body).error.Rejected? <==> IsRefusal(body)
    ensures IsRefusal(body) ==>
      (ParseBuy(body) == Err(Rejected(OutOfStock)) <==> Upper(Trim(body)) in {"NO_NUMBERS", "NO_NUMBER"})
  {
    PurchaseIff(body);
    TrimShape(body);
    TrimmedStays(Trim(body));
    if IsLine(Trim(body)) { LinesAreNotRefusals(body); }
  }
}
