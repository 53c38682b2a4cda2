/**
 Choosing one of a supplier's services for each of our product slugs: an exact name
 before a name that begins with ours before any other, then the lower catalogue number.
 */
module Smspool {
  import opened Base

  predicate StartsWith(s: string, prefix: string) {
    |prefix| <= |s| && s[..|prefix|] == prefix
  }

  predicate Contains(s: string, needle: string) {
    exists i :: 0 <= i <= |s| && StartsWith(s[i..], needle)
  }

  /** What to look for in a name, and the slug it stands for; the first that is found counts. */
  const NEEDLES: seq<(string, string)> := [
    ("whatsapp", "whatsapp"), ("telegram", "telegram"), ("instagram", "instagram"), ("facebook", "facebook"),
    ("tiktok", "tiktok"), ("google", "google"), ("twitter", "x"), ("x.com", "x"), ("discord", "discord"),
    ("apple", "apple"), ("uber", "uber"), ("tinder", "tinder"), ("amazon", "amazon")]

  function FirstNeedle(name: string, needles: seq<(string, string)>): Option<string> {
    if needles == [] then None
    else if Contains(name, needles[0].0) then Some(needles[0].1)
    else FirstNeedle(name, needles[1..])
  }

  function MapService(name: string): Option<string> {
    FirstNeedle(Lower(name), NEEDLES)
  }

  function MapServiceScore(name: string, slug: string): nat {
    var n := Lower(name);
    var needle := if slug == "x" then "twitter" else slug;
    if n == needle then 0 else if StartsWith(n, needle) then 1 else 2
  }

  // ---------------------------------------------------------------------
  // Rows
  // ---------------------------------------------------------------------

  /** The value of an id field: text, a number by its printed form, or anything else. */
  datatype Value = Text(text: string) | Number(text: string) | Other

  /** The fields of a catalogue row that are read; absent ones are None. `name` is absent unless it is text. */
  datatype Row = Row(name: Option<string>, upperId: Option<Value>, lowerId: Option<Value>)

  function ValueKey(v: Value): string {
    if v.Other? then "" else v.text
  }

  const U64_MAX: nat := 0xFFFF_FFFF_FFFF_FFFF

  predicate AllDigits(s: string) {
    forall i :: 0 <= i < |s| ==> '0' <= s[i] <= '9'
  }

  function DigitsValue(s: string): nat
    requires AllDigits(s)
  {
    if s == "" then 0 else DigitsValue(s[..|s| - 1]) * 10 + (s[|s| - 1] as nat - '0' as nat)
  }

  /** Decimal digits with an optional plus, within 64 bits; anything else sorts last. */
  function IdNumber(s: string): nat {
    var digits := if s != "" && s[0] == '+' then s[1..] else s;
    if digits == "" || !AllDigits(digits) || DigitsValue(digits) > U64_MAX then U64_MAX else DigitsValue(digits)
  }

  datatype Candidate = Candidate(slug: string, score: nat, number: nat, providerId: string)

  function CandidateOf(row: Row): Option<Candidate> {
    var name := if row.name.Some? then row.name.value else "";
    var slug := MapService(name);
    if slug.None? then None
    else
      var field := if row.upperId.Some? then row.upperId else row.lowerId;
      if field.None? || ValueKey(field.value) == "" then None
      else
        var id := ValueKey(field.value);
        Some(Candidate(slug.value, MapServiceScore(name, slug.value), IdNumber(id), id))
  }

  predicate Better(a: Candidate, b: Candidate) {
    a.score < b.score || (a.score == b.score && a.number < b.number)
  }

  /** What the rows offer, one by one. */
  type Offers = seq<Option<Candidate>>

  function Candidates(rows: seq<Row>): (cs: Offers)
    ensures |cs| == |rows| && forall i :: 0 <= i < |cs| ==> cs[i] == CandidateOf(rows[i])
  {
    seq(|rows|, i requires 0 <= i < |rows| => CandidateOf(rows[i]))
  }

  predicate For(c: Option<Candidate>, slug: string) {
    c.Some? && c.value.slug == slug
  }

  /** A slug's choice so far: replaced only by something strictly better. */
  function Best(cs: Offers, slug: string): Option<Candidate> {
    if cs == [] then None
    else
      var best := Best(cs[..|cs| - 1], slug);
      var last := cs[|cs| - 1];
      if !For(last, slug) then best
      else if best.Some? && !Better(last.value, best.value) then best
      else last
  }

  datatype MappedService = MappedService(slug: string, providerId: string)

  predicate BySlug(out: seq<MappedService>) {
    forall i, j :: 0 <= i < j < |out| ==> Before(out[i].slug, out[j].slug)
  }

  ghost predicate Has(out: seq<MappedService>, slug: string, id: string) {
    MappedService(slug, id) in out
  }

  /** One entry for each slug with a candidate, its best, in the order of slugs. */
  ghost predicate Selection(rows: seq<Row>, out: seq<MappedService>) {
    BySlug(out) && forall slug, id :: Has(out, slug, id) <==> Chooses(Best(Candidates(rows), slug), id)
  }

  predicate Chooses(best: Option<Candidate>, id: string) {
    best.Some? && best.value.providerId == id
  }

  // ---------------------------------------------------------------------
  // The loop
  // ---------------------------------------------------------------------

  method SelectMappedServices(rows: seq<Row>) returns (out: seq<MappedService>)
    ensures Selection(rows, out)
  {
    var best: map<string, Candidate> := map[];
    ghost var cs := Candidates(rows);
    for i := 0 to |rows|
      invariant forall slug :: slug in best <==> Best(cs[..i], slug).Some?
      invariant forall slug :: slug in best ==> Best(cs[..i], slug) == Some(best[slug]) && best[slug].slug == slug
    {
      assert cs[..i + 1][..i] == cs[..i];
      var candidate := CandidateOf(rows[i]);
      if candidate.None? { continue; }
      var c := candidate.value;
      if c.slug in best && !Better(c, best[c.slug]) { continue; }
      best := best[c.slug := c];
    }
    assert cs[..|rows|] == cs;
    out := SortedServices(best);
  }

  /** The values of the map, in whatever order it gives them, sorted by slug. */
  method SortedServices(best: map<string, Candidate>) returns (out: seq<MappedService>)
    requires forall slug :: slug in best ==> best[slug].slug == slug
    ensures BySlug(out)
    ensures forall slug, id :: Has(out, slug, id) <==> slug in best && best[slug].providerId == id
  {
    out := [];
    var rest := best.Keys;
    while rest != {}
      invariant rest <= best.Keys && BySlug(out)
      invariant forall slug, id :: Has(out, slug, id) <==> slug in best.Keys - rest && best[slug].providerId == id
    {
      var slug :| slug in rest;
      var s := MappedService(slug, best[slug].providerId);
      forall i | 0 <= i < |out| ensures out[i].slug != slug {
        assert Has(out, out[i].slug, out[i].providerId);
      }
      InsertKeepsOrder(out, s);
      ghost var before := out;
      out := Insert(out, s);
      assert forall t, id :: Has(out, t, id) <==> Has(before, t, id) || MappedService(t, id) == s;
      rest := rest - {slug};
    }
  }

  function Insert(out: seq<MappedService>, s: MappedService): seq<MappedService> {
    if out == [] then [s]
    else if Before(s.slug, out[0].slug) then [s] + out
    else [out[0]] + Insert(out[1..], s)
  }

  lemma BeforeTransitive(s: string, t: string, u: string)
    requires Before(s, t) && !Before(u, t)
    ensures Before(s, u)
  {
    if !Before(s, u) {
      NotBeforeTransitive(s, u, t);
    }
  }

  lemma {:induction false} InsertKeepsOrder(out: seq<MappedService>, s: MappedService)
    requires BySlug(out) && forall i :: 0 <= i < |out| ==> out[i].slug != s.slug
    ensures BySlug(Insert(out, s))
    ensures forall t :: t in Insert(out, s) <==> t in out || t == s
  {
    if out != [] {
      if Before(s.slug, out[0].slug) {
        forall i | 0 <= i < |out| ensures Before(s.slug, out[i].slug) {
          if i > 0 {
            Asymmetric(out[0].slug, out[i].slug);
            BeforeTransitive(s.slug, out[0].slug, out[i].slug);
          }
        }
      } else {
        InsertKeepsOrder(out[1..], s);
        if !Before(out[0].slug, s.slug) { OneOrTheOther(out[0].slug, s.slug); }
        var tail := Insert(out[1..], s);
        forall i | 0 <= i < |tail| ensures Before(out[0].slug, tail[i].slug) {
          assert tail[i] in tail;
        }
      }
    }
  }

  // ---------------------------------------------------------------------
  // What is chosen
  // ---------------------------------------------------------------------

  /** Offer i is the first of those for a slug that nothing for the slug is better than. */
  ghost predicate FirstMinimum(cs: Offers, slug: string, i: nat) {
    && i < |cs| && For(cs[i], slug)
    && (forall j :: 0 <= j < |cs| && For(cs[j], slug) ==>
          cs[i].value.score < cs[j].value.score
          || (cs[i].value.score == cs[j].value.score && cs[i].value.number <= cs[j].value.number))
    && (forall j :: 0 <= j < i && For(cs[j], slug) ==>
          cs[i].value.score < cs[j].value.score
          || (cs[i].value.score == cs[j].value.score && cs[i].value.number < cs[j].value.number))
  }

  ghost predicate NoneFor(cs: Offers, slug: string) {
    forall j :: 0 <= j < |cs| ==> !For(cs[j], slug)
  }

  /**
   The loop's choice is the first lexicographic minimum of (name score, number), and there is one
   whenever any row maps to the slug.
   */
  lemma {:induction false} BestIsFirstMinimum(cs: Offers, slug: string) returns (i: nat)
    ensures Best(cs, slug).None? <==> NoneFor(cs, slug)
    ensures Best(cs, slug).Some? ==> FirstMinimum(cs, slug, i) && Best(cs, slug) == cs[i]
  {
    i := 0;
    if cs != [] {
      var n := |cs| - 1;
      var front := cs[..n];
      i := BestIsFirstMinimum(front, slug);
      assert cs == front + [cs[n]];
      if For(cs[n], slug) && (Best(front, slug).None? || Better(cs[n].value, Best(front, slug).value)) {
        i := n;
      }
    }
  }

  // ---------------------------------------------------------------------
  // Which row it is, by name and id
  // ---------------------------------------------------------------------

  function NameOf(row: Row): string {
    if row.name.Some? then row.name.value else ""
  }

  /** The word a name should be, or begin with: "twitter" for x, and the slug itself for any other. */
  function WordFor(slug: string): string {
    if slug == "x" then "twitter" else slug
  }

  predicate Exact(row: Row, slug: string) {
    Lower(NameOf(row)) == WordFor(slug)
  }

  predicate Begins(row: Row, slug: string) {
    |WordFor(slug)| <= |NameOf(row)| && Lower(NameOf(row))[..|WordFor(slug)|] == WordFor(slug)
  }

  /** The id comes from the upper-case field if it is there at all, else from the lower-case one. */
  predicate IsIdOf(row: Row, id: string) {
    match row.upperId
    case Some(v) => !v.Other? && v.text == id
    case None => row.lowerId.Some? && !row.lowerId.value.Other? && row.lowerId.value.text == id
  }

  /** A row is a candidate exactly when its name maps and it has an id that is not empty. */
  lemma ARowIsACandidateIff(row: Row, id: string)
    ensures IsIdOf(row, id) && id != "" && MapService(NameOf(row)).Some? ==>
      CandidateOf(row).Some? && CandidateOf(row).value.providerId == id
    ensures CandidateOf(row).Some? ==>
      && MapService(NameOf(row)) == Some(CandidateOf(row).value.slug)
      && IsIdOf(row, CandidateOf(row).value.providerId) && CandidateOf(row).value.providerId != ""
      && CandidateOf(row).value.number == IdNumber(CandidateOf(row).value.providerId)
  {
  }

  /**
   The row chosen for a slug has the exact name if any has, begins with the word if any does, and
   among its equals has the lowest number.
   */
  lemma {:induction false} BestNamesWin(rows: seq<Row>, slug: string) returns (i: nat)
    requires Best(Candidates(rows), slug).Some?
    ensures i < |rows| && Best(Candidates(rows), slug) == CandidateOf(rows[i])
    ensures IsIdOf(rows[i], Best(Candidates(rows), slug).value.providerId)
    ensures forall j :: 0 <= j < |rows| && For(CandidateOf(rows[j]), slug) ==>
      && (Exact(rows[j], slug) ==> Exact(rows[i], slug)) && (Begins(rows[j], slug) ==> Begins(rows[i], slug))
      && (Exact(rows[i], slug) == Exact(rows[j], slug) && Begins(rows[i], slug) == Begins(rows[j], slug) ==>
            IdNumber(CandidateOf(rows[i]).value.providerId) <= IdNumber(CandidateOf(rows[j]).value.providerId))
  {
    i := BestIsFirstMinimum(Candidates(rows), slug);
    forall j | 0 <= j < |rows| && For(CandidateOf(rows[j]), slug)
      ensures CandidateOf(rows[j]).value.score
           == if Exact(rows[j], slug) then 0 else if Begins(rows[j], slug) then 1 else 2
      ensures Exact(rows[j], slug) ==> Begins(rows[j], slug)
    {
    }
  }

  /** Decimal digits, without leading zeros. */
  function Decimal(n: nat): string {
    if n < 10 then [n as char + '0'] else Decimal(n / 10) + [(n % 10) as char + '0']
  }

  lemma {:induction false} DecimalReadsBack(n: nat)
    ensures Decimal(n) != "" && AllDigits(Decimal(n)) && DigitsValue(Decimal(n)) == n
  {
    if n >= 10 {
      DecimalReadsBack(n / 10);
      assert Decimal(n)[..|Decimal(n)| - 1] == Decimal(n / 10);
    } else {
      assert Decimal(n)[..0] == "";
    }
  }

  /** A printed number reads as itself, with or without a plus, and as the largest if it is wider than 64 bits. */
  lemma NumbersReadBack(n: nat)
    ensures IdNumber(Decimal(n)) == (if n < 0x1_0000_0000_0000_0000 then n else 0xFFFF_FFFF_FFFF_FFFF)
    ensures IdNumber("+" + Decimal(n)) == IdNumber(Decimal(n))
  {
    DecimalReadsBack(n);
    assert ("+" + Decimal(n))[1..] == Decimal(n);
  }

  predicate FirstFound(name: string, needles: seq<(string, string)>, k: int) {
    0 <= k < |needles| && Contains(name, needles[k].0) && forall j :: 0 <= j < k ==> !Contains(name, needles[j].0)
  }

  lemma {:induction false} FirstNeedleIs(name: string, needles: seq<(string, string)>)
    ensures FirstNeedle(name, needles).None? <==> forall k :: 0 <= k < |needles| ==> !Contains(name, needles[k].0)
    ensures FirstNeedle(name, needles).Some? ==>
      exists k :: FirstFound(name, needles, k) && FirstNeedle(name, needles) == Some(needles[k].1)
  {
    if needles != [] {
      FirstNeedleIs(name, needles[1..]);
      if Contains(name, needles[0].0) {
        assert FirstFound(name, needles, 0);
      } else if FirstNeedle(name, needles[1..]).Some? {
        var k :| FirstFound(name, needles[1..], k) && FirstNeedle(name, needles[1..]) == Some(needles[1..][k].1);
        assert FirstFound(name, needles, k + 1);
      }
    }
  }

  /** The slug a text stands for: the first of these words that is in it. */
  predicate StandsFor(text: string, slug: Option<string>) {
    slug == if Contains(text, "whatsapp") then Some("whatsapp")
            else if Contains(text, "telegram") then Some("telegram")
            else if Contains(text, "instagram") then Some("instagram")
            else if Contains(text, "facebook") then Some("facebook")
            else if Contains(text, "tiktok") then Some("tiktok")
            else if Contains(text, "google") then Some("google")
            else if Contains(text, "twitter") || Contains(text, "x.com") then Some("x")
            else if Contains(text, "discord") then Some("discord")
            else if Contains(text, "apple") then Some("apple")
            else if Contains(text, "uber") then Some("uber")
            else if Contains(text, "tinder") then Some("tinder")
            else if Contains(text, "amazon") then Some("amazon")
            else None
  }

  /** A name maps to the slug of the first word found in it, in any case. */
  lemma {:induction false} NamesMapByWords(name: string, other: string)
    ensures StandsFor(Lower(name), MapService(name))
    ensures SameButCase(name, other) ==> MapService(name) == MapService(other)
  {
    LowerForgetsCase(name, other);
    FirstTwelve(Lower(name));
  }

  lemma {:induction false} FromNeedle(text: string, k: nat)
    requires k < |NEEDLES|
    ensures FirstNeedle(text, NEEDLES[k..])
         == if Contains(text, NEEDLES[k].0) then Some(NEEDLES[k].1) else FirstNeedle(text, NEEDLES[k + 1..])
  {
    assert NEEDLES[k..][1..] == NEEDLES[k + 1..];
  }

  lemma {:induction false} FirstTwelve(text: string)
    ensures StandsFor(text, FirstNeedle(text, NEEDLES))
  {
    assert NEEDLES[0..] == NEEDLES && FirstNeedle(text, NEEDLES[13..]) == None;
    FromNeedle(text, 0);
    FromNeedle(text, 1);
    FromNeedle(text, 2);
    FromNeedle(text, 3);
    FromNeedle(text, 4);
    FromNeedle(text, 5);
    FromNeedle(text, 6);
    FromNeedle(text, 7);
    FromNeedle(text, 8);
    FromNeedle(text, 9);
    FromNeedle(text, 10);
    FromNeedle(text, 11);
    FromNeedle(text, 12);
  }

  /** The result is a function of the rows. */
  lemma {:induction false} SelectionIsUnique(a: seq<MappedService>, b: seq<MappedService>)
    requires BySlug(a) && BySlug(b) && forall s :: s in a <==> s in b
    ensures a == b
    decreases |a|
  {
    assert b != [] ==> b[0] in a;
    if a != [] {
      assert a[0] in b;
      if a[0] != b[0] {
        var i :| 0 <= i < |b| && b[i] == a[0];
        var j :| 0 <= j < |a| && a[j] == b[0];
        Asymmetric(b[0].slug, b[i].slug);
      }
      forall s ensures s in a[1..] <==> s in b[1..] {
        Irreflexive(a[0].slug);
        assert s in a <==> s == a[0] || s in a[1..];
        assert s in b <==> s == b[0] || s in b[1..];
      }
      SelectionIsUnique(a[1..], b[1..]);
      assert a == [a[0]] + a[1..] && b == [b[0]] + b[1..];
    }
  }

  /** An offer that no offer for its slug is better than. */
  ghost predicate Unbeaten(cs: Offers, i: nat) {
    && i < |cs| && cs[i].Some?
    && forall j :: 0 <= j < |cs| && For(cs[j], cs[i].value.slug) ==> !Better(cs[j].value, cs[i].value)
  }

  /** For each slug, the offers that nothing beats carry one id. */
  ghost predicate MinimaAgree(cs: Offers) {
    forall i: nat, j: nat :: Unbeaten(cs, i) && Unbeaten(cs, j) && cs[i].value.slug == cs[j].value.slug ==>
      cs[i].value.providerId == cs[j].value.providerId
  }

  ghost predicate DistinctNumbers(cs: Offers) {
    forall i, j :: 0 <= i < j < |cs| && cs[i].Some? && cs[j].Some? ==> cs[i].value.number != cs[j].value.number
  }

  /** Distinct numbers never tie. */
  lemma {:induction false} DistinctNumbersAgree(cs: Offers)
    requires DistinctNumbers(cs)
    ensures MinimaAgree(cs)
  {
    forall i: nat, j: nat | Unbeaten(cs, i) && Unbeaten(cs, j) && cs[i].value.slug == cs[j].value.slug
      ensures cs[i].value.providerId == cs[j].value.providerId
    {
      NumbersDiffer(cs, i, j);
      NumbersDiffer(cs, j, i);
    }
  }

  lemma NumbersDiffer(cs: Offers, i: nat, j: nat)
    requires DistinctNumbers(cs) && i < |cs| && j < |cs| && cs[i].Some? && cs[j].Some?
    ensures i < j ==> cs[i].value.number != cs[j].value.number
  {
  }

  ghost predicate SameOffers(a: Offers, b: Offers) {
    forall c :: c in a <==> c in b
  }

  /** The chosen id of a slug does not change when the offers are listed in another order. */
  lemma {:induction false} ChoiceIsPermutable(a: Offers, b: Offers, slug: string, id: string)
    requires SameOffers(a, b) && MinimaAgree(a)
    ensures Chooses(Best(a, slug), id) <==> Chooses(Best(b, slug), id)
  {
    var i := BestIsFirstMinimum(a, slug);
    var j := BestIsFirstMinimum(b, slug);
    assert j < |b| ==> b[j] in a;
    if Best(a, slug).Some? {
      assert a[i] in b;
      var j' :| 0 <= j' < |a| && a[j'] == b[j];
      assert Unbeaten(a, i);
      assert forall k :: 0 <= k < |a| ==> a[k] in b;
      assert Unbeaten(a, j');
    }
  }

  lemma {:induction false} PermutedOffers(a: seq<Row>, b: seq<Row>)
    requires multiset(a) == multiset(b)
    ensures SameOffers(Candidates(a), Candidates(b))
  {
    OffersWithin(a, b);
    OffersWithin(b, a);
  }

  lemma OffersWithin(a: seq<Row>, b: seq<Row>)
    requires multiset(a) == multiset(b)
    ensures forall c :: c in Candidates(a) ==> c in Candidates(b)
  {
    forall c | c in Candidates(a) ensures c in Candidates(b) {
      var i :| 0 <= i < |a| && Candidates(a)[i] == c;
      assert a[i] in multiset(b);
      var j :| 0 <= j < |b| && b[j] == a[i];
      assert Candidates(b)[j] == c;
    }
  }

  /** Listed in any other order, the supplier's services lead to the same selection. */
  ghost predicate OrderIndependent(rows: seq<Row>) {
    forall b: seq<Row>, x, y :: multiset(b) == multiset(rows) && Selection(rows, x) && Selection(b, y) ==> x == y
  }

  /** Enough for it: for each slug, the candidates that nothing beats carry one id. */
  lemma {:induction false} OrderDoesNotMatter(a: seq<Row>, b: seq<Row>, x: seq<MappedService>, y: seq<MappedService>)
    requires multiset(a) == multiset(b) && MinimaAgree(Candidates(a))
    requires Selection(a, x) && Selection(b, y)
    ensures x == y
  {
    PermutedOffers(a, b);
    forall s: MappedService ensures s in x <==> s in y {
      ChoiceIsPermutable(Candidates(a), Candidates(b), s.slug, s.providerId);
      assert Has(x, s.slug, s.providerId) <==> Has(y, s.slug, s.providerId);
    }
    SelectionIsUnique(x, y);
  }

  /** An unbeaten offer listed first is the one chosen. */
  lemma {:induction false} FirstIsChosen(c: Candidate, rest: Offers)
    requires forall j :: 0 <= j < |rest| && For(rest[j], c.slug) ==> !Better(rest[j].value, c)
    ensures Best([Some(c)] + rest, c.slug) == Some(c)
  {
    var all := [Some(c)] + rest;
    if rest == [] {
      assert all[..0] == [];
      assert Best([], c.slug) == None;
    } else {
      var n := |rest| - 1;
      assert all[..|all| - 1] == [Some(c)] + rest[..n];
      FirstIsChosen(c, rest[..n]);
    }
  }

  /** A listing of the same rows that starts with one of them. */
  function Fronted(rows: seq<Row>, i: nat): (r: seq<Row>)
    requires i < |rows|
    ensures multiset(r) == multiset(rows)
  {
    assert rows == rows[..i] + [rows[i]] + rows[i + 1..];
    [rows[i]] + (rows[..i] + rows[i + 1..])
  }

  /** A row whose candidate nothing beats is chosen for its slug when it is listed first. */
  lemma {:induction false} FrontedIsChosen(rows: seq<Row>, i: nat)
    requires Unbeaten(Candidates(rows), i)
    ensures Best(Candidates(Fronted(rows, i)), Candidates(rows)[i].value.slug) == Candidates(rows)[i]
  {
    var cs, c := Candidates(rows), Candidates(rows)[i].value;
    var rest := Candidates(rows[..i] + rows[i + 1..]);
    assert Candidates(Fronted(rows, i)) == [Some(c)] + rest;
    forall j | 0 <= j < |rest| && For(rest[j], c.slug) ensures !Better(rest[j].value, c) {
      assert rest[j] == cs[if j < i then j else j + 1];
    }
    FirstIsChosen(c, rest);
  }

  /**
   Where two candidates for a slug are unbeaten and carry different ids, the selection follows
   the order: listing one of them first sells that one.
   */
  lemma {:induction false} TiesFollowTheOrder(rows: seq<Row>, i: nat, j: nat, x: seq<MappedService>,
                                              y: seq<MappedService>)
    requires var cs := Candidates(rows);
      && Unbeaten(cs, i) && Unbeaten(cs, j) && cs[i].value.slug == cs[j].value.slug
      && cs[i].value.providerId != cs[j].value.providerId
    requires Selection(Fronted(rows, i), x) && Selection(Fronted(rows, j), y)
    ensures x != y
  {
    var c := Candidates(rows)[i].value;
    FrontedIsChosen(rows, i);
    FrontedIsChosen(rows, j);
    assert Has(x, c.slug, c.providerId) && !Has(y, c.slug, c.providerId);
  }

  ghost predicate Occurs(cs: Offers, n: nat, slug: string) {
    exists k :: 0 <= k < n && k < |cs| && For(cs[k], slug)
  }

  /** One entry for each slug among the first n offers, the best of them all. */
  ghost predicate Covers(cs: Offers, n: nat, out: seq<MappedService>) {
    forall slug, id :: Has(out, slug, id) <==> Chooses(Best(cs, slug), id) && Occurs(cs, n, slug)
  }

  lemma {:induction false} OccursPush(cs: Offers, n: nat, slug: string)
    requires n < |cs|
    ensures Occurs(cs, n + 1, slug) <==> Occurs(cs, n, slug) || For(cs[n], slug)
  {
  }

  lemma {:induction false} CoverSlug(cs: Offers, n: nat, out: seq<MappedService>, slug: string, id: string)
    returns (more: seq<MappedService>)
    requires BySlug(out) && Covers(cs, n, out) && !Occurs(cs, n, slug)
    ensures BySlug(more) && forall t :: t in more <==> t in out || t == MappedService(slug, id)
  {
    forall k | 0 <= k < |out| ensures out[k].slug != slug {
      assert Has(out, out[k].slug, out[k].providerId);
    }
    InsertKeepsOrder(out, MappedService(slug, id));
    more := Insert(out, MappedService(slug, id));
  }

  lemma {:induction false} SelectionUpTo(cs: Offers, n: nat) returns (out: seq<MappedService>)
    requires n <= |cs|
    ensures BySlug(out) && Covers(cs, n, out)
  {
    if n == 0 {
      out := [];
    } else {
      var front := SelectionUpTo(cs, n - 1);
      forall slug: string ensures Occurs(cs, n, slug) <==> Occurs(cs, n - 1, slug) || For(cs[n - 1], slug) {
        OccursPush(cs, n - 1, slug);
      }
      out := front;
      if cs[n - 1].Some? && !Occurs(cs, n - 1, cs[n - 1].value.slug) {
        var slug := cs[n - 1].value.slug;
        var _ := BestIsFirstMinimum(cs, slug);
        out := CoverSlug(cs, n - 1, front, slug, Best(cs, slug).value.providerId);
      }
    }
  }

  /** Every list has its selection. */
  lemma {:induction false} SelectionExists(rows: seq<Row>) returns (out: seq<MappedService>)
    ensures Selection(rows, out)
  {
    var cs := Candidates(rows);
    out := SelectionUpTo(cs, |cs|);
    forall slug: string ensures Best(cs, slug).Some? ==> Occurs(cs, |cs|, slug) {
      var k := BestIsFirstMinimum(cs, slug);
      assert Best(cs, slug).Some? ==> For(cs[k], slug);
    }
  }

  /**
   The order in which a supplier lists its services makes no difference exactly when, for
   each slug, all candidates that nothing beats carry one id.
   */
  lemma {:induction false} OrderIndependentIff(rows: seq<Row>)
    ensures OrderIndependent(rows) <==> MinimaAgree(Candidates(rows))
  {
    var cs := Candidates(rows);
    if MinimaAgree(cs) {
      forall b: seq<Row>, x, y | multiset(b) == multiset(rows) && Selection(rows, x) && Selection(b, y) ensures x == y {
        OrderDoesNotMatter(rows, b, x, y);
      }
    } else {
      var i: nat, j: nat :| Unbeaten(cs, i) && Unbeaten(cs, j) && cs[i].value.slug == cs[j].value.slug
                            && cs[i].value.providerId != cs[j].value.providerId;
      var out := SelectionExists(rows);
      var x := SelectionExists(Fronted(rows, i));
      var y := SelectionExists(Fronted(rows, j));
      TiesFollowTheOrder(rows, i, j, x, y);
      assert out != x || out != y;
    }
  }
}
