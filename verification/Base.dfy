/** Names shared by every module: optional values, outcomes, identifiers, and the order of strings. */
module Base {

  datatype Option<+T> = None | Some(value: T)

  datatype Result<+T, +E> = Ok(value: T) | Err(error: E)

  /** Naira. Exact decimal arithmetic; no rounding happens on the paths modelled here. */
  type Naira = real

  predicate IsHexDigit(c: char) {
    '0' <= c <= '9' || 'a' <= c <= 'f'
  }

  /** The hyphenated lower-case form a UUID prints as: 36 characters, dashes at 8, 13, 18 and 23. */
  predicate IsUuid(s: string) {
    |s| == 36 && forall i :: 0 <= i < 36 ==>
      if i == 8 || i == 13 || i == 18 || i == 23 then s[i] == '-' else IsHexDigit(s[i])
  }

  type Uuid = s: string | IsUuid(s) witness "00000000-0000-0000-0000-000000000000"

  /** Two concatenations agree and so do the lengths of their first parts: both parts agree. */
  lemma SplitEqual(a: string, b: string, c: string, d: string)
    requires a + b == c + d && |a| == |c|
    ensures a == c && b == d
  {
    assert a == (a + b)[..|a|] && c == (c + d)[..|c|];
    assert b == (a + b)[|a|..] && d == (c + d)[|c|..];
  }

  /** The characters trimmed from the ends of a text: Unicode's White_Space. */
  predicate IsSpace(c: char) {
    var n := c as int;
    || 0x09 <= n <= 0x0D || n == 0x20 || n == 0x85 || n == 0xA0 || n == 0x1680 || 0x2000 <= n <= 0x200A
    || n == 0x2028 || n == 0x2029 || n == 0x202F || n == 0x205F || n == 0x3000
  }

  /** The twenty-five code points of White_Space, one by one. */
  lemma SpacesAre(c: char)
    ensures IsSpace(c) <==> c as int in {
      0x09, 0x0A, 0x0B, 0x0C, 0x0D, 0x20, 0x85, 0xA0, 0x1680,
      0x2000, 0x2001, 0x2002, 0x2003, 0x2004, 0x2005, 0x2006, 0x2007, 0x2008, 0x2009, 0x200A,
      0x2028, 0x2029, 0x202F, 0x205F, 0x3000}
  {
  }

  /** Character-by-character order, a proper prefix coming first: how strings compare. */
  predicate Before(s: string, t: string) {
    if t == "" then false
    else if s == "" then true
    else s[0] < t[0] || (s[0] == t[0] && Before(s[1..], t[1..]))
  }

  lemma {:induction false} Irreflexive(s: string)
    ensures !Before(s, s)
  {
    if s != "" { Irreflexive(s[1..]); }
  }

  lemma {:induction false} Asymmetric(s: string, t: string)
    requires Before(s, t)
    ensures !Before(t, s)
  {
    if s != "" && t != "" && s[0] == t[0] { Asymmetric(s[1..], t[1..]); }
  }

  lemma {:induction false} NotBeforeTransitive(s: string, t: string, u: string)
    requires !Before(s, t) && !Before(t, u)
    ensures !Before(s, u)
  {
    if s != "" && t != "" && u != "" && s[0] == t[0] == u[0] { NotBeforeTransitive(s[1..], t[1..], u[1..]); }
  }

  lemma {:induction false} OneOrTheOther(s: string, t: string)
    requires !Before(s, t) && !Before(t, s)
    ensures s == t
  {
    if s != "" && t != "" {
      OneOrTheOther(s[1..], t[1..]);
      assert s == [s[0]] + s[1..] && t == [t[0]] + t[1..];
    }
  }

  // ---------------------------------------------------------------------
  // Letter case, of the 26 letters
  // ---------------------------------------------------------------------

  function Upper(s: string): string {
    seq(|s|, i requires 0 <= i < |s| => if 'a' <= s[i] <= 'z' then s[i] - 32 as char else s[i])
  }

  function Lower(s: string): string {
    seq(|s|, i requires 0 <= i < |s| => if 'A' <= s[i] <= 'Z' then s[i] + 32 as char else s[i])
  }

  predicate SameLetter(c: char, d: char) {
    || c == d
    || ('a' <= c <= 'z' && 'A' <= d <= 'Z' && c as int - 'a' as int == d as int - 'A' as int)
    || ('A' <= c <= 'Z' && 'a' <= d <= 'z' && c as int - 'A' as int == d as int - 'a' as int)
  }

  predicate SameButCase(s: string, t: string) {
    |s| == |t| && forall i :: 0 <= i < |s| ==> SameLetter(s[i], t[i])
  }

  /** Two texts have one upper-case form exactly when they differ in case alone, and it has no small letters. */
  lemma UpperForgetsCase(s: string, t: string)
    ensures Upper(s) == Upper(t) <==> SameButCase(s, t)
    ensures SameButCase(s, Upper(s)) && forall i :: 0 <= i < |s| ==> !('a' <= Upper(s)[i] <= 'z')
  {
    if Upper(s) == Upper(t) {
      forall i | 0 <= i < |s| ensures SameLetter(s[i], t[i]) {
        assert Upper(s)[i] == Upper(t)[i];
      }
    }
  }

  /** So with the lower-case form, which has no capitals. */
  lemma LowerForgetsCase(s: string, t: string)
    ensures Lower(s) == Lower(t) <==> SameButCase(s, t)
    ensures SameButCase(s, Lower(s)) && forall i :: 0 <= i < |s| ==> !('A' <= Lower(s)[i] <= 'Z')
  {
    if Lower(s) == Lower(t) {
      forall i | 0 <= i < |s| ensures SameLetter(s[i], t[i]) {
        assert Lower(s)[i] == Lower(t)[i];
      }
    }
  }
}
