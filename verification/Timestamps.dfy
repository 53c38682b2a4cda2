/**
 UTC instants and the RFC 3339 text they print as. The fraction is printed with
 0, 3, 6 or 9 digits, so two texts need not have the same length; comparing the
 texts character by character still orders the instants, because '+' < '.' < '0'.
 */
module Timestamps {
  import opened Base

  // ---------------------------------------------------------------------
  // Calendar
  // ---------------------------------------------------------------------

  predicate Leap(y: nat) {
    y % 4 == 0 && (y % 100 != 0 || y % 400 == 0)
  }

  function YearLength(y: nat): nat {
    if Leap(y) then 366 else 365
  }

  function MonthLength(y: nat, m: nat): nat
    requires 1 <= m <= 12
  {
    if m == 2 then (if Leap(y) then 29 else 28)
    else if m == 4 || m == 6 || m == 9 || m == 11 then 30
    else 31
  }

  /** Days before the first of January of a year, counted from year 0. */
  function DaysBeforeYear(y: nat): nat {
    if y == 0 then 0 else DaysBeforeYear(y - 1) + YearLength(y - 1)
  }

  function DaysBeforeMonth(y: nat, m: nat): nat
    requires 1 <= m <= 13
  {
    if m == 1 then 0 else DaysBeforeMonth(y, m - 1) + MonthLength(y, m - 1)
  }

  datatype Civil = Civil(year: nat, month: nat, day: nat, hour: nat, minute: nat, second: nat, nano: nat)

  /** A moment of the years 0000 to 9999, without leap seconds. */
  predicate ValidCivil(c: Civil) {
    && c.year <= 9999
    && 1 <= c.month <= 12
    && 1 <= c.day <= MonthLength(c.year, c.month)
    && c.hour < 24 && c.minute < 60 && c.second < 60 && c.nano < 1_000_000_000
  }

  type Moment = c: Civil | ValidCivil(c) witness Civil(0, 1, 1, 0, 0, 0, 0)

  function Day(c: Moment): nat {
    DaysBeforeYear(c.year) + DaysBeforeMonth(c.year, c.month) + (c.day - 1)
  }

  /** Nanoseconds since the start of year 0. */
  function Instant(c: Moment): nat {
    (((Day(c) * 24 + c.hour) * 60 + c.minute) * 60 + c.second) * 1_000_000_000 + c.nano
  }

  // ---------------------------------------------------------------------
  // Text
  // ---------------------------------------------------------------------

  function Digit(n: nat): char
    requires n < 10
  {
    '0' + n as char
  }

  /** The last k decimal digits of n. */
  function Digits(n: nat, k: nat): string {
    if k == 0 then "" else Digits(n / 10, k - 1) + [Digit(n % 10)]
  }

  /** As few of 0, 3, 6 and 9 digits as hold the nanoseconds exactly. */
  function Fraction(nano: nat): string {
    if nano == 0 then ""
    else if nano % 1_000_000 == 0 then "." + Digits(nano / 1_000_000, 3)
    else if nano % 1_000 == 0 then "." + Digits(nano / 1_000, 6)
    else "." + Digits(nano, 9)
  }

  function ToRfc3339(c: Moment): string {
    Digits(c.year, 4) + "-" + Digits(c.month, 2) + "-" + Digits(c.day, 2)
    + "T" + Digits(c.hour, 2) + ":" + Digits(c.minute, 2) + ":" + Digits(c.second, 2)
    + Fraction(c.nano) + "+00:00"
  }

  lemma {:induction false} DigitsAre(n: nat, k: nat)
    ensures |Digits(n, k)| == k && forall i :: 0 <= i < k ==> '0' <= Digits(n, k)[i] <= '9'
  {
    if k > 0 { DigitsAre(n / 10, k - 1); }
  }

  lemma {:induction false} Joined(y: string, m: string, d: string, h: string, n: string, s: string, tail: string)
    requires |y| == 4 && |m| == |d| == |h| == |n| == |s| == 2
    ensures var t := y + "-" + m + "-" + d + "T" + h + ":" + n + ":" + s + tail;
      && |t| == 19 + |tail| && t[19..] == tail
      && t[4] == '-' && t[7] == '-' && t[10] == 'T' && t[13] == ':' && t[16] == ':'
      && t[..4] == y && t[5..7] == m && t[8..10] == d && t[11..13] == h && t[14..16] == n && t[17..19] == s
  {
    var a := y + "-" + m + "-" + d;
    var b := h + ":" + n + ":" + s;
    var t := y + "-" + m + "-" + d + "T" + h + ":" + n + ":" + s + tail;
    assert |a| == 10 && a[..4] == y && a[5..7] == m && a[8..10] == d;
    assert |b| == 8 && b[..2] == h && b[3..5] == n && b[6..8] == s;
    assert t == a + ("T" + (b + tail));
    assert t[..10] == a && t[11..19] == b;
    assert t[..4] == a[..4] && t[5..7] == a[5..7] && t[8..10] == a[8..10];
    assert t[11..13] == b[..2] && t[14..16] == b[3..5] && t[17..19] == b[6..8];
  }

  lemma {:induction false} FractionLooks(nano: nat)
    requires nano < 1_000_000_000
    ensures (Fraction(nano) == "" <==> nano == 0) && (nano != 0 ==> Fraction(nano)[0] == '.')
  {
  }

  /** The shape of section 5.6 of RFC 3339: date, T, time, a fraction if there is one, and the offset of UTC. */
  lemma {:induction false} TextIsRfc3339(c: Moment)
    ensures var s := ToRfc3339(c);
      && |s| >= 25 && s[4] == '-' && s[7] == '-' && s[10] == 'T' && s[13] == ':' && s[16] == ':'
      && s[..4] == Digits(c.year, 4) && s[5..7] == Digits(c.month, 2) && s[8..10] == Digits(c.day, 2)
      && s[11..13] == Digits(c.hour, 2) && s[14..16] == Digits(c.minute, 2) && s[17..19] == Digits(c.second, 2)
      && s[19..] == Fraction(c.nano) + "+00:00" && (c.nano != 0 ==> s[19] == '.')
  {
    DigitsAre(c.year, 4);
    DigitsAre(c.month, 2);
    DigitsAre(c.day, 2);
    DigitsAre(c.hour, 2);
    DigitsAre(c.minute, 2);
    DigitsAre(c.second, 2);
    FractionLooks(c.nano);
    var y, m, d := Digits(c.year, 4), Digits(c.month, 2), Digits(c.day, 2);
    var h, n, s := Digits(c.hour, 2), Digits(c.minute, 2), Digits(c.second, 2);
    var tail := Fraction(c.nano) + "+00:00";
    Joined(y, m, d, h, n, s, tail);
    assert ToRfc3339(c) == y + "-" + m + "-" + d + "T" + h + ":" + n + ":" + s + tail;
  }

  // ---------------------------------------------------------------------
  // Comparing text piece by piece
  // ---------------------------------------------------------------------

  lemma BeforeCons(c: char, x: string, d: char, y: string)
    ensures Before([c] + x, [d] + y) <==> c < d || (c == d && Before(x, y))
  {
    assert ([c] + x)[1..] == x && ([d] + y)[1..] == y;
  }

  function Pow10(k: nat): nat {
    if k == 0 then 1 else 10 * Pow10(k - 1)
  }

  lemma {:induction false} BeforeDigits(n: nat, x: string, m: nat, y: string, k: nat)
    requires n < Pow10(k) && m < Pow10(k)
    ensures Before(Digits(n, k) + x, Digits(m, k) + y) <==> n < m || (n == m && Before(x, y))
    decreases k
  {
    if k == 0 {
      assert Digits(n, 0) + x == x && Digits(m, 0) + y == y;
    } else {
      var c, d := Digit(n % 10), Digit(m % 10);
      assert Digits(n, k) + x == Digits(n / 10, k - 1) + ([c] + x);
      assert Digits(m, k) + y == Digits(m / 10, k - 1) + ([d] + y);
      BeforeDigits(n / 10, [c] + x, m / 10, [d] + y, k - 1);
      BeforeCons(c, x, d, y);
    }
  }

  /** A fixed-width field and the separator after it. */
  lemma BeforeField(n: nat, c: char, x: string, m: nat, y: string, k: nat)
    requires n < Pow10(k) && m < Pow10(k)
    ensures Before(Digits(n, k) + ([c] + x), Digits(m, k) + ([c] + y)) <==> n < m || (n == m && Before(x, y))
  {
    BeforeDigits(n, [c] + x, m, [c] + y, k);
    BeforeCons(c, x, c, y);
  }

  lemma Widths()
    ensures Pow10(2) == 100 && Pow10(3) == 1_000 && Pow10(4) == 10_000
  {
    assert Pow10(1) == 10 && Pow10(2) == 100 && Pow10(3) == 1_000;
  }

  // ---------------------------------------------------------------------
  // The fraction
  // ---------------------------------------------------------------------

  const OFFSET := "+00:00"

  /** One more digit on the right. */
  lemma OneDigit(n: nat, k: nat)
    ensures Digits(n, k + 1) == Digits(n / 10, k) + [Digit(n % 10)]
  {
  }

  lemma SplitThree(n: nat, q: nat, r: nat, k: nat)
    requires n == 1_000 * q + r && r < 1_000
    ensures Digits(n, k + 3) == Digits(q, k) + Digits(r, 3)
  {
    var b, b' := n / 10 / 10, r / 10 / 10;
    OneDigit(n, k + 2);
    OneDigit(n / 10, k + 1);
    OneDigit(b, k);
    OneDigit(r, 2);
    OneDigit(r / 10, 1);
    OneDigit(b', 0);
    LastThree(n, q, r);
    assert Digits(0, 0) == "";
  }

  lemma LastThree(n: nat, q: nat, r: nat)
    requires n == 1_000 * q + r && r < 1_000
    ensures n % 10 == r % 10 && n / 10 % 10 == r / 10 % 10 && n / 10 / 10 % 10 == r / 10 / 10 % 10
    ensures n / 10 / 10 / 10 == q && r / 10 / 10 / 10 == 0
  {
    assert n / 10 == 100 * q + r / 10;
    assert n / 10 / 10 == 10 * q + r / 10 / 10;
  }

  predicate Group(n: nat) {
    n < 1_000
  }

  predicate Grouped(gs: seq<nat>) {
    forall i :: 0 <= i < |gs| ==> Group(gs[i])
  }

  predicate AllZero(gs: seq<nat>) {
    gs == [] || (gs[0] == 0 && AllZero(gs[1..]))
  }

  /** Groups of three digits, the trailing zero groups dropped. */
  function Groups(gs: seq<nat>): string {
    if AllZero(gs) then "" else Digits(gs[0], 3) + Groups(gs[1..])
  }

  predicate Lower(gs: seq<nat>, hs: seq<nat>)
    requires |gs| == |hs|
  {
    gs != [] && (gs[0] < hs[0] || (gs[0] == hs[0] && Lower(gs[1..], hs[1..])))
  }

  function Thirds(n: nat): (gs: seq<nat>)
    requires n < 1_000_000_000
    ensures Grouped(gs)
  {
    [n / 1_000_000, n / 1_000 % 1_000, n % 1_000]
  }

  lemma ThreeGroups(a: nat, b: nat, c: nat)
    ensures AllZero([a, b, c]) <==> a == 0 && b == 0 && c == 0
    ensures c != 0 ==> Groups([a, b, c]) == Digits(a, 3) + (Digits(b, 3) + Digits(c, 3))
    ensures c == 0 && b != 0 ==> Groups([a, b, c]) == Digits(a, 3) + Digits(b, 3)
    ensures c == 0 && b == 0 && a != 0 ==> Groups([a, b, c]) == Digits(a, 3)
  {
    assert [a, b, c][1..] == [b, c] && [b, c][1..] == [c] && [c][1..] == [];
    assert AllZero([]);
    assert AllZero([c]) <==> c == 0;
    assert AllZero([b, c]) <==> b == 0 && c == 0;
    assert Groups([]) == "";
    assert Groups([c]) == if c == 0 then "" else Digits(c, 3) + "";
  }

  lemma ThirdsAdd(n: nat, a: nat, b: nat, c: nat)
    requires a == n / 1_000_000 && b == n / 1_000 % 1_000 && c == n % 1_000
    ensures n / 1_000 == 1_000 * a + b && n == 1_000 * (n / 1_000) + c && n % 1_000_000 == 1_000 * b + c
  {
  }

  lemma NineDigits(n: nat, a: nat, b: nat, c: nat)
    requires a == n / 1_000_000 && b == n / 1_000 % 1_000 && c == n % 1_000
    ensures Digits(n, 9) == Digits(a, 3) + (Digits(b, 3) + Digits(c, 3))
    ensures Digits(n / 1_000, 6) == Digits(a, 3) + Digits(b, 3)
  {
    ThirdsAdd(n, a, b, c);
    SplitThree(n, n / 1_000, c, 6);
    SplitThree(n / 1_000, a, b, 3);
  }

  /** The three printed widths are one rule: groups of three until only zeros are left. */
  lemma FractionIsGroups(n: nat)
    requires 0 < n < 1_000_000_000
    ensures Fraction(n) == "." + Groups(Thirds(n))
  {
    var gs := Thirds(n);
    ThirdsAdd(n, gs[0], gs[1], gs[2]);
    NineDigits(n, gs[0], gs[1], gs[2]);
    ThreeGroups(gs[0], gs[1], gs[2]);
    assert gs == [gs[0], gs[1], gs[2]];
  }

  /** A group that is cut short meets the '+' of the offset, which sorts below every digit. */
  lemma CutShort(gs: seq<nat>)
    requires !AllZero(gs) && Grouped(gs)
    ensures Before(OFFSET, Groups(gs) + OFFSET) && !Before(Groups(gs) + OFFSET, OFFSET)
  {
    var q := gs[0];
    OneDigit(q, 2);
    OneDigit(q / 10, 1);
    OneDigit(q / 10 / 10, 0);
    assert Digits(q, 3)[0] == Digit(q / 10 / 10 % 10);
    assert (Groups(gs) + OFFSET)[0] == Digits(q, 3)[0];
  }

  lemma {:induction false} ZeroIsLowest(gs: seq<nat>, hs: seq<nat>)
    requires |gs| == |hs| && AllZero(gs)
    ensures Lower(gs, hs) <==> !AllZero(hs)
    ensures !Lower(hs, gs)
  {
    if gs != [] { ZeroIsLowest(gs[1..], hs[1..]); }
  }

  lemma {:induction false} BeforeGroups(gs: seq<nat>, hs: seq<nat>)
    requires |gs| == |hs| && Grouped(gs) && Grouped(hs)
    ensures Before(Groups(gs) + OFFSET, Groups(hs) + OFFSET) <==> Lower(gs, hs)
  {
    if AllZero(gs) || AllZero(hs) {
      if AllZero(gs) { ZeroIsLowest(gs, hs); } else { CutShort(gs); }
      if AllZero(hs) { ZeroIsLowest(hs, gs); } else { CutShort(hs); }
      assert "" + OFFSET == OFFSET;
      Irreflexive(OFFSET);
    } else {
      Widths();
      var x, y := Groups(gs[1..]) + OFFSET, Groups(hs[1..]) + OFFSET;
      assert Groups(gs) + OFFSET == Digits(gs[0], 3) + x;
      assert Groups(hs) + OFFSET == Digits(hs[0], 3) + y;
      assert Group(gs[0]) && Group(hs[0]);
      BeforeDigits(gs[0], x, hs[0], y, 3);
      BeforeGroups(gs[1..], hs[1..]);
    }
  }

  lemma ThirdsOrder(n: nat, m: nat)
    requires n < 1_000_000_000 && m < 1_000_000_000
    ensures Lower(Thirds(n), Thirds(m)) <==> n < m
  {
    var a, b, c := n / 1_000_000, n / 1_000 % 1_000, n % 1_000;
    var a', b', c' := m / 1_000_000, m / 1_000 % 1_000, m % 1_000;
    assert n == 1_000_000 * a + 1_000 * b + c && m == 1_000_000 * a' + 1_000 * b' + c';
    assert !Lower([], []);
    assert [a, b, c][1..] == [b, c] && [b, c][1..] == [c] && [c][1..] == [];
    assert [a', b', c'][1..] == [b', c'] && [b', c'][1..] == [c'] && [c'][1..] == [];
    assert Lower([c], [c']) <==> c < c';
    assert Lower([b, c], [b', c']) <==> b < b' || (b == b' && c < c');
  }

  /** What follows the seconds, by groups. */
  function Tail(n: nat): string
    requires n < 1_000_000_000
  {
    if n == 0 then OFFSET else ['.'] + (Groups(Thirds(n)) + OFFSET)
  }

  lemma FractionIsTail(n: nat)
    requires n < 1_000_000_000
    ensures Fraction(n) + OFFSET == Tail(n)
  {
    if n == 0 {
      assert Fraction(n) == "";
    } else {
      FractionIsGroups(n);
    }
  }

  lemma BeforeTail(n: nat, m: nat)
    requires n < 1_000_000_000 && m < 1_000_000_000
    ensures Before(Tail(n), Tail(m)) <==> n < m
  {
    if n != 0 && m != 0 {
      BeforeCons('.', Groups(Thirds(n)) + OFFSET, '.', Groups(Thirds(m)) + OFFSET);
      BeforeGroups(Thirds(n), Thirds(m));
      ThirdsOrder(n, m);
    } else {
      Irreflexive(OFFSET);
      assert n != 0 ==> Tail(n)[0] == '.';
      assert m != 0 ==> Tail(m)[0] == '.';
    }
  }

  lemma BeforeFraction(n: nat, m: nat)
    requires n < 1_000_000_000 && m < 1_000_000_000
    ensures Before(Fraction(n) + OFFSET, Fraction(m) + OFFSET) <==> n < m
  {
    FractionIsTail(n);
    FractionIsTail(m);
    BeforeTail(n, m);
  }

  // ---------------------------------------------------------------------
  // The whole text
  // ---------------------------------------------------------------------

  /** Field-by-field order, from the year down. */
  predicate Earlier(a: Moment, b: Moment) {
    a.year < b.year || (a.year == b.year && EarlierInYear(a, b))
  }

  predicate EarlierInYear(a: Moment, b: Moment) {
    a.month < b.month || (a.month == b.month && (a.day < b.day || (a.day == b.day && EarlierInDay(a, b))))
  }

  predicate EarlierInDay(a: Moment, b: Moment) {
    a.hour < b.hour || (a.hour == b.hour && (a.minute < b.minute || (a.minute == b.minute && EarlierInMinute(a, b))))
  }

  predicate EarlierInMinute(a: Moment, b: Moment) {
    a.second < b.second || (a.second == b.second && a.nano < b.nano)
  }

  function Seconds(c: Moment): string {
    Digits(c.second, 2) + (Fraction(c.nano) + OFFSET)
  }

  function Clock(c: Moment): string {
    Digits(c.hour, 2) + ([':'] + (Digits(c.minute, 2) + ([':'] + Seconds(c))))
  }

  function MonthDay(c: Moment): string {
    Digits(c.month, 2) + (['-'] + (Digits(c.day, 2) + (['T'] + Clock(c))))
  }

  lemma Parts(c: Moment)
    ensures ToRfc3339(c) == Digits(c.year, 4) + (['-'] + MonthDay(c))
  {
  }

  lemma BeforeClock(a: Moment, b: Moment)
    ensures Before(Clock(a), Clock(b)) <==> EarlierInDay(a, b)
  {
    Widths();
    BeforeFraction(a.nano, b.nano);
    BeforeDigits(a.second, Fraction(a.nano) + OFFSET, b.second, Fraction(b.nano) + OFFSET, 2);
    BeforeField(a.minute, ':', Seconds(a), b.minute, Seconds(b), 2);
    BeforeField(a.hour, ':', Digits(a.minute, 2) + ([':'] + Seconds(a)),
                b.hour, Digits(b.minute, 2) + ([':'] + Seconds(b)), 2);
  }

  lemma BeforeIsEarlier(a: Moment, b: Moment)
    ensures Before(ToRfc3339(a), ToRfc3339(b)) <==> Earlier(a, b)
  {
    Widths();
    Parts(a);
    Parts(b);
    BeforeClock(a, b);
    BeforeField(a.day, 'T', Clock(a), b.day, Clock(b), 2);
    BeforeField(a.month, '-', Digits(a.day, 2) + (['T'] + Clock(a)),
                b.month, Digits(b.day, 2) + (['T'] + Clock(b)), 2);
    BeforeField(a.year, '-', MonthDay(a), b.year, MonthDay(b), 4);
  }

  // ---------------------------------------------------------------------
  // The calendar is in order
  // ---------------------------------------------------------------------

  lemma {:induction false} YearsAdd(y: nat, z: nat)
    requires y < z
    ensures DaysBeforeYear(y) + YearLength(y) <= DaysBeforeYear(z)
  {
    if y + 1 < z { YearsAdd(y, z - 1); }
  }

  lemma {:induction false} MonthsAdd(y: nat, m: nat, n: nat)
    requires 1 <= m < n <= 13
    ensures DaysBeforeMonth(y, m) + MonthLength(y, m) <= DaysBeforeMonth(y, n)
  {
    if m + 1 < n { MonthsAdd(y, m, n - 1); }
  }

  lemma TwelveMonths(y: nat)
    ensures DaysBeforeMonth(y, 13) == YearLength(y)
  {
    var february := MonthLength(y, 2);
    assert DaysBeforeMonth(y, 3) == 31 + february by { assert DaysBeforeMonth(y, 1) == 0; }
    assert DaysBeforeMonth(y, 5) == 92 + february;
    assert DaysBeforeMonth(y, 7) == 153 + february;
    assert DaysBeforeMonth(y, 9) == 215 + february;
    assert DaysBeforeMonth(y, 11) == 276 + february;
    assert DaysBeforeMonth(y, 13) == 337 + february;
  }

  lemma DayInYear(c: Moment)
    ensures Day(c) < DaysBeforeYear(c.year) + YearLength(c.year)
  {
    MonthsAdd(c.year, c.month, 13);
    TwelveMonths(c.year);
  }

  lemma DaysAreInOrder(a: Moment, b: Moment)
    requires a.year < b.year || (a.year == b.year && (a.month < b.month || (a.month == b.month && a.day < b.day)))
    ensures Day(a) < Day(b)
  {
    if a.year < b.year {
      DayInYear(a);
      YearsAdd(a.year, b.year);
    } else if a.month < b.month {
      MonthsAdd(a.year, a.month, b.month);
    }
  }

  lemma EarlierIsLess(a: Moment, b: Moment)
    ensures Earlier(a, b) ==> Instant(a) < Instant(b)
    ensures !Earlier(a, b) && !Earlier(b, a) ==> a == b
  {
    if a.year < b.year || (a.year == b.year && (a.month < b.month || (a.month == b.month && a.day < b.day))) {
      DaysAreInOrder(a, b);
    }
  }

  /** Comparing two printed timestamps as strings is comparing the instants. */
  lemma {:induction false} TextOrderIsTimeOrder(a: Moment, b: Moment)
    ensures Before(ToRfc3339(a), ToRfc3339(b)) <==> Instant(a) < Instant(b)
    ensures ToRfc3339(a) == ToRfc3339(b) <==> Instant(a) == Instant(b)
  {
    BeforeIsEarlier(a, b);
    BeforeIsEarlier(b, a);
    EarlierIsLess(a, b);
    EarlierIsLess(b, a);
    Irreflexive(ToRfc3339(a));
  }

  // ---------------------------------------------------------------------
  // Nothing is left out: every instant of the ten thousand years is some moment
  // ---------------------------------------------------------------------

  lemma {:induction false} EveryDayHasADate(day: nat) returns (y: nat, m: nat, d: nat)
    requires day < DaysBeforeYear(10_000)
    ensures y <= 9_999 && 1 <= m <= 12 && 1 <= d <= MonthLength(y, m)
    ensures DaysBeforeYear(y) + DaysBeforeMonth(y, m) + (d - 1) == day
  {
    if day == 0 {
      y, m, d := 0, 1, 1;
    } else {
      y, m, d := EveryDayHasADate(day - 1);
      if d < MonthLength(y, m) {
        d := d + 1;
      } else if m < 12 {
        m, d := m + 1, 1;
      } else {
        TwelveMonths(y);
        assert DaysBeforeYear(y + 1) == day;
        y, m, d := y + 1, 1, 1;
      }
    }
  }

  lemma EveryInstantIsAMoment(t: nat) returns (c: Moment)
    requires t < DaysBeforeYear(10_000) * 86_400_000_000_000
    ensures Instant(c) == t
  {
    var seconds := t / 1_000_000_000;
    var minutes := seconds / 60;
    var hours := minutes / 60;
    var y, m, d := EveryDayHasADate(hours / 24);
    c := Civil(y, m, d, hours % 24, minutes % 60, seconds % 60, t % 1_000_000_000);
  }
}
