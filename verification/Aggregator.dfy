/**
 Which supplier source an order is bought from: the published rate, pulled towards
 what the source's own recent orders delivered. The rule is written twice, once as
 a specification and once in the ranking query; here the two are compared, and the
 effect of deliveries and misses on the order of sources is worked out.
 */
module Aggregator {
  import opened Base
  import opened Catalogue

  const PRIOR_WEIGHT := 5.0
  const WINDOW_DAYS := 30
  const DAY := 86_400

  function Clamp(x: real): real {
    if x < 0.0 then 0.0 else if x > 1.0 then 1.0 else x
  }

  function Score(publishedPercent: real, attempts: int, delivered: int): real {
    var n, d := Positive(attempts) as real, Positive(delivered) as real;
    (d + PRIOR_WEIGHT * Clamp(publishedPercent / 100.0)) / (n + PRIOR_WEIGHT)
  }

  /** The expression the query ranks by. */
  function SqlScore(published: real, attempts: nat, delivered: nat): real {
    (delivered as real + PRIOR_WEIGHT * (published / 100.0)) / (attempts as real + PRIOR_WEIGHT)
  }

  // ---------------------------------------------------------------------
  // Fractions
  // ---------------------------------------------------------------------

  lemma QuotientBelow(x: real, y: real, s: real)
    requires y > 0.0
    ensures x / y < s <==> x < s * y
    ensures x / y > s <==> x > s * y
    ensures x / y == s <==> x == s * y
  {
    var q := x / y;
    assert q * y == x;
    if q < s { assert (s - q) * y > 0.0; }
    if q > s { assert (q - s) * y > 0.0; }
  }

  /** The query agrees with the specification exactly on the rates the price list lets in, the end 0 included. */
  lemma SqlScoreIsScoreIff(published: real, attempts: nat, delivered: nat)
    ensures SqlScore(published, attempts, delivered) == Score(published, attempts, delivered)
       <==> 0.0 <= published <= 100.0
  {
    var n := attempts as real + PRIOR_WEIGHT;
    var x := delivered as real + PRIOR_WEIGHT * (published / 100.0);
    var y := delivered as real + PRIOR_WEIGHT * Clamp(published / 100.0);
    QuotientBelow(x, n, y / n);
    assert y / n * n == y;
  }

  lemma ScoreIsAFraction(published: real, attempts: int, delivered: int)
    requires delivered <= attempts
    ensures 0.0 <= Score(published, attempts, delivered) <= 1.0
  {
    var n, d := Positive(attempts) as real, Positive(delivered) as real;
    var x := d + PRIOR_WEIGHT * Clamp(published / 100.0);
    QuotientBelow(x, n + PRIOR_WEIGHT, 0.0);
    QuotientBelow(x, n + PRIOR_WEIGHT, 1.0);
  }

  lemma Distributed(observed: real, slack: real, n: real)
    ensures (observed + slack) * (n + PRIOR_WEIGHT)
         == observed * n + observed * PRIOR_WEIGHT + slack * (n + PRIOR_WEIGHT)
    ensures (observed - slack) * (n + PRIOR_WEIGHT)
         == observed * n + observed * PRIOR_WEIGHT - slack * (n + PRIOR_WEIGHT)
  {
  }

  /** With n orders the score is off the observed rate by no more than W / (n + W). */
  lemma ScoreNearTheEvidence(published: real, attempts: nat, delivered: nat)
    requires delivered <= attempts && attempts > 0
    ensures var observed := delivered as real / attempts as real;
      var slack := 5.0 / (attempts as real + 5.0);
      observed - slack <= Score(published, attempts, delivered) <= observed + slack
  {
    var n, d := attempts as real, delivered as real;
    var m := n + PRIOR_WEIGHT;
    var observed, slack := d / n, PRIOR_WEIGHT / m;
    QuotientBelow(d, n, observed);
    QuotientBelow(PRIOR_WEIGHT, m, slack);
    QuotientBelow(d, n, 0.0);
    QuotientBelow(d, n, 1.0);
    Distributed(observed, slack, n);
    var x := d + PRIOR_WEIGHT * Clamp(published / 100.0);
    QuotientBelow(x, m, observed + slack);
    QuotientBelow(x, m, observed - slack);
  }

  lemma OneMoreOrder(x: real, m: real)
    requires m > 0.0
    ensures (x + 1.0) / (m + 1.0) > x / m <==> x / m < 1.0
    ensures (x + 1.0) / (m + 1.0) == x / m <==> x / m == 1.0
    ensures x / (m + 1.0) < x / m <==> x / m > 0.0
    ensures x / (m + 1.0) == x / m <==> x / m == 0.0
  {
    var now := x / m;
    assert now * m == x;
    assert now * (m + 1.0) == x + now;
    QuotientBelow(x + 1.0, m + 1.0, now);
    QuotientBelow(x, m + 1.0, now);
  }

  /**
   One more order that delivered raises a score that is not yet one; one more that did not lowers a
   score above zero.
   */
  lemma EvidenceMovesTheScore(published: real, attempts: nat, delivered: nat)
    requires delivered <= attempts
    ensures Score(published, attempts + 1, delivered + 1) >= Score(published, attempts, delivered)
    ensures Score(published, attempts + 1, delivered) <= Score(published, attempts, delivered)
    ensures Score(published, attempts + 1, delivered + 1) == Score(published, attempts, delivered)
      <==> Score(published, attempts, delivered) == 1.0
    ensures Score(published, attempts + 1, delivered) == Score(published, attempts, delivered)
      <==> Score(published, attempts, delivered) == 0.0
  {
    var m := attempts as real + PRIOR_WEIGHT;
    var x := delivered as real + PRIOR_WEIGHT * Clamp(published / 100.0);
    ScoreIsAFraction(published, attempts, delivered);
    assert (attempts + 1) as real + PRIOR_WEIGHT == m + 1.0;
    assert (delivered + 1) as real + PRIOR_WEIGHT * Clamp(published / 100.0) == x + 1.0;
    OneMoreOrder(x, m);
  }

  /**
   A source that never delivers is below a score after exactly more than W(p/s - 1) orders, p being
   its published fraction.
   */
  lemma NeverDelivering(published: real, attempts: nat, s: real)
    requires 0.0 < published <= 100.0 && s > 0.0
    ensures Score(published, attempts, 0) < s <==> attempts as real > 5.0 * (published / 100.0 / s - 1.0)
  {
    var p := published / 100.0;
    var m := attempts as real + PRIOR_WEIGHT;
    QuotientBelow(PRIOR_WEIGHT * p, m, s);
    assert Score(published, attempts, 0) == PRIOR_WEIGHT * p / m;
    var t := PRIOR_WEIGHT * p / s;
    QuotientBelow(PRIOR_WEIGHT * p, s, m);
    TimesQuotient(p, s);
    assert m * s == s * m;
  }

  lemma TimesQuotient(p: real, s: real)
    requires s > 0.0
    ensures PRIOR_WEIGHT * (p / s) == PRIOR_WEIGHT * p / s
  {
    var q := p / s;
    assert q * s == p;
    QuotientBelow(PRIOR_WEIGHT * p, s, PRIOR_WEIGHT * q);
    assert PRIOR_WEIGHT * q * s == PRIOR_WEIGHT * (q * s);
  }

  // ---------------------------------------------------------------------
  // Counting orders
  // ---------------------------------------------------------------------

  /** The columns of an order the ranking reads; the source is absent on orders older than those columns. */
  datatype Order = Order(source: Option<SourceKey>, phone: Option<string>, receivedAt: Option<int>, createdAt: int)

  predicate Counted(o: Order, k: SourceKey, now: int) {
    o.source == Some(k) && o.phone.Some? && o.createdAt > now - WINDOW_DAYS * DAY
  }

  function Attempts(orders: seq<Order>, k: SourceKey, now: int): nat {
    if orders == [] then 0
    else Attempts(orders[..|orders| - 1], k, now) + if Counted(orders[|orders| - 1], k, now) then 1 else 0
  }

  function Delivered(orders: seq<Order>, k: SourceKey, now: int): nat {
    if orders == [] then 0
    else
      var o := orders[|orders| - 1];
      Delivered(orders[..|orders| - 1], k, now) + if Counted(o, k, now) && o.receivedAt.Some? then 1 else 0
  }

  lemma {:induction false} DeliveredWithinAttempts(orders: seq<Order>, k: SourceKey, now: int)
    ensures Delivered(orders, k, now) <= Attempts(orders, k, now)
  {
    if orders != [] { DeliveredWithinAttempts(orders[..|orders| - 1], k, now); }
  }

  /**
   An order counts exactly when it was bought from the source, got a number, and is less than
   thirty days old; it was delivered when a code came as well.
   */
  lemma {:induction false} OneOrderCounts(orders: seq<Order>, o: Order, k: SourceKey, now: int)
    ensures var counts := o.source == Some(k) && o.phone != None && now - o.createdAt < 30 * 24 * 60 * 60;
      && Attempts(orders + [o], k, now) == Attempts(orders, k, now) + (if counts then 1 else 0)
      && Delivered(orders + [o], k, now)
         == Delivered(orders, k, now) + (if counts && o.receivedAt != None then 1 else 0)
    ensures Attempts([], k, now) == 0 && Delivered([], k, now) == 0
  {
    assert (orders + [o])[..|orders|] == orders;
  }

  // ---------------------------------------------------------------------
  // The ranking
  // ---------------------------------------------------------------------

  datatype Query = Query(
    sources: map<SourceKey, Source>, orders: seq<Order>, offer: OfferKey, enabled: set<string>, floor: real, now: int)

  predicate Eligible(q: Query, k: SourceKey) {
    && k in q.sources && q.sources[k].offer == q.offer
    && q.sources[k].stock > 0 && q.sources[k].rate > 0.0
    && k.provider in q.enabled
    && (q.floor == 0.0 || (q.sources[k].currency == "USD" && q.sources[k].cost >= q.floor))
  }

  function RankOf(q: Query, k: SourceKey): real
    requires k in q.sources
  {
    SqlScore(q.sources[k].rate, Attempts(q.orders, k, q.now), Delivered(q.orders, k, q.now))
  }

  /** `j` may stand before `k`: a higher score, or the same and cheaper, or the same and more in stock. */
  predicate NotAfter(q: Query, j: SourceKey, k: SourceKey) {
    && j in q.sources && k in q.sources
    && var (a, b) := (RankOf(q, j), RankOf(q, k));
    var (x, y) := (q.sources[j], q.sources[k]);
    a > b || (a == b && (x.cost < y.cost || (x.cost == y.cost && x.stock >= y.stock)))
  }

  /** A result of the query: every eligible source once, in an order that ties alone leave open. */
  ghost predicate Ranking(q: Query, list: seq<SourceKey>) {
    && (forall k :: k in list <==> Eligible(q, k))
    && (forall i, j :: 0 <= i < j < |list| ==> list[i] != list[j])
    && forall i, j :: 0 <= i < j < |list| ==> NotAfter(q, list[i], list[j])
  }

  /** Rates in the table passed the row check, so the query ranks by the specified score, a fraction. */
  lemma {:induction false} QueryRanksByScore(q: Query, k: SourceKey)
    requires k in q.sources && RateOk(q.sources[k].rate)
    ensures RankOf(q, k) == Score(q.sources[k].rate, Attempts(q.orders, k, q.now), Delivered(q.orders, k, q.now))
    ensures 0.0 <= RankOf(q, k) <= 1.0
  {
    DeliveredWithinAttempts(q.orders, k, q.now);
    SqlScoreIsScoreIff(q.sources[k].rate, Attempts(q.orders, k, q.now), Delivered(q.orders, k, q.now));
    ScoreIsAFraction(q.sources[k].rate, Attempts(q.orders, k, q.now), Delivered(q.orders, k, q.now));
  }

  lemma ListedInOrder(q: Query, list: seq<SourceKey>, i: nat, j: nat)
    requires Ranking(q, list) && i < |list| && j < |list|
    requires list[i] in q.sources && list[j] in q.sources
    ensures i < j ==> RankOf(q, list[i]) >= RankOf(q, list[j])
  {
    if i < j {
      assert NotAfter(q, list[i], list[j]);
    }
  }

  /** A source is listed exactly when it sells the offer, has stock and a rate, is enabled, and costs enough. */
  lemma IsListedIff(q: Query, list: seq<SourceKey>, k: SourceKey)
    requires Ranking(q, list)
    ensures k in list <==>
      && k in q.sources && k.provider in q.enabled
      && var s := q.sources[k];
         && s.offer == q.offer && s.stock >= 1 && s.rate > 0.0
         && (q.floor == 0.0 || (s.currency == "USD" && s.cost >= q.floor))
  {
  }

  /** Of two listed sources the better score stands first, then the cheaper, then the one with more stock. */
  lemma StandsInOrder(q: Query, list: seq<SourceKey>, i: nat, j: nat)
    requires Ranking(q, list) && i < j < |list| && list[i] in q.sources && list[j] in q.sources
    ensures var a, b := q.sources[list[i]], q.sources[list[j]];
      && RankOf(q, list[i]) >= RankOf(q, list[j])
      && (RankOf(q, list[i]) == RankOf(q, list[j]) ==> a.cost <= b.cost && (a.cost == b.cost ==> a.stock >= b.stock))
  {
    assert NotAfter(q, list[i], list[j]);
  }

  /** In the list, a better score always stands first, whatever the costs. */
  lemma BetterScoreFirst(q: Query, list: seq<SourceKey>, i: nat, j: nat)
    requires Ranking(q, list) && i < |list| && j < |list|
    requires list[i] in q.sources && list[j] in q.sources && RankOf(q, list[i]) > RankOf(q, list[j])
    ensures i < j
  {
    ListedInOrder(q, list, j, i);
  }

  /**
   However cheap, a source whose counted orders never delivered stands behind a rival
   once it has more than W(p/s - 1) of them, s being the rival's score; and before that
   many, it stands ahead of a rival it still outscores.
   */
  lemma {:induction false} DeadSourceFallsBehind(q: Query, list: seq<SourceKey>, dead: nat, rival: nat)
    requires Ranking(q, list) && dead < |list| && rival < |list|
    requires list[dead] in q.sources && list[rival] in q.sources
    requires RateOk(q.sources[list[dead]].rate)
    requires Delivered(q.orders, list[dead], q.now) == 0 && RankOf(q, list[rival]) > 0.0
    ensures var p := q.sources[list[dead]].rate / 100.0;
      var limit := 5.0 * (p / RankOf(q, list[rival]) - 1.0);
      var n := Attempts(q.orders, list[dead], q.now) as real;
      (n > limit ==> rival < dead) && (n < limit ==> dead < rival)
  {
    var k, s := list[dead], RankOf(q, list[rival]);
    var rate, n := q.sources[k].rate, Attempts(q.orders, k, q.now);
    QueryRanksByScore(q, k);
    NeverDelivering(rate, n, s);
    if RankOf(q, k) < s {
      BetterScoreFirst(q, list, rival, dead);
    } else if RankOf(q, k) > s {
      BetterScoreFirst(q, list, dead, rival);
    } else {
      TiesAreTheLimit(rate, n, s);
    }
  }

  lemma {:induction false} TiesAreTheLimit(published: real, attempts: nat, s: real)
    requires 0.0 < published <= 100.0 && s > 0.0 && Score(published, attempts, 0) == s
    ensures attempts as real == 5.0 * (published / 100.0 / s - 1.0)
  {
    var p := published / 100.0;
    var m := attempts as real + PRIOR_WEIGHT;
    QuotientBelow(PRIOR_WEIGHT * p, m, s);
    QuotientBelow(PRIOR_WEIGHT * p, s, m);
    TimesQuotient(p, s);
    assert m * s == s * m;
  }
}
