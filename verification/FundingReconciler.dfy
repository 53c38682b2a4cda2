/**
 The background sweep: settle the oldest pending top-ups, fifty at a time, then
 close out the ones past the window.
 */
module FundingReconciler {
  import opened Base
  import opened Ledger
  import opened Funding

  const BATCH: nat := 50

  predicate Eligible(i: Intent, now: int) {
    && i.status == Pending && i.provider == Paystack
    && i.createdAt < now - SETTLE_AFTER
    && i.createdAt > now - ABANDON_AFTER
  }

  function Count(intents: seq<Intent>, now: int): nat {
    if intents == [] then 0
    else Count(intents[..|intents| - 1], now) + (if Eligible(intents[|intents| - 1], now) then 1 else 0)
  }

  function Min(a: nat, b: nat): nat { if a < b then a else b }

  ghost predicate Distinct(rows: seq<nat>) {
    forall i, k :: 0 <= i < k < |rows| ==> rows[i] != rows[k]
  }

  /** What the query may return: the oldest eligible rows, oldest first, at most fifty, ties in any order. */
  ghost predicate IsBatch(intents: seq<Intent>, now: int, rows: seq<nat>) {
    && |rows| == Min(BATCH, Count(intents, now))
    && Distinct(rows)
    && (forall k :: 0 <= k < |rows| ==> rows[k] < |intents| && Eligible(intents[rows[k]], now))
    && (forall k, l :: 0 <= k < l < |rows| ==> intents[rows[k]].createdAt <= intents[rows[l]].createdAt)
    && (forall i, k :: 0 <= i < |intents| && Eligible(intents[i], now) && i !in rows && 0 <= k < |rows| ==>
          intents[rows[k]].createdAt <= intents[i].createdAt)
  }

  // ---------------------------------------------------------------------
  // Counting
  // ---------------------------------------------------------------------

  lemma {:induction false} CountUpdate(intents: seq<Intent>, now: int, id: nat, row: Intent)
    requires id < |intents|
    ensures Count(intents[id := row], now)
         == Count(intents, now) - (if Eligible(intents[id], now) then 1 else 0) + (if Eligible(row, now) then 1 else 0)
  {
    var n := |intents| - 1;
    if id == n {
      assert intents[id := row][..n] == intents[..n];
    } else {
      assert intents[id := row][..n] == intents[..n][id := row];
      CountUpdate(intents[..n], now, id, row);
    }
  }

  lemma {:induction false} CountAgrees(a: seq<Intent>, nowA: int, b: seq<Intent>, nowB: int)
    requires |a| == |b| && forall i :: 0 <= i < |a| ==> Eligible(a[i], nowA) == Eligible(b[i], nowB)
    ensures Count(a, nowA) == Count(b, nowB)
  {
    if a != [] {
      CountAgrees(a[..|a| - 1], nowA, b[..|b| - 1], nowB);
    }
  }

  /** If some eligible rows are left over, there is an oldest one among them. */
  lemma {:induction false} OldestLeft(intents: seq<Intent>, now: int, taken: set<nat>, upTo: nat)
    returns (oldest: Option<nat>)
    requires upTo <= |intents|
    ensures oldest.None? ==> forall i :: 0 <= i < upTo && Eligible(intents[i], now) ==> i in taken
    ensures oldest.Some? ==>
      && oldest.value < upTo && oldest.value !in taken && Eligible(intents[oldest.value], now)
      && forall i :: 0 <= i < upTo && Eligible(intents[i], now) && i !in taken ==>
           intents[oldest.value].createdAt <= intents[i].createdAt
  {
    if upTo == 0 {
      oldest := None;
    } else {
      var rest := OldestLeft(intents, now, taken, upTo - 1);
      var last := upTo - 1;
      oldest := rest;
      if Eligible(intents[last], now) && last !in taken
         && (rest.None? || intents[last].createdAt < intents[rest.value].createdAt) {
        oldest := Some(last);
      }
    }
  }

  ghost predicate AllEligible(intents: seq<Intent>, now: int, ids: set<nat>) {
    forall i :: i in ids <==> 0 <= i < |intents| && Eligible(intents[i], now)
  }

  /** Taking every eligible row takes exactly `Count` rows. */
  lemma {:induction false} CountIsCardinality(intents: seq<Intent>, now: int, ids: set<nat>)
    requires AllEligible(intents, now, ids)
    ensures |ids| == Count(intents, now)
  {
    if intents == [] {
      assert ids == {};
    } else {
      var n := |intents| - 1;
      var rest := ids - {n};
      assert forall i :: 0 <= i < n ==> intents[..n][i] == intents[i];
      assert AllEligible(intents[..n], now, rest);
      CountIsCardinality(intents[..n], now, rest);
      assert ids == if n in ids then rest + {n} else rest;
    }
  }

  lemma {:induction false} DistinctCardinality(rows: seq<nat>)
    requires Distinct(rows)
    ensures |set k | 0 <= k < |rows| :: rows[k]| == |rows|
  {
    if rows != [] {
      var n := |rows| - 1;
      DistinctCardinality(rows[..n]);
      assert (set k | 0 <= k < |rows| :: rows[k]) == (set k | 0 <= k < n :: rows[..n][k]) + {rows[n]};
      assert rows[n] !in (set k | 0 <= k < n :: rows[..n][k]);
    }
  }

  lemma AllTaken(intents: seq<Intent>, now: int, rows: seq<nat>)
    requires Distinct(rows)
    requires forall k :: 0 <= k < |rows| ==> rows[k] < |intents| && Eligible(intents[rows[k]], now)
    requires forall i :: 0 <= i < |intents| && Eligible(intents[i], now) ==> i in rows
    ensures |rows| == Count(intents, now)
  {
    DistinctCardinality(rows);
    CountIsCardinality(intents, now, set k | 0 <= k < |rows| :: rows[k]);
  }

  /** The query always has an answer. */
  lemma BatchExists(intents: seq<Intent>, now: int) returns (rows: seq<nat>)
    ensures IsBatch(intents, now, rows)
  {
    rows := [];
    var taken: set<nat> := {};
    while |rows| < Min(BATCH, Count(intents, now))
      invariant |rows| <= Min(BATCH, Count(intents, now))
      invariant Distinct(rows)
      invariant forall i :: i in taken <==> i in rows
      invariant forall k :: 0 <= k < |rows| ==> rows[k] < |intents| && Eligible(intents[rows[k]], now)
      invariant forall k, l :: 0 <= k < l < |rows| ==> intents[rows[k]].createdAt <= intents[rows[l]].createdAt
      invariant forall i, k :: 0 <= i < |intents| && Eligible(intents[i], now) && i !in rows && 0 <= k < |rows| ==>
                  intents[rows[k]].createdAt <= intents[i].createdAt
    {
      var next := OldestLeft(intents, now, taken, |intents|);
      if next.None? {
        AllTaken(intents, now, rows);
        assert false;
      }
      rows := rows + [next.value];
      taken := taken + {next.value};
    }
  }

  // ---------------------------------------------------------------------
  // One sweep
  // ---------------------------------------------------------------------

  /** The rows as the query read them: a row settles with the reference and owner read at the start. */
  function SettleAll(f: Funds, rows: seq<nat>, read: seq<Intent>, verdicts: seq<Verdict>): (r: Funds)
    requires |verdicts| == |rows|
    requires |read| <= |f.intents|
    requires forall k :: 0 <= k < |rows| ==> rows[k] < |read|
    ensures |r.intents| == |f.intents|
  {
    if rows == [] then f
    else
      var n := |rows| - 1;
      var row := read[rows[n]];
      Settle(SettleAll(f, rows[..n], read, verdicts[..n]), rows[n], row.user, row.reference, verdicts[n]).funds
  }

  /** The bulk abandonment reads the clock anew, after all the provider calls. */
  function AfterSweep(f: Funds, later: int, rows: seq<nat>, verdicts: seq<Verdict>): (r: Funds)
    requires |verdicts| == |rows|
    requires forall k :: 0 <= k < |rows| ==> rows[k] < |f.intents|
    ensures |r.intents| == |f.intents|
  {
    Abandon(SettleAll(f, rows, f.intents, verdicts), later)
  }

  lemma {:induction false} SettleAllPush(f: Funds, rows: seq<nat>, read: seq<Intent>, verdicts: seq<Verdict>, k: nat)
    requires k < |rows| == |verdicts| && |read| <= |f.intents|
    requires forall i :: 0 <= i < |rows| ==> rows[i] < |read|
    ensures SettleAll(f, rows[..k + 1], read, verdicts[..k + 1])
         == Settle(SettleAll(f, rows[..k], read, verdicts[..k]),
                   rows[k], read[rows[k]].user, read[rows[k]].reference, verdicts[k]).funds
  {
    assert rows[..k + 1][..k] == rows[..k] && verdicts[..k + 1][..k] == verdicts[..k];
  }

  class Reconciler {
    const store: FundingStore

    constructor (store: FundingStore)
      ensures this.store == store
    {
      this.store := store;
    }

    /** One undisturbed pass over the rows the query returned. */
    method RunSweep(now: int, later: int, rows: seq<nat>, verdicts: seq<Verdict>)
      requires |verdicts| == |rows| && now <= later
      requires IsBatch(store.intents, now, rows)
      modifies store
      ensures store.State() == AfterSweep(old(store.State()), later, rows, verdicts)
    {
      ghost var start := store.State();
      var read := store.intents;
      var k := 0;
      while k < |rows|
        invariant 0 <= k <= |rows|
        invariant |store.intents| == |read|
        invariant store.State() == SettleAll(start, rows[..k], read, verdicts[..k])
      {
        var row := read[rows[k]];
        var _ := store.SettleIntent(rows[k], row.user, row.reference, verdicts[k]);
        SettleAllPush(start, rows, read, verdicts, k);
        k := k + 1;
      }
      assert rows[..k] == rows && verdicts[..k] == verdicts;
      store.intents := Abandon(store.State(), later).intents;
    }
  }

  // ---------------------------------------------------------------------
  // What a sweep settles
  // ---------------------------------------------------------------------

  /** The provider has finished with a charge: it took money, or it refused. */
  predicate Finished(v: Verdict) {
    v.Answered? && (v.state.ChargeFailed? || (v.state.ChargeSucceeded? && v.state.amount > 0.0))
  }

  /** The status a finished charge leaves behind. */
  function Outcome(v: Verdict): Status
    requires Finished(v)
  {
    if v.state.ChargeFailed? then Failed else Succeeded
  }

  /** How many charges the provider had finished with. */
  function Finishes(verdicts: seq<Verdict>): nat {
    if verdicts == [] then 0
    else Finishes(verdicts[..|verdicts| - 1]) + if Finished(verdicts[|verdicts| - 1]) then 1 else 0
  }

  lemma {:induction false} FinishesAllIff(verdicts: seq<Verdict>)
    ensures Finishes(verdicts) <= |verdicts|
    ensures Finishes(verdicts) == |verdicts| <==> forall k :: 0 <= k < |verdicts| ==> Finished(verdicts[k])
  {
    if verdicts != [] {
      FinishesAllIff(verdicts[..|verdicts| - 1]);
    }
  }

  /** A pending row is closed by a finished charge and by nothing else. */
  lemma {:induction false} SettleFinishes(f: Funds, id: nat, user: Uuid, reference: string, v: Verdict)
    requires id < |f.intents| && f.intents[id].status == Pending
    ensures var g := Settle(f, id, user, reference, v).funds;
            && g.intents == f.intents[id := g.intents[id]]
            && (if Finished(v) then g.intents[id].status == Outcome(v) else g == f)
  {
    assert f.intents[id := f.intents[id]] == f.intents;
  }

  ghost predicate RowClosed(before: Intent, after: Intent, v: Verdict) {
    if Finished(v) then after.status == Outcome(v) else after == before
  }

  /** The finished charges of a batch are closed as the provider said; every other row is as it was. */
  ghost predicate Closed(before: seq<Intent>, after: seq<Intent>, rows: seq<nat>, verdicts: seq<Verdict>)
    requires |before| == |after| && |rows| == |verdicts|
  {
    && (forall i :: 0 <= i < |before| && i !in rows ==> after[i] == before[i])
    && (forall k :: 0 <= k < |rows| ==> rows[k] < |after| && RowClosed(before[rows[k]], after[rows[k]], verdicts[k]))
  }

  lemma {:induction false} ClosedPush(a: seq<Intent>, b: seq<Intent>, c: seq<Intent>, rows: seq<nat>,
                                      verdicts: seq<Verdict>)
    requires |a| == |b| == |c| && |rows| == |verdicts| && rows != [] && Distinct(rows)
    requires Closed(a, b, rows[..|rows| - 1], verdicts[..|rows| - 1])
    requires rows[|rows| - 1] < |b| && c == b[rows[|rows| - 1] := c[rows[|rows| - 1]]]
    requires RowClosed(a[rows[|rows| - 1]], c[rows[|rows| - 1]], verdicts[|rows| - 1])
    ensures Closed(a, c, rows, verdicts)
  {
    var n := |rows| - 1;
    forall k | 0 <= k < |rows|
      ensures rows[k] < |c| && RowClosed(a[rows[k]], c[rows[k]], verdicts[k])
    {
      if k < n { assert rows[..n][k] == rows[k] && verdicts[..n][k] == verdicts[k]; }
    }
    forall i | 0 <= i < |a| && i !in rows ensures c[i] == a[i] {
      assert i !in rows[..n];
    }
  }

  /**
   Whatever the provider says of each charge: the finished ones are closed, one by one, and nothing
   else is touched.
   */
  lemma {:induction false} SettleAllClosesTheBatch(f: Funds, now: int, rows: seq<nat>, verdicts: seq<Verdict>)
    requires |verdicts| == |rows| && Distinct(rows)
    requires forall k :: 0 <= k < |rows| ==> rows[k] < |f.intents| && Eligible(f.intents[rows[k]], now)
    ensures var g := SettleAll(f, rows, f.intents, verdicts);
            && Closed(f.intents, g.intents, rows, verdicts)
            && Count(g.intents, now) == Count(f.intents, now) - Finishes(verdicts)
  {
    if rows != [] {
      var n := |rows| - 1;
      SettleAllClosesTheBatch(f, now, rows[..n], verdicts[..n]);
      var g := SettleAll(f, rows[..n], f.intents, verdicts[..n]);
      var h := SettleAll(f, rows, f.intents, verdicts);
      var row := f.intents[rows[n]];
      assert rows[n] !in rows[..n];
      SettleFinishes(g, rows[n], row.user, row.reference, verdicts[n]);
      ClosedPush(f.intents, g.intents, h.intents, rows, verdicts);
      CountUpdate(g.intents, now, rows[n], h.intents[rows[n]]);
    }
  }

  /** Closing out old rows touches no closed row and none inside the window. */
  lemma {:induction false} AbandonSparesTheWindow(f: Funds, now: int)
    ensures Count(Abandon(f, now).intents, now) == Count(f.intents, now)
    ensures forall i :: 0 <= i < |f.intents|
                        && (f.intents[i].status != Pending || f.intents[i].createdAt > now - ABANDON_AFTER) ==>
              Abandon(f, now).intents[i] == f.intents[i]
  {
    CountAgrees(f.intents, now, Abandon(f, now).intents, now);
  }

  /** Nothing the query could take is past the window when the sweep ends. */
  ghost predicate NoneRunsOut(intents: seq<Intent>, now: int, later: int) {
    forall i :: 0 <= i < |intents| && Eligible(intents[i], now) ==> !Stale(intents[i], later)
  }

  /** What became of a row that was not closed: abandoned if its window ran out before the sweep ended. */
  function LeftOpen(before: Intent, later: int): Intent {
    if Stale(before, later) then before.(status := Abandoned) else before
  }

  ghost predicate RowSwept(before: Intent, after: Intent, v: Verdict, later: int) {
    if Finished(v) then after.status == Outcome(v) else after == LeftOpen(before, later)
  }

  /** The whole fate of every row the query could take. */
  ghost predicate Swept(before: seq<Intent>, after: seq<Intent>, now: int, later: int, rows: seq<nat>,
                        verdicts: seq<Verdict>)
    requires |before| == |after| && |rows| == |verdicts|
  {
    && (forall k :: 0 <= k < |rows| ==>
          rows[k] < |after| && RowSwept(before[rows[k]], after[rows[k]], verdicts[k], later))
    && (forall i :: 0 <= i < |before| && Eligible(before[i], now) && i !in rows ==>
          after[i] == LeftOpen(before[i], later))
  }

  lemma {:induction false} ClosedThenAbandoned(before: seq<Intent>, settled: Funds, now: int, later: int,
                                               rows: seq<nat>, verdicts: seq<Verdict>)
    requires |before| == |settled.intents| && |rows| == |verdicts| && Closed(before, settled.intents, rows, verdicts)
    ensures Swept(before, Abandon(settled, later).intents, now, later, rows, verdicts)
  {
    var after := Abandon(settled, later).intents;
    forall k | 0 <= k < |rows|
      ensures rows[k] < |after| && RowSwept(before[rows[k]], after[rows[k]], verdicts[k], later)
    {
      assert RowClosed(before[rows[k]], settled.intents[rows[k]], verdicts[k]);
    }
  }

  /** While nothing runs out, abandoning leaves the number of eligible rows alone. */
  lemma {:induction false} AbandonKeepsCount(before: seq<Intent>, settled: Funds, now: int, later: int,
                                             rows: seq<nat>, verdicts: seq<Verdict>)
    requires |before| == |settled.intents| && |rows| == |verdicts| && Closed(before, settled.intents, rows, verdicts)
    requires NoneRunsOut(before, now, later)
    ensures Count(Abandon(settled, later).intents, now) == Count(settled.intents, now)
  {
    var after := Abandon(settled, later).intents;
    forall k | 0 <= k < |rows|
      ensures settled.intents[rows[k]] == before[rows[k]] || settled.intents[rows[k]].status != Pending
    {
      assert RowClosed(before[rows[k]], settled.intents[rows[k]], verdicts[k]);
    }
    forall i | 0 <= i < |after| ensures Eligible(after[i], now) == Eligible(settled.intents[i], now) {
      assert i in rows || settled.intents[i] == before[i];
    }
    CountAgrees(after, now, settled.intents, now);
  }

  /**
   A sweep takes the oldest min(50, n) eligible top-ups: those the provider has finished with
   are closed as it said, every other eligible one stays as it was unless its window ran out.
   */
  lemma {:induction false} SweepSettlesTheOldest(f: Funds, now: int, later: int, rows: seq<nat>, verdicts: seq<Verdict>)
    requires IsBatch(f.intents, now, rows) && |verdicts| == |rows| && now <= later
    ensures var g := AfterSweep(f, later, rows, verdicts);
            && Swept(f.intents, g.intents, now, later, rows, verdicts)
            && (NoneRunsOut(f.intents, now, later) ==>
                  Count(g.intents, now) == Count(f.intents, now) - Finishes(verdicts))
  {
    var settled := SettleAll(f, rows, f.intents, verdicts);
    SettleAllClosesTheBatch(f, now, rows, verdicts);
    ClosedThenAbandoned(f.intents, settled, now, later, rows, verdicts);
    if NoneRunsOut(f.intents, now, later) {
      AbandonKeepsCount(f.intents, settled, now, later, rows, verdicts);
    }
  }

  /**
   The sweep takes its whole min(50, n) off the backlog exactly when the provider has finished with
   every charge it asked about.
   */
  lemma {:induction false} SweepTakesItsBatchIff(f: Funds, now: int, later: int, rows: seq<nat>, verdicts: seq<Verdict>)
    requires IsBatch(f.intents, now, rows) && |verdicts| == |rows| && now <= later && NoneRunsOut(f.intents, now, later)
    ensures Count(AfterSweep(f, later, rows, verdicts).intents, now)
         == Count(f.intents, now) - Min(BATCH, Count(f.intents, now))
      <==> forall k :: 0 <= k < |verdicts| ==> Finished(verdicts[k])
  {
    SweepSettlesTheOldest(f, now, later, rows, verdicts);
    FinishesAllIff(verdicts);
  }

  /** An open live top-up older than twenty seconds and not yet twenty-four hours old. */
  predicate Due(i: Intent, now: int) {
    i.status == Pending && i.provider == Paystack && now - 24 * 60 * 60 < i.createdAt < now - 20
  }

  ghost function DueRows(intents: seq<Intent>, now: int): set<nat> {
    set i: nat | i < |intents| && Due(intents[i], now)
  }

  /**
   The sweep asks about the due top-ups, all of them or fifty, each once, and passes over none that
   is older than one it asks about.
   */
  lemma {:induction false} TheSweepAsksTheOldest(intents: seq<Intent>, now: int, rows: seq<nat>)
    requires IsBatch(intents, now, rows)
    ensures |rows| == if |DueRows(intents, now)| < 50 then |DueRows(intents, now)| else 50
    ensures forall k :: 0 <= k < |rows| ==> rows[k] in DueRows(intents, now)
    ensures forall k, l :: 0 <= k < l < |rows| ==> rows[k] != rows[l]
    ensures forall i, k :: i in DueRows(intents, now) && i !in rows && 0 <= k < |rows| ==>
              intents[rows[k]].createdAt <= intents[i].createdAt
  {
    CountIsCardinality(intents, now, DueRows(intents, now));
  }

  // ---------------------------------------------------------------------
  // Sweep after sweep
  // ---------------------------------------------------------------------

  /**
   Inside the window throughout the sweep: no pending live row is too young to ask about or old
   enough to give up on.
   */
  ghost predicate InWindow(intents: seq<Intent>, now: int, later: int) {
    forall i :: 0 <= i < |intents| && IsOpenCharge(intents[i]) ==>
      Eligible(intents[i], now) && !Stale(intents[i], later)
  }

  datatype Round = Round(now: int, later: int, rows: seq<nat>, verdicts: seq<Verdict>)

  /** A chain of sweeps while the clock stays in the window, whatever the provider answers. */
  ghost predicate Rounds(f: Funds, rounds: seq<Round>, until: Funds)
    decreases |rounds|
  {
    if rounds == [] then until == f
    else
      var r := rounds[0];
      && |r.verdicts| == |r.rows| && r.now <= r.later
      && InWindow(f.intents, r.now, r.later)
      && IsBatch(f.intents, r.now, r.rows)
      && Rounds(AfterSweep(f, r.later, r.rows, r.verdicts), rounds[1..], until)
  }

  ghost predicate AllFinished(rounds: seq<Round>) {
    forall i, k :: 0 <= i < |rounds| && 0 <= k < |rounds[i].verdicts| ==> Finished(rounds[i].verdicts[k])
  }

  function TotalFinishes(rounds: seq<Round>): nat {
    if rounds == [] then 0 else Finishes(rounds[0].verdicts) + TotalFinishes(rounds[1..])
  }

  predicate IsOpenCharge(i: Intent) {
    i.status == Pending && i.provider == Paystack
  }

  function PendingLive(intents: seq<Intent>): nat {
    if intents == [] then 0
    else PendingLive(intents[..|intents| - 1]) + (if IsOpenCharge(intents[|intents| - 1]) then 1 else 0)
  }

  lemma {:induction false} WindowCount(intents: seq<Intent>, now: int)
    requires forall i :: 0 <= i < |intents| && IsOpenCharge(intents[i]) ==> Eligible(intents[i], now)
    ensures Count(intents, now) == PendingLive(intents)
  {
    if intents != [] {
      WindowCount(intents[..|intents| - 1], now);
    }
  }

  lemma {:induction false} OneRound(f: Funds, g: Funds, r: Round)
    requires |r.verdicts| == |r.rows| && r.now <= r.later && InWindow(f.intents, r.now, r.later)
    requires IsBatch(f.intents, r.now, r.rows)
    requires g == AfterSweep(f, r.later, r.rows, r.verdicts)
    ensures PendingLive(g.intents) == PendingLive(f.intents) - Finishes(r.verdicts)
    ensures |r.rows| == Min(BATCH, PendingLive(f.intents))
  {
    WindowCount(f.intents, r.now);
    SweepSettlesTheOldest(f, r.now, r.later, r.rows, r.verdicts);
    SettleAllClosesTheBatch(f, r.now, r.rows, r.verdicts);
    StillInWindow(f.intents, SettleAll(f, r.rows, f.intents, r.verdicts), r.now, r.later, r.rows, r.verdicts);
    WindowCount(g.intents, r.now);
  }

  lemma {:induction false} StillInWindow(before: seq<Intent>, settled: Funds, now: int, later: int, rows: seq<nat>,
                                         verdicts: seq<Verdict>)
    requires |before| == |settled.intents| && |rows| == |verdicts| && Closed(before, settled.intents, rows, verdicts)
    requires InWindow(before, now, later)
    ensures InWindow(Abandon(settled, later).intents, now, later)
  {
    var after := Abandon(settled, later).intents;
    forall k | 0 <= k < |rows|
      ensures settled.intents[rows[k]].status != Pending || settled.intents[rows[k]] == before[rows[k]]
    {
      assert RowClosed(before[rows[k]], settled.intents[rows[k]], verdicts[k]);
    }
    forall i | 0 <= i < |after| && IsOpenCharge(after[i]) ensures Eligible(after[i], now) && !Stale(after[i], later) {
      assert i in rows || settled.intents[i] == before[i];
    }
  }

  /** Inside the window, a chain of sweeps takes off the backlog exactly the charges the provider had finished with. */
  lemma {:induction false} BacklogFallsByTheFinished(f: Funds, rounds: seq<Round>, until: Funds)
    requires Rounds(f, rounds, until)
    ensures PendingLive(until.intents) == PendingLive(f.intents) - TotalFinishes(rounds)
    decreases |rounds|
  {
    if rounds != [] {
      var r := rounds[0];
      OneRound(f, AfterSweep(f, r.later, r.rows, r.verdicts), r);
      BacklogFallsByTheFinished(AfterSweep(f, r.later, r.rows, r.verdicts), rounds[1..], until);
    }
  }

  /**
   With every charge finished each round takes fifty off the backlog, so n charges are gone after
   ceil(n / 50) rounds and not before.
   */
  lemma {:induction false} BacklogDrains(f: Funds, rounds: seq<Round>, until: Funds)
    requires Rounds(f, rounds, until) && AllFinished(rounds)
    ensures PendingLive(until.intents) ==
            if PendingLive(f.intents) <= BATCH * |rounds| then 0 else PendingLive(f.intents) - BATCH * |rounds|
    decreases |rounds|
  {
    if rounds != [] {
      var r := rounds[0];
      var g := AfterSweep(f, r.later, r.rows, r.verdicts);
      OneRound(f, g, r);
      FinishesAllIff(r.verdicts);
      assert AllFinished(rounds[1..]);
      BacklogDrains(g, rounds[1..], until);
    }
  }

  /** Enough rounds for n finished charges is exactly n divided by fifty, rounded up. */
  lemma {:induction false} CeilingOfRounds(f: Funds, rounds: seq<Round>, until: Funds)
    requires Rounds(f, rounds, until) && AllFinished(rounds)
    ensures PendingLive(until.intents) == 0 <==> |rounds| >= (PendingLive(f.intents) + BATCH - 1) / BATCH
  {
    BacklogDrains(f, rounds, until);
  }

  lemma {:induction false} UnpaidSettlesNothing(f: Funds, rows: seq<nat>, read: seq<Intent>, verdicts: seq<Verdict>)
    requires |verdicts| == |rows| && |read| <= |f.intents|
    requires forall k :: 0 <= k < |rows| ==> rows[k] < |read|
    requires forall k :: 0 <= k < |rows| ==> verdicts[k] == Unreachable || verdicts[k] == Answered(ChargePending)
    ensures SettleAll(f, rows, read, verdicts) == f
  {
    if rows != [] {
      UnpaidSettlesNothing(f, rows[..|rows| - 1], read, verdicts[..|rows| - 1]);
    }
  }

  /**
   Why the charges must be finished: while the fifty oldest stay unpaid and inside
   the window, a sweep changes none of the rows and the next may pick the same
   fifty, so a paid charge behind them waits.
   */
  lemma UnpaidOldestHoldTheQueue(f: Funds, now: int, later: int, next: int, rows: seq<nat>, verdicts: seq<Verdict>)
    requires IsBatch(f.intents, now, rows) && |verdicts| == |rows|
    requires InWindow(f.intents, now, later) && InWindow(f.intents, next, next)
    requires forall k :: 0 <= k < |rows| ==> verdicts[k] == Unreachable || verdicts[k] == Answered(ChargePending)
    ensures AfterSweep(f, later, rows, verdicts) == f
    ensures IsBatch(f.intents, next, rows)
  {
    UnpaidSettlesNothing(f, rows, f.intents, verdicts);
    assert Abandon(f, later).intents == f.intents;
    WindowCount(f.intents, now);
    WindowCount(f.intents, next);
  }
}
