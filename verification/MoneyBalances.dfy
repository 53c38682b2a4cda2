/** Whether a user can be made to owe money: only a provider that reports a negative amount can do it. */
module MoneyBalances {
  import opened Base
  import opened Ledger
  import opened MoneyTables
  import opened MoneyRuns
  import opened MoneyTheorems
  import F = Funding
  import N = NumberOrders

  // ---------------------------------------------------------------------
  // What one posting does to a balance
  // ---------------------------------------------------------------------

  /** What a two-entry journal gives a user. */
  function Gain(j: Journal, user: Uuid): Naira
    requires |j.entries| == 2
  {
    -(if j.entries[0].account == N.Wallet(user) then j.entries[0].amount else 0.0)
    - (if j.entries[1].account == N.Wallet(user) then j.entries[1].amount else 0.0)
  }

  lemma {:induction false} PostedBalance(book: Book, j: Journal, user: Uuid)
    requires |j.entries| == 2
    ensures N.Balance(Post(book, j).book, user)
         == N.Balance(book, user) + (if NoKey(book, j.key) then Gain(j, user) else 0.0)
  {
    SumAfter(OfUser(user), book, j);
    if i :| 0 <= i < |book| && book[i].key == j.key {
      assert !NoKey(book, j.key);
    }
  }

  /** The charge is written although its row was closed, its amount is negative, and nothing was credited for it yet. */
  predicate ChargedBack(f: F.Funds, id: nat, reference: string, verdict: F.Verdict)
    requires id < |f.intents|
  {
    && verdict.Answered? && verdict.state.ChargeSucceeded? && verdict.state.amount < 0.0
    && f.intents[id].status != F.Pending && Find(f.book, CreditKey(reference)).None?
  }

  /** Settling a top-up takes money from someone exactly when it is that user's own charge, charged back. */
  lemma {:induction false} SettlingTakesMoneyIff(f: F.Funds, id: nat, user: Uuid, reference: string, verdict: F.Verdict,
                                                 whose: Uuid)
    requires id < |f.intents|
    ensures N.Balance(F.Settle(f, id, user, reference, verdict).funds.book, whose) < N.Balance(f.book, whose)
       <==> whose == user && ChargedBack(f, id, reference, verdict)
  {
    if verdict.Answered? && verdict.state.ChargeSucceeded? {
      PostedBalance(f.book, F.CreditJournal(user, reference, verdict.state.amount), whose);
    }
  }

  // ---------------------------------------------------------------------
  // Every run
  // ---------------------------------------------------------------------

  ghost predicate NobodyOwes(book: Book) {
    forall u :: N.Balance(book, u) >= 0.0
  }

  /** Amounts a credit may still be written with. */
  ghost predicate AmountsOk(w: World) {
    && (forall i :: 0 <= i < |w.t.intents| ==> w.t.intents[i].amount >= 0.0)
    && (forall k :: k in w.calls ==> CallAmountOk(w.calls[k]))
  }

  predicate CallAmountOk(c: Call) {
    c.amount >= 0.0 && (c.verdict.Some? ==> VerdictOk(c.verdict.value))
  }

  predicate VerdictOk(v: F.Verdict) {
    v.Answered? && v.state.ChargeSucceeded? ==> v.state.amount >= 0.0
  }

  /** The provider reports no negative amount. */
  predicate Fair(s: Step) {
    s.Hear? && s.reply.Data? ==> s.reply.kobo >= 0
  }

  lemma {:induction false} CommitAmounts(f: F.Funds, id: nat, user: Uuid, reference: string, verdict: F.Verdict)
    requires id < |f.intents| && VerdictOk(verdict) && forall i :: 0 <= i < |f.intents| ==> f.intents[i].amount >= 0.0
    ensures var g := F.Settle(f, id, user, reference, verdict).funds;
            forall i :: 0 <= i < |g.intents| ==> g.intents[i].amount >= 0.0
  {
  }

  lemma {:induction false} FundingAmounts(w: World, s: Step)
    requires AmountsOk(w) && Fair(s)
    ensures AmountsOk(NextFunding(w, s))
  {
    match s
    case Commit(call) =>
      if call in w.calls && w.calls[call].verdict.Some? && w.calls[call].id < |w.t.intents| {
        var c := w.calls[call];
        CommitAmounts(w.t.Funds(), c.id, c.user, c.reference, c.verdict.value);
      }
    case _ =>
  }

  lemma {:induction false} FundingBalances(w: World, s: Step)
    requires AmountsOk(w) && NobodyOwes(w.t.book)
    ensures NobodyOwes(NextFunding(w, s).t.book)
  {
    if s.Commit? && s.call in w.calls && w.calls[s.call].verdict.Some? && w.calls[s.call].id < |w.t.intents| {
      var c := w.calls[s.call];
      forall u ensures N.Balance(NextFunding(w, s).t.book, u) >= 0.0 {
        SettlingTakesMoneyIff(w.t.Funds(), c.id, c.user, c.reference, c.verdict.value, u);
      }
    }
  }

  lemma {:induction false} GivingOwesNothing(book: Book, j: Journal)
    requires NobodyOwes(book) && |j.entries| == 2 && forall u :: Gain(j, u) >= 0.0
    ensures NobodyOwes(Post(book, j).book)
  {
    forall u ensures N.Balance(Post(book, j).book, u) >= 0.0 {
      PostedBalance(book, j, u);
      assert Gain(j, u) >= 0.0 && N.Balance(book, u) >= 0.0;
    }
  }

  /** A settlement moves no user's money and a refund gives some back. */
  lemma {:induction false} ClosingGains(o: N.Order, u: Uuid)
    requires o.price > 0.0
    ensures Gain(N.SettleJournal(o), u) == 0.0
    ensures Gain(N.RefundJournal(o), u) == if u == o.user then o.price else 0.0
  {
  }

  lemma {:induction false} MovesOweNothing(d: N.Desk, e: N.Desk, id: nat)
    requires NobodyOwes(d.book) && id < |d.orders| && d.orders[id].price > 0.0 && N.Move(d, e, id)
    ensures NobodyOwes(e.book)
  {
    var o := d.orders[id];
    forall u ensures Gain(N.SettleJournal(o), u) >= 0.0 && Gain(N.RefundJournal(o), u) >= 0.0 {
      ClosingGains(o, u);
    }
    GivingOwesNothing(d.book, N.SettleJournal(o));
    GivingOwesNothing(d.book, N.RefundJournal(o));
  }

  lemma {:induction false} BuyingOwesNothing(d: N.Desk, user: Uuid, price: Naira, supplier: string, byOffer: bool,
                                             reference: string, key: Uuid, now: int)
    requires NobodyOwes(d.book) && N.Reserve(d, user, price, supplier, byOffer, reference, key, now).Ok?
    ensures NobodyOwes(N.Reserve(d, user, price, supplier, byOffer, reference, key, now).value.book)
  {
    var after := N.Reserve(d, user, price, supplier, byOffer, reference, key, now).value;
    forall u ensures N.Balance(after.book, u) >= 0.0 {
      PostedBalance(d.book, N.ReserveJournal(after.orders[|d.orders|]), u);
    }
  }

  lemma {:induction false} OrderBalances(w: World, s: Step)
    requires NobodyOwes(w.t.book) && RowsOk(w.t)
    ensures NobodyOwes(NextOrder(w, s).t.book)
  {
    if IsRowStep(s) {
      RowStepIs(w, s);
    } else {
      match s
      case Buy(user, price, supplier, byOffer, reference, key, now) =>
        if N.Reserve(w.t.Desk(), user, price, supplier, byOffer, reference, key, now).Ok? {
          BuyingOwesNothing(w.t.Desk(), user, price, supplier, byOffer, reference, key, now);
        }
      case Transit(id, token, transition, now) =>
        if id < |w.t.orders| {
          N.ApplyMoves(w.t.Desk(), id, token, transition, now);
          MovesOweNothing(w.t.Desk(), N.Apply(w.t.Desk(), id, token, transition, now).desk, id);
        }
      case Checked(id, token, check, now) =>
        if id < |w.t.orders| {
          N.ApplyCheckMoves(w.t.Desk(), id, token, check, now);
          MovesOweNothing(w.t.Desk(), N.ApplyCheck(w.t.Desk(), id, token, check, now).desk, id);
        }
      case _ =>
    }
  }

  lemma {:induction false} RefundBalances(w: World, s: Step)
    requires NobodyOwes(w.t.book) && RowsOk(w.t)
    ensures NobodyOwes(NextRefund(w, s).t.book)
  {
    if s.DoRefund? && s.job in w.jobs && w.jobs[s.job].stage.Claimed? && w.jobs[s.job].order < |w.t.orders| {
      var j := w.jobs[s.job];
      N.ApplyMoves(w.t.Desk(), j.order, Some(j.stage.token), GIVE_BACK, s.now);
      MovesOweNothing(w.t.Desk(), N.Apply(w.t.Desk(), j.order, Some(j.stage.token), GIVE_BACK, s.now).desk, j.order);
    }
  }

  lemma {:induction false} AmountsStay(w: World, v: World)
    requires AmountsOk(w) && v.t.intents == w.t.intents && v.calls == w.calls
    ensures AmountsOk(v)
  {
  }

  lemma {:induction false} NextBalances(w: World, s: Step)
    requires NobodyOwes(w.t.book) && RowsOk(w.t) && AmountsOk(w) && Fair(s)
    ensures NobodyOwes(Next(w, s).t.book) && AmountsOk(Next(w, s))
  {
    NextIs(w, s);
    FundingAmounts(w, s);
    FundingBalances(w, s);
    OrderBalances(w, s);
    RefundBalances(w, s);
    OrderFrame(w, s);
    RefundFrame(w, s);
    var step := ErrandIs(w, s);
    OrderBalances(w, step);
    OrderFrame(w, step);
    if Next(w, s) != NextFunding(w, s) {
      AmountsStay(w, Next(w, s));
    }
  }

  /** While the provider reports no negative amount, no run whatever leaves any user owing money. */
  lemma {:induction false} NobodyOwesInAnyRun(cap: Naira, steps: seq<Step>)
    requires forall k :: 0 <= k < |steps| ==> Fair(steps[k])
    ensures NobodyOwes(Run(Init(cap), steps).t.book) && AmountsOk(Run(Init(cap), steps))
  {
    if steps != [] {
      var front := steps[..|steps| - 1];
      NobodyOwesInAnyRun(cap, front);
      Reachable(cap, front);
      NextBalances(Run(Init(cap), front), steps[|steps| - 1]);
    }
  }

  /** A negative amount can: it is refused on a pending row, but not on one abandoned meanwhile. */
  lemma {:induction false} ANegativeAmountMayOverdraw(cap: Naira, user: Uuid) returns (steps: seq<Step>)
    ensures N.Balance(Run(Init(cap), steps).t.book, user) < 0.0
  {
    steps := AnAbandonedIntentMayBeCredited(cap, user, -100);
  }
}
