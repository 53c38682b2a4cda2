/** What holds of the money tables after any run, from an empty database. */
module MoneyTheorems {
  import opened Base
  import opened Ledger
  import opened MoneyTables
  import opened MoneyRuns
  import F = Funding
  import N = NumberOrders

  lemma {:induction false} RunSnoc(w: World, steps: seq<Step>, s: Step)
    ensures Run(w, steps + [s]) == Next(Run(w, steps), s)
  {
    assert (steps + [s])[..|steps|] == steps;
  }

  // ---------------------------------------------------------------------
  // Top-ups
  // ---------------------------------------------------------------------

  predicate SameCharge(a: Journal, b: Journal) {
    a.kind == NgnDeposit && b.kind == NgnDeposit && a.reference == b.reference
  }

  /**
   Each provider reference is credited at most once, to the user whose intent
   carries it. A pending intent has no credit; a succeeded one names its own
   journal with exactly that journal's amount.
   */
  lemma {:induction false} EveryReferenceCreditedOnce(cap: Naira, steps: seq<Step>)
    ensures var t := Run(Init(cap), steps).t;
      && (forall i, k :: 0 <= i < k < |t.book| ==> !SameCharge(t.book[i], t.book[k]))
      && (forall i :: 0 <= i < |t.book| && t.book[i].kind == NgnDeposit ==>
            exists n :: IntentHas(t.intents, n, t.book[i]))
      && (forall n :: 0 <= n < |t.intents| ==> IntentOk(t.book, t.intents[n]))
  {
    Reachable(cap, steps);
    var t := Run(Init(cap), steps).t;
    forall i | 0 <= i < |t.book| && t.book[i].kind == NgnDeposit
      ensures (exists n :: IntentHas(t.intents, n, t.book[i])) && t.book[i].key == CreditKey(t.book[i].reference)
    {
      assert Known(t, t.book[i]);
    }
  }

  /** Succeeded, failed and abandoned are final: no later step of any run changes the row at all. */
  lemma {:induction false} ClosedIntentsStayClosed(cap: Naira, steps: seq<Step>, more: seq<Step>, n: nat)
    requires n < |Run(Init(cap), steps).t.intents| && Run(Init(cap), steps).t.intents[n].status != F.Pending
    ensures n < |Run(Run(Init(cap), steps), more).t.intents|
    ensures Run(Run(Init(cap), steps), more).t.intents[n] == Run(Init(cap), steps).t.intents[n]
  {
    var w := Run(Init(cap), steps);
    Reachable(cap, steps);
    RunKeeps(w, more);
    assert F.RowAdvances(w.t.intents[n], Run(w, more).t.intents[n]);
  }

  /**
   The converse fails: a charge confirmed before the window closed may be written
   after it. The row stays abandoned, and the user is credited whatever the provider reported.
   */
  lemma {:induction false} AnAbandonedIntentMayBeCredited(cap: Naira, user: Uuid, kobo: int) returns (steps: seq<Step>)
    requires kobo != 0
    ensures var t := Run(Init(cap), steps).t;
            |t.intents| == 1 && t.intents[0].status == F.Abandoned && t.intents[0].user == user
            && N.Balance(t.book, user) == kobo as real / 100.0
  {
    var x := F.Intent(user, 100.0, F.Paystack, "NVFD-1", F.Pending, None, 0);
    var s1 := OpenIntent(user, 100.0, 0, F.Paystack, "NVFD-1", 0);
    var s2 := ReadIntent(0, 0);
    var s3 := Hear(0, F.Paystack, F.Data("success", kobo, None));
    var s4 := Abandon(90000);
    var c := Call(0, user, "NVFD-1", 100.0, None);
    var heard := c.(verdict := Some(F.Answered(F.ChargeSucceeded(kobo as real / 100.0))));
    var w1 := Init(cap).(t := Tables([], [x], []));
    var w2 := w1.(calls := map[0 := c]);
    var w3 := w1.(calls := map[0 := heard]);
    var w4 := w3.(t := Tables([], [x.(status := F.Abandoned)], []));
    assert Next(Init(cap), s1) == w1;
    StepTo(Init(cap), [], Init(cap), s1, w1);
    StepTo(Init(cap), [] + [s1], w1, s2, w2);
    StepTo(Init(cap), [] + [s1] + [s2], w2, s3, w3);
    StepTo(Init(cap), [] + [s1] + [s2] + [s3], w3, s4, w4);
    LateCommit(w4, x.(status := F.Abandoned), heard, kobo as real / 100.0);
    StepTo(Init(cap), [] + [s1] + [s2] + [s3] + [s4], w4, Commit(0), Next(w4, Commit(0)));
    steps := [] + [s1] + [s2] + [s3] + [s4] + [Commit(0)];
  }

  lemma {:induction false} StepTo(w: World, steps: seq<Step>, v: World, s: Step, u: World)
    requires Run(w, steps) == v && Next(v, s) == u
    ensures Run(w, steps + [s]) == u
  {
    RunSnoc(w, steps, s);
  }

  lemma {:induction false} LateCommit(w: World, row: F.Intent, heard: Call, amount: Naira)
    requires w.t == Tables([], [row], []) && w.calls == map[0 := heard] && row.status == F.Abandoned && amount != 0.0
    requires heard == Call(0, row.user, row.reference, heard.amount, Some(F.Answered(F.ChargeSucceeded(amount))))
    ensures Next(w, Commit(0)).t.intents == [row]
    ensures N.Balance(Next(w, Commit(0)).t.book, row.user) == amount
  {
    FirstCredit(row, amount);
  }

  /** The first credit of all, to a row still pending or closed meanwhile. */
  lemma {:induction false} FirstCredit(row: F.Intent, amount: Naira)
    requires amount != 0.0 && (row.status == F.Pending ==> amount > 0.0)
    ensures var j := F.CreditJournal(row.user, row.reference, amount);
      && N.Balance([j], row.user) == amount
      && F.Credit(F.Funds([], [row]), 0, row.user, row.reference, amount)
         == Ok(F.Funds([j], [if row.status == F.Pending
                             then row.(status := F.Succeeded, amount := amount, credited := Some(0)) else row]))
  {
    var j := F.CreditJournal(row.user, row.reference, amount);
    PostFresh([], j);
    assert [] + [j] == [j];
    SumAfter(OfUser(row.user), [], j);
    assert [row][0 := row.(status := F.Succeeded, amount := amount, credited := Some(0))]
        == [row.(status := F.Succeeded, amount := amount, credited := Some(0))];
  }

  // ---------------------------------------------------------------------
  // Conservation
  // ---------------------------------------------------------------------

  /** The four ledger figures of the operator's overview, with the signs the query gives them. */
  datatype Figures = Figures(userBalances: Naira, float: Naira, revenue: Naira, pending: Naira)

  function Overview(book: Book): Figures {
    Figures(-Sum(OfKind(UserNgn), book), Sum(OfKind(NgnFloat), book),
            -Sum(OfKind(NumberRevenue), book), Sum(OfKind(NumberPayablePending), book))
  }

  /**
   After any run the float equals what users are owed, plus revenue, plus the
   prices of held orders. The pending figure alone is not negated, so held money
   is its negation.
   */
  lemma {:induction false} FloatIsFullyAccounted(cap: Naira, steps: seq<Step>)
    ensures var t := Run(Init(cap), steps).t;
            var o := Overview(t.book);
            && o.float == o.userBalances + o.revenue + Total(HeldPrices, t.orders)
            && o.pending == -Total(HeldPrices, t.orders)
            && o.revenue == Total(DeliveredPrices, t.orders)
  {
    Reachable(cap, steps);
  }

  /** A user's balance is what they were credited less their held and delivered orders; a refund leaves them whole. */
  lemma {:induction false} BalanceIsCreditsLessOrders(cap: Naira, steps: seq<Step>, user: Uuid)
    ensures var t := Run(Init(cap), steps).t;
            N.Balance(t.book, user)
            == -Sum(Deposited(user), t.book) - Total(HeldOf(user), t.orders) - Total(DeliveredOf(user), t.orders)
  {
    Reachable(cap, steps);
    assert UserSumOk(Run(Init(cap), steps).t, user);
  }

  // ---------------------------------------------------------------------
  // Orders
  // ---------------------------------------------------------------------

  /** How many of an order's closing journals are in the ledger, and which. */
  ghost predicate ClosedBy(book: Book, o: N.Order, settled: bool, refunded: bool) {
    && (settled <==> exists i :: 0 <= i < |book| && book[i].key == SettleKey(o.reference))
    && (refunded <==> exists i :: 0 <= i < |book| && book[i].key == RefundKey(o.reference))
  }

  /** The ledger closes an order exactly as its status says: a held one not at all, any other exactly one way. */
  lemma {:induction false} OrdersCloseOnce(cap: Naira, steps: seq<Step>, id: nat)
    requires id < |Run(Init(cap), steps).t.orders|
    ensures var t := Run(Init(cap), steps).t;
            var o := t.orders[id];
            && ClosedBy(t.book, o, o.status.Delivered?, o.status.Refunded())
            && (o.settled.Some? <==> o.status.Delivered?)
            && (o.refunded.Some? <==> o.status.Refunded())
            && KeysUnique(t.book)
  {
    Reachable(cap, steps);
    var t := Run(Init(cap), steps).t;
    var o := t.orders[id];
    assert OrderOk(t.book, o);
    ClosingKeys(t, id);
    if o.status.Delivered? {
      assert t.book[o.settled.value].key == SettleKey(o.reference);
    }
    if o.status.Refunded() {
      assert t.book[o.refunded.value].key == RefundKey(o.reference);
    }
  }

  /** Once closed, an order's status and journals never change again, and its price never changes at all. */
  lemma {:induction false} ClosedOrdersStayClosed(cap: Naira, steps: seq<Step>, more: seq<Step>, id: nat)
    requires id < |Run(Init(cap), steps).t.orders|
    ensures var a := Run(Init(cap), steps).t.orders[id];
            var later := Run(Run(Init(cap), steps), more).t.orders;
            id < |later| && OrderAdvances(a, later[id])
  {
    Reachable(cap, steps);
    RunKeeps(Run(Init(cap), steps), more);
  }

  /**
   A claimant may act on what it saw when it claimed: while its token is current the row is
   the row it was granted. Only the supplier and the offering it was bought as may have been
   noted since, and only if the row it was granted was a started purchase of an offer that had
   not noted them yet.
   */
  lemma {:induction false} ACurrentClaimPinsTheRow(cap: Naira, steps: seq<Step>, id: nat, token: Uuid, now: int)
    requires id < |Run(Init(cap), steps).t.orders| && N.Current(Run(Init(cap), steps).t.orders[id], token, now)
    ensures var w := Run(Init(cap), steps);
            token in w.pins && Saw(w.pins[token], id, w.t.orders[id])
  {
    Reachable(cap, steps);
    var w := Run(Init(cap), steps);
    assert PinOk(w.pins, id, w.t.orders[id]);
  }

  // ---------------------------------------------------------------------
  // Where an order was bought
  // ---------------------------------------------------------------------

  ghost predicate BoughtAt(o: N.Order, provider: string, source: Option<N.SourceSku>) {
    o.provider == provider && o.source == source
  }

  /** What a step does to where an order was bought and to its claim, unless it is the purchase's note. */
  ghost predicate Untouched(w: World, a: N.Order, b: N.Order) {
    && b.provider == a.provider && b.source == a.source && b.byOffer == a.byOffer
    && (b.claim.Some? && b.claim != a.claim ==> b.claim.value.token !in w.pins)
  }

  lemma {:induction false} RowStepTouches(w: World, s: Step, i: nat)
    requires IsRowStep(s) && i < |w.t.orders| && !(s.PinSource? && s.order == i)
    ensures i < |NextOrder(w, s).t.orders| && Untouched(w, w.t.orders[i], NextOrder(w, s).t.orders[i])
  {
    RowStepIs(w, s);
  }

  lemma {:induction false} OrderStepTouches(w: World, s: Step, i: nat)
    requires i < |w.t.orders| && !(s.PinSource? && s.order == i)
    ensures i < |NextOrder(w, s).t.orders| && Untouched(w, w.t.orders[i], NextOrder(w, s).t.orders[i])
  {
    if IsRowStep(s) {
      RowStepTouches(w, s, i);
    } else if s.Transit? || s.Checked? {
      MoveTouches(w, s, i);
    }
  }

  lemma {:induction false} MoveTouches(w: World, s: Step, i: nat)
    requires i < |w.t.orders| && (s.Transit? || s.Checked?)
    ensures i < |NextOrder(w, s).t.orders| && Untouched(w, w.t.orders[i], NextOrder(w, s).t.orders[i])
  {
    if s.order < |w.t.orders| {
      var d := w.t.Desk();
      var e := if s.Transit? then N.Apply(d, s.order, s.presented, s.transition, s.now).desk
               else N.ApplyCheck(d, s.order, s.presented, s.check, s.now).desk;
      if s.Transit? {
        N.ApplyKeepsTheSource(d, s.order, s.presented, s.transition, s.now);
      } else {
        N.CheckKeepsTheSource(d, s.order, s.presented, s.check, s.now);
      }
      DeskUntouched(w, e, i);
    }
  }

  lemma {:induction false} DeskUntouched(w: World, d: N.Desk, i: nat)
    requires i < |w.t.orders| && N.SourcesKept(w.t.Desk(), d)
    ensures i < |d.orders| && Untouched(w, w.t.orders[i], d.orders[i])
  {
    assert N.SourceKept(w.t.orders[i], d.orders[i]);
  }

  lemma {:induction false} RefundStepTouches(w: World, s: Step, i: nat)
    requires i < |w.t.orders|
    ensures i < |NextRefund(w, s).t.orders| && Untouched(w, w.t.orders[i], NextRefund(w, s).t.orders[i])
  {
    if s.DoRefund? && s.job in w.jobs && w.jobs[s.job].stage.Claimed? && w.jobs[s.job].order < |w.t.orders| {
      var j := w.jobs[s.job];
      N.ApplyKeepsTheSource(w.t.Desk(), j.order, Some(j.stage.token), GIVE_BACK, s.now);
    }
  }

  /** No step but the note writes the source, and none puts back a token that was ever granted. */
  lemma {:induction false} StepTouches(w: World, s: Step, i: nat)
    requires i < |w.t.orders| && !(s.PinSource? && s.order == i)
    ensures i < |Next(w, s).t.orders| && Untouched(w, w.t.orders[i], Next(w, s).t.orders[i])
  {
    NextIs(w, s);
    FundingFrame(w, s);
    OrderStepTouches(w, s, i);
    RefundStepTouches(w, s, i);
    var step := ErrandIs(w, s);
    if NextErrand(w, s) != w.(errands := NextErrand(w, s).errands) {
      OrderStepTouches(w, step, i);
    }
  }

  lemma {:induction false} NoteIs(w: World, s: Step, i: nat)
    requires i < |w.t.orders| && s.PinSource? && s.order == i
    ensures Next(w, s) == w.(t := w.t.(orders := w.t.orders[i := N.PinSource(w.t.orders[i], s.supplier, s.source)]))
  {
  }

  ghost predicate Notes(s: Step, id: nat, o: N.Order) {
    s.PinSource? && s.order == id && BoughtAt(o, s.supplier, Some(s.source))
  }

  /**
   In any continuation an order was bought where it was, or, if it was bought by offer and had
   noted nothing, where the one note among the steps says.
   */
  lemma {:induction false} SourceIsNotedOnce(w: World, more: seq<Step>, id: nat)
    requires id < |w.t.orders|
    ensures id < |Run(w, more).t.orders|
    ensures var a, b := w.t.orders[id], Run(w, more).t.orders[id];
      && b.byOffer == a.byOffer
      && (BoughtAt(b, a.provider, a.source)
          || (a.byOffer && a.source.None? && exists k :: 0 <= k < |more| && Notes(more[k], id, b)))
  {
    if more != [] {
      var n := |more| - 1;
      var front, s := more[..n], more[n];
      SourceIsNotedOnce(w, front, id);
      var v := Run(w, front);
      if s.PinSource? && s.order == id {
        NoteIs(v, s, id);
        if N.MayNote(v.t.orders[id]) {
          assert Notes(more[n], id, Run(w, more).t.orders[id]);
        }
      } else {
        StepTouches(v, s, id);
      }
      if k :| 0 <= k < n && Notes(front[k], id, v.t.orders[id]) {
        assert front[k] == more[k];
      }
    }
  }

  /** A noted source is final. */
  lemma {:induction false} ANotedSourceIsFinal(w: World, more: seq<Step>, id: nat)
    requires id < |w.t.orders| && w.t.orders[id].source.Some?
    ensures id < |Run(w, more).t.orders|
    ensures BoughtAt(Run(w, more).t.orders[id], w.t.orders[id].provider, w.t.orders[id].source)
  {
    SourceIsNotedOnce(w, more, id);
  }

  ghost predicate HeldUnder(w: World, id: nat, token: Uuid) {
    id < |w.t.orders| && w.t.orders[id].claim.Some? && w.t.orders[id].claim.value.token == token
  }

  /** A token on the row after a step was on it before. */
  lemma {:induction false} TokensAreNotPutBack(w: World, s: Step, id: nat, token: Uuid)
    requires WorldInv(w) && id < |w.t.orders| && token in w.pins && HeldUnder(Next(w, s), id, token)
    ensures HeldUnder(w, id, token)
  {
    if s.PinSource? && s.order == id {
      NoteIs(w, s, id);
    } else {
      StepTouches(w, s, id);
    }
  }

  /** While a token stays on a row that leaves nothing to note, the row does not change at all. */
  lemma {:induction false} HeldRowStays(w: World, more: seq<Step>, id: nat, token: Uuid)
    requires WorldInv(w) && HeldUnder(w, id, token) && !N.MayNote(w.t.orders[id])
    requires HeldUnder(Run(w, more), id, token)
    ensures Run(w, more).t.orders[id] == w.t.orders[id]
  {
    assert PinOk(w.pins, id, w.t.orders[id]);
    if more != [] {
      var front, s := more[..|more| - 1], more[|more| - 1];
      var v := Run(w, front);
      RunKeeps(w, front);
      PinsGrow(w, front, token);
      TokensAreNotPutBack(v, s, id, token);
      HeldRowStays(w, front, id, token);
      HeldRowStep(v, s, id, token);
    }
  }

  lemma {:induction false} HeldRowStep(w: World, s: Step, id: nat, token: Uuid)
    requires WorldInv(w) && HeldUnder(w, id, token) && !N.MayNote(w.t.orders[id]) && HeldUnder(Next(w, s), id, token)
    ensures Next(w, s).t.orders[id] == w.t.orders[id]
  {
    var v := Next(w, s);
    NextKeeps(w, s);
    PinsStay(w, s, token);
    assert PinOk(w.pins, id, w.t.orders[id]) && PinOk(v.pins, id, v.t.orders[id]);
    if s.PinSource? && s.order == id {
      NoteIs(w, s, id);
    } else {
      StepTouches(w, s, id);
    }
  }

  lemma {:induction false} PinsStay(w: World, s: Step, token: Uuid)
    requires token in w.pins
    ensures token in Next(w, s).pins && Next(w, s).pins[token] == w.pins[token]
  {
    NextIs(w, s);
    FundingFrame(w, s);
    OrderFrame(w, s);
    RefundPinsGrow(w, s);
    var step := ErrandIs(w, s);
    OrderFrame(w, step);
  }

  lemma {:induction false} RefundPinsGrow(w: World, s: Step)
    ensures forall p :: p in w.pins ==> p in NextRefund(w, s).pins && NextRefund(w, s).pins[p] == w.pins[p]
  {
  }

  lemma {:induction false} PinsGrow(w: World, more: seq<Step>, token: Uuid)
    requires token in w.pins
    ensures token in Run(w, more).pins && Run(w, more).pins[token] == w.pins[token]
  {
    if more != [] {
      PinsGrow(w, more[..|more| - 1], token);
      PinsStay(Run(w, more[..|more| - 1]), more[|more| - 1], token);
    }
  }

  /** Whatever happens while the token stays on the row, the row keeps naming the supplier it names now. */
  ghost predicate SupplierStays(w: World, id: nat, token: Uuid)
    requires id < |w.t.orders|
  {
    forall more: seq<Step> :: HeldUnder(Run(w, more), id, token) ==>
      Run(w, more).t.orders[id].provider == w.t.orders[id].provider
  }

  lemma {:induction false} ANoteMayCome(w: World, id: nat, token: Uuid)
    requires HeldUnder(w, id, token) && N.MayNote(w.t.orders[id])
    ensures !SupplierStays(w, id, token)
  {
    var o := w.t.orders[id];
    var note := PinSource(id, o.provider + "!", N.SourceSku("", "", ""));
    NoteIs(w, note, id);
    StepTo(w, [], w, note, Next(w, note));
    assert |Run(w, [] + [note]).t.orders[id].provider| == |o.provider| + 1;
    assert HeldUnder(Run(w, [] + [note]), id, token);
  }

  /**
   A claimant that reads the supplier may rely on it for as long as it holds the row, exactly
   when the same row says that the purchase has not started, or is not of an offer, or has
   noted its source already.
   */
  lemma {:induction false} TheSupplierReadIsCurrentIff(cap: Naira, steps: seq<Step>, id: nat, token: Uuid)
    requires HeldUnder(Run(Init(cap), steps), id, token)
    ensures var w := Run(Init(cap), steps);
            SupplierStays(w, id, token) <==> !N.MayNote(w.t.orders[id])
  {
    Reachable(cap, steps);
    var w := Run(Init(cap), steps);
    var o := w.t.orders[id];
    if N.MayNote(o) {
      ANoteMayCome(w, id, token);
    } else {
      forall more: seq<Step> | HeldUnder(Run(w, more), id, token)
        ensures Run(w, more).t.orders[id].provider == o.provider
      {
        HeldRowStays(w, more, id, token);
      }
    }
  }

  // ---------------------------------------------------------------------
  // Errands that read before they claim
  // ---------------------------------------------------------------------

  /** What a recheck read when it decides that the purchase never started, or that its outcome is unknown. */
  ghost predicate ReadNotStarted(w: World, job: nat) {
    && job in w.errands && w.errands[job].token.Some?
    && w.errands[job].kind.Recheck? && w.errands[job].status.Reserved? && !w.errands[job].started
  }

  ghost predicate ReadUnknown(w: World, job: nat) {
    && job in w.errands && w.errands[job].token.Some?
    && w.errands[job].kind.Recheck? && w.errands[job].status.Reserved? && w.errands[job].started
    && w.errands[job].providerOrder.None?
  }

  /** What a cancellation read when it decides that there is no supplier to tell. */
  ghost predicate ReadNoNumber(w: World, job: nat) {
    && job in w.errands && w.errands[job].token.Some?
    && w.errands[job].kind.Cancel? && w.errands[job].providerOrder.None?
  }

  /** Holding a row under a token means its row is the one the token was granted on, but for the source. */
  lemma {:induction false} HeldRowIsTheGrantedRow(cap: Naira, steps: seq<Step>, id: nat, token: Uuid)
    requires HeldUnder(Run(Init(cap), steps), id, token)
    ensures var w := Run(Init(cap), steps);
            token in w.pins && w.pins[token].order == id && N.SameButSource(w.pins[token].row, w.t.orders[id])
  {
    Reachable(cap, steps);
    var w := Run(Init(cap), steps);
    assert PinOk(w.pins, id, w.t.orders[id]);
  }

  /** A transition that changes the tables was made under the token it presents. */
  lemma {:induction false} TransitNeedsItsToken(w: World, id: nat, token: Uuid, move: N.Transition, now: int)
    requires NextOrder(w, Transit(id, Some(token), move, now)).t != w.t && move.GiveBack?
    ensures var v := NextOrder(w, Transit(id, Some(token), move, now));
            && HeldUnder(w, id, token) && id < |v.t.orders|
            && N.RefundMove(w.t.Desk(), v.t.Desk(), id) && v.t.orders[id].status == move.status
  {
    N.ApplyMoves(w.t.Desk(), id, Some(token), move, now);
    assert w.t.WithDesk(w.t.Desk()) == w.t;
  }

  /**
   When a recheck gives an order back as "purchase not started", the purchase had in fact not
   started exactly when the row its claim was granted on said so. What it read before the
   claim, and acts on, does not come into it.
   */
  lemma {:induction false} NotStartedRefundIsRightIff(cap: Naira, steps: seq<Step>, job: nat,
                                                      answer: Option<N.Check>, refused: bool, now: int)
    requires ReadNotStarted(Run(Init(cap), steps), job)
    requires Next(Run(Init(cap), steps), DoErrand(job, answer, refused, now)).t != Run(Init(cap), steps).t
    ensures var w := Run(Init(cap), steps);
            var v := Next(w, DoErrand(job, answer, refused, now));
            var j := w.errands[job];
            && j.order < |w.t.orders| && j.order < |v.t.orders| && j.token.value in w.pins
            && w.pins[j.token.value].order == j.order
            && N.RefundMove(w.t.Desk(), v.t.Desk(), j.order) && v.t.orders[j.order].status == N.Failed
            && (!w.t.orders[j.order].started <==> !w.pins[j.token.value].row.started)
  {
    var w := Run(Init(cap), steps);
    var j := w.errands[job];
    TransitNeedsItsToken(w, j.order, j.token.value, N.GiveBack(N.Failed, "purchase_not_started"), now);
    HeldRowIsTheGrantedRow(cap, steps, j.order, j.token.value);
  }

  /**
   When a recheck sends an order to review as "outcome unknown", no number had in fact been
   assigned exactly when the row its claim was granted on named none.
   */
  lemma {:induction false} UnknownReviewIsRightIff(cap: Naira, steps: seq<Step>, job: nat,
                                                   answer: Option<N.Check>, refused: bool, now: int)
    requires ReadUnknown(Run(Init(cap), steps), job)
    requires Next(Run(Init(cap), steps), DoErrand(job, answer, refused, now)).t != Run(Init(cap), steps).t
    ensures var w := Run(Init(cap), steps);
            var v := Next(w, DoErrand(job, answer, refused, now));
            var j := w.errands[job];
            && j.order < |w.t.orders| && j.order < |v.t.orders| && j.token.value in w.pins
            && w.pins[j.token.value].order == j.order
            && v.t.orders[j.order].status == N.ReviewRequired && v.t.book == w.t.book
            && v.t.orders[j.order].providerOrder == w.t.orders[j.order].providerOrder
            && (w.t.orders[j.order].providerOrder.None? <==> w.pins[j.token.value].row.providerOrder.None?)
  {
    var w := Run(Init(cap), steps);
    var j := w.errands[job];
    ReviewNeedsItsToken(w, j.order, j.token.value, now);
    HeldRowIsTheGrantedRow(cap, steps, j.order, j.token.value);
  }

  function UnderReview(o: N.Order): N.Order {
    o.(status := N.ReviewRequired, reviewReason := N.UNKNOWN_OUTCOME, claim := None)
  }

  lemma {:induction false} ReviewNeedsItsToken(w: World, id: nat, token: Uuid, now: int)
    requires NextOrder(w, Review(id, token, N.UNKNOWN_OUTCOME, now)).t != w.t
    ensures HeldUnder(w, id, token)
    ensures var u := NextOrder(w, Review(id, token, N.UNKNOWN_OUTCOME, now)).t;
      u == w.t.(orders := w.t.orders[id := UnderReview(w.t.orders[id])])
  {
    if id < |w.t.orders| {
      assert w.t.orders[id := w.t.orders[id]] == w.t.orders;
    }
  }

  /**
   When a cancellation gives an order back without asking a supplier, there was in fact no
   supplier's number to release exactly when the row its claim was granted on named none.
   */
  lemma {:induction false} SilentCancelIsRightIff(cap: Naira, steps: seq<Step>, job: nat,
                                                  answer: Option<N.Check>, refused: bool, now: int)
    requires ReadNoNumber(Run(Init(cap), steps), job)
    requires Next(Run(Init(cap), steps), DoErrand(job, answer, refused, now)).t != Run(Init(cap), steps).t
    ensures var w := Run(Init(cap), steps);
            var v := Next(w, DoErrand(job, answer, refused, now));
            var j := w.errands[job];
            && j.order < |w.t.orders| && j.order < |v.t.orders| && j.token.value in w.pins
            && w.pins[j.token.value].order == j.order
            && N.RefundMove(w.t.Desk(), v.t.Desk(), j.order) && v.t.orders[j.order].status == N.Cancelled
            && (w.t.orders[j.order].providerOrder.None? <==> w.pins[j.token.value].row.providerOrder.None?)
  {
    var w := Run(Init(cap), steps);
    var j := w.errands[job];
    TransitNeedsItsToken(w, j.order, j.token.value, N.GiveBack(N.Cancelled, "cancelled"), now);
    HeldRowIsTheGrantedRow(cap, steps, j.order, j.token.value);
  }

  // ---------------------------------------------------------------------
  // Runs in which what was read is stale
  // ---------------------------------------------------------------------

  /** An order nobody has claimed or started, before anyone's first claim or recheck. */
  ghost predicate HasFreshOrder(w: World, id: nat) {
    && id < |w.t.orders| && w.t.orders[id].status == N.Reserved
    && !w.t.orders[id].started && w.t.orders[id].claim == None
    && w.t.orders[id].byOffer && w.t.orders[id].source == None && w.t.orders[id].inbox == []
    && w.t.orders[id].providerOrder == None && w.pins == map[] && w.errands == map[]
  }

  /** Top up a hundred, confirm it, spend it on a number: a run to a fresh order. */
  lemma {:induction false} AFreshOrderIsReachable(cap: Naira, user: Uuid, supplier: string, key: Uuid)
    returns (steps: seq<Step>)
    ensures HasFreshOrder(Run(Init(cap), steps), 0) && Run(Init(cap), steps).t.orders[0].provider == supplier
  {
    var x := F.Intent(user, 100.0, F.Paystack, "NVFD-1", F.Pending, None, 0);
    var s1 := OpenIntent(user, 100.0, 0, F.Paystack, "NVFD-1", 0);
    var s2 := ReadIntent(0, 0);
    var s3 := Hear(0, F.Paystack, F.Data("success", 10000, None));
    var c := Call(0, user, "NVFD-1", 100.0, None);
    var heard := c.(verdict := Some(F.Answered(F.ChargeSucceeded(100.0))));
    var w1 := Init(cap).(t := Tables([], [x], []));
    var w2 := w1.(calls := map[0 := c]);
    var w3 := w1.(calls := map[0 := heard]);
    StepTo(Init(cap), [], Init(cap), s1, w1);
    StepTo(Init(cap), [] + [s1], w1, s2, w2);
    StepTo(Init(cap), [] + [s1] + [s2], w2, s3, w3);
    var w4 := PromptCommit(w3, x, heard);
    StepTo(Init(cap), [] + [s1] + [s2] + [s3], w3, Commit(0), w4);
    var buy := Buy(user, 100.0, supplier, true, "NVNO-1", key, 0);
    FirstBuy(w4, user, supplier, key);
    StepTo(Init(cap), [] + [s1] + [s2] + [s3] + [Commit(0)], w4, buy, Next(w4, buy));
    steps := [] + [s1] + [s2] + [s3] + [Commit(0)] + [buy];
  }

  lemma {:induction false} PromptCommit(w: World, row: F.Intent, heard: Call) returns (v: World)
    requires w.t == Tables([], [row], []) && w.calls == map[0 := heard] && row.status == F.Pending
    requires heard == Call(0, row.user, row.reference, heard.amount, Some(F.Answered(F.ChargeSucceeded(100.0))))
    ensures v == Next(w, Commit(0)) && v.t.orders == [] && v.pins == w.pins && v.errands == w.errands
    ensures N.Balance(v.t.book, row.user) == 100.0
  {
    v := Next(w, Commit(0));
    FundingFrame(w, Commit(0));
    FirstCredit(row, 100.0);
  }

  lemma {:induction false} FirstBuy(w: World, user: Uuid, supplier: string, key: Uuid)
    requires w.t.orders == [] && N.Balance(w.t.book, user) == 100.0 && w.pins == map[] && w.errands == map[]
    ensures var v := Next(w, Buy(user, 100.0, supplier, true, "NVNO-1", key, 0));
            HasFreshOrder(v, 0) && v.t.orders[0].provider == supplier
  {
    assert !N.IntentTaken([], user, key) && !N.ReferenceTaken([], "NVNO-1");
    var d := N.Reserve(w.t.Desk(), user, 100.0, supplier, true, "NVNO-1", key, 0);
    assert d.Ok?;
  }

  /**
   From any fresh order: the errand reads the row, the purchase starts and gets its number,
   the errand claims the row and acts on what it read. A recheck gives the order back as
   not started, a cancellation gives it back without telling the supplier.
   */
  lemma {:induction false} ReadThenClaimMayBeStale(w: World, id: nat, kind: ErrandKind, buyer: Uuid, claimant: Uuid,
                                                   number: string, now: int) returns (more: seq<Step>)
    requires HasFreshOrder(w, id) && buyer != claimant
    ensures id < |Run(w, more).t.orders|
    ensures var o := Run(w, more).t.orders[id];
      && o.started && o.providerOrder == Some(number)
      && o.status == if kind.Recheck? then N.Failed else N.Cancelled
  {
    var o := w.t.orders[id];
    var note := Errand(kind, id, N.Reserved, false, None, None);
    var read := if kind.Recheck? then ReadRecheck(0, id) else ReadCancel(0, id, o.user);
    var w1 := w.(errands := map[0 := note]);
    StepTo(w, [], w, read, w1);
    var w2 := Bought(w1, id, buyer, number, now);
    var start, assign := Start(id, buyer, now), Assign(id, buyer, number, now + 900, now);
    StepTo(w, [] + [read], w1, start, Next(w1, start));
    StepTo(w, [] + [read] + [start], Next(w1, start), assign, w2);
    var w3 := Claimed(w2, id, claimant, now);
    var claim, act := ClaimErrand(0, claimant, now), DoErrand(0, None, false, now);
    StepTo(w, [] + [read] + [start] + [assign], w2, claim, w3);
    StaleRefund(w3, id, claimant, now);
    StepTo(w, [] + [read] + [start] + [assign] + [claim], w3, act, Next(w3, act));
    more := [] + [read] + [start] + [assign] + [claim] + [act];
  }

  /**
   The recheck that reads "started, no number" just before the number is assigned sends the
   order, number and all, to review as an unknown outcome.
   */
  lemma {:induction false} AnAssignedNumberMayGoToReview(cap: Naira, user: Uuid, key: Uuid, buyer: Uuid, operator: Uuid,
                                                         number: string) returns (steps: seq<Step>)
    requires buyer != operator
    ensures |Run(Init(cap), steps).t.orders| > 0
    ensures var o := Run(Init(cap), steps).t.orders[0];
            o.status == N.ReviewRequired && o.reviewReason == N.UNKNOWN_OUTCOME && o.providerOrder == Some(number)
  {
    var before := AFreshOrderIsReachable(cap, user, "stub", key);
    var w := Run(Init(cap), before);
    var started := N.StartPurchase(w.t.orders[0], buyer, 0);
    var w1 := GrantTo(w, 0, started, buyer);
    var w2 := w1.(errands := map[0 := Errand(Recheck, 0, N.Reserved, true, None, None)]);
    var w3 := PutOrder(w2, 0, N.AssignNumber(started, buyer, number, 900, 0));
    var s1, s2, s3 := Start(0, buyer, 0), ReadRecheck(0, 0), Assign(0, buyer, number, 900, 0);
    StartedRead(w, 0, buyer, number, 0);
    StepTo(Init(cap), before, w, s1, w1);
    StepTo(Init(cap), before + [s1], w1, s2, w2);
    StepTo(Init(cap), before + [s1] + [s2], w2, s3, w3);
    var w4 := Claimed(w3, 0, operator, 0);
    var claim, act := ClaimErrand(0, operator, 0), DoErrand(0, None, false, 0);
    StepTo(Init(cap), before + [s1] + [s2] + [s3], w3, claim, w4);
    StaleReview(w4, 0, operator, 0);
    StepTo(Init(cap), before + [s1] + [s2] + [s3] + [claim], w4, act, Next(w4, act));
    steps := before + [s1] + [s2] + [s3] + [claim] + [act];
  }

  lemma {:induction false} StartedRead(w: World, id: nat, buyer: Uuid, number: string, now: int)
    requires HasFreshOrder(w, id)
    ensures var started := N.StartPurchase(w.t.orders[id], buyer, now);
      var w1 := GrantTo(w, id, started, buyer);
      var w2 := w1.(errands := map[0 := Errand(Recheck, id, N.Reserved, true, None, None)]);
      && Next(w, Start(id, buyer, now)) == w1 && Next(w1, ReadRecheck(0, id)) == w2
      && Next(w2, Assign(id, buyer, number, now + 900, now))
         == PutOrder(w2, id, N.AssignNumber(started, buyer, number, now + 900, now))
      && N.AssignNumber(started, buyer, number, now + 900, now).status == N.AwaitingCode
  {
    var started := N.StartPurchase(w.t.orders[id], buyer, now);
    var w1 := GrantTo(w, id, started, buyer);
    assert w1.t.orders[id] == started;
  }

  lemma {:induction false} StaleReview(w: World, id: nat, operator: Uuid, now: int)
    requires id < |w.t.orders| && w.t.orders[id].status == N.AwaitingCode && N.Current(w.t.orders[id], operator, now)
    requires 0 in w.errands && w.errands[0] == Errand(Recheck, id, N.Reserved, true, None, Some(operator))
    ensures id < |Next(w, DoErrand(0, None, false, now)).t.orders|
    ensures Next(w, DoErrand(0, None, false, now)).t.orders[id]
         == w.t.orders[id].(status := N.ReviewRequired, reviewReason := N.UNKNOWN_OUTCOME, claim := None)
  {
  }

  /** The purchase starts and gets its number. */
  lemma {:induction false} Bought(w: World, id: nat, buyer: Uuid, number: string, now: int) returns (v: World)
    requires id < |w.t.orders| && w.t.orders[id].status == N.Reserved && !w.t.orders[id].started
    requires w.t.orders[id].claim == None
    requires w.pins == map[]
    ensures v == Next(Next(w, Start(id, buyer, now)), Assign(id, buyer, number, now + 900, now))
    ensures id < |v.t.orders| && v.errands == w.errands && v.pins.Keys == {buyer}
    ensures var o := v.t.orders[id];
            o.status == N.AwaitingCode && o.started && o.claim == None && o.providerOrder == Some(number)
  {
    var started := N.StartPurchase(w.t.orders[id], buyer, now);
    var u := GrantTo(w, id, started, buyer);
    assert Next(w, Start(id, buyer, now)) == u;
    assert u.t.orders[id] == started;
    v := PutOrder(u, id, N.AssignNumber(started, buyer, number, now + 900, now));
  }

  /** The errand claims the row it read earlier. */
  lemma {:induction false} Claimed(w: World, id: nat, claimant: Uuid, now: int) returns (v: World)
    requires id < |w.t.orders| && w.t.orders[id].status == N.AwaitingCode && w.t.orders[id].claim == None
    requires claimant !in w.pins && w.errands.Keys == {0} && w.errands[0].order == id && w.errands[0].token == None
    ensures v == Next(w, ClaimErrand(0, claimant, now))
    ensures id < |v.t.orders| && v.t.orders[id] == N.Grant(w.t.orders[id], claimant, now)
    ensures v.errands == map[0 := w.errands[0].(token := Some(claimant))]
  {
    v := Next(w, ClaimErrand(0, claimant, now));
    assert v.t.orders == w.t.orders[id := N.Grant(w.t.orders[id], claimant, now)];
  }

  lemma {:induction false} StaleRefund(w: World, id: nat, claimant: Uuid, now: int)
    requires id < |w.t.orders| && w.t.orders[id].status.Held() && N.Current(w.t.orders[id], claimant, now)
    requires 0 in w.errands && w.errands[0] == Errand(w.errands[0].kind, id, N.Reserved, false, None, Some(claimant))
    ensures id < |Next(w, DoErrand(0, None, false, now)).t.orders|
    ensures var o := Next(w, DoErrand(0, None, false, now)).t.orders[id];
      && o.status == (if w.errands[0].kind.Recheck? then N.Failed else N.Cancelled)
      && o.started == w.t.orders[id].started && o.providerOrder == w.t.orders[id].providerOrder
  {
    var j := w.errands[0];
    SilentWrite(j, claimant, now);
    ErrandActs(w, 0, None, false, now);
    GivenBack(w, id, claimant, if j.kind.Recheck? then N.Failed else N.Cancelled, SilentReason(j.kind), now);
  }

  function SilentReason(kind: ErrandKind): string {
    if kind.Recheck? then "purchase_not_started" else "cancelled"
  }

  lemma {:induction false} SilentWrite(j: Errand, token: Uuid, now: int)
    requires j.status.Reserved? && !j.started && j.providerOrder.None?
    ensures SilentReason(j.kind) != [] && !IsSpace(SilentReason(j.kind)[0])
    ensures var status := if j.kind.Recheck? then N.Failed else N.Cancelled;
      ErrandWrite(j, token, None, false, now)
      == Transit(j.order, Some(token), N.GiveBack(status, SilentReason(j.kind)), now)
  {
    assert SilentReason(j.kind)[0] in "pc";
  }

  lemma {:induction false} ErrandActs(w: World, job: nat, answer: Option<N.Check>, refused: bool, now: int)
    requires job in w.errands && w.errands[job].token.Some?
    ensures var j := w.errands[job];
      Next(w, DoErrand(job, answer, refused, now)).t
      == NextOrder(w, ErrandWrite(j, j.token.value, answer, refused, now)).t
  {
  }

  lemma {:induction false} GivenBack(w: World, id: nat, token: Uuid, status: N.RefundStatus, reason: string, now: int)
    requires id < |w.t.orders| && w.t.orders[id].status.Held() && N.Current(w.t.orders[id], token, now)
    requires reason != [] && !IsSpace(reason[0])
    ensures id < |NextOrder(w, Transit(id, Some(token), N.GiveBack(status, reason), now)).t.orders|
    ensures var o := NextOrder(w, Transit(id, Some(token), N.GiveBack(status, reason), now)).t.orders[id];
      o.status == status && o.started == w.t.orders[id].started && o.providerOrder == w.t.orders[id].providerOrder
  {
  }

  /**
   Both mistakes can happen: a run from the empty database to a started purchase given back
   as not started, or given back with its number never released.
   */
  lemma {:induction false} AStartedPurchaseMayBeGivenBack(cap: Naira, kind: ErrandKind, user: Uuid, key: Uuid,
                                                          buyer: Uuid,
                                                          claimant: Uuid, number: string) returns (steps: seq<Step>)
    requires buyer != claimant
    ensures |Run(Init(cap), steps).t.orders| > 0
    ensures var o := Run(Init(cap), steps).t.orders[0];
      && o.started && o.providerOrder == Some(number)
      && o.status == if kind.Recheck? then N.Failed else N.Cancelled
  {
    var before := AFreshOrderIsReachable(cap, user, "stub", key);
    var more := ReadThenClaimMayBeStale(Run(Init(cap), before), 0, kind, buyer, claimant, number, 0);
    RunAppend(Init(cap), before, more);
    steps := before + more;
  }

  lemma {:induction false} RunAppend(w: World, a: seq<Step>, b: seq<Step>)
    ensures Run(w, a + b) == Run(Run(w, a), b)
  {
    if b == [] {
      assert a + b == a;
    } else {
      var n := |b| - 1;
      assert a + b == a + b[..n] + [b[n]];
      RunSnoc(w, a + b[..n], b[n]);
      RunAppend(w, a, b[..n]);
    }
  }

  /**
   A claim does not pin the supplier. The purchase's claim runs out while it is still buying, a
   worker claims the row, and only then does the purchase note where it bought: the worker's
   claim is current and the supplier it was granted is not the one the row names.
   */
  lemma {:induction false} AClaimDoesNotPinTheSupplier(cap: Naira, user: Uuid, key: Uuid, buyer: Uuid, worker: Uuid,
                                                       first: string, second: string, source: N.SourceSku)
    returns (steps: seq<Step>)
    requires buyer != worker && first != second
    ensures var w := Run(Init(cap), steps);
      && |w.t.orders| > 0 && N.Current(w.t.orders[0], worker, 61) && worker in w.pins
      && w.pins[worker].row.provider == first && w.t.orders[0].provider == second
  {
    var before := AFreshOrderIsReachable(cap, user, first, key);
    var w := Run(Init(cap), before);
    var started := N.StartPurchase(w.t.orders[0], buyer, 0);
    var s1, s2, s3 := Start(0, buyer, 0), Take(0, Worker, worker, 61), PinSource(0, second, source);
    var w1 := GrantTo(w, 0, started, buyer);
    var taken := N.Grant(started, worker, 61);
    var w2 := GrantTo(w1, 0, taken, worker);
    var w3 := PutOrder(w2, 0, N.PinSource(taken, second, source));
    assert Next(w1, s2) == w2 by { assert w1.t.orders[0] == started; }
    assert Next(w2, s3) == w3 by { assert w2.t.orders[0] == taken; }
    StepTo(Init(cap), before, w, s1, w1);
    StepTo(Init(cap), before + [s1], w1, s2, w2);
    StepTo(Init(cap), before + [s1] + [s2], w2, s3, w3);
    steps := before + [s1] + [s2] + [s3];
  }

  // ---------------------------------------------------------------------
  // Operator refunds
  // ---------------------------------------------------------------------

  /** Whenever an operator's refund changes the tables, it refunds one held order priced within the cap. */
  lemma {:induction false} OperatorRefundsRespectTheCap(cap: Naira, steps: seq<Step>, job: nat, now: int)
    requires Next(Run(Init(cap), steps), DoRefund(job, now)).t != Run(Init(cap), steps).t
    ensures var w := Run(Init(cap), steps);
            && job in w.jobs && w.jobs[job].order < |w.t.orders|
            && var id := w.jobs[job].order;
               && w.t.orders[id].price <= cap
               && N.RefundMove(w.t.Desk(), Next(w, DoRefund(job, now)).t.Desk(), id)
  {
    Reachable(cap, steps);
    var w := Run(Init(cap), steps);
    assert JobOk(w, w.jobs[job]);
    OperatorRefundApplies(w, job, now);
  }

  /** No order is audited as refunded twice, and each audit names the order's refund journal, within the cap. */
  lemma {:induction false} AuditsNameTheRefund(cap: Naira, steps: seq<Step>)
    ensures var w := Run(Init(cap), steps);
      && (forall i, k :: 0 <= i < k < |w.audits| ==> w.audits[i].order != w.audits[k].order)
      && (forall i :: 0 <= i < |w.audits| ==>
            var a := w.audits[i];
            && a.order < |w.t.orders| && w.t.orders[a.order].price <= cap
            && a.journal.Some? && a.journal == w.t.orders[a.order].refunded
            && Holds(w.t.book, a.journal.value, N.RefundJournal(w.t.orders[a.order])))
  {
    Reachable(cap, steps);
    var w := Run(Init(cap), steps);
    forall i | 0 <= i < |w.audits|
      ensures Holds(w.t.book, w.audits[i].journal.value, N.RefundJournal(w.t.orders[w.audits[i].order]))
    {
      assert AuditOk(w, w.audits[i]);
      assert OrderOk(w.t.book, w.t.orders[w.audits[i].order]);
    }
  }

  lemma {:induction false} AuditsGrow(w: World, steps: seq<Step>)
    ensures w.audits <= Run(w, steps).audits
  {
    if steps != [] {
      AuditsGrow(w, steps[..|steps| - 1]);
      FundingFrame(Run(w, steps[..|steps| - 1]), steps[|steps| - 1]);
      OrderFrame(Run(w, steps[..|steps| - 1]), steps[|steps| - 1]);
      ErrandFrame(Run(w, steps[..|steps| - 1]), steps[|steps| - 1]);
      NextIs(Run(w, steps[..|steps| - 1]), steps[|steps| - 1]);
    }
  }

  lemma {:induction false} AuditFacts(w: World, i: nat)
    requires WorldInv(w) && i < |w.audits|
    ensures AuditOk(w, w.audits[i])
  {
  }

  lemma {:induction false} AuditedAnswers(v: World, i: nat, job: nat)
    requires i < |v.audits| && AuditOk(v, v.audits[i])
    ensures AnswerRefund(v, v.audits[i].order, v.audits[i].key) == Replayed(v.audits[i].journal)
    ensures Next(v, AskRefund(job, v.audits[i].order, v.audits[i].key)) == v
  {
    assert Audited(v.audits, v.audits[i].order, v.audits[i].key);
  }

  /**
   An audited key replays for ever: however the run continues, asking again with
   the same order and key changes nothing and answers with the audited journal.
   */
  lemma {:induction false} AuditedRefundsReplay(cap: Naira, steps: seq<Step>, more: seq<Step>, i: nat, job: nat)
    requires i < |Run(Init(cap), steps).audits|
    ensures var a := Run(Init(cap), steps).audits[i];
            var v := Run(Run(Init(cap), steps), more);
            && AnswerRefund(v, a.order, a.key) == Replayed(a.journal)
            && Next(v, AskRefund(job, a.order, a.key)) == v
  {
    var w := Run(Init(cap), steps);
    Reachable(cap, steps);
    AuditsGrow(w, more);
    RunKeeps(w, more);
    AuditFacts(Run(w, more), i);
    AuditedAnswers(Run(w, more), i, job);
  }

  lemma {:induction false} AppliedFacts(w: World, job: nat)
    requires WorldInv(w) && job in w.jobs && w.jobs[job].stage == Applied
    ensures w.jobs[job].order < |w.t.orders|
    ensures var o := w.t.orders[w.jobs[job].order]; o.status == N.Cancelled && o.refunded.Some?
    ensures forall i :: 0 <= i < |w.audits| ==> w.audits[i].order != w.jobs[job].order
  {
    assert JobOk(w, w.jobs[job]);
    assert OrderOk(w.t.book, w.t.orders[w.jobs[job].order]);
  }

  /** The order was given back, and no audit of that is written or ever will be. */
  ghost predicate Orphan(w: World, id: nat) {
    && id < |w.t.orders| && w.t.orders[id].status == N.Cancelled && w.t.orders[id].refunded.Some?
    && NoPaper(w, id)
  }

  ghost predicate NoPaper(w: World, id: nat) {
    && (forall i :: 0 <= i < |w.audits| ==> w.audits[i].order != id)
    && (forall k :: k in w.jobs && w.jobs[k].order == id ==> w.jobs[k].stage != Applied)
  }

  lemma {:induction false} DoRefundLeavesOrphans(w: World, job: nat, now: int, id: nat)
    requires PinsOk(w) && JobsOk(w) && Orphan(w, id)
    ensures NoPaper(NextRefund(w, DoRefund(job, now)), id)
  {
    if job in w.jobs && w.jobs[job].stage.Claimed? {
      assert JobOk(w, w.jobs[job]);
      OperatorRefundApplies(w, job, now);
    }
  }

  /** What a step of refund jobs may do to an order that is already closed: nothing that ends in an audit of it. */
  lemma {:induction false} RefundLeavesOrphans(w: World, s: Step, id: nat)
    requires PinsOk(w) && JobsOk(w) && Orphan(w, id)
    ensures NoPaper(NextRefund(w, s), id)
  {
    if s.DoRefund? {
      DoRefundLeavesOrphans(w, s.job, s.now, id);
    }
  }

  lemma {:induction false} OrphansStay(w: World, s: Step, id: nat)
    requires WorldInv(w) && Orphan(w, id)
    ensures Orphan(Next(w, s), id)
  {
    NextKeeps(w, s);
    assert OrderAdvances(w.t.orders[id], Next(w, s).t.orders[id]);
    NextIs(w, s);
    FundingFrame(w, s);
    OrderFrame(w, s);
    ErrandFrame(w, s);
    RefundLeavesOrphans(w, s, id);
  }

  lemma {:induction false} OrphanAnswers(w: World, id: nat, key: Uuid)
    requires Orphan(w, id)
    ensures AnswerRefund(w, id, key) == Conflict
  {
  }

  lemma {:induction false} OrphansStayForEver(w: World, more: seq<Step>, id: nat)
    requires WorldInv(w) && Orphan(w, id)
    ensures WorldInv(Run(w, more)) && Orphan(Run(w, more), id)
  {
    RunKeeps(w, more);
    if more != [] {
      var front := more[..|more| - 1];
      OrphansStayForEver(w, front, id);
      OrphansStay(Run(w, front), more[|more| - 1], id);
    }
  }

  /**
   The refund and its audit are two transactions. If the process dies between them the key is
   refused as a conflict in every continuation; if the audit is written it replays in every
   continuation: an applied refund replays exactly when its audit was written.
   */
  lemma {:induction false} AppliedRefundReplaysIffAudited(cap: Naira, steps: seq<Step>, job: nat, more: seq<Step>)
    requires job in Run(Init(cap), steps).jobs && Run(Init(cap), steps).jobs[job].stage == Applied
    ensures var w := Run(Init(cap), steps);
            var j := w.jobs[job];
            && j.order < |w.t.orders|
            && AnswerRefund(Run(Next(w, Crash(job)), more), j.order, j.key) == Conflict
            && AnswerRefund(Run(Next(w, WriteAudit(job)), more), j.order, j.key)
               == Replayed(w.t.orders[j.order].refunded)
  {
    var w := Run(Init(cap), steps);
    Reachable(cap, steps);
    AppliedFacts(w, job);
    AfterACrash(w, job, more);
    AfterTheAudit(cap, steps, job, more);
  }

  lemma {:induction false} AfterACrash(w: World, job: nat, more: seq<Step>)
    requires WorldInv(w) && job in w.jobs && w.jobs[job].stage == Applied && w.jobs[job].order < |w.t.orders|
    requires w.t.orders[w.jobs[job].order].status == N.Cancelled && w.t.orders[w.jobs[job].order].refunded.Some?
    requires forall i :: 0 <= i < |w.audits| ==> w.audits[i].order != w.jobs[job].order
    ensures AnswerRefund(Run(Next(w, Crash(job)), more), w.jobs[job].order, w.jobs[job].key) == Conflict
  {
    NextKeeps(w, Crash(job));
    CrashOrphans(w, job);
    OrphansStayForEver(Next(w, Crash(job)), more, w.jobs[job].order);
    OrphanAnswers(Run(Next(w, Crash(job)), more), w.jobs[job].order, w.jobs[job].key);
  }

  lemma {:induction false} AfterTheAudit(cap: Naira, steps: seq<Step>, job: nat, more: seq<Step>)
    requires job in Run(Init(cap), steps).jobs && Run(Init(cap), steps).jobs[job].stage == Applied
    requires Run(Init(cap), steps).jobs[job].order < |Run(Init(cap), steps).t.orders|
    ensures var w := Run(Init(cap), steps);
            var j := w.jobs[job];
            AnswerRefund(Run(Next(w, WriteAudit(job)), more), j.order, j.key) == Replayed(w.t.orders[j.order].refunded)
  {
    var w := Run(Init(cap), steps);
    RunSnoc(Init(cap), steps, WriteAudit(job));
    AuditWritten(w, job);
    AuditedRefundsReplay(cap, steps + [WriteAudit(job)], more, |w.audits|, job);
  }

  lemma {:induction false} AuditWritten(w: World, job: nat)
    requires job in w.jobs && w.jobs[job].stage == Applied && w.jobs[job].order < |w.t.orders|
    ensures var j := w.jobs[job];
            Next(w, WriteAudit(job)).audits == w.audits + [RefundAudit(j.order, j.key, w.t.orders[j.order].refunded)]
  {
  }

  lemma {:induction false} CrashOrphans(w: World, job: nat)
    requires JobsOk(w) && job in w.jobs && w.jobs[job].stage == Applied && w.jobs[job].order < |w.t.orders|
    requires w.t.orders[w.jobs[job].order].status == N.Cancelled && w.t.orders[w.jobs[job].order].refunded.Some?
    requires forall i :: 0 <= i < |w.audits| ==> w.audits[i].order != w.jobs[job].order
    ensures Orphan(Next(w, Crash(job)), w.jobs[job].order)
  {
    var v := w.(jobs := w.jobs - {job});
    assert Next(w, Crash(job)) == v;
    forall k | k in v.jobs && v.jobs[k].order == w.jobs[job].order ensures v.jobs[k].stage != Applied {
      assert !BothApplied(w.jobs[k], w.jobs[job]);
    }
  }
}
