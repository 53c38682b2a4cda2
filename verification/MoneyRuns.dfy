/**
 Every interleaving of page polls, sweeps, provider answers, abandonment, purchases,
 worker and customer claims, supplier checks and operator refunds, one transaction
 at a time. A handler that spans several transactions is several steps, and any
 other step may come between them.
 */
module MoneyRuns {
  import opened Base
  import opened Ledger
  import opened MoneyTables
  import F = Funding
  import N = NumberOrders

  /** A poll or a sweep that has read a pending row and not yet finished with it. */
  datatype Call = Call(id: nat, user: Uuid, reference: string, amount: Naira, verdict: Option<F.Verdict>)

  /** The row exactly as it was when its claim was granted, which is what the claimant acts on. */
  datatype Pin = Pin(order: nat, row: N.Order)

  datatype Stage = Passed | Claimed(token: Uuid) | Applied

  datatype RefundJob = RefundJob(order: nat, key: Uuid, stage: Stage)

  /** The audit row of an operator refund: its target, the idempotency key and the refund journal it records. */
  datatype RefundAudit = RefundAudit(order: nat, key: Uuid, journal: Option<nat>)

  datatype ErrandKind = Recheck | Cancel

  /**
   An operator's recheck or a customer's cancellation: what it read of the order, and later the
   token of its claim.
   */
  datatype Errand = Errand(
    kind: ErrandKind, order: nat, status: N.Status, started: bool, providerOrder: Option<string>, token: Option<Uuid>)

  datatype World = World(
    t: Tables, calls: map<nat, Call>, pins: map<Uuid, Pin>,
    jobs: map<nat, RefundJob>, audits: seq<RefundAudit>, errands: map<nat, Errand>, cap: Naira)

  function Init(cap: Naira): World {
    World(Tables([], [], []), map[], map[], map[], [], map[], cap)
  }

  datatype Claimant = Worker | Operator | Customer

  datatype Step =
    | OpenIntent(user: Uuid, amount: Naira, scale: nat, provider: F.Provider, reference: string, now: int)
    | ReadIntent(call: nat, intent: nat)
    | Hear(call: nat, provider: F.Provider, reply: F.Reply)
    | Commit(call: nat)
    | Abandon(now: int)
    | Buy(user: Uuid, price: Naira, supplier: string, byOffer: bool, reference: string, key: Uuid, now: int)
    | Start(order: nat, token: Uuid, now: int)
    | PinSource(order: nat, supplier: string, source: N.SourceSku)
    | Assign(order: nat, token: Uuid, number: string, expiresAt: int, now: int)
    | Recover(order: nat, token: Uuid, number: string, expiresAt: int)
    | Review(order: nat, token: Uuid, reason: string, now: int)
    | Release(order: nat, token: Uuid)
    | Take(order: nat, claimant: Claimant, token: Uuid, now: int)
    | Transit(order: nat, presented: Option<Uuid>, transition: N.Transition, now: int)
    | Checked(order: nat, presented: Option<Uuid>, check: N.Check, now: int)
    | AskRefund(job: nat, order: nat, key: Uuid)
    | ClaimRefund(job: nat, token: Uuid, now: int)
    | DoRefund(job: nat, now: int)
    | WriteAudit(job: nat)
    | Crash(job: nat)
    | ReadRecheck(job: nat, order: nat)
    | ReadCancel(job: nat, order: nat, user: Uuid)
    | ClaimErrand(job: nat, token: Uuid, now: int)
    | DoErrand(job: nat, answer: Option<N.Check>, refused: bool, now: int)

  // ---------------------------------------------------------------------
  // Top-ups
  // ---------------------------------------------------------------------

  function NextFunding(w: World, s: Step): World {
    match s
    case OpenIntent(user, amount, scale, provider, reference, now) =>
      (match F.Create(w.t.Funds(), user, amount, scale, provider, reference, now)
       case Ok(f) => w.(t := w.t.WithFunds(f))
       case Err(_) => w)
    case ReadIntent(call, i) =>
      if call !in w.calls && i < |w.t.intents| && w.t.intents[i].status == F.Pending then
        var row := w.t.intents[i];
        w.(calls := w.calls[call := Call(i, row.user, row.reference, row.amount, None)])
      else w
    case Hear(call, provider, reply) =>
      if call in w.calls && w.calls[call].verdict == None then
        var c := w.calls[call];
        w.(calls := w.calls[call := c.(verdict := Some(F.Verify(provider, reply, c.amount)))])
      else w
    case Commit(call) =>
      if call in w.calls && w.calls[call].verdict.Some? && w.calls[call].id < |w.t.intents| then
        var c := w.calls[call];
        w.(t := w.t.WithFunds(F.Settle(w.t.Funds(), c.id, c.user, c.reference, c.verdict.value).funds),
           calls := w.calls - {call})
      else w
    case Abandon(now) => w.(t := w.t.WithFunds(F.Abandon(w.t.Funds(), now)))
    case _ => w
  }

  // ---------------------------------------------------------------------
  // Orders
  // ---------------------------------------------------------------------

  function PutOrder(w: World, id: nat, o: N.Order): World
    requires id < |w.t.orders|
  {
    w.(t := w.t.(orders := w.t.orders[id := o]))
  }

  /** Fresh tokens only: the database draws them at random. */
  function GrantTo(w: World, id: nat, o: N.Order, token: Uuid): World
    requires id < |w.t.orders|
  {
    PutOrder(w, id, o).(pins := w.pins[token := Pin(id, o)])
  }

  predicate MayTake(o: N.Order, claimant: Claimant, now: int) {
    match claimant
    case Worker => N.CanSweep(o, now)
    case Operator => N.CanClaimHeld(o, now)
    case Customer => N.CanClaimOpen(o, now)
  }

  function NextOrder(w: World, s: Step): World {
    match s
    case Buy(user, price, supplier, byOffer, reference, key, now) =>
      (match N.Reserve(w.t.Desk(), user, price, supplier, byOffer, reference, key, now)
       case Ok(d) => w.(t := w.t.WithDesk(d))
       case Err(_) => w)
    case Start(id, token, now) =>
      if id < |w.t.orders| && token !in w.pins && N.StartPurchase(w.t.orders[id], token, now) != w.t.orders[id]
      then GrantTo(w, id, N.StartPurchase(w.t.orders[id], token, now), token)
      else w
    case Take(id, claimant, token, now) =>
      if id < |w.t.orders| && token !in w.pins && MayTake(w.t.orders[id], claimant, now)
      then GrantTo(w, id, N.Grant(w.t.orders[id], token, now), token)
      else w
    case PinSource(id, supplier, source) =>
      if id < |w.t.orders| then PutOrder(w, id, N.PinSource(w.t.orders[id], supplier, source)) else w
    case Assign(id, token, number, expiresAt, now) =>
      if id < |w.t.orders| then PutOrder(w, id, N.AssignNumber(w.t.orders[id], token, number, expiresAt, now)) else w
    case Recover(id, token, number, expiresAt) =>
      if id < |w.t.orders| then PutOrder(w, id, N.Recover(w.t.orders[id], token, number, expiresAt)) else w
    case Review(id, token, reason, now) =>
      if id < |w.t.orders| then PutOrder(w, id, N.MarkReview(w.t.orders[id], token, reason, now)) else w
    case Release(id, token) =>
      if id < |w.t.orders| then PutOrder(w, id, N.Release(w.t.orders[id], token)) else w
    case Transit(id, token, transition, now) =>
      if id < |w.t.orders| then w.(t := w.t.WithDesk(N.Apply(w.t.Desk(), id, token, transition, now).desk)) else w
    case Checked(id, token, check, now) =>
      if id < |w.t.orders| then w.(t := w.t.WithDesk(N.ApplyCheck(w.t.Desk(), id, token, check, now).desk)) else w
    case _ => w
  }

  // ---------------------------------------------------------------------
  // Operator refunds
  // ---------------------------------------------------------------------

  predicate Audited(audits: seq<RefundAudit>, order: nat, key: Uuid) {
    exists i :: 0 <= i < |audits| && audits[i].order == order && audits[i].key == key
  }

  datatype Answer = Replayed(journal: Option<nat>) | NotFound | Conflict | OverCap | Accepted

  /** The first part of the request: replay an audited key, or check what was read. */
  function AnswerRefund(w: World, order: nat, key: Uuid): Answer {
    if Audited(w.audits, order, key) && order < |w.t.orders| then Replayed(w.t.orders[order].refunded)
    else if order >= |w.t.orders| then NotFound
    else if w.t.orders[order].refunded.Some? || !w.t.orders[order].status.Held() then Conflict
    else if w.t.orders[order].price > w.cap then OverCap
    else Accepted
  }

  const GIVE_BACK: N.Transition := N.GiveBack(N.Cancelled, "operator")

  function NextRefund(w: World, s: Step): World {
    match s
    case AskRefund(job, order, key) =>
      if job !in w.jobs && AnswerRefund(w, order, key) == Accepted
      then w.(jobs := w.jobs[job := RefundJob(order, key, Passed)])
      else w
    case ClaimRefund(job, token, now) =>
      if job in w.jobs && w.jobs[job].stage == Passed && w.jobs[job].order < |w.t.orders| && token !in w.pins then
        var j := w.jobs[job];
        if N.CanClaimHeld(w.t.orders[j.order], now)
        then GrantTo(w, j.order, N.Grant(w.t.orders[j.order], token, now), token)
               .(jobs := w.jobs[job := j.(stage := Claimed(token))])
        else w.(jobs := w.jobs - {job})
      else w
    case DoRefund(job, now) =>
      if job in w.jobs && w.jobs[job].stage.Claimed? && w.jobs[job].order < |w.t.orders| then
        var j := w.jobs[job];
        var m := N.Apply(w.t.Desk(), j.order, Some(j.stage.token), GIVE_BACK, now);
        if m.outcome.Ok?
        then w.(t := w.t.WithDesk(m.desk), jobs := w.jobs[job := j.(stage := Applied)])
        else w.(jobs := w.jobs - {job})
      else w
    case WriteAudit(job) =>
      if job in w.jobs && w.jobs[job].stage == Applied && w.jobs[job].order < |w.t.orders| then
        var j := w.jobs[job];
        w.(audits := w.audits + [RefundAudit(j.order, j.key, w.t.orders[j.order].refunded)], jobs := w.jobs - {job})
      else w
    case Crash(job) => w.(jobs := w.jobs - {job})
    case _ => w
  }

  // ---------------------------------------------------------------------
  // Rechecks and cancellations
  // ---------------------------------------------------------------------

  /** What a recheck does once it holds a claim: it acts on what it read before it claimed. */
  function RecheckWrite(j: Errand, token: Uuid, answer: Option<N.Check>, now: int): Step {
    if j.status.Reserved? && !j.started then
      Transit(j.order, Some(token), N.GiveBack(N.Failed, "purchase_not_started"), now)
    else if j.status.Reserved? && j.providerOrder.None? then Review(j.order, token, N.UNKNOWN_OUTCOME, now)
    else if j.providerOrder.None? || answer.None? then Release(j.order, token)
    else Checked(j.order, Some(token), answer.value, now)
  }

  /** What a cancellation does, likewise: without a supplier's order in what it read, it asks no supplier. */
  function CancelWrite(j: Errand, token: Uuid, answer: Option<N.Check>, refused: bool, now: int): Step {
    var giveBack := Transit(j.order, Some(token), N.GiveBack(N.Cancelled, "cancelled"), now);
    if j.providerOrder.None? then giveBack
    else if answer.None? then Release(j.order, token)
    else if answer.value.messages != [] || answer.value.closed then Checked(j.order, Some(token), answer.value, now)
    else if refused then Release(j.order, token)
    else giveBack
  }

  function ErrandWrite(j: Errand, token: Uuid, answer: Option<N.Check>, refused: bool, now: int): Step {
    if j.kind.Recheck? then RecheckWrite(j, token, answer, now) else CancelWrite(j, token, answer, refused, now)
  }

  function ErrandClaimant(j: Errand): Claimant {
    if j.kind.Recheck? then Operator else Customer
  }

  /** The customer may cancel their own open order that has received nothing. */
  predicate Cancellable(o: N.Order, user: Uuid) {
    o.user == user && (o.status.Reserved? || o.status.AwaitingCode?) && o.inbox == []
  }

  /** Read, claim, act: three transactions. Without an answer the supplier was busy or could not be reached. */
  function NextErrand(w: World, s: Step): World {
    match s
    case ReadRecheck(job, order) =>
      if job in w.errands || order >= |w.t.orders| then w
      else
        var row := w.t.orders[order];
        if row.status.ReviewRequired? && row.providerOrder.None? then w
        else w.(errands := w.errands[job := Errand(Recheck, order, row.status, row.started, row.providerOrder, None)])
    case ReadCancel(job, order, user) =>
      if job in w.errands || order >= |w.t.orders| || !Cancellable(w.t.orders[order], user) then w
      else
        var row := w.t.orders[order];
        w.(errands := w.errands[job := Errand(Cancel, order, row.status, row.started, row.providerOrder, None)])
    case ClaimErrand(job, token, now) =>
      if job in w.errands && w.errands[job].token.None? && w.errands[job].order < |w.t.orders| && token !in w.pins then
        var j := w.errands[job];
        if MayTake(w.t.orders[j.order], ErrandClaimant(j), now)
        then NextOrder(w, Take(j.order, ErrandClaimant(j), token, now))
               .(errands := w.errands[job := j.(token := Some(token))])
        else w.(errands := w.errands - {job})
      else w
    case DoErrand(job, answer, refused, now) =>
      if job in w.errands && w.errands[job].token.Some? then
        var j := w.errands[job];
        NextOrder(w, ErrandWrite(j, j.token.value, answer, refused, now)).(errands := w.errands - {job})
      else w
    case _ => w
  }

  function Next(w: World, s: Step): World {
    match s
    case OpenIntent(_, _, _, _, _, _) => NextFunding(w, s)
    case ReadIntent(_, _) => NextFunding(w, s)
    case Hear(_, _, _) => NextFunding(w, s)
    case Commit(_) => NextFunding(w, s)
    case Abandon(_) => NextFunding(w, s)
    case AskRefund(_, _, _) => NextRefund(w, s)
    case ClaimRefund(_, _, _) => NextRefund(w, s)
    case DoRefund(_, _) => NextRefund(w, s)
    case WriteAudit(_) => NextRefund(w, s)
    case Crash(_) => NextRefund(w, s)
    case ReadRecheck(_, _) => NextErrand(w, s)
    case ReadCancel(_, _, _) => NextErrand(w, s)
    case ClaimErrand(_, _, _) => NextErrand(w, s)
    case DoErrand(_, _, _, _) => NextErrand(w, s)
    case _ => NextOrder(w, s)
  }

  function Run(w: World, steps: seq<Step>): World {
    if steps == [] then w else Next(Run(w, steps[..|steps| - 1]), steps[|steps| - 1])
  }

  // ---------------------------------------------------------------------
  // The invariant of the whole world
  // ---------------------------------------------------------------------

  /** However old a read is, the row it read still belongs to the same user and reference. */
  ghost predicate CallsOk(w: World) {
    forall k :: k in w.calls ==> CallOk(w.t.intents, w.calls[k])
  }

  ghost predicate CallOk(intents: seq<F.Intent>, c: Call) {
    c.id < |intents| && intents[c.id].user == c.user && intents[c.id].reference == c.reference
  }

  /**
   A row under a claim is the row its claimant saw; only where its number was bought may have
   been noted since, and only if the row it saw left that open.
   */
  ghost predicate PinsOk(w: World) {
    forall i :: 0 <= i < |w.t.orders| ==> PinOk(w.pins, i, w.t.orders[i])
  }

  ghost predicate PinOk(pins: map<Uuid, Pin>, i: nat, o: N.Order) {
    o.claim.Some? ==> o.claim.value.token in pins && Saw(pins[o.claim.value.token], i, o)
  }

  ghost predicate Saw(pin: Pin, i: nat, o: N.Order) {
    pin.order == i && N.SameButSource(pin.row, o) && (!N.MayNote(pin.row) ==> pin.row == o)
  }

  ghost predicate JobOk(w: World, j: RefundJob) {
    && j.order < |w.t.orders| && w.t.orders[j.order].price <= w.cap
    && (j.stage.Claimed? ==> j.stage.token in w.pins && w.pins[j.stage.token].order == j.order
                             && w.pins[j.stage.token].row.status.Held())
    && (j.stage == Applied ==> w.t.orders[j.order].status == N.Cancelled)
  }

  ghost predicate BothApplied(a: RefundJob, b: RefundJob) {
    a.stage == Applied && b.stage == Applied && a.order == b.order
  }

  ghost predicate JobsOk(w: World) {
    && (forall k :: k in w.jobs ==> JobOk(w, w.jobs[k]))
    && (forall k, l :: k in w.jobs && l in w.jobs && k != l ==> !BothApplied(w.jobs[k], w.jobs[l]))
    && (forall k, i :: k in w.jobs && w.jobs[k].stage == Applied && 0 <= i < |w.audits| ==>
          w.audits[i].order != w.jobs[k].order)
  }

  ghost predicate AuditOk(w: World, a: RefundAudit) {
    && a.order < |w.t.orders| && w.t.orders[a.order].status == N.Cancelled
    && w.t.orders[a.order].price <= w.cap
    && a.journal.Some? && w.t.orders[a.order].refunded == a.journal
  }

  ghost predicate AuditsOk(w: World) {
    && (forall i :: 0 <= i < |w.audits| ==> AuditOk(w, w.audits[i]))
    && (forall i, k :: 0 <= i < k < |w.audits| ==> w.audits[i].order != w.audits[k].order)
  }

  ghost predicate WorldInv(w: World) {
    Inv(w.t) && CallsOk(w) && PinsOk(w) && PaperOk(w)
  }

  // ---------------------------------------------------------------------
  // Each step keeps the tables
  // ---------------------------------------------------------------------

  ghost predicate Kept(t: Tables, u: Tables) {
    Inv(u) && Advances(t, u)
  }

  lemma {:induction false} SameTables(t: Tables)
    requires Inv(t)
    ensures Kept(t, t)
  {
  }

  lemma {:induction false} CreditTables(t: Tables, u: Tables, id: nat, amount: Naira)
    requires Inv(t) && (u == t || Credited(t, u, id, amount))
    ensures Kept(t, u)
  {
    if u == t { SameTables(t); } else { CreditKeeps(t, u, id, amount); }
  }

  lemma {:induction false} StatusTables(t: Tables, f: F.Funds)
    requires Inv(t) && f.book == t.book && |f.intents| == |t.intents|
    requires forall i :: 0 <= i < |f.intents| ==> OnlyClosed(t.intents[i], f.intents[i])
    ensures Kept(t, t.WithFunds(f))
  {
    StatusKeeps(t, f.intents);
    assert t.WithFunds(f) == t.(intents := f.intents);
  }

  lemma {:induction false} SettleKeepsTables(t: Tables, id: nat, verdict: F.Verdict)
    requires Inv(t) && id < |t.intents|
    ensures Kept(t, t.WithFunds(F.Settle(t.Funds(), id, t.intents[id].user, t.intents[id].reference, verdict).funds))
  {
    var row := t.intents[id];
    var f := F.Settle(t.Funds(), id, row.user, row.reference, verdict).funds;
    if verdict.Answered? && verdict.state.ChargeFailed? {
      StatusTables(t, f);
    } else if verdict.Answered? && verdict.state.ChargeSucceeded?
              && F.Credit(t.Funds(), id, row.user, row.reference, verdict.state.amount).Ok? {
      CreditCases(t, id, verdict.state.amount);
      CreditTables(t, t.WithFunds(f), id, verdict.state.amount);
    } else {
      assert t.WithFunds(f) == t;
      SameTables(t);
    }
  }

  lemma {:induction false} OpenTables(t: Tables, user: Uuid, amount: Naira, scale: nat, provider: F.Provider,
                                      reference: string, now: int)
    requires Inv(t) && F.Create(t.Funds(), user, amount, scale, provider, reference, now).Ok?
    ensures Kept(t, t.WithFunds(F.Create(t.Funds(), user, amount, scale, provider, reference, now).value))
  {
    var x := F.Intent(user, amount, provider, reference, F.Pending, None, now);
    CreateKeeps(t, x);
    assert t.WithFunds(F.Create(t.Funds(), user, amount, scale, provider, reference, now).value)
        == t.(intents := t.intents + [x]);
  }

  lemma {:induction false} FundingTables(w: World, s: Step)
    requires Inv(w.t) && CallsOk(w)
    ensures Kept(w.t, NextFunding(w, s).t)
  {
    var v := NextFunding(w, s);
    if v.t == w.t {
      SameTables(w.t);
    } else {
      match s
      case OpenIntent(user, amount, scale, provider, reference, now) =>
        OpenTables(w.t, user, amount, scale, provider, reference, now);
      case Commit(call) =>
        var c := w.calls[call];
        assert CallOk(w.t.intents, c);
        SettleKeepsTables(w.t, c.id, c.verdict.value);
      case Abandon(now) =>
        StatusTables(w.t, F.Abandon(w.t.Funds(), now));
      case _ =>
    }
  }

  lemma {:induction false} PutTables(t: Tables, id: nat, o: N.Order)
    requires Inv(t) && id < |t.orders| && N.Touches(t.orders[id], o)
    ensures Kept(t, t.(orders := t.orders[id := o]))
  {
    N.PutIsQuiet(t.Desk(), id, o);
    QuietKeeps(t, N.Put(t.Desk(), id, o), id);
    assert t.WithDesk(N.Put(t.Desk(), id, o)) == t.(orders := t.orders[id := o]);
  }

  ghost predicate SamePaper(w: World, v: World) {
    v.jobs == w.jobs && v.audits == w.audits && v.cap == w.cap
  }

  /** What each small row write makes of its row. */
  function RowAfter(o: N.Order, s: Step): N.Order {
    match s
    case Start(_, token, now) => N.StartPurchase(o, token, now)
    case Take(_, _, token, now) => N.Grant(o, token, now)
    case PinSource(_, supplier, source) => N.PinSource(o, supplier, source)
    case Assign(_, token, number, expiresAt, now) => N.AssignNumber(o, token, number, expiresAt, now)
    case Recover(_, token, number, expiresAt) => N.Recover(o, token, number, expiresAt)
    case Review(_, token, reason, now) => N.MarkReview(o, token, reason, now)
    case Release(_, token) => N.Release(o, token)
    case _ => o
  }

  predicate IsRowStep(s: Step) {
    s.Start? || s.Take? || s.PinSource? || s.Assign? || s.Recover? || s.Review? || s.Release?
  }

  /** Granting writes a fresh claim; every other small write clears the claim, or leaves all but the source alone. */
  lemma {:induction false} RowAfterTouches(o: N.Order, s: Step)
    ensures N.Touches(o, RowAfter(o, s))
    ensures s.Start? || s.Take? ==>
      RowAfter(o, s) == o || (RowAfter(o, s).claim.Some? && RowAfter(o, s).claim.value.token == s.token)
    ensures !(s.Start? || s.Take?) ==>
      RowAfter(o, s) == o || RowAfter(o, s).claim == None || (N.MayNote(o) && N.SameButSource(o, RowAfter(o, s)))
  {
  }

  lemma {:induction false} RowStepIs(w: World, s: Step)
    requires IsRowStep(s)
    ensures var v := NextOrder(w, s);
            && v.calls == w.calls && v.errands == w.errands && SamePaper(w, v)
            && (v == w || (s.order < |w.t.orders|
                           && v.t == w.t.(orders := w.t.orders[s.order := RowAfter(w.t.orders[s.order], s)])
                           && (if s.Start? || s.Take?
                               then s.token !in w.pins && RowAfter(w.t.orders[s.order], s) != w.t.orders[s.order]
                                    && v.pins == w.pins[s.token := Pin(s.order, RowAfter(w.t.orders[s.order], s))]
                               else v.pins == w.pins)))
  {
  }

  lemma {:induction false} RowTables(w: World, s: Step)
    requires Inv(w.t) && IsRowStep(s)
    ensures Kept(w.t, NextOrder(w, s).t)
  {
    RowStepIs(w, s);
    if NextOrder(w, s) == w {
      SameTables(w.t);
    } else {
      RowAfterTouches(w.t.orders[s.order], s);
      PutTables(w.t, s.order, RowAfter(w.t.orders[s.order], s));
    }
  }

  lemma {:induction false} CheckTables(t: Tables, id: nat, token: Option<Uuid>, check: N.Check, now: int)
    requires Inv(t) && id < |t.orders|
    ensures Kept(t, t.WithDesk(N.ApplyCheck(t.Desk(), id, token, check, now).desk))
  {
    N.ApplyCheckMoves(t.Desk(), id, token, check, now);
    assert t.Desk().orders[id := t.Desk().orders[id]] == t.Desk().orders;
    MoveKeeps(t, N.ApplyCheck(t.Desk(), id, token, check, now).desk, id);
  }

  lemma {:induction false} OrderTables(w: World, s: Step)
    requires Inv(w.t)
    ensures Kept(w.t, NextOrder(w, s).t)
  {
    if NextOrder(w, s).t == w.t {
      SameTables(w.t);
    } else if IsRowStep(s) {
      RowTables(w, s);
    } else {
      match s
      case Buy(user, price, supplier, byOffer, reference, key, now) =>
        BuyTables(w.t, user, price, supplier, byOffer, reference, key, now);
      case Transit(id, token, transition, now) => MoveTables(w.t, id, token, transition, now);
      case Checked(id, token, check, now) => CheckTables(w.t, id, token, check, now);
      case _ =>
    }
  }

  lemma {:induction false} BuyTables(t: Tables, user: Uuid, price: Naira, supplier: string, byOffer: bool,
                                     reference: string, key: Uuid, now: int)
    requires Inv(t) && N.Reserve(t.Desk(), user, price, supplier, byOffer, reference, key, now).Ok?
    ensures Kept(t, t.WithDesk(N.Reserve(t.Desk(), user, price, supplier, byOffer, reference, key, now).value))
  {
    var d := N.Reserve(t.Desk(), user, price, supplier, byOffer, reference, key, now).value;
    var o := d.orders[|t.orders|];
    NoReserveYet(t, user, key);
    ReserveKeeps(t, o);
    assert d.orders == t.orders + [o];
    assert t.WithDesk(d) == Tables(t.book + [N.ReserveJournal(o)], t.intents, t.orders + [o]);
  }

  lemma {:induction false} GrantTables(t: Tables, id: nat, token: Uuid, now: int)
    requires Inv(t) && id < |t.orders|
    ensures Kept(t, t.(orders := t.orders[id := N.Grant(t.orders[id], token, now)]))
  {
    PutTables(t, id, N.Grant(t.orders[id], token, now));
  }

  lemma {:induction false} MoveTables(t: Tables, id: nat, token: Option<Uuid>, transition: N.Transition, now: int)
    requires Inv(t) && id < |t.orders|
    ensures Kept(t, t.WithDesk(N.Apply(t.Desk(), id, token, transition, now).desk))
  {
    N.ApplyMoves(t.Desk(), id, token, transition, now);
    MoveKeeps(t, N.Apply(t.Desk(), id, token, transition, now).desk, id);
  }

  lemma {:induction false} RefundTables(w: World, s: Step)
    requires Inv(w.t)
    ensures Kept(w.t, NextRefund(w, s).t)
  {
    if NextRefund(w, s).t == w.t {
      SameTables(w.t);
    } else if s.ClaimRefund? {
      ClaimRefundIs(w, s);
      GrantTables(w.t, w.jobs[s.job].order, s.token, s.now);
    } else {
      DoRefundIs(w, s);
      MoveTables(w.t, w.jobs[s.job].order, Some(w.jobs[s.job].stage.token), GIVE_BACK, s.now);
    }
  }

  lemma {:induction false} ClaimRefundIs(w: World, s: Step)
    requires NextRefund(w, s).t != w.t && s.ClaimRefund?
    ensures s.job in w.jobs && w.jobs[s.job].order < |w.t.orders|
    ensures var id := w.jobs[s.job].order;
      NextRefund(w, s).t == w.t.(orders := w.t.orders[id := N.Grant(w.t.orders[id], s.token, s.now)])
  {
  }

  lemma {:induction false} DoRefundIs(w: World, s: Step)
    requires NextRefund(w, s).t != w.t && !s.ClaimRefund?
    ensures s.DoRefund? && s.job in w.jobs && w.jobs[s.job].stage.Claimed? && w.jobs[s.job].order < |w.t.orders|
    ensures var j := w.jobs[s.job];
      NextRefund(w, s).t == w.t.WithDesk(N.Apply(w.t.Desk(), j.order, Some(j.stage.token), GIVE_BACK, s.now).desk)
  {
  }

  // ---------------------------------------------------------------------
  // Each step keeps the claims and the calls
  // ---------------------------------------------------------------------

  lemma {:induction false} CallsKept(w: World, v: World)
    requires CallsOk(w) && F.TableAdvances(w.t.intents, v.t.intents)
    requires forall k :: k in v.calls ==> k in w.calls || CallOk(v.t.intents, v.calls[k])
    requires forall k :: k in v.calls && k in w.calls ==> v.calls[k].(verdict := w.calls[k].verdict) == w.calls[k]
    ensures CallsOk(v)
  {
    forall k | k in v.calls ensures CallOk(v.t.intents, v.calls[k]) {
      if k in w.calls {
        assert CallOk(w.t.intents, w.calls[k]);
        assert F.RowAdvances(w.t.intents[w.calls[k].id], v.t.intents[w.calls[k].id]);
      }
    }
  }

  lemma {:induction false} FundingCalls(w: World, s: Step)
    requires CallsOk(w) && F.TableAdvances(w.t.intents, NextFunding(w, s).t.intents)
    ensures CallsOk(NextFunding(w, s))
  {
    var v := NextFunding(w, s);
    if s.ReadIntent? || s.Hear? {
      assert v.t == w.t;
    } else {
      assert forall k :: k in v.calls ==> k in w.calls && v.calls[k] == w.calls[k];
      CallsKept(w, v);
    }
  }

  lemma {:induction false} SameCalls(w: World, v: World)
    requires CallsOk(w) && v.calls == w.calls && v.t.intents == w.t.intents
    ensures CallsOk(v)
  {
  }

  /** Rows other than one are as they were, and that one is unclaimed, unchanged or freshly granted. */
  lemma {:induction false} PinsKept(pins: map<Uuid, Pin>, orders: seq<N.Order>, after: map<Uuid, Pin>, id: nat,
                                    o: N.Order)
    requires id < |orders| && forall i :: 0 <= i < |orders| ==> PinOk(pins, i, orders[i])
    requires forall p :: p in pins ==> p in after && after[p] == pins[p]
    requires o == orders[id] || (N.MayNote(orders[id]) && N.SameButSource(orders[id], o)) || PinOk(after, id, o)
    ensures var later := orders[id := o]; forall i :: 0 <= i < |later| ==> PinOk(after, i, later[i])
  {
    var later := orders[id := o];
    forall i | 0 <= i < |later| ensures PinOk(after, i, later[i]) {
      assert PinOk(pins, i, orders[i]);
    }
  }

  lemma {:induction false} OrderPins(w: World, s: Step)
    requires PinsOk(w)
    ensures PinsOk(NextOrder(w, s))
  {
    var v := NextOrder(w, s);
    if v == w {
    } else if IsRowStep(s) {
      RowStepIs(w, s);
      RowAfterTouches(w.t.orders[s.order], s);
      PinsKept(w.pins, w.t.orders, v.pins, s.order, RowAfter(w.t.orders[s.order], s));
    } else {
      match s
      case Buy(user, price, supplier, byOffer, reference, key, now) =>
        forall i | 0 <= i < |v.t.orders| ensures PinOk(v.pins, i, v.t.orders[i]) {
          assert i < |w.t.orders| ==> PinOk(w.pins, i, w.t.orders[i]);
        }
      case Transit(id, token, transition, now) =>
        PinsKept(w.pins, w.t.orders, w.pins, id, N.Apply(w.t.Desk(), id, token, transition, now).desk.orders[id]);
        N.ApplyMoves(w.t.Desk(), id, token, transition, now);
      case Checked(id, token, check, now) =>
        N.ApplyCheckMoves(w.t.Desk(), id, token, check, now);
        PinsKept(w.pins, w.t.orders, w.pins, id, N.ApplyCheck(w.t.Desk(), id, token, check, now).desk.orders[id]);
      case _ =>
    }
  }

  lemma {:induction false} RefundPins(w: World, s: Step)
    requires PinsOk(w)
    ensures PinsOk(NextRefund(w, s))
  {
    var v := NextRefund(w, s);
    if v.t == w.t && v.pins == w.pins {
    } else if s.ClaimRefund? {
      var id := w.jobs[s.job].order;
      PinsKept(w.pins, w.t.orders, v.pins, id, N.Grant(w.t.orders[id], s.token, s.now));
    } else {
      var j := w.jobs[s.job];
      N.ApplyMoves(w.t.Desk(), j.order, Some(j.stage.token), GIVE_BACK, s.now);
      PinsKept(w.pins, w.t.orders, w.pins, j.order, v.t.orders[j.order]);
    }
  }

  // ---------------------------------------------------------------------
  // Each step keeps the refund jobs and the audits
  // ---------------------------------------------------------------------

  ghost predicate PaperOk(w: World) {
    JobsOk(w) && AuditsOk(w)
  }

  /** Jobs and audits speak of rows by facts that advancing keeps. */
  lemma {:induction false} PaperKept(w: World, v: World)
    requires PaperOk(w) && OrdersAdvance(w.t.orders, v.t.orders)
    requires v.jobs == w.jobs && v.audits == w.audits && v.cap == w.cap
    requires forall p :: p in w.pins ==> p in v.pins && v.pins[p] == w.pins[p]
    ensures PaperOk(v)
  {
    forall k | k in v.jobs ensures JobOk(v, v.jobs[k]) {
      assert JobOk(w, w.jobs[k]);
      assert OrderAdvances(w.t.orders[w.jobs[k].order], v.t.orders[w.jobs[k].order]);
    }
    forall i | 0 <= i < |v.audits| ensures AuditOk(v, v.audits[i]) {
      assert AuditOk(w, w.audits[i]);
      assert OrderAdvances(w.t.orders[w.audits[i].order], v.t.orders[w.audits[i].order]);
    }
  }

  /** One job starts, moves on or disappears while rows and audits stand still. */
  lemma {:induction false} JobMoves(w: World, v: World, job: nat)
    requires PaperOk(w) && v.t == w.t && v.pins == w.pins && v.audits == w.audits && v.cap == w.cap
    requires forall k :: k in v.jobs && k != job ==> k in w.jobs && v.jobs[k] == w.jobs[k]
    requires job in v.jobs ==> JobOk(v, v.jobs[job]) && v.jobs[job].stage != Applied
    ensures PaperOk(v)
  {
    forall k | k in v.jobs ensures JobOk(v, v.jobs[k]) {
      assert k != job ==> JobOk(w, w.jobs[k]);
    }
    forall i | 0 <= i < |v.audits| ensures AuditOk(v, v.audits[i]) {
      assert AuditOk(w, w.audits[i]);
    }
  }

  lemma {:induction false} ClaimRefundPaper(w: World, s: Step)
    requires PaperOk(w) && s.ClaimRefund?
    ensures PaperOk(NextRefund(w, s))
  {
    var v := NextRefund(w, s);
    if v != w {
      var j := w.jobs[s.job];
      assert JobOk(w, j);
      if N.CanClaimHeld(w.t.orders[j.order], s.now) {
        ClaimedPaper(w, v, s.job, s.token, s.now);
      } else {
        JobMoves(w, v, s.job);
      }
    }
  }

  lemma {:induction false} ClaimedPaper(w: World, v: World, job: nat, token: Uuid, now: int)
    requires PaperOk(w) && job in w.jobs && w.jobs[job].order < |w.t.orders| && token !in w.pins
    requires JobOk(w, w.jobs[job]) && N.CanClaimHeld(w.t.orders[w.jobs[job].order], now)
    requires var j := w.jobs[job];
      v == GrantTo(w, j.order, N.Grant(w.t.orders[j.order], token, now), token)
             .(jobs := w.jobs[job := j.(stage := Claimed(token))])
    ensures PaperOk(v)
  {
    var j := w.jobs[job];
    var g := GrantTo(w, j.order, N.Grant(w.t.orders[j.order], token, now), token);
    PaperKept(w, g);
    JobMoves(g, v, job);
  }

  /** The claim the operator took on a held row lets it be refunded, and only while the row is still held. */
  lemma {:induction false} OperatorRefundApplies(w: World, job: nat, now: int)
    requires PinsOk(w) && job in w.jobs && JobOk(w, w.jobs[job]) && w.jobs[job].stage.Claimed?
    ensures var j := w.jobs[job];
            var m := N.Apply(w.t.Desk(), j.order, Some(j.stage.token), GIVE_BACK, now);
            && (m.outcome.Err? ==> m.desk == w.t.Desk())
            && (m.outcome.Ok? ==> m.outcome == Ok(N.Applied) && w.t.orders[j.order].status.Held()
                                  && N.RefundMove(w.t.Desk(), m.desk, j.order)
                                  && m.desk.orders[j.order].status == N.Cancelled)
  {
    var j := w.jobs[job];
    assert PinOk(w.pins, j.order, w.t.orders[j.order]);
    N.ApplyMoves(w.t.Desk(), j.order, Some(j.stage.token), GIVE_BACK, now);
  }

  lemma {:induction false} DoRefundPaper(w: World, s: Step)
    requires PaperOk(w) && PinsOk(w) && s.DoRefund? && OrdersAdvance(w.t.orders, NextRefund(w, s).t.orders)
    ensures PaperOk(NextRefund(w, s))
  {
    var v := NextRefund(w, s);
    if v != w {
      var j := w.jobs[s.job];
      assert JobOk(w, j);
      OperatorRefundApplies(w, s.job, s.now);
      if N.Apply(w.t.Desk(), j.order, Some(j.stage.token), GIVE_BACK, s.now).outcome.Ok? {
        PaperKept(w, w.(t := v.t));
        RefundedOnce(w, v, s.job);
      } else {
        JobMoves(w, v, s.job);
      }
    }
  }

  /** A job that has just refunded its order is the only one, and the order has no audit yet. */
  lemma {:induction false} RefundedOnce(w: World, v: World, job: nat)
    requires PaperOk(w) && PaperOk(w.(t := v.t)) && job in w.jobs
    requires v == w.(t := v.t, jobs := w.jobs[job := w.jobs[job].(stage := Applied)])
    requires var o := w.jobs[job].order;
             o < |w.t.orders| && o < |v.t.orders| && w.t.orders[o].status.Held() && v.t.orders[o].status == N.Cancelled
    ensures PaperOk(v)
  {
    var g := w.(t := v.t);
    forall k | k in v.jobs ensures JobOk(v, v.jobs[k]) && (k != job ==> !BothApplied(v.jobs[k], v.jobs[job])) {
      assert JobOk(g, g.jobs[k]) && JobOk(w, w.jobs[k]);
    }
    forall i | 0 <= i < |v.audits| ensures AuditOk(v, v.audits[i]) && v.audits[i].order != w.jobs[job].order {
      assert AuditOk(g, g.audits[i]) && AuditOk(w, w.audits[i]);
    }
  }

  /** The job is gone and its audit is there; nothing else moved. */
  ghost predicate JobAudited(w: World, v: World, job: nat, a: RefundAudit) {
    && job in w.jobs && w.jobs[job].stage == Applied && a.order == w.jobs[job].order
    && v == w.(audits := w.audits + [a], jobs := w.jobs - {job})
  }

  lemma {:induction false} AuditedJobs(w: World, v: World, job: nat, a: RefundAudit)
    requires JobsOk(w) && JobAudited(w, v, job, a)
    ensures JobsOk(v)
  {
    forall k | k in v.jobs ensures JobOk(v, v.jobs[k]) && (v.jobs[k].stage == Applied ==> v.jobs[k].order != a.order) {
      assert JobOk(w, w.jobs[k]) && !BothApplied(w.jobs[k], w.jobs[job]);
    }
  }

  lemma {:induction false} AuditedAudits(w: World, v: World, job: nat, a: RefundAudit)
    requires JobsOk(w) && AuditsOk(w) && JobAudited(w, v, job, a) && AuditOk(v, a)
    ensures AuditsOk(v)
  {
    forall i | 0 <= i < |v.audits|
      ensures AuditOk(v, v.audits[i]) && (i < |w.audits| ==> v.audits[i].order != a.order)
    {
      if i < |w.audits| {
        assert AuditOk(w, w.audits[i]);
      }
    }
  }

  lemma {:induction false} WriteAuditPaper(w: World, s: Step)
    requires PaperOk(w) && s.WriteAudit? && forall i :: 0 <= i < |w.t.orders| ==> OrderOk(w.t.book, w.t.orders[i])
    ensures PaperOk(NextRefund(w, s))
  {
    var v := NextRefund(w, s);
    if s.job in w.jobs && w.jobs[s.job].stage == Applied {
      var j := w.jobs[s.job];
      assert JobOk(w, j);
      assert OrderOk(w.t.book, w.t.orders[j.order]);
      var a := RefundAudit(j.order, j.key, w.t.orders[j.order].refunded);
      AuditedJobs(w, v, s.job, a);
      AuditedAudits(w, v, s.job, a);
    }
  }

  lemma {:induction false} RefundPaper(w: World, s: Step)
    requires PaperOk(w) && PinsOk(w) && OrdersAdvance(w.t.orders, NextRefund(w, s).t.orders)
    requires forall i :: 0 <= i < |w.t.orders| ==> OrderOk(w.t.book, w.t.orders[i])
    ensures PaperOk(NextRefund(w, s))
  {
    match s
    case AskRefund(job, order, key) => if NextRefund(w, s) != w { JobMoves(w, NextRefund(w, s), job); }
    case ClaimRefund(_, _, _) => ClaimRefundPaper(w, s);
    case DoRefund(_, _) => DoRefundPaper(w, s);
    case WriteAudit(_) => WriteAuditPaper(w, s);
    case Crash(job) => JobMoves(w, NextRefund(w, s), job);
    case _ =>
  }

  // ---------------------------------------------------------------------
  // Every run
  // ---------------------------------------------------------------------

  /** Top-up steps leave orders, claims and refund paperwork alone. */
  lemma {:induction false} FundingFrame(w: World, s: Step)
    ensures var v := NextFunding(w, s);
            v.t.orders == w.t.orders && v.pins == w.pins && v.errands == w.errands && SamePaper(w, v)
  {
  }

  lemma {:induction false} OrderFrame(w: World, s: Step)
    ensures var v := NextOrder(w, s);
            && v.t.intents == w.t.intents && v.calls == w.calls && v.errands == w.errands && SamePaper(w, v)
            && forall p :: p in w.pins ==> p in v.pins && v.pins[p] == w.pins[p]
  {
    if IsRowStep(s) { RowStepIs(w, s); }
  }

  lemma {:induction false} RefundFrame(w: World, s: Step)
    ensures var v := NextRefund(w, s);
            v.t.intents == w.t.intents && v.calls == w.calls && v.errands == w.errands && v.cap == w.cap
  {
  }

  lemma {:induction false} SamePins(w: World, v: World)
    requires PinsOk(w) && v.t.orders == w.t.orders && v.pins == w.pins
    ensures PinsOk(v)
  {
  }

  lemma {:induction false} FundingKeeps(w: World, s: Step)
    requires WorldInv(w)
    ensures WorldInv(NextFunding(w, s)) && Advances(w.t, NextFunding(w, s).t)
  {
    FundingFrame(w, s);
    FundingTables(w, s);
    FundingCalls(w, s);
    SamePins(w, NextFunding(w, s));
    PaperKept(w, NextFunding(w, s));
  }

  lemma {:induction false} OrderKeeps(w: World, s: Step)
    requires WorldInv(w)
    ensures WorldInv(NextOrder(w, s)) && Advances(w.t, NextOrder(w, s).t)
  {
    OrderFrame(w, s);
    OrderTables(w, s);
    OrderPins(w, s);
    SameCalls(w, NextOrder(w, s));
    PaperKept(w, NextOrder(w, s));
  }

  lemma {:induction false} RefundStepKeeps(w: World, s: Step)
    requires WorldInv(w)
    ensures WorldInv(NextRefund(w, s)) && Advances(w.t, NextRefund(w, s).t)
  {
    RefundFrame(w, s);
    RefundTables(w, s);
    RefundPins(w, s);
    SameCalls(w, NextRefund(w, s));
    RefundPaper(w, s);
  }

  lemma {:induction false} SameJobs(w: World, v: World)
    requires JobsOk(w) && v == w.(errands := v.errands)
    ensures JobsOk(v)
  {
    forall k | k in v.jobs ensures JobOk(v, v.jobs[k]) {
      assert JobOk(w, w.jobs[k]);
    }
  }

  lemma {:induction false} SameAudits(w: World, v: World)
    requires AuditsOk(w) && v == w.(errands := v.errands)
    ensures AuditsOk(v)
  {
    forall i | 0 <= i < |v.audits| ensures AuditOk(v, v.audits[i]) {
      assert AuditOk(w, w.audits[i]);
    }
  }

  /** Errands are notes; no part of the invariant speaks of them. */
  lemma {:induction false} NotesDoNotMatter(w: World, notes: map<nat, Errand>)
    requires WorldInv(w)
    ensures WorldInv(w.(errands := notes))
  {
    var v := w.(errands := notes);
    SameCalls(w, v);
    SamePins(w, v);
    SameJobs(w, v);
    SameAudits(w, v);
  }

  /**
   Apart from the notes, each step of an errand is a claim, a transition, a mark, a release or a
   check, or nothing.
   */
  lemma {:induction false} ErrandIs(w: World, s: Step) returns (step: Step)
    ensures var v := NextErrand(w, s);
      v == w.(errands := v.errands) || (v == NextOrder(w, step).(errands := v.errands) && !step.PinSource?)
  {
    step := s;
    if s.ClaimErrand? && s.job in w.errands {
      step := Take(w.errands[s.job].order, ErrandClaimant(w.errands[s.job]), s.token, s.now);
    } else if s.DoErrand? && s.job in w.errands && w.errands[s.job].token.Some? {
      step := ErrandWrite(w.errands[s.job], w.errands[s.job].token.value, s.answer, s.refused, s.now);
    }
  }

  lemma {:induction false} ErrandKeeps(w: World, s: Step)
    requires WorldInv(w)
    ensures WorldInv(NextErrand(w, s)) && Advances(w.t, NextErrand(w, s).t) && NextErrand(w, s).cap == w.cap
  {
    var v := NextErrand(w, s);
    var step := ErrandIs(w, s);
    if v == w.(errands := v.errands) {
      SameTables(w.t);
      NotesDoNotMatter(w, v.errands);
    } else {
      OrderFrame(w, step);
      OrderKeeps(w, step);
      NotesDoNotMatter(NextOrder(w, step), v.errands);
    }
  }

  lemma {:induction false} NextKeeps(w: World, s: Step)
    requires WorldInv(w)
    ensures WorldInv(Next(w, s)) && Advances(w.t, Next(w, s).t) && Next(w, s).cap == w.cap
  {
    NextIs(w, s);
    if Next(w, s) == NextFunding(w, s) {
      FundingKeeps(w, s);
    } else if Next(w, s) == NextOrder(w, s) {
      OrderKeeps(w, s);
    } else if Next(w, s) == NextRefund(w, s) {
      RefundStepKeeps(w, s);
    } else {
      ErrandKeeps(w, s);
    }
  }

  lemma {:induction false} NextIs(w: World, s: Step)
    ensures Next(w, s) == NextFunding(w, s) || Next(w, s) == NextOrder(w, s)
         || Next(w, s) == NextRefund(w, s) || Next(w, s) == NextErrand(w, s)
    ensures Next(w, s).cap == w.cap
  {
    FundingFrame(w, s);
    OrderFrame(w, s);
    RefundFrame(w, s);
    ErrandFrame(w, s);
  }

  lemma {:induction false} ErrandFrame(w: World, s: Step)
    ensures var v := NextErrand(w, s); v.jobs == w.jobs && v.audits == w.audits && v.cap == w.cap
  {
    var step := ErrandIs(w, s);
    OrderFrame(w, step);
  }

  /** Every reachable world satisfies the invariant, and later tables only extend earlier ones. */
  lemma {:induction false} RunKeeps(w: World, steps: seq<Step>)
    requires WorldInv(w)
    ensures WorldInv(Run(w, steps)) && Advances(w.t, Run(w, steps).t) && Run(w, steps).cap == w.cap
  {
    if steps != [] {
      var before := Run(w, steps[..|steps| - 1]);
      RunKeeps(w, steps[..|steps| - 1]);
      NextKeeps(before, steps[|steps| - 1]);
      AdvancesTransitive(w.t, before.t, Run(w, steps).t);
    }
  }

  lemma {:induction false} InitOk(cap: Naira)
    ensures WorldInv(Init(cap))
  {
    assert forall u :: UserSumOk(Init(cap).t, u);
  }

  lemma {:induction false} Reachable(cap: Naira, steps: seq<Step>)
    ensures WorldInv(Run(Init(cap), steps)) && Run(Init(cap), steps).cap == cap
  {
    InitOk(cap);
    RunKeeps(Init(cap), steps);
  }
}
