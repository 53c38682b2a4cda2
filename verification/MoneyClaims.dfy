/**
 Who may act on an order, in the columns of its row: when a claim is granted, what a token
 is good for and until when. Nothing here is said through the predicates the steps use.
 */
module MoneyClaims {
  import opened Base
  import opened Ledger
  import opened MoneyTables
  import opened MoneyRuns
  import F = Funding
  import N = NumberOrders

  // ---------------------------------------------------------------------
  // Taking a claim
  // ---------------------------------------------------------------------

  /** The steps that ask for a claim, whatever handler they belong to. */
  predicate AsksForAClaim(s: Step) {
    s.Take? || s.Start? || s.ClaimRefund? || s.ClaimErrand?
  }

  /** A claim that has not run out is never taken over: no step that asks for one changes the row in any way. */
  lemma {:induction false} ALiveClaimIsNotTakenOver(w: World, s: Step, i: nat)
    requires i < |w.t.orders| && AsksForAClaim(s)
    requires w.t.orders[i].claim.Some? && w.t.orders[i].claim.value.until >= s.now
    ensures i < |Next(w, s).t.orders| && Next(w, s).t.orders[i] == w.t.orders[i]
  {
    if s.ClaimErrand? {
      ErrandSparesLiveClaims(w, s, i);
    } else if s.ClaimRefund? {
      RefundSparesLiveClaims(w, s, i);
    }
  }

  lemma {:induction false} ErrandSparesLiveClaims(w: World, s: Step, i: nat)
    requires i < |w.t.orders| && s.ClaimErrand?
    requires w.t.orders[i].claim.Some? && w.t.orders[i].claim.value.until >= s.now
    ensures i < |Next(w, s).t.orders| && Next(w, s).t.orders[i] == w.t.orders[i]
  {
  }

  lemma {:induction false} RefundSparesLiveClaims(w: World, s: Step, i: nat)
    requires i < |w.t.orders| && s.ClaimRefund?
    requires w.t.orders[i].claim.Some? && w.t.orders[i].claim.value.until >= s.now
    ensures i < |Next(w, s).t.orders| && Next(w, s).t.orders[i] == w.t.orders[i]
  {
  }

  /** Which statuses each claimant may take; the worker also looks at what is left to do. */
  predicate InReach(o: N.Order, claimant: Claimant) {
    match claimant
    case Operator => o.status == N.Reserved || o.status == N.AwaitingCode || o.status == N.ReviewRequired
    case Customer => o.status == N.Reserved || o.status == N.AwaitingCode
    case Worker =>
      || o.status == N.Reserved || o.status == N.AwaitingCode
      || (o.status == N.Delivered && o.activationOpen)
      || (o.status == N.ReviewRequired && o.providerOrder == None && o.reviewReason == "purchase_outcome_unknown")
  }

  /** The row with a claim under this token for the next sixty seconds. */
  predicate ClaimedFor(before: N.Order, after: N.Order, token: Uuid, now: int) {
    after == before.(claim := after.claim) && after.claim == Some(N.Claim(token, now + 60))
  }

  /** A claim under an unused token is granted exactly when the row is in reach and unclaimed, or its claim ran out. */
  lemma {:induction false} AClaimIsGrantedIff(w: World, i: nat, claimant: Claimant, token: Uuid, now: int)
    requires i < |w.t.orders| && token !in w.pins
    ensures var o := w.t.orders[i];
      var v := Next(w, Take(i, claimant, token, now));
      if InReach(o, claimant) && (o.claim == None || o.claim.value.until < now)
      then |v.t.orders| == |w.t.orders| && ClaimedFor(o, v.t.orders[i], token, now)
      else v == w
  {
  }

  /** A purchase starts exactly once: on a reserved order that never started and that nobody holds. */
  lemma {:induction false} APurchaseStartsIff(w: World, i: nat, token: Uuid, now: int)
    requires i < |w.t.orders| && token !in w.pins
    ensures var o := w.t.orders[i];
      var v := Next(w, Start(i, token, now));
      if o.status == N.Reserved && !o.started && (o.claim == None || o.claim.value.until < now)
      then |v.t.orders| == |w.t.orders| && v.t.orders[i].started
           && ClaimedFor(o.(started := true), v.t.orders[i], token, now)
      else v == w
  {
  }

  /** An operator's refund request gets its claim on the same terms, and ends there without one. */
  lemma {:induction false} ARefundIsClaimedIff(w: World, job: nat, token: Uuid, now: int)
    requires job in w.jobs && w.jobs[job].stage == Passed && w.jobs[job].order < |w.t.orders| && token !in w.pins
    ensures var i := w.jobs[job].order;
      var o := w.t.orders[i];
      var v := Next(w, ClaimRefund(job, token, now));
      if InReach(o, Operator) && (o.claim == None || o.claim.value.until < now)
      then |v.t.orders| == |w.t.orders| && ClaimedFor(o, v.t.orders[i], token, now)
           && job in v.jobs && v.jobs[job] == w.jobs[job].(stage := Claimed(token))
      else v == w.(jobs := w.jobs - {job})
  {
  }

  /** Rechecks claim as operators, cancellations as customers. */
  lemma {:induction false} AnErrandIsClaimedIff(w: World, job: nat, token: Uuid, now: int)
    requires job in w.errands && w.errands[job].token == None && w.errands[job].order < |w.t.orders|
    requires token !in w.pins
    ensures var i := w.errands[job].order;
      var o := w.t.orders[i];
      var v := Next(w, ClaimErrand(job, token, now));
      if InReach(o, if w.errands[job].kind == Recheck then Operator else Customer)
         && (o.claim == None || o.claim.value.until < now)
      then |v.t.orders| == |w.t.orders| && ClaimedFor(o, v.t.orders[i], token, now)
           && job in v.errands && v.errands[job] == w.errands[job].(token := Some(token))
      else v == w.(errands := w.errands - {job})
  {
  }

  // ---------------------------------------------------------------------
  // What a token is good for
  // ---------------------------------------------------------------------

  /** The token is on the row and its time is not up. */
  predicate Holds(o: N.Order, token: Uuid, now: int) {
    o.claim.Some? && o.claim.value.token == token && now < o.claim.value.until
  }

  predicate Open(o: N.Order) {
    o.status == N.Reserved || o.status == N.AwaitingCode || o.status == N.ReviewRequired
  }

  predicate HasText(s: string) {
    exists i :: 0 <= i < |s| && !IsSpace(s[i])
  }

  /**
   A transition closes an order exactly when it is open, the token presented holds it (or none is
   presented) and a refund comes with a reason. Otherwise nothing changes.
   */
  lemma {:induction false} ATransitionClosesIff(w: World, i: nat, token: Option<Uuid>, move: N.Transition, now: int)
    requires i < |w.t.orders|
    ensures var o := w.t.orders[i];
      var v := Next(w, Transit(i, token, move, now));
      if Open(o) && (token == None || Holds(o, token.value, now)) && (move.GiveBack? ==> HasText(move.reason))
      then |v.t.orders| == |w.t.orders| && v.t.orders[i].claim == None
           && v.t.orders[i].status == (if move.Deliver? then N.Delivered else move.status)
           && v.t.orders[i].activationOpen == move.Deliver?
           && (if move.Deliver? then N.SettleMove(w.t.Desk(), v.t.Desk(), i)
               else N.RefundMove(w.t.Desk(), v.t.Desk(), i))
      else v == w
  {
    N.ApplyMoves(w.t.Desk(), i, token, move, now);
    assert w.t.WithDesk(w.t.Desk()) == w.t;
    if move.GiveBack? {
      assert HasText(move.reason) <==> !N.Blank(move.reason);
    }
  }

  /** The purchase's number is written exactly while the order is reserved and the token holds it. */
  lemma {:induction false} ANumberIsAssignedIff(w: World, i: nat, token: Uuid, number: string, expiresAt: int, now: int)
    requires i < |w.t.orders|
    ensures var o := w.t.orders[i];
      var v := Next(w, Assign(i, token, number, expiresAt, now));
      if o.status == N.Reserved && Holds(o, token, now)
      then |v.t.orders| == |w.t.orders| && v.t.orders[i].status == N.AwaitingCode
           && v.t.orders[i].providerOrder == Some(number) && v.t.orders[i].expiresAt == Some(expiresAt)
           && v.t.orders[i].activationOpen && v.t.orders[i].claim == None
      else v == w
  {
    assert w.t.orders[i := w.t.orders[i]] == w.t.orders;
  }

  /** An order goes to review exactly while it is reserved or waiting and the token holds it. */
  lemma {:induction false} AReviewIsMarkedIff(w: World, i: nat, token: Uuid, reason: string, now: int)
    requires i < |w.t.orders|
    ensures var o := w.t.orders[i];
      var v := Next(w, Review(i, token, reason, now));
      if (o.status == N.Reserved || o.status == N.AwaitingCode) && Holds(o, token, now)
      then |v.t.orders| == |w.t.orders| && v.t.orders[i].status == N.ReviewRequired
           && v.t.orders[i].reviewReason == reason && v.t.orders[i].claim == None
      else v == w
  {
    assert w.t.orders[i := w.t.orders[i]] == w.t.orders;
  }

  /** A number found in the supplier's history is written under the row's token, run out or not. */
  lemma {:induction false} ANumberIsRecoveredIff(w: World, i: nat, token: Uuid, number: string, expiresAt: int)
    requires i < |w.t.orders|
    ensures var o := w.t.orders[i];
      var v := Next(w, Recover(i, token, number, expiresAt));
      if o.status == N.ReviewRequired && o.claim.Some? && o.claim.value.token == token
      then |v.t.orders| == |w.t.orders| && v.t.orders[i].status == N.AwaitingCode
           && v.t.orders[i].providerOrder == Some(number) && v.t.orders[i].expiresAt == Some(expiresAt)
           && v.t.orders[i].activationOpen && v.t.orders[i].claim == None
      else v == w
  {
    assert w.t.orders[i := w.t.orders[i]] == w.t.orders;
  }

  /** Letting go clears the claim under that token, run out or not, and never another's. */
  lemma {:induction false} AReleaseClearsIff(w: World, i: nat, token: Uuid)
    requires i < |w.t.orders|
    ensures var o := w.t.orders[i];
      var v := Next(w, Release(i, token));
      if o.claim.Some? && o.claim.value.token == token
      then |v.t.orders| == |w.t.orders| && v.t.orders[i] == o.(claim := None)
      else v == w
  {
    assert w.t.orders[i := w.t.orders[i]] == w.t.orders;
  }

  // ---------------------------------------------------------------------
  // A supplier's answer
  // ---------------------------------------------------------------------

  /** The later of two times, of those there are. */
  predicate IsLater(a: Option<int>, b: Option<int>, r: Option<int>) {
    && (r == a || r == b)
    && (a.Some? ==> r.Some? && a.value <= r.value)
    && (b.Some? ==> r.Some? && b.value <= r.value)
  }

  predicate NotOnlySpaces(code: string) {
    exists k :: 0 <= k < |code| && code[k] != ' '
  }

  /** Some message carries a code that is more than spaces. */
  predicate CodeArrived(inbox: seq<N.Sms>) {
    exists i :: 0 <= i < |inbox| && inbox[i].code.Some? && NotOnlySpaces(inbox[i].code.value)
  }

  lemma {:induction false} CodesAreText(inbox: seq<N.Sms>)
    ensures CodeArrived(inbox) <==> N.HasCode(inbox)
  {
    forall i | 0 <= i < |inbox| && inbox[i].code.Some?
      ensures N.OnlySpaces(inbox[i].code.value)
         <==> !NotOnlySpaces(inbox[i].code.value)
    {
    }
  }

  /** The answer is not looked at: no right to, or nothing left to do, or messages for a number never bought. */
  predicate Ignored(o: N.Order, token: Option<Uuid>, check: N.Check, now: int) {
    || (token.Some? && !Holds(o, token.value, now))
    || o.status == N.Expired || o.status == N.Cancelled || o.status == N.Failed
    || (check.messages != [] && o.providerOrder == None)
  }

  /** What the answer makes of an order's status, money apart. */
  predicate Decided(o: N.Order, after: N.Order, closed: bool, now: int) {
    var over := closed || (after.expiresAt.Some? && after.expiresAt.value <= now);
    if !Open(o) then after.status == o.status && after.activationOpen == !over
    else if CodeArrived(after.inbox) then after.status == N.Delivered && after.activationOpen == !over
    else if !over then after.status == o.status && after.activationOpen
    else if after.inbox == [] then after.status == N.Expired && !after.activationOpen
    else
      && after.status == N.ReviewRequired && !after.activationOpen
      && after.reviewReason == if closed then "closed_without_code" else "expired_without_code"
  }

  /** The row as the answer leaves it. */
  predicate Answered(o: N.Order, after: N.Order, check: N.Check, now: int) {
    && after.inbox == N.AddMessages(o.inbox, check.messages)
    && IsLater(o.expiresAt, check.expiresAt, after.expiresAt)
    && after.claim == None && Decided(o, after, check.closed, now)
  }

  /**
   A supplier's answer: its messages are stored, its expiry counts if it is later, and then an
   open order is delivered if a code is there, and otherwise refunded or sent to review once the
   number is closed or out of time, by whether its inbox is empty.
   */
  lemma {:induction false} AnAnswerDecides(w: World, i: nat, token: Option<Uuid>, check: N.Check, now: int)
    requires i < |w.t.orders|
    ensures var o := w.t.orders[i];
      var v := Next(w, Checked(i, token, check, now));
      if Ignored(o, token, check, now) then v == w
      else |v.t.orders| == |w.t.orders| && Answered(o, v.t.orders[i], check, now)
  {
    assert w.t.WithDesk(w.t.Desk()) == w.t;
    if Ignored(w.t.orders[i], token, check, now) {
      IgnoredRow(w.t.Desk(), i, token, check, now);
    } else {
      AnsweredRow(w.t.Desk(), i, token, check, now);
    }
  }

  lemma {:induction false} IgnoredRow(d: N.Desk, i: nat, token: Option<Uuid>, check: N.Check, now: int)
    requires i < |d.orders| && Ignored(d.orders[i], token, check, now)
    ensures N.ApplyCheck(d, i, token, check, now).desk == d
  {
  }

  /** The row once the supplier's answer is noted and before it is acted on. */
  function Noted(o: N.Order, check: N.Check): N.Order {
    o.(expiresAt := N.Later(o.expiresAt, check.expiresAt), inbox := N.AddMessages(o.inbox, check.messages))
  }

  predicate Over(o: N.Order, closed: bool, now: int) {
    closed || (o.expiresAt.Some? && o.expiresAt.value <= now)
  }

  lemma {:induction false} AnsweredRow(d: N.Desk, i: nat, token: Option<Uuid>, check: N.Check, now: int)
    requires i < |d.orders| && !Ignored(d.orders[i], token, check, now)
    ensures var m := N.ApplyCheck(d, i, token, check, now);
      |m.desk.orders| == |d.orders| && Answered(d.orders[i], m.desk.orders[i], check, now)
  {
    var o := d.orders[i];
    var seen := Noted(o, check);
    var over := Over(seen, check.closed, now);
    CodesAreText(seen.inbox);
    if Open(o) && CodeArrived(seen.inbox) {
      DeliveredByAnswer(d, i, token, check, now);
      SettledRow(d, i, seen, !over);
    } else if Open(o) && over && seen.inbox == [] {
      ExpiredByAnswer(d, i, token, check, now);
      ExpiredRow(d, i, seen);
    } else {
      NotedByAnswer(d, i, token, check, now);
    }
  }

  lemma {:induction false} DeliveredByAnswer(d: N.Desk, i: nat, token: Option<Uuid>, check: N.Check, now: int)
    requires i < |d.orders| && !Ignored(d.orders[i], token, check, now) && Open(d.orders[i])
    requires N.HasCode(Noted(d.orders[i], check).inbox)
    ensures var seen := Noted(d.orders[i], check);
      N.ApplyCheck(d, i, token, check, now).desk == N.Settle(N.Put(d, i, seen), i, !Over(seen, check.closed, now))
  {
  }

  lemma {:induction false} ExpiredByAnswer(d: N.Desk, i: nat, token: Option<Uuid>, check: N.Check, now: int)
    requires i < |d.orders| && !Ignored(d.orders[i], token, check, now) && Open(d.orders[i])
    requires var seen := Noted(d.orders[i], check); seen.inbox == [] && Over(seen, check.closed, now)
    ensures N.ApplyCheck(d, i, token, check, now).desk
         == N.Refund(N.Put(d, i, Noted(d.orders[i], check)), i, N.Expired)
  {
  }

  lemma {:induction false} NotedByAnswer(d: N.Desk, i: nat, token: Option<Uuid>, check: N.Check, now: int)
    requires i < |d.orders| && !Ignored(d.orders[i], token, check, now)
    requires var seen := Noted(d.orders[i], check);
      Open(d.orders[i]) ==> !N.HasCode(seen.inbox) && !(Over(seen, check.closed, now) && seen.inbox == [])
    ensures var m := N.ApplyCheck(d, i, token, check, now);
      var seen := Noted(d.orders[i], check);
      var over := Over(seen, check.closed, now);
      |m.desk.orders| == |d.orders|
      && var after := m.desk.orders[i];
         && after.inbox == seen.inbox && after.expiresAt == seen.expiresAt && after.claim == None
         && after.status == (if Open(d.orders[i]) && over then N.ReviewRequired else d.orders[i].status)
         && after.activationOpen == !over
         && (Open(d.orders[i]) && over ==>
               after.reviewReason == if check.closed then "closed_without_code" else "expired_without_code")
  {
  }

  lemma {:induction false} SettledRow(d: N.Desk, i: nat, seen: N.Order, stayOpen: bool)
    requires i < |d.orders| && Open(seen)
    ensures var e := N.Settle(N.Put(d, i, seen), i, stayOpen);
      |e.orders| == |d.orders| && e.orders[i].status == N.Delivered && e.orders[i].activationOpen == stayOpen
      && e.orders[i].claim == None && e.orders[i].inbox == seen.inbox && e.orders[i].expiresAt == seen.expiresAt
  {
  }

  lemma {:induction false} ExpiredRow(d: N.Desk, i: nat, seen: N.Order)
    requires i < |d.orders| && Open(seen)
    ensures var e := N.Refund(N.Put(d, i, seen), i, N.Expired);
      |e.orders| == |d.orders| && e.orders[i].status == N.Expired && !e.orders[i].activationOpen
      && e.orders[i].claim == None && e.orders[i].inbox == seen.inbox && e.orders[i].expiresAt == seen.expiresAt
  {
  }

  // ---------------------------------------------------------------------
  // Requests
  // ---------------------------------------------------------------------

  /**
   An order is opened exactly when its user can pay a price above zero, under a key that user has
   not used and a reference nobody has; the price then leaves the user for the pending account.
   */
  lemma {:induction false} AnOrderIsOpenedIff(w: World, user: Uuid, price: Naira, supplier: string, byOffer: bool,
                                              reference: string, key: Uuid, now: int)
    requires NoKey(w.t.book, ReserveKey(user, key))
    ensures var v := Next(w, Buy(user, price, supplier, byOffer, reference, key, now));
      var n := |w.t.orders|;
      if 0.0 < price <= -Sum(OfUser(user), w.t.book)
         && (forall i :: 0 <= i < n ==> w.t.orders[i].reference != reference)
         && (forall i :: 0 <= i < n ==> w.t.orders[i].user != user || w.t.orders[i].intent != key)
      then
        && |v.t.orders| == n + 1 && w.t.orders <= v.t.orders && v.t.intents == w.t.intents && v.pins == w.pins
        && IsNewOrder(v.t.orders[n], user, price, supplier, byOffer, reference, key)
        && v.t.orders[n].reserved == |w.t.book| && v.t.orders[n].createdAt == now
        && v.t.book == w.t.book + [N.ReserveJournal(v.t.orders[n])]
      else v == w
  {
  }

  predicate IsNewOrder(o: N.Order, user: Uuid, price: Naira, supplier: string, byOffer: bool, reference: string,
                       key: Uuid)
  {
    && o.user == user && o.price == price && o.reference == reference && o.intent == key
    && o.provider == supplier && o.byOffer == byOffer && o.source == None
    && o.status == N.Reserved && o.settled == None && o.refunded == None
    && o.claim == None && !o.started && o.providerOrder == None && o.inbox == []
  }

  /** Where the money of the three journals goes: the price, out of the one account and into the other. */
  lemma {:induction false} JournalsMoveThePrice(o: N.Order)
    ensures Moves(N.ReserveJournal(o), Account(UserNgn, Some(o.user)), Account(NumberPayablePending, None), o.price)
    ensures Moves(N.SettleJournal(o), Account(NumberPayablePending, None), Account(NumberRevenue, None), o.price)
    ensures Moves(N.RefundJournal(o), Account(NumberPayablePending, None), Account(UserNgn, Some(o.user)), o.price)
    ensures IsEvent(N.ReserveJournal(o), NumberReserve, o, "number-reserve:" + o.user + ":" + o.intent)
    ensures IsEvent(N.SettleJournal(o), NumberSettle, o, o.reference + ":settle")
    ensures IsEvent(N.RefundJournal(o), NumberRefund, o, o.reference + ":refund")
    ensures o.price != 0.0 ==> Valid(N.ReserveJournal(o)) && Valid(N.SettleJournal(o)) && Valid(N.RefundJournal(o))
  {
    if o.price != 0.0 {
      PairIsValid(N.ReserveJournal(o));
      PairIsValid(N.SettleJournal(o));
      PairIsValid(N.RefundJournal(o));
    }
  }

  predicate Moves(j: Journal, out: Account, into: Account, amount: Naira) {
    j.entries == [Entry(out, Ngn, amount), Entry(into, Ngn, -amount)]
  }

  predicate IsEvent(j: Journal, kind: JournalKind, o: N.Order, key: string) {
    j.kind == kind && j.reference == o.reference && Render(j.key) == key
  }

  lemma {:induction false} PairIsValid(j: Journal)
    requires |j.entries| == 2 && j.entries[0].amount != 0.0 && j.entries[1].amount == -j.entries[0].amount
    requires j.entries[0].asset == j.entries[1].asset && !j.kind.CustodyOnly()
    ensures Valid(j)
  {
    forall a ensures AssetSum(j.entries, a) == 0.0 {
      AssetSumStep(j.entries, 0, a);
      AssetSumStep(j.entries, 1, a);
      assert j.entries[..2] == j.entries;
    }
  }

  /** What an operator who asks for a refund is told, by the row as it was read. */
  lemma {:induction false} ARefundIsAnsweredBy(w: World, order: nat, key: Uuid)
    ensures var audited := exists i :: 0 <= i < |w.audits| && w.audits[i].order == order && w.audits[i].key == key;
      var answer := AnswerRefund(w, order, key);
      if order >= |w.t.orders| then answer == NotFound
      else
        var o := w.t.orders[order];
        if audited then answer == Replayed(o.refunded)
        else if o.refunded.Some? || !Open(o) then answer == Conflict
        else answer == if o.price <= w.cap then Accepted else OverCap
  {
  }

  /** A recheck starts from what it reads, unless the order is in review without a number to ask about. */
  lemma {:induction false} ARecheckStartsIff(w: World, job: nat, order: nat)
    requires job !in w.errands && order < |w.t.orders|
    ensures var o := w.t.orders[order];
      var v := Next(w, ReadRecheck(job, order));
      if o.status == N.ReviewRequired && o.providerOrder == None then v == w
      else v == w.(errands := w.errands[job := Errand(Recheck, order, o.status, o.started, o.providerOrder, None)])
  {
  }

  /** A cancellation goes ahead exactly for the owner of a reserved or waiting order that has received nothing. */
  lemma {:induction false} ACancellationStartsIff(w: World, job: nat, order: nat, user: Uuid)
    requires job !in w.errands && order < |w.t.orders|
    ensures var o := w.t.orders[order];
      var v := Next(w, ReadCancel(job, order, user));
      if o.user == user && (o.status == N.Reserved || o.status == N.AwaitingCode) && o.inbox == []
      then v == w.(errands := w.errands[job := Errand(Cancel, order, o.status, o.started, o.providerOrder, None)])
      else v == w
  {
  }

  /**
   A cancellation that holds its row gives the money back exactly when it read no number, or the
   supplier answered for the number with no message, still open, and let it go.
   */
  lemma {:induction false} ACancellationRefundsIff(w: World, job: nat, answer: Option<N.Check>, refused: bool, now: int)
    requires job in w.errands && w.errands[job].kind == Cancel && w.errands[job].token.Some?
    requires w.errands[job].order < |w.t.orders|
    ensures var j := w.errands[job];
      var v := Next(w, DoErrand(job, answer, refused, now));
      var released := j.providerOrder == None
        || (answer.Some? && answer.value.messages == [] && !answer.value.closed && !refused);
      var heard := j.providerOrder.Some? && answer.Some? && (answer.value.messages != [] || answer.value.closed);
      v.t == if released
             then Next(w, Transit(j.order, j.token, N.GiveBack(N.Cancelled, "cancelled"), now)).t
             else if heard then Next(w, Checked(j.order, j.token, answer.value, now)).t
             else Next(w, Release(j.order, j.token.value)).t
  {
  }

  /**
   A recheck that holds its row acts on what it read: never started, gives back; started without a
   number, sends to review; with a number, does what the supplier answers, if it answers.
   */
  lemma {:induction false} ARecheckDoes(w: World, job: nat, answer: Option<N.Check>, now: int)
    requires job in w.errands && w.errands[job].kind == Recheck && w.errands[job].token.Some?
    requires w.errands[job].order < |w.t.orders|
    ensures var j := w.errands[job];
      var v := Next(w, DoErrand(job, answer, false, now));
      v.t == if j.status == N.Reserved && !j.started
             then Next(w, Transit(j.order, j.token, N.GiveBack(N.Failed, "purchase_not_started"), now)).t
             else if j.status == N.Reserved && j.providerOrder == None
             then Next(w, Review(j.order, j.token.value, "purchase_outcome_unknown", now)).t
             else if j.providerOrder.Some? && answer.Some?
             then Next(w, Checked(j.order, j.token, answer.value, now)).t
             else Next(w, Release(j.order, j.token.value)).t
  {
  }

  // ---------------------------------------------------------------------
  // Polls and sweeps
  // ---------------------------------------------------------------------

  /** A poll or a sweep goes on exactly with a pending row, and remembers whose it is and what it asks for. */
  lemma {:induction false} ATopUpIsReadIff(w: World, call: nat, i: nat)
    requires call !in w.calls && i < |w.t.intents|
    ensures var x := w.t.intents[i];
      var v := Next(w, ReadIntent(call, i));
      if x.status == F.Pending
      then v == w.(calls := w.calls[call := Call(i, x.user, x.reference, x.amount, None)])
      else v == w
  {
  }

  /**
   The reply to a call that the live provider sends is heard once: a success for its own kobo, a
   failure or reversal as one, and anything else as still open or not reached. No table changes.
   */
  lemma {:induction false} AReplyIsHeardOnce(w: World, call: nat, reply: F.Reply)
    requires call in w.calls
    ensures var c := w.calls[call];
      var v := Next(w, Hear(call, F.Paystack, reply));
      if c.verdict.Some? then v == w
      else
        && call in v.calls && v.calls[call].verdict.Some?
        && v == w.(calls := w.calls[call := c.(verdict := v.calls[call].verdict)])
        && var said := v.calls[call].verdict.value;
           && (said == F.Unreachable <==> reply == F.NoReply)
           && (said.Answered? && said.state.ChargeFailed?
               <==> reply.Data? && (reply.status == "failed" || reply.status == "reversed"))
           && (said.Answered? && said.state.ChargeSucceeded? <==> reply.Data? && reply.status == "success")
           && (said.Answered? && said.state.ChargeSucceeded? ==> said.state.amount * 100.0 == reply.kobo as real)
  {
  }

  /** What was heard is written once: the call is over, and the tables are those of the settlement. */
  lemma {:induction false} ACallIsCommittedOnce(w: World, call: nat)
    requires call in w.calls && w.calls[call].verdict.Some? && w.calls[call].id < |w.t.intents|
    ensures var c := w.calls[call];
      var v := Next(w, Commit(call));
      && v.calls == w.calls - {call} && v.t.orders == w.t.orders
      && v.t.Funds() == F.Settle(w.t.Funds(), c.id, c.user, c.reference, c.verdict.value).funds
      && Next(v, Commit(call)) == v
  {
  }
}
