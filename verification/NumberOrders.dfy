/**
 Held number orders. Each function is one transaction on the order table and the
 ledger; claims expire, tokens are checked, and a held order is closed by exactly
 one of a settlement and a refund.
 */
module NumberOrders {
  import opened Base
  import opened Ledger

  datatype Status = Reserved | AwaitingCode | ReviewRequired | Delivered | Expired | Cancelled | Failed
  {
    predicate Held() { Reserved? || AwaitingCode? || ReviewRequired? }
    predicate Refunded() { Expired? || Cancelled? || Failed? }
  }

  /** The three statuses a refund can leave. */
  type RefundStatus = s: Status | s.Refunded() witness Cancelled

  datatype Claim = Claim(token: Uuid, until: int)

  datatype Sms = Sms(key: string, code: Option<string>)

  /** Which of a supplier's offerings a number was bought as. */
  datatype SourceSku = SourceSku(country: string, product: string, operator: string)

  /** A row of `number_orders`. Rows are never deleted: the position in the table is the id. */
  datatype Order = Order(
    user: Uuid, price: Naira, reference: string, intent: Uuid, createdAt: int,
    status: Status, reserved: nat, settled: Option<nat>, refunded: Option<nat>,
    claim: Option<Claim>, started: bool, providerOrder: Option<string>,
    expiresAt: Option<int>, activationOpen: bool, reviewReason: string, inbox: seq<Sms>,
    provider: string, byOffer: bool, source: Option<SourceSku>)

  datatype Desk = Desk(book: Book, orders: seq<Order>)

  datatype OrderError =
    | ClaimStale | EmptyReason | NoProviderOrder
    | InsufficientBalance | KeyInUse | ReferenceInUse | BadPrice | NotHolding | ClaimConflict

  datatype Outcome = Applied | AlreadyTerminal

  datatype Moved = Moved(desk: Desk, outcome: Result<Outcome, OrderError>)

  const CLAIM_SECONDS: int := 60
  const UNKNOWN_OUTCOME: string := "purchase_outcome_unknown"

  // ---------------------------------------------------------------------
  // Journals
  // ---------------------------------------------------------------------

  function Pending(): Account { Account(NumberPayablePending, None) }
  function Revenue(): Account { Account(NumberRevenue, None) }
  function Wallet(user: Uuid): Account { Account(UserNgn, Some(user)) }

  function Pair(kind: JournalKind, reference: string, key: Key, debit: Account, credit: Account,
                amount: Naira): Journal {
    Journal(kind, reference, key, [Entry(debit, Ngn, amount), Entry(credit, Ngn, -amount)])
  }

  function ReserveJournal(o: Order): Journal {
    Pair(NumberReserve, o.reference, ReserveKey(o.user, o.intent), Wallet(o.user), Pending(), o.price)
  }

  function SettleJournal(o: Order): Journal {
    Pair(NumberSettle, o.reference, SettleKey(o.reference), Pending(), Revenue(), o.price)
  }

  function RefundJournal(o: Order): Journal {
    Pair(NumberRefund, o.reference, RefundKey(o.reference), Pending(), Wallet(o.user), o.price)
  }

  // ---------------------------------------------------------------------
  // Claims
  // ---------------------------------------------------------------------

  /** The reconciler may take a row nobody holds, or one whose claim ran out. */
  predicate Free(o: Order, now: int) {
    o.claim.None? || o.claim.value.until < now
  }

  /** A token acts only while it is the stored one and has not run out. */
  predicate Current(o: Order, token: Uuid, now: int) {
    o.claim.Some? && o.claim.value.token == token && o.claim.value.until > now
  }

  function Grant(o: Order, token: Uuid, now: int): Order {
    o.(claim := Some(Claim(token, now + CLAIM_SECONDS)))
  }

  /** `try_claim_held_order` */
  predicate CanClaimHeld(o: Order, now: int) {
    o.status.Held() && Free(o, now)
  }

  /** `try_claim_order`, used by a customer's cancellation */
  predicate CanClaimOpen(o: Order, now: int) {
    (o.status.Reserved? || o.status.AwaitingCode?) && Free(o, now)
  }

  /** The worker's sweep, apart from its schedule */
  predicate CanSweep(o: Order, now: int) {
    && (o.status.Reserved? || o.status.AwaitingCode?
        || (o.status.Delivered? && o.activationOpen)
        || (o.status.ReviewRequired? && o.providerOrder.None? && o.reviewReason == UNKNOWN_OUTCOME))
    && Free(o, now)
  }

  // ---------------------------------------------------------------------
  // Transactions
  // ---------------------------------------------------------------------

  function Put(d: Desk, id: nat, o: Order): Desk
    requires id < |d.orders|
  {
    d.(orders := d.orders[id := o])
  }

  predicate ReferenceTaken(orders: seq<Order>, reference: string) {
    exists i :: 0 <= i < |orders| && orders[i].reference == reference
  }

  predicate IntentTaken(orders: seq<Order>, user: Uuid, intent: Uuid) {
    exists i :: 0 <= i < |orders| && orders[i].user == user && orders[i].intent == intent
  }

  /** What a user may spend: the ledger stores liabilities negative. */
  function Balance(book: Book, user: Uuid): Naira {
    -Sum(OfUser(user), book)
  }

  /** Take the price out of the user's balance and open the order, or do neither. */
  function Reserve(d: Desk, user: Uuid, price: Naira, provider: string, byOffer: bool,
                   reference: string, intent: Uuid, now: int): Result<Desk, OrderError> {
    if IntentTaken(d.orders, user, intent) then Err(KeyInUse)
    else if price > Balance(d.book, user) then Err(InsufficientBalance)
    else if price <= 0.0 then Err(BadPrice)
    else if ReferenceTaken(d.orders, reference) then Err(ReferenceInUse)
    else
      var o := Order(user, price, reference, intent, now, Reserved, 0, None, None,
                     None, false, None, None, false, "", [], provider, byOffer, None);
      var posting := Post(d.book, ReserveJournal(o));
      Ok(Desk(posting.book, d.orders + [o.(reserved := posting.id)]))
  }

  function StartPurchase(o: Order, token: Uuid, now: int): Order {
    if o.status.Reserved? && !o.started && Free(o, now)
    then Grant(o, token, now).(started := true)
    else o
  }

  /**
   A purchase of an offer that has started and not yet noted where it bought. Only one purchase
   starts, and it notes once.
   */
  predicate MayNote(o: Order) {
    o.started && o.byOffer && o.source.None?
  }

  /** The purchase notes where it bought, by the order's id alone: neither the claim nor the status is looked at. */
  function PinSource(o: Order, provider: string, source: SourceSku): Order {
    if MayNote(o) then o.(provider := provider, source := Some(source)) else o
  }

  /** The same row, except perhaps for where its number was bought. */
  predicate SameButSource(a: Order, b: Order) {
    b == a.(provider := b.provider, source := b.source)
  }

  function AssignNumber(o: Order, token: Uuid, providerOrder: string, expiresAt: int, now: int): Order {
    if o.status.Reserved? && Current(o, token, now)
    then o.(status := AwaitingCode, providerOrder := Some(providerOrder), expiresAt := Some(expiresAt),
            activationOpen := true, claim := None)
    else o
  }

  /** The worker finds the number in the supplier's history. The token is compared, its expiry is not. */
  function Recover(o: Order, token: Uuid, providerOrder: string, expiresAt: int): Order {
    if o.status.ReviewRequired? && o.claim.Some? && o.claim.value.token == token
    then o.(status := AwaitingCode, providerOrder := Some(providerOrder), expiresAt := Some(expiresAt),
            activationOpen := true, claim := None)
    else o
  }

  function MarkReview(o: Order, token: Uuid, reason: string, now: int): Order {
    if (o.status.Reserved? || o.status.AwaitingCode?) && Current(o, token, now)
    then o.(status := ReviewRequired, reviewReason := reason, claim := None)
    else o
  }

  function Release(o: Order, token: Uuid): Order {
    if o.claim.Some? && o.claim.value.token == token then o.(claim := None) else o
  }

  function Settle(d: Desk, id: nat, stayOpen: bool): Desk
    requires id < |d.orders|
  {
    var o := d.orders[id];
    var posting := Post(d.book, SettleJournal(o));
    if o.status.Held()
    then Desk(posting.book, d.orders[id := o.(status := Delivered, settled := Some(posting.id),
                                              activationOpen := stayOpen, claim := None)])
    else d.(book := posting.book)
  }

  function Refund(d: Desk, id: nat, status: RefundStatus): Desk
    requires id < |d.orders|
  {
    var o := d.orders[id];
    var posting := Post(d.book, RefundJournal(o));
    if o.status.Held()
    then Desk(posting.book, d.orders[id := o.(status := status, refunded := Some(posting.id),
                                              activationOpen := false, claim := None)])
    else d.(book := posting.book)
  }

  datatype Transition = Deliver | GiveBack(status: RefundStatus, reason: string)

  /** A reason that trims to nothing. */
  predicate Blank(s: string) {
    forall i :: 0 <= i < |s| ==> IsSpace(s[i])
  }

  /** The database trims a code of plain spaces only. */
  predicate OnlySpaces(s: string) {
    forall i :: 0 <= i < |s| ==> s[i] == ' '
  }

  predicate TokenAllows(o: Order, token: Option<Uuid>, now: int) {
    token.None? || Current(o, token.value, now)
  }

  /** `apply` and `apply_claimed` */
  function Apply(d: Desk, id: nat, token: Option<Uuid>, t: Transition, now: int): Moved
    requires id < |d.orders|
  {
    var o := d.orders[id];
    if !TokenAllows(o, token, now) then Moved(d, Err(ClaimStale))
    else if !o.status.Held() then Moved(d, Ok(AlreadyTerminal))
    else match t
      case Deliver => Moved(Settle(d, id, true), Ok(Applied))
      case GiveBack(status, reason) =>
        if Blank(reason) then Moved(d, Err(EmptyReason))
        else Moved(Refund(d, id, status), Ok(Applied))
  }

  datatype Check = Check(messages: seq<Sms>, closed: bool, expiresAt: Option<int>)

  /** A message already stored under its key is not stored again. */
  function AddMessages(inbox: seq<Sms>, messages: seq<Sms>): (r: seq<Sms>)
    ensures inbox <= r
    decreases |messages|
  {
    if messages == [] then inbox
    else
      var m := messages[0];
      AddMessages(if exists i :: 0 <= i < |inbox| && inbox[i].key == m.key then inbox else inbox + [m], messages[1..])
  }

  /** Stored under a key already, by the inbox or by an earlier message. */
  predicate KnownKey(inbox: seq<Sms>, key: string) {
    exists i :: 0 <= i < |inbox| && inbox[i].key == key
  }

  /** A message that is stored: its key is new, and no earlier message of the answer has it. */
  predicate IsNew(inbox: seq<Sms>, messages: seq<Sms>, k: int) {
    0 <= k < |messages| && !KnownKey(inbox, messages[k].key) && !KnownKey(messages[..k], messages[k].key)
  }

  /** The messages of an answer that are stored, in order. */
  function News(inbox: seq<Sms>, messages: seq<Sms>): seq<Sms> {
    if messages == [] then []
    else
      var n := |messages| - 1;
      News(inbox, messages[..n]) + if IsNew(inbox, messages, n) then [messages[n]] else []
  }

  function AddOne(inbox: seq<Sms>, m: Sms): seq<Sms> {
    if KnownKey(inbox, m.key) then inbox else inbox + [m]
  }

  lemma {:induction false} AddLast(inbox: seq<Sms>, messages: seq<Sms>, m: Sms)
    ensures AddMessages(inbox, messages + [m]) == AddOne(AddMessages(inbox, messages), m)
    decreases |messages|
  {
    if messages == [] {
      assert [m][1..] == [] && AddMessages(AddOne(inbox, m), []) == AddOne(inbox, m);
    } else {
      assert (messages + [m])[1..] == messages[1..] + [m];
      AddLast(AddOne(inbox, messages[0]), messages[1..], m);
    }
  }

  /** What an answer adds to the inbox: each message whose key is new, once, in the order received. */
  lemma {:induction false} MessagesAreStoredOnce(inbox: seq<Sms>, messages: seq<Sms>)
    ensures AddMessages(inbox, messages) == inbox + News(inbox, messages)
    ensures forall key :: KnownKey(AddMessages(inbox, messages), key)
                     <==> KnownKey(inbox, key) || KnownKey(messages, key)
    decreases |messages|
  {
    if messages != [] {
      var n := |messages| - 1;
      var front, m := messages[..n], messages[n];
      MessagesAreStoredOnce(inbox, front);
      assert messages == front + [m];
      AddLast(inbox, front, m);
      forall key
        ensures KnownKey(AddMessages(inbox, messages), key) <==> KnownKey(inbox, key) || KnownKey(messages, key)
      {
        KnownPush(AddMessages(inbox, front), m, key);
        KnownPush(front, m, key);
      }
    }
  }

  lemma KnownPush(inbox: seq<Sms>, m: Sms, key: string)
    ensures KnownKey(inbox + [m], key) <==> KnownKey(inbox, key) || m.key == key
  {
    var more := inbox + [m];
    assert more[|inbox|] == m;
    if i :| 0 <= i < |inbox| && inbox[i].key == key {
      assert more[i].key == key;
    }
  }

  predicate HasCode(inbox: seq<Sms>) {
    exists i :: 0 <= i < |inbox| && inbox[i].code.Some? && !OnlySpaces(inbox[i].code.value)
  }

  function Later(current: Option<int>, newer: Option<int>): Option<int> {
    if newer.Some? && (current.None? || newer.value > current.value) then newer else current
  }

  /** `apply_check`: what a supplier's answer about a number does to its order. */
  function ApplyCheck(d: Desk, id: nat, token: Option<Uuid>, check: Check, now: int): Moved
    requires id < |d.orders|
  {
    var o := d.orders[id];
    if !TokenAllows(o, token, now) then Moved(d, Err(ClaimStale))
    else if o.status.Refunded() then Moved(d, Ok(AlreadyTerminal))
    else if check.messages != [] && o.providerOrder.None? then Moved(d, Err(NoProviderOrder))
    else
      var expiry := Later(o.expiresAt, check.expiresAt);
      var expired := expiry.Some? && expiry.value <= now;
      var inbox := AddMessages(o.inbox, check.messages);
      var seen := o.(expiresAt := expiry, inbox := inbox);
      var e := Put(d, id, seen);
      var stayOpen := !check.closed && !expired;
      if o.status.Held() then
        if HasCode(inbox) then Moved(Settle(e, id, stayOpen), Ok(Applied))
        else if check.closed || expired then
          if inbox != [] then
            var reason := if check.closed then "closed_without_code" else "expired_without_code";
            Moved(Put(d, id, seen.(status := ReviewRequired, activationOpen := false, claim := None,
                                   reviewReason := reason)), Ok(Applied))
          else Moved(Refund(e, id, Expired), Ok(Applied))
        else Moved(Put(d, id, seen.(activationOpen := true, claim := None)), Ok(Applied))
      else Moved(Put(d, id, seen.(activationOpen := stayOpen, claim := None)), Ok(Applied))
  }

  // ---------------------------------------------------------------------
  // Three moves
  // ---------------------------------------------------------------------

  /** The money side of a row is untouched and the row stays on its side of the held/closed line. */
  ghost predicate Touches(a: Order, b: Order) {
    && a.user == b.user && a.price == b.price && a.reference == b.reference && a.intent == b.intent
    && a.reserved == b.reserved && a.settled == b.settled && a.refunded == b.refunded
    && (a.status == b.status || (a.status.Held() && b.status.Held()))
  }

  ghost predicate Closes(a: Order, b: Order) {
    && a.status.Held() && !b.status.Held()
    && a.user == b.user && a.price == b.price && a.reference == b.reference && a.intent == b.intent
    && a.reserved == b.reserved
  }

  ghost predicate QuietMove(d: Desk, e: Desk, id: nat)
    requires id < |d.orders|
  {
    e.book == d.book && |e.orders| == |d.orders| && e.orders == d.orders[id := e.orders[id]]
    && Touches(d.orders[id], e.orders[id])
  }

  ghost predicate SettleMove(d: Desk, e: Desk, id: nat)
    requires id < |d.orders|
  {
    var o := d.orders[id];
    && |e.orders| == |d.orders| && e.orders == d.orders[id := e.orders[id]]
    && Closes(o, e.orders[id])
    && e.book == Post(d.book, SettleJournal(o)).book
    && e.orders[id].status == Delivered
    && e.orders[id].settled == Some(Post(d.book, SettleJournal(o)).id)
    && e.orders[id].refunded == o.refunded
  }

  ghost predicate RefundMove(d: Desk, e: Desk, id: nat)
    requires id < |d.orders|
  {
    var o := d.orders[id];
    && |e.orders| == |d.orders| && e.orders == d.orders[id := e.orders[id]]
    && Closes(o, e.orders[id])
    && e.book == Post(d.book, RefundJournal(o)).book
    && e.orders[id].status.Refunded()
    && e.orders[id].refunded == Some(Post(d.book, RefundJournal(o)).id)
    && e.orders[id].settled == o.settled
  }

  ghost predicate Move(d: Desk, e: Desk, id: nat)
    requires id < |d.orders|
  {
    QuietMove(d, e, id) || SettleMove(d, e, id) || RefundMove(d, e, id)
  }

  /** Whatever a transition asks for, the tables make one of three moves, and none unless the claim allows it. */
  lemma ApplyMoves(d: Desk, id: nat, token: Option<Uuid>, t: Transition, now: int)
    requires id < |d.orders|
    ensures var m := Apply(d, id, token, t, now);
            && Move(d, m.desk, id)
            && (m.desk != d ==> d.orders[id].status.Held() && TokenAllows(d.orders[id], token, now))
            && (m.outcome == Ok(Applied) ==>
                  if t.Deliver? then SettleMove(d, m.desk, id)
                  else RefundMove(d, m.desk, id) && m.desk.orders[id].status == t.status)
  {
    assert d.orders[id := d.orders[id]] == d.orders;
  }

  /** Noting what the supplier said before closing the row does not change the closing. */
  lemma SettleAfterNote(d: Desk, id: nat, seen: Order, stayOpen: bool)
    requires id < |d.orders| && d.orders[id].status.Held() && Touches(d.orders[id], seen)
    requires seen.status == d.orders[id].status
    ensures SettleMove(d, Settle(Put(d, id, seen), id, stayOpen), id)
    ensures Settle(Put(d, id, seen), id, stayOpen).orders[id].claim == None
  {
    assert SettleJournal(seen) == SettleJournal(d.orders[id]);
    assert d.orders[id := seen][id] == seen;
  }

  lemma RefundAfterNote(d: Desk, id: nat, seen: Order, status: RefundStatus)
    requires id < |d.orders| && d.orders[id].status.Held() && Touches(d.orders[id], seen)
    requires seen.status == d.orders[id].status
    ensures RefundMove(d, Refund(Put(d, id, seen), id, status), id)
    ensures Refund(Put(d, id, seen), id, status).orders[id].claim == None
  {
    assert RefundJournal(seen) == RefundJournal(d.orders[id]);
    assert d.orders[id := seen][id] == seen;
  }

  lemma PutIsQuiet(d: Desk, id: nat, o: Order)
    requires id < |d.orders| && Touches(d.orders[id], o)
    ensures QuietMove(d, Put(d, id, o), id)
  {
  }

  /** The same orders, bought where they were bought, under the claims they were under or none. */
  ghost predicate SourcesKept(d: Desk, e: Desk) {
    |e.orders| == |d.orders| && forall i :: 0 <= i < |d.orders| ==> SourceKept(d.orders[i], e.orders[i])
  }

  predicate SourceKept(a: Order, b: Order) {
    && b.provider == a.provider && b.source == a.source && b.byOffer == a.byOffer
    && (b.claim == a.claim || b.claim == None)
  }

  /** No transition changes where a number was bought. */
  lemma {:induction false} ApplyKeepsTheSource(d: Desk, id: nat, token: Option<Uuid>, t: Transition, now: int)
    requires id < |d.orders|
    ensures SourcesKept(d, Apply(d, id, token, t, now).desk)
  {
  }

  lemma {:induction false} ClosingKeepsTheSource(d: Desk, id: nat, seen: Order, stayOpen: bool, status: RefundStatus)
    requires id < |d.orders| && SourceKept(d.orders[id], seen)
    ensures SourcesKept(d, Put(d, id, seen))
    ensures SourcesKept(d, Settle(Put(d, id, seen), id, stayOpen))
    ensures SourcesKept(d, Refund(Put(d, id, seen), id, status))
  {
  }

  /** Nor does a supplier's answer. */
  lemma {:induction false} CheckKeepsTheSource(d: Desk, id: nat, token: Option<Uuid>, check: Check, now: int)
    requires id < |d.orders|
    ensures SourcesKept(d, ApplyCheck(d, id, token, check, now).desk)
  {
    var o := d.orders[id];
    var m := ApplyCheck(d, id, token, check, now);
    if m.outcome == Ok(Applied) {
      var inbox := AddMessages(o.inbox, check.messages);
      var seen := o.(expiresAt := Later(o.expiresAt, check.expiresAt), inbox := inbox);
      var expired := seen.expiresAt.Some? && seen.expiresAt.value <= now;
      ClosingKeepsTheSource(d, id, seen, !check.closed && !expired, Expired);
      ClosingKeepsTheSource(d, id, m.desk.orders[id], false, Expired);
    }
  }

  /** Nothing more will come: the supplier closed the number, or its time is up. */
  predicate GivenUp(o: Order, check: Check, now: int) {
    var expiry := Later(o.expiresAt, check.expiresAt);
    check.closed || (expiry.Some? && expiry.value <= now)
  }

  /**
   A supplier's answer settles a held order exactly when a code is in the inbox,
   refunds it exactly when the number is given up with an empty inbox, and
   otherwise leaves its money alone.
   */
  lemma ApplyCheckMoves(d: Desk, id: nat, token: Option<Uuid>, check: Check, now: int)
    requires id < |d.orders|
    ensures var m := ApplyCheck(d, id, token, check, now);
            var inbox := AddMessages(d.orders[id].inbox, check.messages);
            var held := d.orders[id].status.Held();
            && (m.outcome != Ok(Applied) ==> m.desk == d)
            && (m.outcome == Ok(Applied) ==>
                  && TokenAllows(d.orders[id], token, now)
                  && m.desk.orders[id].claim == None
                  && (if held && HasCode(inbox) then SettleMove(d, m.desk, id)
                      else if held && inbox == [] && GivenUp(d.orders[id], check, now) then RefundMove(d, m.desk, id)
                      else QuietMove(d, m.desk, id)))
  {
    var o := d.orders[id];
    var m := ApplyCheck(d, id, token, check, now);
    if m.outcome == Ok(Applied) {
      var inbox := AddMessages(o.inbox, check.messages);
      var seen := o.(expiresAt := Later(o.expiresAt, check.expiresAt), inbox := inbox);
      var expired := seen.expiresAt.Some? && seen.expiresAt.value <= now;
      if o.status.Held() && HasCode(inbox) {
        SettleAfterNote(d, id, seen, !check.closed && !expired);
      } else if o.status.Held() && (check.closed || expired) && inbox == [] {
        RefundAfterNote(d, id, seen, Expired);
      } else {
        PutIsQuiet(d, id, m.desk.orders[id]);
      }
    }
  }
}
