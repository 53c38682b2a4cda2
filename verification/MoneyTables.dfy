/**
 What the money tables must satisfy together, and why each kind of write keeps it:
 opening an intent, crediting a charge, closing old intents, reserving an order,
 and the three moves an order can make.
 */
module MoneyTables {
  import opened Base
  import opened Ledger
  import F = Funding
  import N = NumberOrders

  datatype Tables = Tables(book: Book, intents: seq<F.Intent>, orders: seq<N.Order>)
  {
    function Funds(): F.Funds { F.Funds(book, intents) }
    function Desk(): N.Desk { N.Desk(book, orders) }
    function WithFunds(f: F.Funds): Tables { Tables(f.book, f.intents, orders) }
    function WithDesk(d: N.Desk): Tables { Tables(d.book, intents, d.orders) }
  }

  // ---------------------------------------------------------------------
  // Totals over orders
  // ---------------------------------------------------------------------

  datatype Tally = HeldPrices | DeliveredPrices | HeldOf(user: Uuid) | DeliveredOf(user: Uuid)

  predicate Counted(t: Tally, o: N.Order) {
    match t
    case HeldPrices => o.status.Held()
    case DeliveredPrices => o.status.Delivered?
    case HeldOf(u) => o.status.Held() && o.user == u
    case DeliveredOf(u) => o.status.Delivered? && o.user == u
  }

  function Share(t: Tally, o: N.Order): Naira {
    if Counted(t, o) then o.price else 0.0
  }

  function Total(t: Tally, orders: seq<N.Order>): Naira {
    if orders == [] then 0.0
    else Total(t, orders[..|orders| - 1]) + Share(t, orders[|orders| - 1])
  }

  lemma {:induction false} TotalAppend(t: Tally, orders: seq<N.Order>, o: N.Order)
    ensures Total(t, orders + [o]) == Total(t, orders) + Share(t, o)
  {
    assert (orders + [o])[..|orders|] == orders;
  }

  lemma {:induction false} TotalUpdate(t: Tally, orders: seq<N.Order>, id: nat, o: N.Order)
    requires id < |orders|
    ensures Total(t, orders[id := o]) == Total(t, orders) - Share(t, orders[id]) + Share(t, o)
  {
    var n := |orders| - 1;
    if id == n {
      assert orders[id := o][..n] == orders[..n];
    } else {
      assert orders[id := o][..n] == orders[..n][id := o];
      TotalUpdate(t, orders[..n], id, o);
    }
  }

  // ---------------------------------------------------------------------
  // The invariant
  // ---------------------------------------------------------------------

  ghost predicate ReferencesUnique(t: Tables) {
    && (forall i, k :: 0 <= i < k < |t.intents| ==> t.intents[i].reference != t.intents[k].reference)
    && (forall i, k :: 0 <= i < k < |t.orders| ==> t.orders[i].reference != t.orders[k].reference)
    && (forall i, k :: 0 <= i < k < |t.orders| ==>
          t.orders[i].user != t.orders[k].user || t.orders[i].intent != t.orders[k].intent)
  }

  ghost predicate Holds(book: Book, id: nat, j: Journal) {
    id < |book| && book[id] == j
  }

  /** A pending intent has no credit; a succeeded one names its own journal and that journal's amount. */
  ghost predicate IntentOk(book: Book, x: F.Intent) {
    match x.status
    case Pending => x.credited == None && NoKey(book, CreditKey(x.reference))
    case Succeeded => x.credited.Some? && x.amount > 0.0
                      && Holds(book, x.credited.value, F.CreditJournal(x.user, x.reference, x.amount))
    case _ => x.credited == None
  }

  /** An order is held, settled or refunded, and the ledger agrees. */
  ghost predicate OrderOk(book: Book, o: N.Order) {
    && o.price > 0.0
    && Holds(book, o.reserved, N.ReserveJournal(o))
    && (o.status.Held() ==> o.settled == None && o.refunded == None)
    && (o.status.Delivered? ==>
          o.refunded == None && o.settled.Some? && Holds(book, o.settled.value, N.SettleJournal(o)))
    && (o.status.Refunded() ==>
          o.settled == None && o.refunded.Some? && Holds(book, o.refunded.value, N.RefundJournal(o)))
  }

  ghost predicate IntentHas(intents: seq<F.Intent>, i: int, j: Journal) {
    && 0 <= i < |intents| && |j.entries| == 2 && j.entries[0].amount != 0.0
    && j == F.CreditJournal(intents[i].user, intents[i].reference, j.entries[0].amount)
  }

  ghost predicate OrderHas(orders: seq<N.Order>, i: int, j: Journal) {
    && 0 <= i < |orders| && orders[i].price > 0.0
    && (j == N.ReserveJournal(orders[i])
        || (orders[i].status.Delivered? && j == N.SettleJournal(orders[i]))
        || (orders[i].status.Refunded() && j == N.RefundJournal(orders[i])))
  }

  /** No journal is an orphan: each was posted for a row that is still there. */
  ghost predicate Known(t: Tables, j: Journal) {
    (exists i :: IntentHas(t.intents, i, j)) || (exists i :: OrderHas(t.orders, i, j))
  }

  ghost predicate BookOk(t: Tables) {
    KeysUnique(t.book) && forall k :: 0 <= k < |t.book| ==> Known(t, t.book[k])
  }

  ghost predicate RowsOk(t: Tables) {
    && (forall i :: 0 <= i < |t.intents| ==> IntentOk(t.book, t.intents[i]))
    && (forall i :: 0 <= i < |t.orders| ==> OrderOk(t.book, t.orders[i]))
  }

  function FourSums(book: Book): Naira {
    Sum(OfKind(NgnFloat), book) + Sum(OfKind(UserNgn), book)
    + Sum(OfKind(NumberPayablePending), book) + Sum(OfKind(NumberRevenue), book)
  }

  /** Reservations sit in the pending account and settlements in revenue. */
  ghost predicate FiguresOk(t: Tables) {
    && -Sum(OfKind(NumberPayablePending), t.book) == Total(HeldPrices, t.orders)
    && -Sum(OfKind(NumberRevenue), t.book) == Total(DeliveredPrices, t.orders)
    && Sum(Everything, t.book) == 0.0
    && FourSums(t.book) == 0.0
  }

  /** The figures are right, and each user paid for what was not refunded. */
  ghost predicate SumsOk(t: Tables) {
    FiguresOk(t) && forall u :: UserSumOk(t, u)
  }

  ghost predicate UserSumOk(t: Tables, u: Uuid) {
    Sum(OfUser(u), t.book) == Sum(Deposited(u), t.book) + Total(HeldOf(u), t.orders) + Total(DeliveredOf(u), t.orders)
  }

  ghost predicate Inv(t: Tables) {
    ReferencesUnique(t) && BookOk(t) && RowsOk(t) && SumsOk(t)
  }

  // ---------------------------------------------------------------------
  // Rows only move forward
  // ---------------------------------------------------------------------

  ghost predicate OrderAdvances(a: N.Order, b: N.Order) {
    && a.user == b.user && a.price == b.price && a.reference == b.reference
    && a.intent == b.intent && a.reserved == b.reserved
    && (!a.status.Held() ==> b.status == a.status && b.settled == a.settled && b.refunded == a.refunded)
  }

  ghost predicate OrdersAdvance(a: seq<N.Order>, b: seq<N.Order>) {
    |a| <= |b| && forall i :: 0 <= i < |a| ==> OrderAdvances(a[i], b[i])
  }

  ghost predicate Advances(a: Tables, b: Tables) {
    a.book <= b.book && F.TableAdvances(a.intents, b.intents) && OrdersAdvance(a.orders, b.orders)
  }

  lemma {:induction false} AdvancesTransitive(a: Tables, b: Tables, c: Tables)
    requires Advances(a, b) && Advances(b, c)
    ensures Advances(a, c)
  {
    F.TableAdvancesTransitive(a.intents, b.intents, c.intents);
    forall i | 0 <= i < |a.orders| ensures OrderAdvances(a.orders[i], c.orders[i]) {
      assert OrderAdvances(a.orders[i], b.orders[i]) && OrderAdvances(b.orders[i], c.orders[i]);
    }
  }

  lemma {:induction false} KnownStays(a: Tables, b: Tables, j: Journal)
    requires Known(a, j) && F.TableAdvances(a.intents, b.intents) && OrdersAdvance(a.orders, b.orders)
    ensures Known(b, j)
  {
    if i :| IntentHas(a.intents, i, j) {
      assert F.RowAdvances(a.intents[i], b.intents[i]);
      assert IntentHas(b.intents, i, j);
    } else {
      var i :| OrderHas(a.orders, i, j);
      assert OrderAdvances(a.orders[i], b.orders[i]);
      assert OrderHas(b.orders, i, j);
    }
  }

  /** What keeps the whole book known: the old journals by advancing, the new one by its own row. */
  lemma {:induction false} BookStays(a: Tables, b: Tables)
    requires BookOk(a) && F.TableAdvances(a.intents, b.intents) && OrdersAdvance(a.orders, b.orders)
    requires b.book == a.book || (|b.book| == |a.book| + 1 && a.book <= b.book
               && NoKey(a.book, b.book[|a.book|].key) && Known(b, b.book[|a.book|]))
    ensures BookOk(b)
  {
    forall k | 0 <= k < |b.book| ensures Known(b, b.book[k]) {
      if k < |a.book| {
        assert Known(a, a.book[k]);
        KnownStays(a, b, b.book[k]);
      }
    }
  }

  // ---------------------------------------------------------------------
  // Which keys are free
  // ---------------------------------------------------------------------

  lemma {:induction false} NoCreditYet(t: Tables, reference: string)
    requires BookOk(t) && forall i :: 0 <= i < |t.intents| ==> t.intents[i].reference != reference
    ensures NoKey(t.book, CreditKey(reference))
  {
    forall k | 0 <= k < |t.book| ensures t.book[k].key != CreditKey(reference) {
      assert Known(t, t.book[k]);
    }
  }

  lemma {:induction false} NoReserveYet(t: Tables, user: Uuid, intent: Uuid)
    requires BookOk(t) && forall i :: 0 <= i < |t.orders| ==> t.orders[i].user != user || t.orders[i].intent != intent
    ensures NoKey(t.book, ReserveKey(user, intent))
  {
    forall k | 0 <= k < |t.book| ensures t.book[k].key != ReserveKey(user, intent) {
      assert Known(t, t.book[k]);
    }
  }

  /** The ledger holds no closing journal for a held order, nor the wrong one for a closed order. */
  lemma {:induction false} ClosingKeys(t: Tables, id: nat)
    requires BookOk(t) && ReferencesUnique(t) && id < |t.orders|
    ensures !t.orders[id].status.Delivered? ==> NoKey(t.book, SettleKey(t.orders[id].reference))
    ensures !t.orders[id].status.Refunded() ==> NoKey(t.book, RefundKey(t.orders[id].reference))
  {
    forall k | 0 <= k < |t.book|
      ensures !t.orders[id].status.Delivered? ==> t.book[k].key != SettleKey(t.orders[id].reference)
      ensures !t.orders[id].status.Refunded() ==> t.book[k].key != RefundKey(t.orders[id].reference)
    {
      assert Known(t, t.book[k]);
    }
  }

  lemma {:induction false} PostFresh(book: Book, j: Journal)
    requires NoKey(book, j.key)
    ensures Post(book, j) == Posting(book + [j], |book|)
  {
  }

  // ---------------------------------------------------------------------
  // Sums after one journal
  // ---------------------------------------------------------------------

  /** Every journal here has two entries, one each way, so its weight under any lens is read off directly. */
  lemma {:induction false} SumAfter(lens: Lens, book: Book, j: Journal)
    requires |j.entries| == 2
    ensures Sum(lens, book + [j]) == Sum(lens, book)
      + (if Seen(lens, j.kind, j.entries[0].account) then j.entries[0].amount else 0.0)
      + (if Seen(lens, j.kind, j.entries[1].account) then j.entries[1].amount else 0.0)
  {
    SumAppend(lens, book, j);
    PairWeight(lens, j);
  }

  /** The sums that do not depend on the order totals keep balancing after any naira pair between the four accounts. */
  lemma {:induction false} BalancedAfter(book: Book, j: Journal)
    requires |j.entries| == 2 && j.entries[1].amount == -j.entries[0].amount
    requires forall i :: 0 <= i < 2 ==>
      j.entries[i].account.kind in {NgnFloat, UserNgn, NumberPayablePending, NumberRevenue}
    ensures Sum(Everything, book + [j]) == Sum(Everything, book)
    ensures FourSums(book + [j]) == FourSums(book)
  {
    SumAfter(Everything, book, j);
    SumAfter(OfKind(NgnFloat), book, j);
    SumAfter(OfKind(UserNgn), book, j);
    SumAfter(OfKind(NumberPayablePending), book, j);
    SumAfter(OfKind(NumberRevenue), book, j);
  }

  // ---------------------------------------------------------------------
  // Rows after one journal
  // ---------------------------------------------------------------------

  lemma {:induction false} IntentOkLater(a: Book, b: Book, x: F.Intent)
    requires IntentOk(a, x) && a <= b
    requires x.status == F.Pending ==> NoKey(b, CreditKey(x.reference))
    ensures IntentOk(b, x)
  {
  }

  lemma {:induction false} OrderOkLater(a: Book, b: Book, o: N.Order)
    requires OrderOk(a, o) && a <= b
    ensures OrderOk(b, o)
  {
  }

  // ---------------------------------------------------------------------
  // The five kinds of write
  // ---------------------------------------------------------------------

  lemma {:induction false} CreateRows(t: Tables, u: Tables, x: F.Intent)
    requires ReferencesUnique(t) && RowsOk(t) && IntentOk(t.book, x) && !F.ReferenceTaken(t.intents, x.reference)
    requires u == t.(intents := t.intents + [x])
    ensures ReferencesUnique(u) && RowsOk(u) && F.TableAdvances(t.intents, u.intents)
  {
    forall i | 0 <= i < |u.intents| ensures IntentOk(u.book, u.intents[i]) {
      if i < |t.intents| {
        assert IntentOk(t.book, t.intents[i]);
      }
    }
  }

  lemma {:induction false} CreateKeeps(t: Tables, x: F.Intent)
    requires Inv(t) && x.status == F.Pending && x.credited == None
    requires !F.ReferenceTaken(t.intents, x.reference)
    ensures var u := t.(intents := t.intents + [x]); Inv(u) && Advances(t, u)
  {
    var u := t.(intents := t.intents + [x]);
    NoCreditYet(t, x.reference);
    CreateRows(t, u, x);
    BookStays(t, u);
    SumsUntouched(t, u);
  }

  lemma {:induction false} SumsUntouched(t: Tables, u: Tables)
    requires SumsOk(t) && u.book == t.book && u.orders == t.orders
    ensures SumsOk(u)
  {
    forall x ensures UserSumOk(u, x) {
      assert UserSumOk(t, x);
    }
  }

  ghost predicate OnlyClosed(a: F.Intent, b: F.Intent) {
    b == a || (a.status == F.Pending && (b == a.(status := F.Failed) || b == a.(status := F.Abandoned)))
  }

  /** Status changes on intents that touch no money: failing one, or abandoning many. */
  lemma {:induction false} StatusKeeps(t: Tables, intents: seq<F.Intent>)
    requires Inv(t) && |intents| == |t.intents|
    requires forall i :: 0 <= i < |intents| ==> OnlyClosed(t.intents[i], intents[i])
    ensures Inv(t.(intents := intents)) && Advances(t, t.(intents := intents))
  {
    var u := t.(intents := intents);
    forall i | 0 <= i < |intents| ensures F.RowAdvances(t.intents[i], intents[i]) && IntentOk(u.book, intents[i]) {
      assert IntentOk(t.book, t.intents[i]);
    }
    BookStays(t, u);
    SumsUntouched(t, u);
  }

  lemma {:induction false} CreditFigures(t: Tables, u: Tables, user: Uuid, reference: string, amount: Naira)
    requires FiguresOk(t) && u.orders == t.orders && u.book == t.book + [F.CreditJournal(user, reference, amount)]
    ensures FiguresOk(u)
  {
    var j := F.CreditJournal(user, reference, amount);
    BalancedAfter(t.book, j);
    SumAfter(OfKind(NumberPayablePending), t.book, j);
    SumAfter(OfKind(NumberRevenue), t.book, j);
  }

  lemma {:induction false} CreditSums(t: Tables, u: Tables, user: Uuid, reference: string, amount: Naira)
    requires SumsOk(t) && u.orders == t.orders && u.book == t.book + [F.CreditJournal(user, reference, amount)]
    ensures SumsOk(u)
  {
    var j := F.CreditJournal(user, reference, amount);
    CreditFigures(t, u, user, reference, amount);
    forall x ensures UserSumOk(u, x) {
      assert UserSumOk(t, x);
      SumAfter(OfUser(x), t.book, j);
      SumAfter(Deposited(x), t.book, j);
    }
  }

  /** The credit writes at most the one row, and only while it is pending. */
  lemma {:induction false} CreditRows(t: Tables, u: Tables, id: nat, j: Journal)
    requires ReferencesUnique(t) && RowsOk(t) && id < |t.intents| && u.orders == t.orders
    requires j.key == CreditKey(t.intents[id].reference) && NoKey(t.book, j.key) && u.book == t.book + [j]
    requires |u.intents| == |t.intents| && u.intents == t.intents[id := u.intents[id]]
    requires F.RowAdvances(t.intents[id], u.intents[id]) && u.intents[id].status != F.Pending
    requires IntentOk(u.book, u.intents[id])
    ensures ReferencesUnique(u) && RowsOk(u) && F.TableAdvances(t.intents, u.intents)
    ensures OrdersAdvance(t.orders, u.orders)
  {
    forall i | 0 <= i < |t.intents|
      ensures F.RowAdvances(t.intents[i], u.intents[i]) && IntentOk(u.book, u.intents[i])
    {
      if i != id {
        assert t.intents[i].reference != t.intents[id].reference;
        IntentOkLater(t.book, u.book, t.intents[i]);
      }
    }
    forall i | 0 <= i < |t.orders| ensures OrderOk(u.book, u.orders[i]) {
      OrderOkLater(t.book, u.book, t.orders[i]);
    }
  }

  /** What a credit that goes through does to the tables. */
  ghost predicate Credited(t: Tables, u: Tables, id: nat, amount: Naira) {
    && id < |t.intents| && u.orders == t.orders && amount != 0.0
    && NoKey(t.book, CreditKey(t.intents[id].reference))
    && u.book == t.book + [F.CreditJournal(t.intents[id].user, t.intents[id].reference, amount)]
    && |u.intents| == |t.intents| && u.intents == t.intents[id := u.intents[id]]
    && if t.intents[id].status == F.Pending
       then amount > 0.0
            && u.intents[id] == t.intents[id].(status := F.Succeeded, amount := amount, credited := Some(|t.book|))
       else u.intents[id] == t.intents[id]
  }

  lemma {:induction false} CreditCases(t: Tables, id: nat, amount: Naira)
    requires id < |t.intents| && RowsOk(t)
    requires F.Credit(t.Funds(), id, t.intents[id].user, t.intents[id].reference, amount).Ok?
    ensures var u := t.WithFunds(F.Credit(t.Funds(), id, t.intents[id].user, t.intents[id].reference, amount).value);
            u == t || Credited(t, u, id, amount)
  {
    var j := F.CreditJournal(t.intents[id].user, t.intents[id].reference, amount);
    assert IntentOk(t.book, t.intents[id]);
    assert t.intents[id := t.intents[id]] == t.intents;
    if Find(t.book, j.key).None? { PostFresh(t.book, j); }
  }

  /** However stale the caller's read, crediting the row's own user and reference keeps everything. */
  lemma {:induction false} CreditKeeps(t: Tables, u: Tables, id: nat, amount: Naira)
    requires Inv(t) && Credited(t, u, id, amount)
    ensures Inv(u) && Advances(t, u)
  {
    var row := t.intents[id];
    var j := F.CreditJournal(row.user, row.reference, amount);
    assert IntentOk(t.book, row);
    IntentOkAfterCredit(t.book, row, j, u.intents[id], amount);
    assert IntentHas(u.intents, id, j);
    CreditRows(t, u, id, j);
    BookStays(t, u);
    CreditSums(t, u, row.user, row.reference, amount);
  }

  lemma {:induction false} IntentOkAfterCredit(book: Book, a: F.Intent, j: Journal, b: F.Intent, amount: Naira)
    requires IntentOk(book, a) && j == F.CreditJournal(a.user, a.reference, amount)
    requires if a.status == F.Pending
             then amount > 0.0 && b == a.(status := F.Succeeded, amount := amount, credited := Some(|book|))
             else b == a
    ensures IntentOk(book + [j], b)
  {
    if a.status != F.Pending {
      IntentOkLater(book, book + [j], a);
    }
  }

  /** A new held order whose reservation is the newest journal. */
  lemma {:induction false} ReserveKeeps(t: Tables, o: N.Order)
    requires Inv(t) && o.price > 0.0 && o.status == N.Reserved && o.settled == None && o.refunded == None
    requires o.reserved == |t.book|
    requires !N.ReferenceTaken(t.orders, o.reference) && !N.IntentTaken(t.orders, o.user, o.intent)
    ensures NoKey(t.book, N.ReserveJournal(o).key)
    ensures var u := Tables(t.book + [N.ReserveJournal(o)], t.intents, t.orders + [o]); Inv(u) && Advances(t, u)
  {
    var j := N.ReserveJournal(o);
    var u := Tables(t.book + [j], t.intents, t.orders + [o]);
    NoReserveYet(t, o.user, o.intent);
    assert OrderHas(u.orders, |t.orders|, j);
    ReserveRows(t, u, o);
    BookStays(t, u);
    ReserveSums(t, u, o);
  }

  lemma {:induction false} ReserveRows(t: Tables, u: Tables, o: N.Order)
    requires ReferencesUnique(t) && RowsOk(t)
    requires !N.ReferenceTaken(t.orders, o.reference) && !N.IntentTaken(t.orders, o.user, o.intent)
    requires u.intents == t.intents && u.orders == t.orders + [o]
    requires u.book == t.book + [N.ReserveJournal(o)] && OrderOk(u.book, o)
    ensures ReferencesUnique(u) && RowsOk(u) && OrdersAdvance(t.orders, u.orders)
  {
    forall i | 0 <= i < |t.intents| ensures IntentOk(u.book, u.intents[i]) {
      assert IntentOk(t.book, t.intents[i]);
      IntentOkLater(t.book, u.book, t.intents[i]);
    }
    forall i | 0 <= i < |u.orders| ensures OrderOk(u.book, u.orders[i]) {
      if i < |t.orders| {
        OrderOkLater(t.book, u.book, t.orders[i]);
      }
    }
  }

  lemma {:induction false} ReserveUserSum(t: Tables, u: Tables, o: N.Order, x: Uuid)
    requires UserSumOk(t, x) && o.status == N.Reserved
    requires u.orders == t.orders + [o] && u.book == t.book + [N.ReserveJournal(o)]
    ensures UserSumOk(u, x)
  {
    var j := N.ReserveJournal(o);
    SumAfter(OfUser(x), t.book, j);
    SumAfter(Deposited(x), t.book, j);
    TotalAppend(HeldOf(x), t.orders, o);
    TotalAppend(DeliveredOf(x), t.orders, o);
  }

  lemma {:induction false} ReserveFigures(t: Tables, u: Tables, o: N.Order)
    requires FiguresOk(t) && o.status == N.Reserved
    requires u.orders == t.orders + [o] && u.book == t.book + [N.ReserveJournal(o)]
    ensures FiguresOk(u)
  {
    var j := N.ReserveJournal(o);
    BalancedAfter(t.book, j);
    SumAfter(OfKind(NumberPayablePending), t.book, j);
    SumAfter(OfKind(NumberRevenue), t.book, j);
    TotalAppend(HeldPrices, t.orders, o);
    TotalAppend(DeliveredPrices, t.orders, o);
  }

  lemma {:induction false} ReserveSums(t: Tables, u: Tables, o: N.Order)
    requires SumsOk(t) && o.status == N.Reserved
    requires u.orders == t.orders + [o] && u.book == t.book + [N.ReserveJournal(o)]
    ensures SumsOk(u)
  {
    ReserveFigures(t, u, o);
    forall x ensures UserSumOk(u, x) {
      ReserveUserSum(t, u, o, x);
    }
  }

  // ---------------------------------------------------------------------
  // The three moves of an order
  // ---------------------------------------------------------------------

  /** One order gave way to another in a total. */
  ghost predicate Exchanged(tally: Tally, before: seq<N.Order>, id: nat, after: seq<N.Order>)
    requires id < |before| == |after|
  {
    Total(tally, after) == Total(tally, before) - Share(tally, before[id]) + Share(tally, after[id])
  }

  lemma {:induction false} TotalsAfterMove(t: Tables, orders: seq<N.Order>, id: nat, x: Uuid)
    requires id < |t.orders| && |orders| == |t.orders| && orders == t.orders[id := orders[id]]
    ensures Exchanged(HeldPrices, t.orders, id, orders) && Exchanged(DeliveredPrices, t.orders, id, orders)
    ensures Exchanged(HeldOf(x), t.orders, id, orders) && Exchanged(DeliveredOf(x), t.orders, id, orders)
  {
    TotalUpdate(HeldPrices, t.orders, id, orders[id]);
    TotalUpdate(DeliveredPrices, t.orders, id, orders[id]);
    TotalUpdate(HeldOf(x), t.orders, id, orders[id]);
    TotalUpdate(DeliveredOf(x), t.orders, id, orders[id]);
  }

  lemma {:induction false} QuietRows(t: Tables, u: Tables, id: nat)
    requires ReferencesUnique(t) && RowsOk(t) && id < |t.orders|
    requires u.book == t.book && u.intents == t.intents && |u.orders| == |t.orders|
    requires u.orders == t.orders[id := u.orders[id]] && N.Touches(t.orders[id], u.orders[id])
    ensures ReferencesUnique(u) && RowsOk(u) && OrdersAdvance(t.orders, u.orders)
  {
    assert OrderOk(t.book, t.orders[id]);
  }

  lemma {:induction false} QuietSums(t: Tables, u: Tables, id: nat)
    requires SumsOk(t) && id < |t.orders| && u.book == t.book && |u.orders| == |t.orders|
    requires u.orders == t.orders[id := u.orders[id]] && N.Touches(t.orders[id], u.orders[id])
    ensures SumsOk(u)
  {
    TotalsAfterMove(t, u.orders, id, t.orders[id].user);
    forall x ensures UserSumOk(u, x) {
      assert UserSumOk(t, x);
      TotalsAfterMove(t, u.orders, id, x);
    }
  }

  lemma {:induction false} QuietKeeps(t: Tables, d: N.Desk, id: nat)
    requires Inv(t) && id < |t.orders| && N.QuietMove(t.Desk(), d, id)
    ensures Inv(t.WithDesk(d)) && Advances(t, t.WithDesk(d))
  {
    var u := t.WithDesk(d);
    QuietRows(t, u, id);
    BookStays(t, u);
    QuietSums(t, u, id);
  }

  /** Shared by both closings: one fresh journal, one row closed, everything else as it was. */
  lemma {:induction false} ClosingKeepsRows(t: Tables, u: Tables, id: nat, j: Journal)
    requires ReferencesUnique(t) && BookOk(t) && RowsOk(t) && id < |t.orders|
    requires u.intents == t.intents && |u.orders| == |t.orders| && u.orders == t.orders[id := u.orders[id]]
    requires N.Closes(t.orders[id], u.orders[id])
    requires u.book == t.book + [j] && NoKey(t.book, j.key) && OrderHas(u.orders, id, j) && !j.key.CreditKey?
    requires OrderOk(u.book, u.orders[id])
    ensures ReferencesUnique(u) && BookOk(u) && RowsOk(u) && Advances(t, u)
  {
    IntentsOkLater(t, u, j);
    forall i | 0 <= i < |u.orders| ensures OrderOk(u.book, u.orders[i]) && OrderAdvances(t.orders[i], u.orders[i]) {
      if i != id {
        OrderOkLater(t.book, u.book, t.orders[i]);
      }
    }
    BookStays(t, u);
  }

  lemma {:induction false} IntentsOkLater(t: Tables, u: Tables, j: Journal)
    requires RowsOk(t) && u.book == t.book + [j] && !j.key.CreditKey? && u.intents == t.intents
    ensures forall i :: 0 <= i < |u.intents| ==> IntentOk(u.book, u.intents[i])
  {
    forall i | 0 <= i < |t.intents| ensures IntentOk(u.book, u.intents[i]) {
      assert IntentOk(t.book, t.intents[i]);
      IntentOkLater(t.book, u.book, t.intents[i]);
    }
  }

  lemma {:induction false} SettleBook(book: Book, o: N.Order)
    ensures var b := book + [N.SettleJournal(o)];
      && Sum(OfKind(NumberPayablePending), b) == Sum(OfKind(NumberPayablePending), book) + o.price
      && Sum(OfKind(NumberRevenue), b) == Sum(OfKind(NumberRevenue), book) - o.price
      && Sum(Everything, b) == Sum(Everything, book) && FourSums(b) == FourSums(book)
  {
    BalancedAfter(book, N.SettleJournal(o));
    SumAfter(OfKind(NumberPayablePending), book, N.SettleJournal(o));
    SumAfter(OfKind(NumberRevenue), book, N.SettleJournal(o));
  }

  lemma {:induction false} SettleFigures(t: Tables, u: Tables, id: nat)
    requires FiguresOk(t) && id < |t.orders| && |u.orders| == |t.orders|
    requires N.Closes(t.orders[id], u.orders[id]) && u.orders == t.orders[id := u.orders[id]]
    requires u.orders[id].status.Delivered? && u.book == t.book + [N.SettleJournal(t.orders[id])]
    ensures FiguresOk(u)
  {
    SettleBook(t.book, t.orders[id]);
    TotalsAfterMove(t, u.orders, id, t.orders[id].user);
  }

  lemma {:induction false} SettleSums(t: Tables, u: Tables, id: nat)
    requires SumsOk(t) && id < |t.orders| && |u.orders| == |t.orders|
    requires N.Closes(t.orders[id], u.orders[id]) && u.orders == t.orders[id := u.orders[id]]
    requires u.orders[id].status.Delivered? && u.book == t.book + [N.SettleJournal(t.orders[id])]
    ensures SumsOk(u)
  {
    SettleFigures(t, u, id);
    forall x ensures UserSumOk(u, x) {
      SettleSumsForUser(t, u, id, x);
    }
  }

  lemma {:induction false} SettleSumsForUser(t: Tables, u: Tables, id: nat, x: Uuid)
    requires UserSumOk(t, x) && id < |t.orders| && |u.orders| == |t.orders|
    requires N.Closes(t.orders[id], u.orders[id]) && u.orders == t.orders[id := u.orders[id]]
    requires u.orders[id].status.Delivered? && u.book == t.book + [N.SettleJournal(t.orders[id])]
    ensures UserSumOk(u, x)
  {
    SumAfter(OfUser(x), t.book, N.SettleJournal(t.orders[id]));
    SumAfter(Deposited(x), t.book, N.SettleJournal(t.orders[id]));
    TotalsAfterMove(t, u.orders, id, x);
  }

  lemma {:induction false} RefundBook(book: Book, o: N.Order)
    ensures var b := book + [N.RefundJournal(o)];
      && Sum(OfKind(NumberPayablePending), b) == Sum(OfKind(NumberPayablePending), book) + o.price
      && Sum(OfKind(NumberRevenue), b) == Sum(OfKind(NumberRevenue), book)
      && Sum(Everything, b) == Sum(Everything, book) && FourSums(b) == FourSums(book)
  {
    BalancedAfter(book, N.RefundJournal(o));
    SumAfter(OfKind(NumberPayablePending), book, N.RefundJournal(o));
    SumAfter(OfKind(NumberRevenue), book, N.RefundJournal(o));
  }

  lemma {:induction false} RefundFigures(t: Tables, u: Tables, id: nat)
    requires FiguresOk(t) && id < |t.orders| && |u.orders| == |t.orders|
    requires N.Closes(t.orders[id], u.orders[id]) && u.orders == t.orders[id := u.orders[id]]
    requires u.orders[id].status.Refunded() && u.book == t.book + [N.RefundJournal(t.orders[id])]
    ensures FiguresOk(u)
  {
    RefundBook(t.book, t.orders[id]);
    TotalsAfterMove(t, u.orders, id, t.orders[id].user);
  }

  lemma {:induction false} RefundSums(t: Tables, u: Tables, id: nat)
    requires SumsOk(t) && id < |t.orders| && |u.orders| == |t.orders|
    requires N.Closes(t.orders[id], u.orders[id]) && u.orders == t.orders[id := u.orders[id]]
    requires u.orders[id].status.Refunded() && u.book == t.book + [N.RefundJournal(t.orders[id])]
    ensures SumsOk(u)
  {
    RefundFigures(t, u, id);
    forall x ensures UserSumOk(u, x) {
      RefundSumsForUser(t, u, id, x);
    }
  }

  lemma {:induction false} RefundSumsForUser(t: Tables, u: Tables, id: nat, x: Uuid)
    requires UserSumOk(t, x) && id < |t.orders| && |u.orders| == |t.orders|
    requires N.Closes(t.orders[id], u.orders[id]) && u.orders == t.orders[id := u.orders[id]]
    requires u.orders[id].status.Refunded() && u.book == t.book + [N.RefundJournal(t.orders[id])]
    ensures UserSumOk(u, x)
  {
    SumAfter(OfUser(x), t.book, N.RefundJournal(t.orders[id]));
    SumAfter(Deposited(x), t.book, N.RefundJournal(t.orders[id]));
    TotalsAfterMove(t, u.orders, id, x);
  }

  lemma {:induction false} SettleKeeps(t: Tables, d: N.Desk, id: nat)
    requires Inv(t) && id < |t.orders| && N.SettleMove(t.Desk(), d, id)
    ensures Inv(t.WithDesk(d)) && Advances(t, t.WithDesk(d))
  {
    var u := t.WithDesk(d);
    var j := N.SettleJournal(t.orders[id]);
    assert OrderOk(t.book, t.orders[id]);
    ClosingKeys(t, id);
    PostFresh(t.book, j);
    assert OrderHas(u.orders, id, j);
    OrderOkLater(t.book, u.book, t.orders[id]);
    ClosingKeepsRows(t, u, id, j);
    SettleSums(t, u, id);
  }

  lemma {:induction false} RefundKeeps(t: Tables, d: N.Desk, id: nat)
    requires Inv(t) && id < |t.orders| && N.RefundMove(t.Desk(), d, id)
    ensures Inv(t.WithDesk(d)) && Advances(t, t.WithDesk(d))
  {
    var u := t.WithDesk(d);
    var j := N.RefundJournal(t.orders[id]);
    assert OrderOk(t.book, t.orders[id]);
    ClosingKeys(t, id);
    PostFresh(t.book, j);
    assert OrderHas(u.orders, id, j);
    OrderOkLater(t.book, u.book, t.orders[id]);
    ClosingKeepsRows(t, u, id, j);
    RefundSums(t, u, id);
  }

  lemma {:induction false} MoveKeeps(t: Tables, d: N.Desk, id: nat)
    requires Inv(t) && id < |t.orders| && N.Move(t.Desk(), d, id)
    ensures Inv(t.WithDesk(d)) && Advances(t, t.WithDesk(d))
  {
    if N.QuietMove(t.Desk(), d, id) {
      QuietKeeps(t, d, id);
    } else if N.SettleMove(t.Desk(), d, id) {
      SettleKeeps(t, d, id);
    } else {
      RefundKeeps(t, d, id);
    }
  }
}
