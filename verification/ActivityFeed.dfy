/**
 The activity feed: the newest hundred deposits and the newest hundred payouts of one
 user, run together and sorted by the text of their timestamps.
 */
module ActivityFeed {
  import opened Base
  import opened Timestamps

  const LIMIT := 100

  /** A row of one of the two tables. */
  datatype Record =
    | Deposit(user: nat, id: nat, asset: string, status: string, at: Moment)
    | Payout(user: nat, id: nat, status: string, at: Moment)

  datatype Item = Item(id: nat, kind: string, asset: string, status: string, createdAt: string)

  function ItemOf(r: Record): Item {
    match r
    case Deposit(_, id, asset, status, at) => Item(id, "deposit", asset, status, ToRfc3339(at))
    case Payout(_, id, status, at) => Item(id, "payout", "NGN", status, ToRfc3339(at))
  }

  function Items(rows: seq<Record>): (items: seq<Item>)
    ensures |items| == |rows| && forall i :: 0 <= i < |rows| ==> items[i] == ItemOf(rows[i])
  {
    seq(|rows|, i requires 0 <= i < |rows| => ItemOf(rows[i]))
  }

  function Mine(table: seq<Record>, user: nat): seq<Record> {
    if table == [] then []
    else Mine(table[..|table| - 1], user) + if table[|table| - 1].user == user then [table[|table| - 1]] else []
  }

  predicate Descending(rows: seq<Record>) {
    forall i, j :: 0 <= i < j < |rows| ==> Instant(rows[i].at) >= Instant(rows[j].at)
  }

  function Min(a: nat, b: nat): nat {
    if a <= b then a else b
  }

  /** `ORDER BY created_at DESC LIMIT 100`: the front of some descending order of the user's rows, ties in any order. */
  ghost predicate Newest(table: seq<Record>, user: nat, page: seq<Record>) {
    exists order: seq<Record> :: IsPage(Mine(table, user), order, page)
  }

  ghost predicate IsPage(rows: seq<Record>, order: seq<Record>, page: seq<Record>) {
    multiset(order) == multiset(rows) && Descending(order) && page == order[..Min(LIMIT, |order|)]
  }

  // ---------------------------------------------------------------------
  // The handler
  // ---------------------------------------------------------------------

  predicate NewestFirst(items: seq<Item>) {
    forall i, j :: 0 <= i < j < |items| ==> !Before(items[i].createdAt, items[j].createdAt)
  }

  /** Keeps equal texts in the order they came in. */
  function Insert(items: seq<Item>, x: Item): seq<Item> {
    if items == [] then [x]
    else
      var last := items[|items| - 1];
      if Before(last.createdAt, x.createdAt) then Insert(items[..|items| - 1], x) + [last] else items + [x]
  }

  function Sorted(items: seq<Item>): seq<Item> {
    if items == [] then [] else Insert(Sorted(items[..|items| - 1]), items[|items| - 1])
  }

  /** Push every deposit, push every payout, sort what was pushed. */
  method ListActivity(deposits: seq<Record>, payouts: seq<Record>) returns (items: seq<Item>)
    ensures multiset(items) == multiset(Items(deposits) + Items(payouts))
    ensures NewestFirst(items)
    ensures forall t :: At(items, t) == At(Items(deposits) + Items(payouts), t)
  {
    items := [];
    for i := 0 to |deposits|
      invariant items == Items(deposits[..i])
    {
      items := items + [ItemOf(deposits[i])];
      ItemsPush(deposits, i);
    }
    assert deposits[..|deposits|] == deposits && Items(payouts[..0]) == [];
    for i := 0 to |payouts|
      invariant items == Items(deposits) + Items(payouts[..i])
    {
      items := items + [ItemOf(payouts[i])];
      ItemsPush(payouts, i);
    }
    assert payouts[..|payouts|] == payouts;
    SortedSorts(items);
    SortedKeepsTies(items);
    items := Sorted(items);
  }

  /** The item shows the row: its id and status, what kind of row it is, its asset, and when it was made. */
  predicate Shows(x: Item, r: Record) {
    && x.id == r.id && x.status == r.status && x.createdAt == ToRfc3339(r.at)
    && (if r.Deposit? then x.kind == "deposit" && x.asset == r.asset else x.kind == "payout" && x.asset == "NGN")
  }

  ghost predicate IsShown(items: seq<Item>, r: Record) {
    exists x :: x in items && Shows(x, r)
  }

  ghost predicate ShowsSome(x: Item, rows: seq<Record>) {
    exists r :: r in rows && Shows(x, r)
  }

  lemma {:induction false} ItemsShow(rows: seq<Record>)
    ensures forall r :: r in rows ==> IsShown(Items(rows), r)
    ensures forall x :: x in Items(rows) ==> ShowsSome(x, rows)
  {
    forall r | r in rows ensures IsShown(Items(rows), r) {
      assert ItemOf(r) in Items(rows) && Shows(ItemOf(r), r);
    }
    forall x | x in Items(rows) ensures ShowsSome(x, rows) {
      var k :| 0 <= k < |rows| && Items(rows)[k] == x;
      assert rows[k] in rows && Shows(x, rows[k]);
    }
  }

  lemma SameElements<T>(a: seq<T>, b: seq<T>)
    requires multiset(a) == multiset(b)
    ensures |a| == |b| && forall x :: x in a <==> x in b
  {
    assert |multiset(a)| == |multiset(b)|;
    assert forall x :: x in a <==> x in multiset(a);
    assert forall x :: x in b <==> x in multiset(b);
  }

  lemma {:induction false} ShownAmongMore(part: seq<Item>, items: seq<Item>, rows: seq<Record>)
    requires forall x :: x in part ==> x in items
    requires forall r :: r in rows ==> IsShown(part, r)
    ensures forall r :: r in rows ==> IsShown(items, r)
  {
    forall r | r in rows ensures IsShown(items, r) {
      assert IsShown(part, r);
      var x :| x in part && Shows(x, r);
      assert x in items;
    }
  }

  /** What the handler returns shows every row it was given, and every item shows one of them. */
  lemma {:induction false} EveryRowIsShown(deposits: seq<Record>, payouts: seq<Record>, items: seq<Item>)
    requires multiset(items) == multiset(Items(deposits) + Items(payouts))
    ensures |items| == |deposits| + |payouts|
    ensures forall r :: r in deposits || r in payouts ==> IsShown(items, r)
    ensures forall x :: x in items ==> ShowsSome(x, deposits) || ShowsSome(x, payouts)
  {
    var ds, ps := Items(deposits), Items(payouts);
    ItemsShow(deposits);
    ItemsShow(payouts);
    Shuffled(ds, ps, items);
    ShownAmongMore(ds, items, deposits);
    ShownAmongMore(ps, items, payouts);
  }

  lemma {:induction false} Shuffled(ds: seq<Item>, ps: seq<Item>, items: seq<Item>)
    requires multiset(items) == multiset(ds + ps)
    ensures |items| == |ds| + |ps|
    ensures forall x :: x in items <==> x in ds || x in ps
  {
    SameElements(items, ds + ps);
    assert forall x :: x in ds + ps <==> x in ds || x in ps;
  }

  /** The items with one timestamp text, in order. */
  function At(items: seq<Item>, t: string): seq<Item> {
    if items == [] then []
    else At(items[..|items| - 1], t) + if items[|items| - 1].createdAt == t then [items[|items| - 1]] else []
  }

  lemma {:induction false} InsertPermutes(items: seq<Item>, x: Item)
    ensures multiset(Insert(items, x)) == multiset(items) + multiset{x}
  {
    if items != [] {
      var n := |items| - 1;
      assert items == items[..n] + [items[n]];
      InsertPermutes(items[..n], x);
    }
  }

  lemma {:induction false} InsertedElements(items: seq<Item>, x: Item, y: Item)
    requires y in Insert(items, x)
    ensures y in items || y == x
  {
    InsertPermutes(items, x);
    assert y in multiset(Insert(items, x));
  }

  lemma {:induction false} EndsLater(front: seq<Item>, last: Item)
    requires NewestFirst(front) && forall i :: 0 <= i < |front| ==> !Before(front[i].createdAt, last.createdAt)
    ensures NewestFirst(front + [last])
  {
  }

  lemma {:induction false} InsertSorts(items: seq<Item>, x: Item)
    requires NewestFirst(items)
    ensures NewestFirst(Insert(items, x))
  {
    if items != [] {
      var n := |items| - 1;
      if Before(items[n].createdAt, x.createdAt) {
        InsertSorts(items[..n], x);
        Asymmetric(items[n].createdAt, x.createdAt);
        var front := Insert(items[..n], x);
        forall i | 0 <= i < |front| ensures !Before(front[i].createdAt, items[n].createdAt) {
          InsertedElements(items[..n], x, front[i]);
        }
        EndsLater(front, items[n]);
      } else {
        forall i | 0 <= i < n ensures !Before(items[i].createdAt, x.createdAt) {
          NotBeforeTransitive(items[i].createdAt, items[n].createdAt, x.createdAt);
        }
      }
    }
  }

  lemma WithLast(items: seq<Item>)
    requires items != []
    ensures multiset(items) == multiset(items[..|items| - 1]) + multiset{items[|items| - 1]}
  {
    assert items == items[..|items| - 1] + [items[|items| - 1]];
  }

  lemma {:induction false} SortedSorts(items: seq<Item>)
    ensures multiset(Sorted(items)) == multiset(items) && NewestFirst(Sorted(items))
  {
    if items != [] {
      var n := |items| - 1;
      SortedSorts(items[..n]);
      InsertPermutes(Sorted(items[..n]), items[n]);
      InsertSorts(Sorted(items[..n]), items[n]);
      WithLast(items);
    }
  }

  lemma {:induction false} InsertIsStable(items: seq<Item>, x: Item, t: string)
    ensures At(Insert(items, x), t) == At(items, t) + if x.createdAt == t then [x] else []
  {
    if items != [] {
      var n := |items| - 1;
      var last := items[n];
      if Before(last.createdAt, x.createdAt) {
        var front := Insert(items[..n], x);
        InsertIsStable(items[..n], x, t);
        assert (front + [last])[..|front|] == front;
        Irreflexive(x.createdAt);
      } else {
        assert (items + [x])[..|items|] == items;
      }
    } else {
      assert [x][..0] == [];
    }
  }

  lemma {:induction false} SortedIsStable(items: seq<Item>, t: string)
    ensures At(Sorted(items), t) == At(items, t)
  {
    if items != [] {
      var n := |items| - 1;
      SortedIsStable(items[..n], t);
      InsertIsStable(Sorted(items[..n]), items[n], t);
    }
  }

  lemma SortedKeepsTies(items: seq<Item>)
    ensures forall t :: At(Sorted(items), t) == At(items, t)
  {
    forall t ensures At(Sorted(items), t) == At(items, t) {
      SortedIsStable(items, t);
    }
  }

  lemma ItemsPush(rows: seq<Record>, i: nat)
    requires i < |rows|
    ensures Items(rows[..i + 1]) == Items(rows[..i]) + [ItemOf(rows[i])]
  {
  }

  // ---------------------------------------------------------------------
  // Counting from the top
  // ---------------------------------------------------------------------

  /** How many items are no older than a text. */
  function Count(items: seq<Item>, v: string): (n: nat)
    ensures n <= |items|
  {
    if items == [] then 0
    else Count(items[..|items| - 1], v) + if Before(items[|items| - 1].createdAt, v) then 0 else 1
  }

  lemma {:induction false} CountAppend(a: seq<Item>, b: seq<Item>, v: string)
    ensures Count(a + b, v) == Count(a, v) + Count(b, v)
  {
    if b == [] {
      assert a + b == a;
    } else {
      var n := |b| - 1;
      CountAppend(a, b[..n], v);
      assert (a + b)[..|a + b| - 1] == a + b[..n];
    }
  }

  /** The last element of one permutation, taken out of both. */
  lemma Without<T>(a: seq<T>, b: seq<T>) returns (j: nat)
    requires multiset(a) == multiset(b) && a != []
    ensures j < |b| && b[j] == a[|a| - 1]
    ensures multiset(a[..|a| - 1]) == multiset(b[..j] + b[j + 1..])
  {
    var x := a[|a| - 1];
    assert x in multiset(b);
    j :| 0 <= j < |b| && b[j] == x;
    TakenOut(a, |a| - 1);
    TakenOut(b, j);
    assert a[..|a| - 1] + a[|a|..] == a[..|a| - 1];
  }

  lemma TakenOut<T>(s: seq<T>, j: nat)
    requires j < |s|
    ensures multiset(s[..j] + s[j + 1..]) == multiset(s) - multiset{s[j]}
  {
    assert s == s[..j] + ([s[j]] + s[j + 1..]);
    assert multiset(s) == multiset(s[..j]) + (multiset{s[j]} + multiset(s[j + 1..]));
  }

  lemma {:induction false} CountPermuted(a: seq<Item>, b: seq<Item>, v: string)
    requires multiset(a) == multiset(b)
    ensures Count(a, v) == Count(b, v)
    decreases |a|
  {
    if a == [] {
      assert |multiset(b)| == 0;
    } else {
      var n := |a| - 1;
      var j := Without(a, b);
      assert b == b[..j] + ([b[j]] + b[j + 1..]);
      CountPermuted(a[..n], b[..j] + b[j + 1..], v);
      CountAppend(b[..j], b[j + 1..], v);
      CountAppend(b[..j], [b[j]] + b[j + 1..], v);
      CountAppend([b[j]], b[j + 1..], v);
      assert Count([b[j]], v) == if Before(b[j].createdAt, v) then 0 else 1;
    }
  }

  /** In a sorted list the items no older than v are exactly its first Count(v). */
  lemma {:induction false} CountSplits(items: seq<Item>, v: string, i: nat)
    requires NewestFirst(items) && i < |items|
    ensures !Before(items[i].createdAt, v) <==> i < Count(items, v)
    decreases |items|
  {
    var n := |items| - 1;
    if i < n {
      CountSplits(items[..n], v, i);
      if Count(items[..n], v) <= i && !Before(items[n].createdAt, v) {
        NotBeforeTransitive(items[i].createdAt, items[n].createdAt, v);
      }
    } else if !Before(items[n].createdAt, v) {
      AllCount(items, v);
    }
  }

  lemma {:induction false} AllCount(items: seq<Item>, v: string)
    requires NewestFirst(items) && items != [] && !Before(items[|items| - 1].createdAt, v)
    ensures Count(items, v) == |items|
  {
    var n := |items| - 1;
    if n > 0 {
      NotBeforeTransitive(items[n - 1].createdAt, items[n].createdAt, v);
      AllCount(items[..n], v);
    }
  }

  /** Keeping the first k of a sorted list keeps the count, up to k. */
  lemma {:induction false} CountFront(items: seq<Item>, k: nat, v: string)
    requires NewestFirst(items) && k <= |items|
    ensures Count(items[..k], v) == Min(Count(items, v), k)
    decreases |items|
  {
    if k == |items| {
      assert items[..k] == items;
    } else {
      var n := |items| - 1;
      assert items[..n][..k] == items[..k];
      CountFront(items[..n], k, v);
      if !Before(items[n].createdAt, v) { AllCount(items, v); }
    }
  }

  // ---------------------------------------------------------------------
  // Rows and items
  // ---------------------------------------------------------------------

  /** The rows are in order of time exactly when their items are in order of text. */
  lemma {:induction false} DescendingIsNewestFirst(rows: seq<Record>)
    ensures Descending(rows) <==> NewestFirst(Items(rows))
  {
    forall i, j | 0 <= i < j < |rows|
      ensures Instant(rows[i].at) >= Instant(rows[j].at)
         <==> !Before(Items(rows)[i].createdAt, Items(rows)[j].createdAt)
    {
      TextOrderIsTimeOrder(rows[i].at, rows[j].at);
    }
    if NewestFirst(Items(rows)) {
      assert forall i, j :: 0 <= i < j < |rows| ==> !Before(Items(rows)[i].createdAt, Items(rows)[j].createdAt);
    }
  }

  lemma ItemsAppend(a: seq<Record>, b: seq<Record>)
    ensures Items(a + b) == Items(a) + Items(b)
  {
  }

  lemma MovedIn<T>(x: seq<T>, y: seq<T>, z: seq<T>, e: T)
    requires multiset(x) == multiset(y + z)
    ensures multiset(x + [e]) == multiset(y + ([e] + z))
  {
  }

  lemma {:induction false} ItemsAround(rows: seq<Record>, j: nat)
    requires j < |rows|
    ensures Items(rows) == Items(rows[..j]) + ([ItemOf(rows[j])] + Items(rows[j + 1..]))
  {
  }

  lemma {:induction false} ItemsPermuted(a: seq<Record>, b: seq<Record>)
    requires multiset(a) == multiset(b)
    ensures multiset(Items(a)) == multiset(Items(b))
    decreases |a|
  {
    if a == [] {
      assert |multiset(b)| == 0;
    } else {
      var n := |a| - 1;
      var j := Without(a, b);
      ItemsPermuted(a[..n], b[..j] + b[j + 1..]);
      ItemsAppend(b[..j], b[j + 1..]);
      MovedIn(Items(a[..n]), Items(b[..j]), Items(b[j + 1..]), ItemOf(b[j]));
      ItemsAround(a, n);
      ItemsAround(b, j);
    }
  }

  lemma {:induction false} ItemsFront(rows: seq<Record>, k: nat)
    requires k <= |rows|
    ensures |Items(rows)| == |rows| && Items(rows[..k]) == Items(rows)[..k]
  {
  }

  lemma {:induction false} PageSize(rows: seq<Record>, order: seq<Record>, page: seq<Record>)
    requires IsPage(rows, order, page)
    ensures |order| == |rows| && |page| == Min(LIMIT, |rows|)
  {
    assert |multiset(order)| == |multiset(rows)|;
  }

  lemma {:induction false} FrontCounts(order: seq<Record>, k: nat, v: string)
    requires Descending(order) && k <= |order|
    ensures Count(Items(order[..k]), v) == Min(Count(Items(order), v), k)
  {
    DescendingIsNewestFirst(order);
    ItemsFront(order, k);
    CountFront(Items(order), k, v);
  }

  /** A page counts like the whole table, up to a hundred. */
  lemma {:induction false} PageCounts(table: seq<Record>, user: nat, page: seq<Record>, v: string)
    requires Newest(table, user, page)
    ensures Count(Items(page), v) == Min(Count(Items(Mine(table, user)), v), LIMIT)
    ensures |page| == Min(LIMIT, |Mine(table, user)|)
  {
    var rows := Mine(table, user);
    var order :| IsPage(rows, order, page);
    PageSize(rows, order, page);
    FrontCounts(order, Min(LIMIT, |order|), v);
    ItemsPermuted(order, rows);
    CountPermuted(Items(order), Items(rows), v);
  }

  // ---------------------------------------------------------------------
  // What the feed shows
  // ---------------------------------------------------------------------

  /** `all` is everything the user ever did, newest first; `feed` is what the handler returns. */
  ghost predicate Serves(deposits: seq<Record>, payouts: seq<Record>, user: nat, feed: seq<Item>, all: seq<Item>) {
    && NewestFirst(feed) && NewestFirst(all)
    && multiset(all) == multiset(Items(Mine(deposits, user)) + Items(Mine(payouts, user)))
    && exists ds, ps :: Newest(deposits, user, ds) && Newest(payouts, user, ps) && Pushed(feed, ds, ps)
  }

  ghost predicate Pushed(feed: seq<Item>, ds: seq<Record>, ps: seq<Record>) {
    multiset(feed) == multiset(Items(ds) + Items(ps))
  }

  lemma {:induction false} PushedCounts(feed: seq<Item>, ds: seq<Record>, ps: seq<Record>, v: string)
    requires Pushed(feed, ds, ps)
    ensures Count(feed, v) == Count(Items(ds), v) + Count(Items(ps), v)
  {
    CountPermuted(feed, Items(ds) + Items(ps), v);
    CountAppend(Items(ds), Items(ps), v);
  }

  lemma MinOfMins(a: nat, b: nat, k: nat)
    ensures Min(Min(a, k) + Min(b, k), k) == Min(a + b, k)
  {
  }

  lemma {:induction false} FeedCounts(deposits: seq<Record>, payouts: seq<Record>, user: nat, feed: seq<Item>,
                                      all: seq<Item>, v: string)
    requires Serves(deposits, payouts, user, feed, all)
    ensures Min(Count(feed, v), LIMIT) == Min(Count(all, v), LIMIT)
  {
    var ds, ps :| Newest(deposits, user, ds) && Newest(payouts, user, ps) && Pushed(feed, ds, ps);
    PageCounts(deposits, user, ds, v);
    PageCounts(payouts, user, ps, v);
    MergedCounts(feed, ds, ps, all, Mine(deposits, user), Mine(payouts, user), v);
  }

  lemma {:induction false} MergedCounts(feed: seq<Item>, ds: seq<Record>, ps: seq<Record>,
                                        all: seq<Item>, d: seq<Record>, p: seq<Record>, v: string)
    requires Pushed(feed, ds, ps) && Pushed(all, d, p)
    requires Count(Items(ds), v) == Min(Count(Items(d), v), LIMIT)
    requires Count(Items(ps), v) == Min(Count(Items(p), v), LIMIT)
    ensures Min(Count(feed, v), LIMIT) == Min(Count(all, v), LIMIT)
  {
    PushedCounts(feed, ds, ps, v);
    PushedCounts(all, d, p, v);
    MinOfMins(Count(Items(d), v), Count(Items(p), v), LIMIT);
  }

  lemma {:induction false} FeedSizes(deposits: seq<Record>, payouts: seq<Record>, user: nat, feed: seq<Item>,
                                     all: seq<Item>)
    requires Serves(deposits, payouts, user, feed, all)
    ensures |feed| == Min(LIMIT, |Mine(deposits, user)|) + Min(LIMIT, |Mine(payouts, user)|)
    ensures |all| == |Mine(deposits, user)| + |Mine(payouts, user)|
  {
    var ds, ps :| Newest(deposits, user, ds) && Newest(payouts, user, ps) && Pushed(feed, ds, ps);
    PageCounts(deposits, user, ds, "");
    PageCounts(payouts, user, ps, "");
    assert |multiset(feed)| == |multiset(Items(ds) + Items(ps))|;
    assert |multiset(all)| == |multiset(Items(Mine(deposits, user)) + Items(Mine(payouts, user)))|;
  }

  /** The first hundred timestamps of the feed are the newest hundred of everything the user did. */
  lemma {:induction false} FeedShowsTheNewest(deposits: seq<Record>, payouts: seq<Record>, user: nat,
                                              feed: seq<Item>, all: seq<Item>, i: nat)
    requires Serves(deposits, payouts, user, feed, all)
    requires i < 100 && i < |all|
    ensures i < |feed| && feed[i].createdAt == all[i].createdAt
  {
    FeedSizes(deposits, payouts, user, feed, all);
    var f, a := feed[i].createdAt, all[i].createdAt;
    FeedCounts(deposits, payouts, user, feed, all, f);
    FeedCounts(deposits, payouts, user, feed, all, a);
    Irreflexive(f);
    Irreflexive(a);
    CountSplits(feed, f, i);
    CountSplits(all, f, i);
    CountSplits(feed, a, i);
    CountSplits(all, a, i);
    OneOrTheOther(f, a);
  }

  /** Nothing is missing from the feed exactly when neither table holds more than a hundred rows of the user. */
  lemma {:induction false} FeedIsCompleteIff(deposits: seq<Record>, payouts: seq<Record>, user: nat,
                                             feed: seq<Item>, all: seq<Item>)
    requires Serves(deposits, payouts, user, feed, all)
    ensures multiset(feed) == multiset(all) <==> |Mine(deposits, user)| <= 100 && |Mine(payouts, user)| <= 100
  {
    FeedSizes(deposits, payouts, user, feed, all);
    if multiset(feed) == multiset(all) {
      assert |multiset(feed)| == |multiset(all)|;
    }
    if |Mine(deposits, user)| <= LIMIT && |Mine(payouts, user)| <= LIMIT {
      var ds, ps :| Newest(deposits, user, ds) && Newest(payouts, user, ps) && Pushed(feed, ds, ps);
      WholePage(deposits, user, ds);
      WholePage(payouts, user, ps);
    }
  }

  lemma {:induction false} WholePage(table: seq<Record>, user: nat, page: seq<Record>)
    requires Newest(table, user, page) && |Mine(table, user)| <= LIMIT
    ensures multiset(Items(page)) == multiset(Items(Mine(table, user)))
  {
    var rows := Mine(table, user);
    var order :| IsPage(rows, order, page);
    assert |multiset(order)| == |multiset(rows)|;
    assert page == order;
    ItemsPermuted(page, rows);
  }
}
