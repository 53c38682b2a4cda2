/**
 The double-entry ledger: how a journal is validated, how it is posted once per
 idempotency key, and the sums every balance is read from.
 */
module Ledger {
  import opened Base

  datatype Asset = Ngn | Btc | Eth | Bnb | Matic | Trx | Sol | Usdt | Usdc

  datatype AccountKind =
    | UserCrypto | UserNgn | NgnPayablePending | NumberPayablePending
    | CustodyDepositAddrs | CustodyHot | CustodyMaster | NgnFloat | SupplierFloat
    | SpreadRevenue | FeeRevenue | NumberRevenue
    | GasExpense | PayoutFeeExpense
  {
    predicate IsLiability() {
      UserCrypto? || UserNgn? || NgnPayablePending? || NumberPayablePending?
    }
  }

  datatype JournalKind =
    | DepositCredit | DepositReversal | Sweep | GasSpend | Sell
    | PayoutReserve | PayoutSettle | PayoutReversal
    | NgnDeposit | NumberReserve | NumberSettle | NumberRefund | Adjustment
  {
    predicate CustodyOnly() { Sweep? || GasSpend? }
  }

  /** An account is its kind and, for a user's account, its owner: the tables allow one per pair. */
  datatype Account = Account(kind: AccountKind, owner: Option<Uuid>)

  datatype Entry = Entry(account: Account, asset: Asset, amount: Naira)

  // ---------------------------------------------------------------------
  // Idempotency keys
  // ---------------------------------------------------------------------

  /** The economic events keyed in this model. `Render` gives the text stored in the key column. */
  datatype Key =
    | CreditKey(reference: string)
    | SettleKey(reference: string)
    | RefundKey(reference: string)
    | ReserveKey(user: Uuid, intent: Uuid)

  function Render(key: Key): string {
    match key
    case CreditKey(r) => r + ":credit"
    case SettleKey(r) => r + ":settle"
    case RefundKey(r) => r + ":refund"
    case ReserveKey(u, k) => "number-reserve:" + u + ":" + k
  }

  /** Distinct events have distinct key text, so a key collision never merges two events. */
  lemma RenderInjective(a: Key, b: Key)
    requires Render(a) == Render(b)
    ensures a == b
  {
    var s := Render(a);
    RenderTail(a);
    RenderTail(b);
    if a.ReserveKey? && b.ReserveKey? {
      var head := "number-reserve:";
      assert Render(a) == head + (a.user + ":" + a.intent);
      assert Render(b) == head + (b.user + ":" + b.intent);
      SplitEqual(head, a.user + ":" + a.intent, head, b.user + ":" + b.intent);
      assert a.user + ":" + a.intent == a.user + (":" + a.intent);
      assert b.user + ":" + b.intent == b.user + (":" + b.intent);
      SplitEqual(a.user, ":" + a.intent, b.user, ":" + b.intent);
      SplitEqual(":", a.intent, ":", b.intent);
    } else if !a.ReserveKey? && !b.ReserveKey? {
      SplitEqual(a.reference, s[|a.reference|..], b.reference, s[|b.reference|..]);
    }
  }

  /** The last seven characters tell the four forms apart. */
  lemma RenderTail(key: Key)
    ensures |Render(key)| >= 7
    ensures !key.ReserveKey? ==> |Render(key)| == |key.reference| + 7 && key.reference <= Render(key)
    ensures var t := Render(key)[|Render(key)| - 7..];
            && (key.CreditKey? ==> t[0] == ':' && t[1] == 'c')
            && (key.SettleKey? ==> t[0] == ':' && t[1] == 's')
            && (key.RefundKey? ==> t[0] == ':' && t[1] == 'r')
            && (key.ReserveKey? ==> t[0] != ':')
  {
    if key.ReserveKey? {
      var s := Render(key);
      assert s[|s| - 7..][0] == key.intent[29];
    }
  }

  // ---------------------------------------------------------------------
  // Building a journal
  // ---------------------------------------------------------------------

  datatype Journal = Journal(kind: JournalKind, reference: string, key: Key, entries: seq<Entry>)

  datatype LedgerError =
    | TooFewEntries(count: nat)
    | ZeroAmount(account: Account)
    | Unbalanced(asset: Asset, residual: Naira)
    | CustodyTouchedLiability(account: Account)

  function AssetSum(entries: seq<Entry>, asset: Asset): Naira {
    if entries == [] then 0.0
    else
      var last := entries[|entries| - 1];
      AssetSum(entries[..|entries| - 1], asset) + (if last.asset == asset then last.amount else 0.0)
  }

  /** What a journal must be before it may touch the tables. */
  ghost predicate Valid(j: Journal) {
    && |j.entries| >= 2
    && (forall i :: 0 <= i < |j.entries| ==> j.entries[i].amount != 0.0)
    && (forall a :: AssetSum(j.entries, a) == 0.0)
    && (j.kind.CustodyOnly() ==> forall i :: 0 <= i < |j.entries| ==> !j.entries[i].account.kind.IsLiability())
  }

  lemma AssetSumStep(entries: seq<Entry>, i: nat, asset: Asset)
    requires i < |entries|
    ensures AssetSum(entries[..i + 1], asset)
         == AssetSum(entries[..i], asset) + (if entries[i].asset == asset then entries[i].amount else 0.0)
  {
    assert entries[..i + 1][..i] == entries[..i];
  }

  /**
   Validation in the order the builder performs it: count, zero entries, balance
   per asset (the per-asset sums are visited in no particular order), custody.
   */
  method Build(j: Journal) returns (r: Result<Journal, LedgerError>)
    ensures r.Ok? <==> Valid(j)
    ensures r.Ok? ==> r.value == j
    ensures r.Err? && r.error.TooFewEntries? <==> |j.entries| < 2
    ensures r.Err? && r.error.ZeroAmount? ==>
      exists i :: 0 <= i < |j.entries| && j.entries[i].amount == 0.0 && j.entries[i].account == r.error.account
               && forall k :: 0 <= k < i ==> j.entries[k].amount != 0.0
    ensures r.Err? && r.error.Unbalanced? ==>
      r.error.residual == AssetSum(j.entries, r.error.asset) && r.error.residual != 0.0
    ensures r.Err? && r.error.CustodyTouchedLiability? ==>
      j.kind.CustodyOnly() && (forall a :: AssetSum(j.entries, a) == 0.0) && r.error.account.kind.IsLiability()
      && exists i :: 0 <= i < |j.entries| && j.entries[i].account == r.error.account
                     && forall k :: 0 <= k < i ==> !j.entries[k].account.kind.IsLiability()
  {
    if |j.entries| < 2 {
      return Err(TooFewEntries(|j.entries|));
    }
    var sums: map<Asset, Naira> := map[];
    var i := 0;
    while i < |j.entries|
      invariant 0 <= i <= |j.entries|
      invariant forall k :: 0 <= k < i ==> j.entries[k].amount != 0.0
      invariant forall a :: AssetSum(j.entries[..i], a) == if a in sums then sums[a] else 0.0
    {
      var entry := j.entries[i];
      if entry.amount == 0.0 {
        return Err(ZeroAmount(entry.account));
      }
      forall a ensures AssetSum(j.entries[..i + 1], a)
                    == AssetSum(j.entries[..i], a) + (if entry.asset == a then entry.amount else 0.0) {
        AssetSumStep(j.entries, i, a);
      }
      sums := sums[entry.asset := (if entry.asset in sums then sums[entry.asset] else 0.0) + entry.amount];
      i := i + 1;
    }
    assert j.entries[..i] == j.entries;
    var unchecked := sums.Keys;
    while unchecked != {}
      invariant unchecked <= sums.Keys
      invariant forall a :: a in sums && a !in unchecked ==> sums[a] == 0.0
      decreases |unchecked|
    {
      var asset :| asset in unchecked;
      if sums[asset] != 0.0 {
        return Err(Unbalanced(asset, sums[asset]));
      }
      unchecked := unchecked - {asset};
    }
    if j.kind.CustodyOnly() {
      i := 0;
      while i < |j.entries|
        invariant 0 <= i <= |j.entries|
        invariant forall k :: 0 <= k < i ==> !j.entries[k].account.kind.IsLiability()
      {
        if j.entries[i].account.kind.IsLiability() {
          return Err(CustodyTouchedLiability(j.entries[i].account));
        }
        i := i + 1;
      }
    }
    return Ok(j);
  }

  // ---------------------------------------------------------------------
  // Posting
  // ---------------------------------------------------------------------

  /** The journal table. Rows are append-only, so a row's position serves as its id. */
  type Book = seq<Journal>

  function Find(book: Book, key: Key): (r: Option<nat>)
    ensures r.Some? ==> r.value < |book| && book[r.value].key == key
    ensures r.None? ==> forall i :: 0 <= i < |book| ==> book[i].key != key
  {
    if book == [] then None
    else if book[|book| - 1].key == key then Some(|book| - 1)
    else Find(book[..|book| - 1], key)
  }

  datatype Posting = Posting(book: Book, id: nat)

  /** Insert unless the key is taken; either way name the journal that holds the key. */
  function Post(book: Book, j: Journal): (p: Posting)
    ensures p.id < |p.book| && p.book[p.id].key == j.key
    ensures book <= p.book
    ensures |p.book| == |book| || (p.book == book + [j] && p.id == |book|)
  {
    match Find(book, j.key)
    case Some(i) => Posting(book, i)
    case None => Posting(book + [j], |book|)
  }

  ghost predicate KeysUnique(book: Book) {
    forall i, k :: 0 <= i < k < |book| ==> book[i].key != book[k].key
  }

  ghost predicate NoKey(book: Book, key: Key) {
    forall i :: 0 <= i < |book| ==> book[i].key != key
  }

  ghost predicate AllValid(book: Book) {
    forall i :: 0 <= i < |book| ==> Valid(book[i])
  }

  /** Retrying an event, even with different entries, writes nothing and names the first journal. */
  lemma PostIsIdempotent(book: Book, first: Journal, retry: Journal, between: Book)
    requires KeysUnique(book + [first] + between) && NoKey(book, first.key)
    requires retry.key == first.key
    ensures Post(book, first) == Posting(book + [first], |book|)
    ensures Post(Post(book, first).book + between, retry) == Posting(book + [first] + between, |book|)
  {
    var later := book + [first] + between;
    assert later[|book|].key == first.key;
    assert Find(later, retry.key).Some?;
  }

  lemma PostKeepsBook(book: Book, j: Journal)
    requires KeysUnique(book) && AllValid(book) && Valid(j)
    ensures KeysUnique(Post(book, j).book) && AllValid(Post(book, j).book)
  {
  }

  /** The journal table as the code drives it: each call is one transaction. */
  class Journals {
    var book: Book

    constructor ()
      ensures book == []
    {
      book := [];
    }

    method PostJournal(j: Journal) returns (id: nat)
      modifies this
      ensures Posting(book, id) == Post(old(book), j)
      ensures Find(old(book), j.key).Some? ==> book == old(book)
      ensures old(KeysUnique(book)) ==> KeysUnique(book)
    {
      match Find(book, j.key) {
        case Some(existing) =>
          id := existing;
        case None =>
          id := |book|;
          book := book + [j];
      }
    }
  }

  // ---------------------------------------------------------------------
  // Sums
  // ---------------------------------------------------------------------

  /** Which entries a sum is taken over. */
  datatype Lens =
    | Everything
    | OfKind(kind: AccountKind)
    | OfUser(user: Uuid)
    | Deposited(user: Uuid)

  predicate Seen(lens: Lens, kind: JournalKind, account: Account) {
    match lens
    case Everything => true
    case OfKind(k) => account.kind == k
    case OfUser(u) => account == Account(UserNgn, Some(u))
    case Deposited(u) => kind == NgnDeposit && account == Account(UserNgn, Some(u))
  }

  function EntriesSum(lens: Lens, kind: JournalKind, entries: seq<Entry>): Naira {
    if entries == [] then 0.0
    else
      var last := entries[|entries| - 1];
      EntriesSum(lens, kind, entries[..|entries| - 1])
      + (if Seen(lens, kind, last.account) then last.amount else 0.0)
  }

  function Weight(lens: Lens, j: Journal): Naira {
    EntriesSum(lens, j.kind, j.entries)
  }

  function Sum(lens: Lens, book: Book): Naira {
    if book == [] then 0.0
    else Sum(lens, book[..|book| - 1]) + Weight(lens, book[|book| - 1])
  }

  lemma SumAppend(lens: Lens, book: Book, j: Journal)
    ensures Sum(lens, book + [j]) == Sum(lens, book) + Weight(lens, j)
  {
    assert (book + [j])[..|book|] == book;
  }

  /** Two-entry journals, which is every journal posted on the paths modelled here. */
  lemma PairWeight(lens: Lens, j: Journal)
    requires |j.entries| == 2
    ensures Weight(lens, j) == (if Seen(lens, j.kind, j.entries[0].account) then j.entries[0].amount else 0.0)
                             + (if Seen(lens, j.kind, j.entries[1].account) then j.entries[1].amount else 0.0)
  {
    var e := j.entries;
    assert e[..1] == [e[0]];
    assert e[..1][..0] == [];
    assert EntriesSum(lens, j.kind, e[..1]) == if Seen(lens, j.kind, e[0].account) then e[0].amount else 0.0;
  }

  lemma {:induction false} AssetSumIsEverything(entries: seq<Entry>, kind: JournalKind)
    requires forall i :: 0 <= i < |entries| ==> entries[i].asset == Ngn
    ensures AssetSum(entries, Ngn) == EntriesSum(Everything, kind, entries)
  {
    if entries != [] {
      AssetSumIsEverything(entries[..|entries| - 1], kind);
    }
  }

  ghost predicate OnlyNaira(book: Book) {
    forall i, k :: 0 <= i < |book| && 0 <= k < |book[i].entries| ==> book[i].entries[k].asset == Ngn
  }

  /** Value is only ever moved: a naira ledger of valid journals sums to zero. */
  lemma {:induction false} LedgerNetsToZero(book: Book)
    requires AllValid(book) && OnlyNaira(book)
    ensures Sum(Everything, book) == 0.0
  {
    if book != [] {
      var last := book[|book| - 1];
      LedgerNetsToZero(book[..|book| - 1]);
      AssetSumIsEverything(last.entries, last.kind);
      assert AssetSum(last.entries, Ngn) == 0.0;
    }
  }

  lemma {:induction false} NoLiabilityNoWeight(user: Uuid, kind: JournalKind, entries: seq<Entry>)
    requires forall i :: 0 <= i < |entries| ==> !entries[i].account.kind.IsLiability()
    ensures EntriesSum(OfUser(user), kind, entries) == 0.0
  {
    if entries != [] {
      NoLiabilityNoWeight(user, kind, entries[..|entries| - 1]);
    }
  }

  lemma {:induction false} NoLiabilityNoSum(kind: AccountKind, of: JournalKind, entries: seq<Entry>)
    requires kind.IsLiability() && forall i :: 0 <= i < |entries| ==> !entries[i].account.kind.IsLiability()
    ensures EntriesSum(OfKind(kind), of, entries) == 0.0
  {
    if entries != [] {
      NoLiabilityNoSum(kind, of, entries[..|entries| - 1]);
    }
  }

  /** A sweep or a gas payment leaves what is owed in every way as it was: coins, naira, payouts and orders. */
  lemma CustodyMovesNoLiability(book: Book, j: Journal, kind: AccountKind)
    requires Valid(j) && (j.kind == Sweep || j.kind == GasSpend)
    requires kind == UserCrypto || kind == UserNgn || kind == NgnPayablePending || kind == NumberPayablePending
    ensures Sum(OfKind(kind), Post(book, j).book) == Sum(OfKind(kind), book)
  {
    NoLiabilityNoSum(kind, j.kind, j.entries);
    SumAppend(OfKind(kind), book, j);
  }

  /** Moving coins inside custody, or burning gas, cannot change what any user is owed. */
  lemma CustodyCannotTouchBalances(book: Book, j: Journal, user: Uuid)
    requires Valid(j) && j.kind.CustodyOnly()
    ensures Sum(OfUser(user), Post(book, j).book) == Sum(OfUser(user), book)
  {
    NoLiabilityNoWeight(user, j.kind, j.entries);
    SumAppend(OfUser(user), book, j);
  }
}
