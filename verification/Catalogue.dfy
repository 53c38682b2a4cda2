/**
 Writing one supplier's price list into the shop. A sync runs as a script of separate
 database statements: two upserts for each line it takes, one statement that zeroes
 what it did not see, one that recomputes every offer from its sources.
 */
module Catalogue {
  import opened Base

  const MIN_PRICE_NGN: Naira := 100.0
  const PROVIDERS: set<string> :=
    {"fivesim", "smspool", "smsactivate", "daisysms", "smshub", "tigersms", "stub"}

  /** A published percentage is copied as given, or dropped when it cannot be one. */
  function ParseSuccessRate(value: real): Option<real> {
    if 0.0 < value <= 100.0 then Some(value) else None
  }

  // ---------------------------------------------------------------------
  // What the columns hold
  // ---------------------------------------------------------------------

  const INT_MAX: int := 0x7FFF_FFFF

  /** A 32-bit stock figure. */
  type Int32 = n: int | -INT_MAX - 1 <= n <= INT_MAX

  /** The nearest whole number, halves away from zero: how a numeric column rounds. */
  function Nearest(x: real): int {
    if x >= 0.0 then (x + 0.5).Floor else -((0.5 - x).Floor)
  }

  /** A rate as its column keeps it, to four decimals. */
  function StoredRate(rate: real): real {
    Nearest(rate * 10_000.0) as real / 10_000.0
  }

  /** A cost as its column keeps it, to six decimals. */
  function StoredCost(cost: real): real {
    Nearest(cost * 1_000_000.0) as real / 1_000_000.0
  }

  /** The check both tables make on a stored rate. */
  predicate RateOk(rate: real) {
    0.0 < rate <= 100.0
  }

  /** The parser lets a rate through that its column rounds to a refused zero: the two agree exactly from 0.00005 on. */
  lemma ParsedRateIsStorableIff(value: real)
    requires ParseSuccessRate(value).Some?
    ensures RateOk(StoredRate(value)) <==> value >= 0.00005
  {
    var n := Nearest(value * 10_000.0);
    assert value * 10_000.0 + 0.5 >= 1.0 <==> value >= 0.00005;
    assert n <= 1_000_000;
    assert StoredRate(value) * 10_000.0 == n as real;
  }

  datatype Pricing = Pricing(usdNgn: real, margin: real, inUsd: bool)

  function Ceiling(x: real): int {
    if x == x.Floor as real then x.Floor else x.Floor + 1
  }

  function UpToTen(raw: real): real {
    Ceiling(raw / 10.0) as real * 10.0
  }

  /** The supplier's cost in naira, with our margin. */
  function CostWithMargin(p: Pricing, cost: real): real {
    cost * p.usdNgn * p.margin
  }

  function SalePrice(p: Pricing, cost: real): Naira {
    var rounded := UpToTen(CostWithMargin(p, cost));
    if rounded >= MIN_PRICE_NGN then rounded else MIN_PRICE_NGN
  }

  lemma CeilingBounds(x: real, n: int)
    ensures x <= Ceiling(x) as real
    ensures x <= n as real ==> Ceiling(x) <= n
  {
  }

  /** The price is the least multiple of ten that is neither under the cost with margin nor under the floor. */
  lemma SalePriceNeverCutsTheMargin(p: Pricing, cost: real, n: int) returns (tens: int)
    ensures SalePrice(p, cost) == tens as real * 10.0
    ensures SalePrice(p, cost) >= CostWithMargin(p, cost) && SalePrice(p, cost) >= MIN_PRICE_NGN
    ensures n as real * 10.0 >= CostWithMargin(p, cost) && n as real * 10.0 >= MIN_PRICE_NGN ==> tens <= n
  {
    var raw := CostWithMargin(p, cost);
    CeilingBounds(raw / 10.0, n);
    tens := if Ceiling(raw / 10.0) >= 10 then Ceiling(raw / 10.0) else 10;
  }

  // ---------------------------------------------------------------------
  // Tables
  // ---------------------------------------------------------------------

  /** What a customer sees: the unique columns of an offer stand for its id. */
  datatype OfferKey = OfferKey(product: nat, country: nat, price: Naira, rate: real)

  datatype Offer = Offer(quantity: nat, active: bool)

  datatype SourceKey = SourceKey(provider: string, product: string, country: string, operator: string)

  datatype Source = Source(offer: OfferKey, cost: real, currency: string, rate: real, stock: nat)

  datatype Db = Db(offers: map<OfferKey, Offer>, sources: map<SourceKey, Source>)

  datatype Sku = Sku(
    provider: string, productSlug: string, countryCode: string,
    providerProduct: string, providerCountry: string, providerOperator: Option<string>,
    cost: real, currency: string, rate: real, stock: Int32)

  /** The active products and countries, by the names suppliers use; country codes in upper case. */
  datatype Shop = Shop(products: map<string, nat>, countries: map<string, nat>)

  function Positive(stock: int): nat {
    if stock > 0 then stock else 0
  }

  function KeyOf(sku: Sku): SourceKey {
    SourceKey(sku.provider, sku.providerProduct, sku.providerCountry,
              if sku.providerOperator.Some? then sku.providerOperator.value else "")
  }

  /** A line is skipped when it is another provider's, or names nothing we sell, or cannot be priced. */
  predicate Taken(shop: Shop, pricing: Pricing, provider: string, sku: Sku) {
    && sku.provider == provider
    && sku.productSlug in shop.products
    && Upper(sku.countryCode) in shop.countries
    && (pricing.inUsd || provider == "stub")
  }

  function OfferOf(shop: Shop, pricing: Pricing, sku: Sku): OfferKey
    requires sku.productSlug in shop.products && Upper(sku.countryCode) in shop.countries
  {
    OfferKey(shop.products[sku.productSlug], shop.countries[Upper(sku.countryCode)],
             SalePrice(pricing, sku.cost), StoredRate(sku.rate))
  }

  function SourceOf(shop: Shop, pricing: Pricing, sku: Sku): Source
    requires sku.productSlug in shop.products && Upper(sku.countryCode) in shop.countries
  {
    Source(OfferOf(shop, pricing, sku), StoredCost(sku.cost), sku.currency, StoredRate(sku.rate), Positive(sku.stock))
  }

  /** The sum of the stock of an offer's sources. */
  ghost function StockOf(sources: map<SourceKey, Source>, offer: OfferKey): nat {
    if sources == map[] then 0
    else
      var k :| k in sources;
      Share(sources[k], offer) + StockOf(sources - {k}, offer)
  }

  function Share(s: Source, offer: OfferKey): nat {
    if s.offer == offer then s.stock else 0
  }

  ghost function Totals(offers: set<OfferKey>, sources: map<SourceKey, Source>): map<OfferKey, Offer> {
    map o | o in offers :: Offer(StockOf(sources, o), StockOf(sources, o) > 0)
  }

  /** Every sum fits the quantity column. */
  ghost predicate SumsFit(offers: set<OfferKey>, sources: map<SourceKey, Source>) {
    forall o :: o in offers ==> StockOf(sources, o) <= INT_MAX
  }

  /** The sums where they fit, and otherwise what was there. */
  ghost function Recomputed(offers: map<OfferKey, Offer>, sources: map<SourceKey, Source>): map<OfferKey, Offer> {
    if SumsFit(offers.Keys, sources) then Totals(offers.Keys, sources) else offers
  }

  // ---------------------------------------------------------------------
  // Statements
  // ---------------------------------------------------------------------

  datatype Statement =
    | UpsertOffer(offer: OfferKey, stock: Int32)
    | UpsertSource(key: SourceKey, source: Source)
    | ZeroUnseen(provider: string, products: seq<string>, countries: seq<string>, operators: seq<string>)
    | Recompute

  predicate Listed(k: SourceKey, ps: seq<string>, cs: seq<string>, os: seq<string>) {
    exists i :: 0 <= i < |ps| && i < |cs| && i < |os| && ps[i] == k.product && cs[i] == k.country && os[i] == k.operator
  }

  function Zeroed(sources: map<SourceKey, Source>, provider: string, ps: seq<string>, cs: seq<string>, os: seq<string>):
    map<SourceKey, Source>
  {
    map k | k in sources ::
      if k.provider == provider && !Listed(k, ps, cs, os) then sources[k].(stock := 0) else sources[k]
  }

  /** A statement whose value does not fit its column changes nothing; only the sums can overflow here. */
  ghost function Exec(db: Db, st: Statement): Db {
    match st
    case UpsertOffer(o, stock) => db.(offers := db.offers[o := Offer(Positive(stock), stock > 0)])
    case UpsertSource(k, s) => db.(sources := db.sources[k := s])
    case ZeroUnseen(p, ps, cs, os) => db.(sources := Zeroed(db.sources, p, ps, cs, os))
    case Recompute => db.(offers := Recomputed(db.offers, db.sources))
  }

  ghost function Run(db: Db, sts: seq<Statement>): Db {
    if sts == [] then db else Exec(Run(db, sts[..|sts| - 1]), sts[|sts| - 1])
  }

  /** The statements the lines of a list call for, what was seen, and whether a row check stopped the loop. */
  datatype Plan = Plan(statements: seq<Statement>, ps: seq<string>, cs: seq<string>, os: seq<string>, failed: bool)

  const PRICE_LIMIT: real := 10_000_000_000_000_000.0
  const COST_LIMIT: real := 100_000_000_000_000.0

  /** What the offers table takes: a stored rate in (0, 100] and a price of at most sixteen digits. */
  predicate OfferFits(o: OfferKey) {
    RateOk(o.rate) && o.price < PRICE_LIMIT
  }

  /** What the sources table takes besides: a provider it knows and a cost of at most fourteen digits. */
  predicate SourceFits(k: SourceKey, s: Source) {
    k.provider in PROVIDERS && RateOk(s.rate) && -COST_LIMIT < s.cost < COST_LIMIT
  }

  function PlanOf(shop: Shop, pricing: Pricing, provider: string, skus: seq<Sku>): Plan {
    if skus == [] then Plan([], [], [], [], false)
    else PlanLine(shop, pricing, provider, PlanOf(shop, pricing, provider, skus[..|skus| - 1]), skus[|skus| - 1])
  }

  function PlanLine(shop: Shop, pricing: Pricing, provider: string, p: Plan, sku: Sku): Plan {
    if p.failed || !Taken(shop, pricing, provider, sku) then p
    else if !OfferFits(OfferOf(shop, pricing, sku)) then p.(failed := true)
    else
      var offer := UpsertOffer(OfferOf(shop, pricing, sku), sku.stock);
      var k, source := KeyOf(sku), SourceOf(shop, pricing, sku);
      if !SourceFits(k, source) then p.(statements := p.statements + [offer], failed := true)
      else
        Plan(p.statements + [offer] + [UpsertSource(k, source)],
             p.ps + [k.product], p.cs + [k.country], p.os + [k.operator], false)
  }

  /** What a sync executes before it recomputes. A row check that fails ends it there: nothing is zeroed. */
  function Writes(shop: Shop, pricing: Pricing, provider: string, skus: seq<Sku>, zeroMissing: bool): seq<Statement> {
    var p := PlanOf(shop, pricing, provider, skus);
    if p.failed || !zeroMissing then p.statements else p.statements + [ZeroUnseen(provider, p.ps, p.cs, p.os)]
  }

  /** Everything a sync executes. */
  function Script(shop: Shop, pricing: Pricing, provider: string, skus: seq<Sku>, zeroMissing: bool): seq<Statement> {
    Writes(shop, pricing, provider, skus, zeroMissing)
    + if PlanOf(shop, pricing, provider, skus).failed then [] else [Recompute]
  }

  /** No row check failed, and the sums fit. */
  ghost predicate Succeeds(db: Db, shop: Shop, pricing: Pricing, provider: string, skus: seq<Sku>, zeroMissing: bool) {
    && !PlanOf(shop, pricing, provider, skus).failed
    && var written := Run(db, Writes(shop, pricing, provider, skus, zeroMissing));
    SumsFit(written.offers.Keys, written.sources)
  }

  // ---------------------------------------------------------------------
  // The sync
  // ---------------------------------------------------------------------

  datatype SyncError = RowCheck | QuantityTooLarge

  class OfferTables {
    const shop: Shop
    var offers: map<OfferKey, Offer>
    var sources: map<SourceKey, Source>

    constructor (shop: Shop)
      ensures this.shop == shop && offers == map[] && sources == map[]
    {
      this.shop := shop;
      offers, sources := map[], map[];
    }

    ghost function State(): Db
      reads this
    {
      Db(offers, sources)
    }

    method ApplyProviderSkus(pricing: Pricing, provider: string, skus: seq<Sku>, zeroMissing: bool)
      returns (r: Result<nat, SyncError>)
      modifies this
      ensures State() == Run(old(State()), Script(shop, pricing, provider, skus, zeroMissing))
      ensures r.Ok? <==> Succeeds(old(State()), shop, pricing, provider, skus, zeroMissing)
      ensures r == Err(RowCheck) <==> PlanOf(shop, pricing, provider, skus).failed
      ensures r.Ok? ==> r.value == |PlanOf(shop, pricing, provider, skus).ps|
    {
      ghost var start := State();
      var wrote, seenProduct, seenCountry, seenOperator := WriteLines(pricing, provider, skus);
      ghost var plan := PlanOf(shop, pricing, provider, skus);
      if !wrote {
        assert plan.statements + [] == plan.statements;
        return Err(RowCheck);
      }
      ghost var writes := Writes(shop, pricing, provider, skus, zeroMissing);
      var fits := Finish(provider, seenProduct, seenCountry, seenOperator, zeroMissing, start, plan.statements, writes);
      if !fits { return Err(QuantityTooLarge); }
      r := Ok(|seenProduct|);
    }

    /** The loop over the lines, up to the first row check that fails; what it took is remembered in three lists. */
    method WriteLines(pricing: Pricing, provider: string, skus: seq<Sku>)
      returns (wrote: bool, ps: seq<string>, cs: seq<string>, os: seq<string>)
      modifies this
      ensures var plan := PlanOf(shop, pricing, provider, skus);
        && State() == Run(old(State()), plan.statements)
        && (wrote <==> !plan.failed)
        && (wrote ==> ps == plan.ps && cs == plan.cs && os == plan.os && |ps| == |cs| == |os|)
    {
      ps, cs, os := [], [], [];
      ghost var start := State();
      ghost var plan := PlanOf(shop, pricing, provider, []);
      for i := 0 to |skus|
        invariant plan == PlanOf(shop, pricing, provider, skus[..i]) && !plan.failed
        invariant State() == Run(start, plan.statements)
        invariant ps == plan.ps && cs == plan.cs && os == plan.os && |ps| == |cs| == |os|
      {
        var sku := skus[i];
        ghost var next := PlanLine(shop, pricing, provider, plan, sku);
        PlanNext(shop, pricing, provider, skus, i);
        if !Taken(shop, pricing, provider, sku) { continue; }
        wrote := WriteLine(pricing, provider, sku, start, plan);
        if !wrote {
          FailedPlanStops(shop, pricing, provider, skus, i + 1);
          return;
        }
        var key := KeyOf(sku);
        ps, cs, os := ps + [key.product], cs + [key.country], os + [key.operator];
        plan := next;
      }
      assert skus[..|skus|] == skus;
      wrote := true;
    }

    /** The two upserts of one line; a row check can refuse either. */
    method WriteLine(pricing: Pricing, provider: string, sku: Sku, ghost start: Db, ghost plan: Plan)
      returns (wrote: bool)
      requires !plan.failed && State() == Run(start, plan.statements) && Taken(shop, pricing, provider, sku)
      modifies this
      ensures State() == Run(start, PlanLine(shop, pricing, provider, plan, sku).statements)
      ensures wrote <==> !PlanLine(shop, pricing, provider, plan, sku).failed
    {
      var offer := OfferOf(shop, pricing, sku);
      if !OfferFits(offer) { return false; }
      offers := offers[offer := Offer(Positive(sku.stock), sku.stock > 0)];
      RunMore(start, plan.statements, UpsertOffer(offer, sku.stock));
      var key, source := KeyOf(sku), SourceOf(shop, pricing, sku);
      if !SourceFits(key, source) { return false; }
      sources := sources[key := source];
      RunMore(start, plan.statements + [UpsertOffer(offer, sku.stock)], UpsertSource(key, source));
      wrote := true;
    }

    /** Zero what was not seen. */
    method ZeroMissing(provider: string, ps: seq<string>, cs: seq<string>, os: seq<string>,
                       ghost start: Db, ghost done: seq<Statement>)
      requires State() == Run(start, done) && |ps| == |cs| == |os|
      modifies this`sources
      ensures State() == Run(start, done + [ZeroUnseen(provider, ps, cs, os)])
    {
      if ps == [] {
        sources := map k | k in sources :: if k.provider == provider then sources[k].(stock := 0) else sources[k];
      } else {
        sources := Zeroed(sources, provider, ps, cs, os);
      }
      RunMore(start, done, ZeroUnseen(provider, ps, cs, os));
    }

    /** Zero what was not seen, then recompute every offer. */
    method Finish(provider: string, ps: seq<string>, cs: seq<string>, os: seq<string>, zeroMissing: bool,
                  ghost start: Db, ghost done: seq<Statement>, ghost writes: seq<Statement>) returns (fits: bool)
      requires State() == Run(start, done) && |ps| == |cs| == |os|
      requires writes == if zeroMissing then done + [ZeroUnseen(provider, ps, cs, os)] else done
      modifies this
      ensures State() == Run(start, writes + [Recompute])
      ensures fits <==> SumsFit(Run(start, writes).offers.Keys, Run(start, writes).sources)
    {
      if zeroMissing {
        ZeroMissing(provider, ps, cs, os, start, done);
      }
      ghost var mid := State();
      assert mid == Run(start, writes);
      fits := RecomputeOffers();
      RunMore(start, writes, Recompute);
      assert State() == Exec(mid, Recompute);
    }

    /** One statement in the database: every offer gets the sum of its sources, or none does if one sum is too wide. */
    method RecomputeOffers() returns (fits: bool)
      modifies this`offers
      ensures fits <==> SumsFit(old(offers).Keys, sources)
      ensures offers == if fits then Totals(old(offers).Keys, sources) else old(offers)
    {
      ghost var keys, held := offers.Keys, sources;
      var totals: map<OfferKey, Offer> := map[];
      var rest := offers.Keys;
      while rest != {}
        invariant offers == old(offers) && rest <= keys && totals.Keys == keys - rest
        invariant forall o :: o in totals ==> totals[o] == Offer(StockOf(sources, o), StockOf(sources, o) > 0)
        invariant forall o :: o in totals ==> StockOf(sources, o) <= INT_MAX
        decreases |rest|
      {
        var o :| o in rest;
        var n := SumStock(o);
        if n > INT_MAX {
          assert !SumsFit(keys, held);
          return false;
        }
        totals := totals[o := Offer(n, n > 0)];
        rest := rest - {o};
      }
      assert totals == Totals(keys, held);
      assert SumsFit(keys, held);
      fits := true;
      offers := totals;
    }

    method SumStock(offer: OfferKey) returns (n: nat)
      ensures n == StockOf(sources, offer)
    {
      n := 0;
      var rest := sources;
      while rest != map[]
        invariant n + StockOf(rest, offer) == StockOf(sources, offer)
        decreases |rest|
      {
        var k :| k in rest;
        TakeOut(rest, k, offer);
        n := n + Share(rest[k], offer);
        rest := rest - {k};
      }
    }
  }

  lemma RunMore(db: Db, sts: seq<Statement>, st: Statement)
    ensures Run(db, sts + [st]) == Exec(Run(db, sts), st)
  {
    assert (sts + [st])[..|sts|] == sts;
  }

  lemma PlanNext(shop: Shop, pricing: Pricing, provider: string, skus: seq<Sku>, i: nat)
    requires i < |skus|
    ensures PlanOf(shop, pricing, provider, skus[..i + 1])
         == PlanLine(shop, pricing, provider, PlanOf(shop, pricing, provider, skus[..i]), skus[i])
  {
    assert skus[..i + 1][..i] == skus[..i];
  }

  lemma {:induction false} FailedPlanStops(shop: Shop, pricing: Pricing, provider: string, skus: seq<Sku>, n: nat)
    requires n <= |skus| && PlanOf(shop, pricing, provider, skus[..n]).failed
    ensures PlanOf(shop, pricing, provider, skus) == PlanOf(shop, pricing, provider, skus[..n])
    decreases |skus|
  {
    if n == |skus| {
      assert skus[..n] == skus;
    } else {
      var m := |skus| - 1;
      assert skus[..m][..n] == skus[..n];
      FailedPlanStops(shop, pricing, provider, skus[..m], n);
    }
  }

  /** Whichever source is added last, the sum is the same. */
  lemma {:induction false} TakeOut(sources: map<SourceKey, Source>, k: SourceKey, offer: OfferKey)
    requires k in sources
    ensures StockOf(sources, offer) == Share(sources[k], offer) + StockOf(sources - {k}, offer)
    decreases |sources|
  {
    var j :| j in sources && StockOf(sources, offer) == Share(sources[j], offer) + StockOf(sources - {j}, offer);
    if j != k {
      TakeOut(sources - {j}, k, offer);
      TakeOut(sources - {k}, j, offer);
      assert sources - {j} - {k} == sources - {k} - {j};
    }
  }
}
