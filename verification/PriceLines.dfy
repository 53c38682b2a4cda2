/**
 What one line of a price list writes, column by column: whose source it is, what it costs,
 how much there is, and which offer of the shop it is sold as.
 */
module PriceLines {
  import opened Base
  import opened Catalogue
  import opened CatalogueTheorems

  /** The supplier's own names for what a line offers; no operator is the empty text. */
  datatype Texts = Texts(product: string, country: string, operator: string)

  /** A line is taken when it is this provider's, for a product and a country we sell, at a price we can convert. */
  predicate Accepted(shop: Shop, pricing: Pricing, provider: string, sku: Sku) {
    && sku.provider == provider
    && sku.productSlug in shop.products && Upper(sku.countryCode) in shop.countries
    && (pricing.inUsd || provider == "stub")
  }

  predicate Speaks(sku: Sku, t: Texts) {
    && sku.providerProduct == t.product && sku.providerCountry == t.country
    && (if sku.providerOperator == None then t.operator == "" else sku.providerOperator == Some(t.operator))
  }

  /** The last accepted line with these texts. */
  predicate LastOf(shop: Shop, pricing: Pricing, provider: string, skus: seq<Sku>, i: nat, t: Texts) {
    && i < |skus| && Accepted(shop, pricing, provider, skus[i]) && Speaks(skus[i], t)
    && forall j :: i < j < |skus| ==> !(Accepted(shop, pricing, provider, skus[j]) && Speaks(skus[j], t))
  }

  predicate Whole(x: real) {
    x.Floor as real == x
  }

  /** `y` is `x` to so many parts of a unit, halves away from zero. */
  predicate RoundedTo(x: real, y: real, parts: real) {
    && Whole(y * parts) && -0.5 <= y * parts - x * parts <= 0.5
    && (y * parts - x * parts == 0.5 ==> x > 0.0)
    && (y * parts - x * parts == -0.5 ==> x < 0.0)
  }

  predicate Covers(p: Pricing, cost: real, tens: int) {
    tens as real * 10.0 >= cost * p.usdNgn * p.margin && tens as real * 10.0 >= 100.0
  }

  /** The least multiple of ten naira that covers the converted cost with margin, and a hundred. */
  ghost predicate IsPrice(p: Pricing, cost: real, price: Naira) {
    exists tens: int :: price == tens as real * 10.0 && Covers(p, cost, tens)
                        && forall n: int :: Covers(p, cost, n) ==> tens <= n
  }

  /** The source, in the columns of its row, as the line gives it. */
  ghost predicate SourceAsGiven(shop: Shop, pricing: Pricing, sku: Sku, s: Source) {
    && s.stock == (if sku.stock > 0 then sku.stock else 0) && s.currency == sku.currency
    && RoundedTo(sku.cost, s.cost, 1_000_000.0) && RoundedTo(sku.rate, s.rate, 10_000.0)
    && sku.productSlug in shop.products && s.offer.product == shop.products[sku.productSlug]
    && Upper(sku.countryCode) in shop.countries && s.offer.country == shop.countries[Upper(sku.countryCode)]
    && IsPrice(pricing, sku.cost, s.offer.price) && s.offer.rate == s.rate
  }

  lemma Rounds(x: real, parts: real)
    requires parts > 0.0
    ensures RoundedTo(x, Nearest(x * parts) as real / parts, parts)
  {
    var z := x * parts;
    var n := Nearest(z);
    assert n as real / parts * parts == n as real;
    assert z > 0.0 <==> x > 0.0;
    assert z < 0.0 <==> x < 0.0;
  }

  lemma PriceIs(p: Pricing, cost: real)
    ensures IsPrice(p, cost, SalePrice(p, cost))
  {
    var tens := SalePriceNeverCutsTheMargin(p, cost, 0);
    forall n: int | Covers(p, cost, n) ensures tens <= n {
      var same := SalePriceNeverCutsTheMargin(p, cost, n);
    }
    assert Covers(p, cost, tens);
  }

  lemma AsGiven(shop: Shop, pricing: Pricing, provider: string, sku: Sku)
    requires Accepted(shop, pricing, provider, sku)
    ensures SourceAsGiven(shop, pricing, sku, SourceOf(shop, pricing, sku))
  {
    Rounds(sku.cost, 1_000_000.0);
    Rounds(sku.rate, 10_000.0);
    PriceIs(pricing, sku.cost);
  }

  /** The key fields of a source are this provider and these texts. */
  predicate IsSourceOf(k: SourceKey, provider: string, t: Texts) {
    k.provider == provider && k.product == t.product && k.country == t.country && k.operator == t.operator
  }

  lemma NamesIff(shop: Shop, pricing: Pricing, provider: string, sku: Sku, k: SourceKey, t: Texts)
    requires IsSourceOf(k, provider, t)
    ensures Names(shop, pricing, provider, sku, k) <==> Accepted(shop, pricing, provider, sku) && Speaks(sku, t)
  {
  }

  lemma {:induction false} NoLineIff(shop: Shop, pricing: Pricing, provider: string, skus: seq<Sku>, k: SourceKey,
                                     t: Texts)
    requires IsSourceOf(k, provider, t)
    requires forall j :: 0 <= j < |skus| ==> !(Accepted(shop, pricing, provider, skus[j]) && Speaks(skus[j], t))
    ensures NoLine(shop, pricing, provider, skus, k)
  {
    forall j | 0 <= j < |skus| ensures !Names(shop, pricing, provider, skus[j], k) {
      NamesIff(shop, pricing, provider, skus[j], k, t);
    }
  }

  /**
   After a sync that no row check stopped, the source of this provider with these texts is what
   the last accepted line with them says, column by column, and its offer is on the table.
   */
  lemma {:induction false} ALineIsWrittenAsGiven(db: Db, shop: Shop, pricing: Pricing, provider: string, skus: seq<Sku>,
                                                 zeroMissing: bool, i: nat, t: Texts) returns (k: SourceKey)
    requires Linked(db) && Completes(shop, pricing, provider, skus) && LastOf(shop, pricing, provider, skus, i, t)
    ensures var after := Synced(db, shop, pricing, provider, skus, zeroMissing);
      && IsSourceOf(k, provider, t) && k in after.sources
      && SourceAsGiven(shop, pricing, skus[i], after.sources[k])
      && after.sources[k].offer in after.offers
  {
    k := SourceKey(provider, t.product, t.country, t.operator);
    forall j | 0 <= j < |skus|
      ensures Names(shop, pricing, provider, skus[j], k)
         <==> Accepted(shop, pricing, provider, skus[j]) && Speaks(skus[j], t)
    {
      NamesIff(shop, pricing, provider, skus[j], k, t);
    }
    LastSkuWins(db, shop, pricing, provider, skus, zeroMissing, i, k);
    AsGiven(shop, pricing, provider, skus[i]);
    SyncKeepsLinked(db, shop, pricing, provider, skus, zeroMissing);
  }

  /** A source that no accepted line names keeps its columns, its stock excepted: that goes to zero when asked. */
  lemma {:induction false} AnUnnamedSourceIsKept(db: Db, shop: Shop, pricing: Pricing, provider: string, skus: seq<Sku>,
                                                 zeroMissing: bool, k: SourceKey, t: Texts)
    requires Completes(shop, pricing, provider, skus) && k in db.sources && IsSourceOf(k, k.provider, t)
    requires k.provider == provider ==>
      forall j :: 0 <= j < |skus| ==> !(Accepted(shop, pricing, provider, skus[j]) && Speaks(skus[j], t))
    ensures var after := Synced(db, shop, pricing, provider, skus, zeroMissing);
      && k in after.sources
      && after.sources[k] == if zeroMissing && k.provider == provider then db.sources[k].(stock := 0) else db.sources[k]
  {
    if k.provider == provider {
      NoLineIff(shop, pricing, provider, skus, k, t);
      UnseenSourcesAreZeroed(db, shop, pricing, provider, skus, zeroMissing, k);
    } else {
      OtherProvidersUntouched(db, shop, pricing, provider, skus, zeroMissing, k);
    }
  }

  // ---------------------------------------------------------------------
  // Which lines pass
  // ---------------------------------------------------------------------

  /** The widths and ranges of both tables, in numbers, on what the columns would hold. */
  predicate Storable(sku: Sku, s: Source) {
    && sku.provider in {"fivesim", "smspool", "smsactivate", "daisysms", "smshub", "tigersms", "stub"}
    && 0.0 < s.rate <= 100.0
    && s.offer.price < 10_000_000_000_000_000.0
    && -100_000_000_000_000.0 < s.cost < 100_000_000_000_000.0
  }

  /** No row check stops a sync exactly when every accepted line is storable as given. */
  lemma {:induction false} ASyncCompletesIff(shop: Shop, pricing: Pricing, provider: string, skus: seq<Sku>)
    ensures Completes(shop, pricing, provider, skus)
       <==> forall i :: 0 <= i < |skus| && Accepted(shop, pricing, provider, skus[i]) ==>
              exists s :: SourceAsGiven(shop, pricing, skus[i], s) && Storable(skus[i], s)
  {
    PlanCompletesIff(shop, pricing, provider, skus);
    forall i | 0 <= i < |skus| && Accepted(shop, pricing, provider, skus[i])
      ensures Passes(shop, pricing, skus[i])
         <==> exists s :: SourceAsGiven(shop, pricing, skus[i], s) && Storable(skus[i], s)
    {
      AsGiven(shop, pricing, provider, skus[i]);
      if s :| SourceAsGiven(shop, pricing, skus[i], s) && Storable(skus[i], s) {
        GivenOnce(shop, pricing, skus[i], s, SourceOf(shop, pricing, skus[i]));
      }
      if Passes(shop, pricing, skus[i]) {
        assert Storable(skus[i], SourceOf(shop, pricing, skus[i]));
      }
    }
  }

  lemma RoundedOnce(x: real, y: real, z: real, parts: real)
    requires parts > 0.0 && RoundedTo(x, y, parts) && RoundedTo(x, z, parts)
    ensures y == z
  {
    var a, b := y * parts, z * parts;
    assert a.Floor == b.Floor;
    assert (y - z) * parts == 0.0;
  }

  lemma PriceOnce(p: Pricing, cost: real, a: Naira, b: Naira)
    requires IsPrice(p, cost, a) && IsPrice(p, cost, b)
    ensures a == b
  {
  }

  /** The line determines its source. */
  lemma GivenOnce(shop: Shop, pricing: Pricing, sku: Sku, s: Source, t: Source)
    requires SourceAsGiven(shop, pricing, sku, s) && SourceAsGiven(shop, pricing, sku, t)
    ensures s == t
  {
    RoundedOnce(sku.cost, s.cost, t.cost, 1_000_000.0);
    RoundedOnce(sku.rate, s.rate, t.rate, 10_000.0);
    PriceOnce(pricing, sku.cost, s.offer.price, t.offer.price);
  }

  function AcceptedLines(shop: Shop, pricing: Pricing, provider: string, skus: seq<Sku>): nat {
    if skus == [] then 0
    else AcceptedLines(shop, pricing, provider, skus[..|skus| - 1])
         + if Accepted(shop, pricing, provider, skus[|skus| - 1]) then 1 else 0
  }

  /** The figure a sync that was not stopped reports is the number of lines it accepted. */
  lemma {:induction false} TheFigureIsTheLinesAccepted(shop: Shop, pricing: Pricing, provider: string, skus: seq<Sku>)
    requires Completes(shop, pricing, provider, skus)
    ensures |PlanOf(shop, pricing, provider, skus).ps| == AcceptedLines(shop, pricing, provider, skus)
  {
    if skus != [] {
      PlanFront(shop, pricing, provider, skus);
      TheFigureIsTheLinesAccepted(shop, pricing, provider, skus[..|skus| - 1]);
    }
  }

  /** The parser keeps exactly the rates that would pass the row check unrounded, and as they are. */
  lemma ParserAgreesWithTheCheck(value: real)
    ensures ParseSuccessRate(value).Some? <==> RateOk(value)
    ensures ParseSuccessRate(value).Some? ==> ParseSuccessRate(value).value == value && 0.0 < value <= 100.0
  {
  }
}
