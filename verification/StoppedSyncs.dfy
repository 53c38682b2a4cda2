/**
 What a sync leaves when a row check stops it half way, and exactly when an offer's quantity
 is still the sum of its sources.
 */
module StoppedSyncs {
  import opened Base
  import opened Catalogue
  import opened CatalogueTheorems

  /** The stock of the last line that asks for an offer. */
  function LastAsk(shop: Shop, pricing: Pricing, provider: string, skus: seq<Sku>, o: OfferKey): Option<Int32> {
    if skus == [] then None
    else if Asks(shop, pricing, provider, skus[|skus| - 1], o) then Some(skus[|skus| - 1].stock)
    else LastAsk(shop, pricing, provider, skus[..|skus| - 1], o)
  }

  predicate Asks(shop: Shop, pricing: Pricing, provider: string, sku: Sku, o: OfferKey) {
    Taken(shop, pricing, provider, sku) && OfferOf(shop, pricing, sku) == o
  }

  /** The quantity an offer is left with: the stock of the last line that asked for it, or what it showed. */
  ghost predicate Shows(before: Db, after: Db, ask: Option<Int32>, o: OfferKey) {
    match ask
    case Some(stock) => o in after.offers && after.offers[o] == Offer(Positive(stock), stock > 0)
    case None =>
      (o in after.offers <==> o in before.offers) && (o in after.offers ==> after.offers[o] == before.offers[o])
  }

  lemma LineShows(db: Db, shop: Shop, pricing: Pricing, provider: string, p: Plan, sku: Sku, o: OfferKey)
    requires !PlanLine(shop, pricing, provider, p, sku).failed
    ensures var before, after := Run(db, p.statements), Run(db, PlanLine(shop, pricing, provider, p, sku).statements);
      Shows(before, after, if Asks(shop, pricing, provider, sku, o) then Some(sku.stock) else None, o)
  {
    if Taken(shop, pricing, provider, sku) {
      var up := UpsertOffer(OfferOf(shop, pricing, sku), sku.stock);
      RunMore(db, p.statements, up);
      RunMore(db, p.statements + [up], UpsertSource(KeyOf(sku), SourceOf(shop, pricing, sku)));
    }
  }

  lemma {:induction false} UpsertsShow(db: Db, shop: Shop, pricing: Pricing, provider: string, skus: seq<Sku>,
                                       o: OfferKey)
    requires !PlanOf(shop, pricing, provider, skus).failed
    ensures Shows(db, Run(db, PlanOf(shop, pricing, provider, skus).statements),
                  LastAsk(shop, pricing, provider, skus, o), o)
  {
    if skus != [] {
      var n := |skus| - 1;
      PlanFront(shop, pricing, provider, skus);
      UpsertsShow(db, shop, pricing, provider, skus[..n], o);
      LineShows(db, shop, pricing, provider, PlanOf(shop, pricing, provider, skus[..n]), skus[n], o);
    }
  }

  /** The first line that a row check refuses. */
  predicate StopsAt(shop: Shop, pricing: Pricing, provider: string, skus: seq<Sku>, n: nat) {
    && n < |skus| && Taken(shop, pricing, provider, skus[n]) && !Passes(shop, pricing, skus[n])
    && forall i :: 0 <= i < n && Taken(shop, pricing, provider, skus[i]) ==> Passes(shop, pricing, skus[i])
  }

  /** How many lines are asked for before the stop: one more than are written, if only the source was refused. */
  function AskedLines(shop: Shop, pricing: Pricing, skus: seq<Sku>, n: nat): nat
    requires n < |skus| && skus[n].productSlug in shop.products && Upper(skus[n].countryCode) in shop.countries
  {
    if OfferFits(OfferOf(shop, pricing, skus[n])) then n + 1 else n
  }

  /** The plan stops at that line: its upserts are those of the lines before it, and perhaps one more offer. */
  lemma {:induction false} PlanStopsAt(shop: Shop, pricing: Pricing, provider: string, skus: seq<Sku>, n: nat)
    requires StopsAt(shop, pricing, provider, skus, n)
    ensures !PlanOf(shop, pricing, provider, skus[..n]).failed && PlanOf(shop, pricing, provider, skus).failed
    ensures var front := PlanOf(shop, pricing, provider, skus[..n]).statements;
      PlanOf(shop, pricing, provider, skus).statements
      == if OfferFits(OfferOf(shop, pricing, skus[n]))
         then front + [UpsertOffer(OfferOf(shop, pricing, skus[n]), skus[n].stock)] else front
  {
    PlanCompletesIff(shop, pricing, provider, skus[..n]);
    PlanNext(shop, pricing, provider, skus, n);
    FailedPlanStops(shop, pricing, provider, skus, n + 1);
  }

  lemma {:induction false} StoppedSources(db: Db, shop: Shop, pricing: Pricing, provider: string, skus: seq<Sku>,
                                          n: nat)
    requires StopsAt(shop, pricing, provider, skus, n)
    ensures Run(db, PlanOf(shop, pricing, provider, skus[..n]).statements).sources
         == AskedSources(db.sources, shop, pricing, provider, skus[..n], false)
  {
    PlanStopsAt(shop, pricing, provider, skus, n);
    ScriptRuns(db, shop, pricing, provider, skus[..n], false);
    SourcesAreAsked(db, shop, pricing, provider, skus[..n], false);
  }

  lemma {:induction false} AskedOnce(shop: Shop, pricing: Pricing, provider: string, skus: seq<Sku>, n: nat,
                                     o: OfferKey)
    requires StopsAt(shop, pricing, provider, skus, n)
    ensures LastAsk(shop, pricing, provider, skus[..AskedLines(shop, pricing, skus, n)], o)
         == if OfferFits(o) && OfferOf(shop, pricing, skus[n]) == o then Some(skus[n].stock)
            else LastAsk(shop, pricing, provider, skus[..n], o)
  {
    assert skus[..n + 1][..n] == skus[..n];
  }

  /**
   A sync that stops leaves the sources the lines before the stop ask for, nothing zeroed,
   and each offer shows the stock of the last line that asked for it, or what it showed before.
   */
  lemma {:induction false} AStoppedSyncLeaves(db: Db, shop: Shop, pricing: Pricing, provider: string, skus: seq<Sku>,
                                              zeroMissing: bool, n: nat, o: OfferKey)
    requires StopsAt(shop, pricing, provider, skus, n)
    ensures var after := Synced(db, shop, pricing, provider, skus, zeroMissing);
      && after.sources == AskedSources(db.sources, shop, pricing, provider, skus[..n], false)
      && Shows(db, after, LastAsk(shop, pricing, provider, skus[..AskedLines(shop, pricing, skus, n)], o), o)
  {
    PlanStopsAt(shop, pricing, provider, skus, n);
    StoppedScript(shop, pricing, provider, skus, zeroMissing);
    UpsertsShow(db, shop, pricing, provider, skus[..n], o);
    StoppedSources(db, shop, pricing, provider, skus, n);
    AskedOnce(shop, pricing, provider, skus, n, o);
    RunMore(db, PlanOf(shop, pricing, provider, skus[..n]).statements,
            UpsertOffer(OfferOf(shop, pricing, skus[n]), skus[n].stock));
  }

  /** Every sync that stops does so at such a line. */
  lemma {:induction false} StopsSomewhere(shop: Shop, pricing: Pricing, provider: string, skus: seq<Sku>)
    returns (n: nat)
    requires PlanOf(shop, pricing, provider, skus).failed
    ensures StopsAt(shop, pricing, provider, skus, n)
  {
    n := |skus| - 1;
    PlanCompletesIff(shop, pricing, provider, skus[..n]);
    if PlanOf(shop, pricing, provider, skus[..n]).failed {
      var m := StopsSomewhere(shop, pricing, provider, skus[..n]);
      n := m;
    } else {
      assert forall i :: 0 <= i < n ==> skus[..n][i] == skus[i];
    }
  }

  /**
   After a stop, an offer whose quantity was overwritten by a line that was written shows the
   right sum exactly when no other source of the offer has stock.
   */
  lemma {:induction false} AStoppedQuantityIsTheSumIff(db: Db, shop: Shop, pricing: Pricing, provider: string,
                                                       skus: seq<Sku>,
                                                       zeroMissing: bool, n: nat, k: SourceKey, o: OfferKey)
    requires StopsAt(shop, pricing, provider, skus, n)
    requires var word := LastWord(shop, pricing, provider, skus[..n], k);
      var ask := LastAsk(shop, pricing, provider, skus[..AskedLines(shop, pricing, skus, n)], o);
      word.Some? && word.value.offer == o && ask.Some? && Positive(ask.value) == word.value.stock
    ensures var sources := AskedSources(db.sources, shop, pricing, provider, skus[..n], false);
      var after := Synced(db, shop, pricing, provider, skus, zeroMissing);
      && after.sources == sources && o in after.offers
      && (after.offers[o].quantity == StockOf(sources, o) <==> !HasStock(sources - {k}, o))
  {
    AStoppedSyncLeaves(db, shop, pricing, provider, skus, zeroMissing, n, o);
    NamedByALine(shop, pricing, provider, skus[..n], k);
    var sources := AskedSources(db.sources, shop, pricing, provider, skus[..n], false);
    TakeOut(sources, k, o);
    StockIsPositiveIff(sources - {k}, o);
  }

  // ---------------------------------------------------------------------
  // A supplier that turns out to be out of stock
  // ---------------------------------------------------------------------

  /** A purchase told "out of stock" zeroes the source it tried, if it still points at the offer bought. */
  function OutOfStock(db: Db, o: OfferKey, k: SourceKey): Db {
    if k in db.sources && db.sources[k].offer == o
    then db.(sources := db.sources[k := db.sources[k].(stock := 0)]) else db
  }

  /** Nothing is recomputed: a quantity that was the sum still is exactly when the source had no stock to lose. */
  lemma {:induction false} OutOfStockKeepsTheSumIff(db: Db, o: OfferKey, k: SourceKey)
    requires o in db.offers && db.offers[o].quantity == StockOf(db.sources, o)
    ensures var after := OutOfStock(db, o, k);
      && after.offers == db.offers && StockOf(after.sources, o) <= StockOf(db.sources, o)
      && (after.offers[o].quantity == StockOf(after.sources, o)
          <==> k in db.sources && db.sources[k].offer == o ==> db.sources[k].stock == 0)
  {
    var after := OutOfStock(db, o, k);
    if k in db.sources && db.sources[k].offer == o {
      TakeOut(db.sources, k, o);
      TakeOut(after.sources, k, o);
      assert after.sources - {k} == db.sources - {k};
    }
  }
}
