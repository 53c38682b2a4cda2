/**
 What a sync leaves behind: each line's last word, every other provider as it was,
 quantities that are sums. A second run changes nothing, and two providers' syncs
 may overlap statement by statement without changing the outcome.
 */
module CatalogueTheorems {
  import opened Base
  import opened Catalogue

  /** The line is taken and names this source. */
  predicate Names(shop: Shop, pricing: Pricing, provider: string, sku: Sku, k: SourceKey) {
    Taken(shop, pricing, provider, sku) && KeyOf(sku) == k
  }

  /** What the last line naming a source says about it. */
  function LastWord(shop: Shop, pricing: Pricing, provider: string, skus: seq<Sku>, k: SourceKey): Option<Source> {
    if skus == [] then None
    else if Names(shop, pricing, provider, skus[|skus| - 1], k) then Some(SourceOf(shop, pricing, skus[|skus| - 1]))
    else LastWord(shop, pricing, provider, skus[..|skus| - 1], k)
  }

  predicate NoLine(shop: Shop, pricing: Pricing, provider: string, skus: seq<Sku>, k: SourceKey) {
    forall i :: 0 <= i < |skus| ==> !Names(shop, pricing, provider, skus[i], k)
  }

  predicate LastLine(shop: Shop, pricing: Pricing, provider: string, skus: seq<Sku>, i: nat, k: SourceKey) {
    && i < |skus| && Names(shop, pricing, provider, skus[i], k)
    && forall j :: i < j < |skus| ==> !Names(shop, pricing, provider, skus[j], k)
  }

  lemma {:induction false} LastWordIsTheLastLine(shop: Shop, pricing: Pricing, provider: string, skus: seq<Sku>,
                                                 k: SourceKey)
    ensures NoLine(shop, pricing, provider, skus, k) <==> LastWord(shop, pricing, provider, skus, k) == None
    ensures forall i: nat :: LastLine(shop, pricing, provider, skus, i, k) ==>
      LastWord(shop, pricing, provider, skus, k) == Some(SourceOf(shop, pricing, skus[i]))
  {
    if skus != [] {
      var n := |skus| - 1;
      LastWordIsTheLastLine(shop, pricing, provider, skus[..n], k);
      forall i: nat | LastLine(shop, pricing, provider, skus, i, k)
        ensures LastWord(shop, pricing, provider, skus, k) == Some(SourceOf(shop, pricing, skus[i]))
      {
        if i < n {
          assert LastLine(shop, pricing, provider, skus[..n], i, k);
        }
      }
      if NoLine(shop, pricing, provider, skus[..n], k) && !Names(shop, pricing, provider, skus[n], k) {
        assert forall i :: 0 <= i < n ==> skus[i] == skus[..n][i];
      }
      if NoLine(shop, pricing, provider, skus, k) {
        assert forall i :: 0 <= i < n ==> skus[..n][i] == skus[i];
      }
    }
  }

  // ---------------------------------------------------------------------
  // Running scripts
  // ---------------------------------------------------------------------

  lemma {:induction false} RunAppend(db: Db, a: seq<Statement>, b: seq<Statement>)
    ensures Run(db, a + b) == Run(Run(db, a), b)
  {
    if b == [] {
      assert a + b == a;
    } else {
      var n := |b| - 1;
      assert a + b == a + b[..n] + [b[n]];
      RunMore(db, a + b[..n], b[n]);
      RunAppend(db, a, b[..n]);
    }
  }

  /** The prefix of a plan that did not fail did not fail. */
  lemma PlanFront(shop: Shop, pricing: Pricing, provider: string, skus: seq<Sku>)
    requires skus != [] && !PlanOf(shop, pricing, provider, skus).failed
    ensures !PlanOf(shop, pricing, provider, skus[..|skus| - 1]).failed
  {
  }

  lemma LineRuns(db: Db, shop: Shop, pricing: Pricing, provider: string, p: Plan, sku: Sku)
    requires !PlanLine(shop, pricing, provider, p, sku).failed
    ensures var before := Run(db, p.statements);
      var after := Run(db, PlanLine(shop, pricing, provider, p, sku).statements);
      if Taken(shop, pricing, provider, sku)
      then after.sources == before.sources[KeyOf(sku) := SourceOf(shop, pricing, sku)]
        && after.offers.Keys == before.offers.Keys + {OfferOf(shop, pricing, sku)}
      else after == before
  {
    if Taken(shop, pricing, provider, sku) {
      var o := UpsertOffer(OfferOf(shop, pricing, sku), sku.stock);
      var s := UpsertSource(KeyOf(sku), SourceOf(shop, pricing, sku));
      RunMore(db, p.statements, o);
      RunMore(db, p.statements + [o], s);
    }
  }

  /** After the upserts, a source holds the last word on it, or what it held before. */
  lemma {:induction false} UpsertsLand(db: Db, shop: Shop, pricing: Pricing, provider: string, skus: seq<Sku>,
                                       k: SourceKey)
    requires !PlanOf(shop, pricing, provider, skus).failed
    ensures var s := Run(db, PlanOf(shop, pricing, provider, skus).statements).sources;
      match LastWord(shop, pricing, provider, skus, k)
      case Some(source) => k in s && s[k] == source
      case None => (k in s <==> k in db.sources) && (k in s ==> s[k] == db.sources[k])
  {
    if skus != [] {
      var n := |skus| - 1;
      PlanFront(shop, pricing, provider, skus);
      UpsertsLand(db, shop, pricing, provider, skus[..n], k);
      LineRuns(db, shop, pricing, provider, PlanOf(shop, pricing, provider, skus[..n]), skus[n]);
    }
  }

  lemma ListedPush(k: SourceKey, j: SourceKey, ps: seq<string>, cs: seq<string>, os: seq<string>)
    requires |ps| == |cs| == |os| && j.provider == k.provider
    ensures Listed(k, ps + [j.product], cs + [j.country], os + [j.operator]) <==> Listed(k, ps, cs, os) || j == k
  {
    var n := |ps|;
    var ps', cs', os' := ps + [j.product], cs + [j.country], os + [j.operator];
    if Listed(k, ps, cs, os) {
      var i :| 0 <= i < n && i < |cs| && i < |os| && ps[i] == k.product && cs[i] == k.country && os[i] == k.operator;
      assert ps'[i] == k.product && cs'[i] == k.country && os'[i] == k.operator;
    }
    if j == k {
      assert ps'[n] == k.product && cs'[n] == k.country && os'[n] == k.operator;
    }
    if Listed(k, ps', cs', os') {
      var i :| 0 <= i < |ps'| && i < |cs'| && i < |os'|
               && ps'[i] == k.product && cs'[i] == k.country && os'[i] == k.operator;
      if i < n {
        assert ps[i] == k.product && cs[i] == k.country && os[i] == k.operator;
      }
    }
  }

  /** The three lists of what was seen name exactly the sources some line named. */
  lemma {:induction false} SeenIsNamed(shop: Shop, pricing: Pricing, provider: string, skus: seq<Sku>, k: SourceKey)
    requires !PlanOf(shop, pricing, provider, skus).failed && k.provider == provider
    ensures var p := PlanOf(shop, pricing, provider, skus);
      |p.ps| == |p.cs| == |p.os| && (Listed(k, p.ps, p.cs, p.os) <==> LastWord(shop, pricing, provider, skus, k).Some?)
  {
    if skus != [] {
      var n := |skus| - 1;
      PlanFront(shop, pricing, provider, skus);
      SeenIsNamed(shop, pricing, provider, skus[..n], k);
      if Taken(shop, pricing, provider, skus[n]) {
        var p := PlanOf(shop, pricing, provider, skus[..n]);
        ListedPush(k, KeyOf(skus[n]), p.ps, p.cs, p.os);
      }
    }
  }

  ghost function Synced(db: Db, shop: Shop, pricing: Pricing, provider: string, skus: seq<Sku>, zeroMissing: bool): Db {
    Run(db, Script(shop, pricing, provider, skus, zeroMissing))
  }

  /** What a sync leaves behind when no row check fails: all its writes, and the sums if they fit. */
  lemma ScriptRuns(db: Db, shop: Shop, pricing: Pricing, provider: string, skus: seq<Sku>, zeroMissing: bool)
    requires !PlanOf(shop, pricing, provider, skus).failed
    ensures var p := PlanOf(shop, pricing, provider, skus);
      var mid := Run(db, p.statements);
      var s := if zeroMissing then Zeroed(mid.sources, provider, p.ps, p.cs, p.os) else mid.sources;
      && Run(db, Writes(shop, pricing, provider, skus, zeroMissing)) == Db(mid.offers, s)
      && Synced(db, shop, pricing, provider, skus, zeroMissing)
         == Db(Recomputed(mid.offers, s), s)
  {
    var p := PlanOf(shop, pricing, provider, skus);
    if zeroMissing {
      RunMore(db, p.statements, ZeroUnseen(provider, p.ps, p.cs, p.os));
    }
    RunMore(db, Writes(shop, pricing, provider, skus, zeroMissing), Recompute);
  }

  lemma StoppedScript(shop: Shop, pricing: Pricing, provider: string, skus: seq<Sku>, zeroMissing: bool)
    requires PlanOf(shop, pricing, provider, skus).failed
    ensures Script(shop, pricing, provider, skus, zeroMissing) == PlanOf(shop, pricing, provider, skus).statements
  {
  }

  lemma {:induction false} OnlyOwnLines(shop: Shop, pricing: Pricing, provider: string, skus: seq<Sku>, k: SourceKey)
    requires k.provider != provider
    ensures LastWord(shop, pricing, provider, skus, k) == None
  {
    if skus != [] { OnlyOwnLines(shop, pricing, provider, skus[..|skus| - 1], k); }
  }

  /** Every source after a sync that no row check stopped, by what the list says of it. */
  ghost predicate Lands(before: Db, after: Db, word: Option<Source>, provider: string, zeroMissing: bool,
                        k: SourceKey) {
    match word
    case Some(source) => k in after.sources && after.sources[k] == source
    case None =>
      if k !in before.sources then k !in after.sources
      else k in after.sources && after.sources[k]
           == if zeroMissing && k.provider == provider then before.sources[k].(stock := 0) else before.sources[k]
  }

  lemma SyncLands(db: Db, shop: Shop, pricing: Pricing, provider: string, skus: seq<Sku>, zeroMissing: bool,
                  k: SourceKey)
    requires !PlanOf(shop, pricing, provider, skus).failed
    ensures Lands(db, Synced(db, shop, pricing, provider, skus, zeroMissing),
                  LastWord(shop, pricing, provider, skus, k), provider, zeroMissing, k)
  {
    ScriptRuns(db, shop, pricing, provider, skus, zeroMissing);
    UpsertsLand(db, shop, pricing, provider, skus, k);
    if k.provider == provider {
      SeenIsNamed(shop, pricing, provider, skus, k);
    } else {
      OnlyOwnLines(shop, pricing, provider, skus, k);
    }
  }

  // ---------------------------------------------------------------------
  // What a successful sync means
  // ---------------------------------------------------------------------

  /** A source that lines name holds what the last of those lines says, wherever it pointed before. */
  lemma LastSkuWins(db: Db, shop: Shop, pricing: Pricing, provider: string, skus: seq<Sku>, zeroMissing: bool,
                    i: nat, k: SourceKey)
    requires !PlanOf(shop, pricing, provider, skus).failed
    requires LastLine(shop, pricing, provider, skus, i, k)
    ensures var after := Synced(db, shop, pricing, provider, skus, zeroMissing);
      k in after.sources && after.sources[k] == SourceOf(shop, pricing, skus[i])
  {
    LastWordIsTheLastLine(shop, pricing, provider, skus, k);
    SyncLands(db, shop, pricing, provider, skus, zeroMissing, k);
  }

  /** A source no line names keeps its offer; its stock goes to zero exactly when asked, and only for this provider. */
  lemma UnseenSourcesAreZeroed(db: Db, shop: Shop, pricing: Pricing, provider: string, skus: seq<Sku>,
                               zeroMissing: bool, k: SourceKey)
    requires !PlanOf(shop, pricing, provider, skus).failed
    requires NoLine(shop, pricing, provider, skus, k)
    ensures var after := Synced(db, shop, pricing, provider, skus, zeroMissing);
      && (k in after.sources <==> k in db.sources)
      && (k in db.sources && zeroMissing && k.provider == provider ==> after.sources[k] == db.sources[k].(stock := 0))
      && (k in db.sources && !(zeroMissing && k.provider == provider) ==> after.sources[k] == db.sources[k])
  {
    LastWordIsTheLastLine(shop, pricing, provider, skus, k);
    SyncLands(db, shop, pricing, provider, skus, zeroMissing, k);
  }

  lemma OtherProvidersUntouched(db: Db, shop: Shop, pricing: Pricing, provider: string, skus: seq<Sku>,
                                zeroMissing: bool, k: SourceKey)
    requires !PlanOf(shop, pricing, provider, skus).failed && k.provider != provider
    ensures var after := Synced(db, shop, pricing, provider, skus, zeroMissing);
      (k in after.sources <==> k in db.sources) && (k in db.sources ==> after.sources[k] == db.sources[k])
  {
    OnlyOwnLines(shop, pricing, provider, skus, k);
    SyncLands(db, shop, pricing, provider, skus, zeroMissing, k);
  }

  ghost predicate HasStock(sources: map<SourceKey, Source>, offer: OfferKey) {
    exists k :: k in sources && sources[k].offer == offer && sources[k].stock > 0
  }

  lemma {:induction false} StockIsPositiveIff(sources: map<SourceKey, Source>, offer: OfferKey)
    ensures StockOf(sources, offer) > 0 <==> HasStock(sources, offer)
    decreases |sources|
  {
    if sources != map[] {
      var k :| k in sources;
      TakeOut(sources, k, offer);
      StockIsPositiveIff(sources - {k}, offer);
      if HasStock(sources - {k}, offer) {
        var j :| j in sources - {k} && (sources - {k})[j].offer == offer && (sources - {k})[j].stock > 0;
        assert j in sources && sources[j].offer == offer;
      }
      if HasStock(sources, offer) && Share(sources[k], offer) == 0 {
        var j :| j in sources && sources[j].offer == offer && sources[j].stock > 0;
        assert j in sources - {k} && (sources - {k})[j] == sources[j];
      }
    }
  }

  /**
   Every offer, also those whose sources moved away, shows the sum of its sources, and is listed
   exactly when one has stock.
   */
  lemma QuantitiesAreSums(db: Db, shop: Shop, pricing: Pricing, provider: string, skus: seq<Sku>, zeroMissing: bool,
                          o: OfferKey)
    requires Succeeds(db, shop, pricing, provider, skus, zeroMissing)
    requires o in Synced(db, shop, pricing, provider, skus, zeroMissing).offers
    ensures var after := Synced(db, shop, pricing, provider, skus, zeroMissing);
      && after.offers[o].quantity == StockOf(after.sources, o)
      && (after.offers[o].active <==> HasStock(after.sources, o))
  {
    ScriptRuns(db, shop, pricing, provider, skus, zeroMissing);
    StockIsPositiveIff(Synced(db, shop, pricing, provider, skus, zeroMissing).sources, o);
  }

  /** No source points at an offer that is not there. */
  ghost predicate Linked(db: Db) {
    forall k :: k in db.sources ==> db.sources[k].offer in db.offers
  }

  lemma {:induction false} PlanKeepsLinked(db: Db, shop: Shop, pricing: Pricing, provider: string, skus: seq<Sku>)
    requires Linked(db)
    ensures Linked(Run(db, PlanOf(shop, pricing, provider, skus).statements))
  {
    if skus != [] {
      var n := |skus| - 1;
      PlanKeepsLinked(db, shop, pricing, provider, skus[..n]);
      var p := PlanOf(shop, pricing, provider, skus[..n]);
      var sku := skus[n];
      if Taken(shop, pricing, provider, sku) {
        var o := UpsertOffer(OfferOf(shop, pricing, sku), sku.stock);
        RunMore(db, p.statements, o);
        RunMore(db, p.statements + [o], UpsertSource(KeyOf(sku), SourceOf(shop, pricing, sku)));
      }
    }
  }

  /** A sync, whether it succeeds or stops half way, leaves every source with its offer. */
  lemma SyncKeepsLinked(db: Db, shop: Shop, pricing: Pricing, provider: string, skus: seq<Sku>, zeroMissing: bool)
    requires Linked(db)
    ensures Linked(Synced(db, shop, pricing, provider, skus, zeroMissing))
  {
    PlanKeepsLinked(db, shop, pricing, provider, skus);
    if PlanOf(shop, pricing, provider, skus).failed {
      StoppedScript(shop, pricing, provider, skus, zeroMissing);
    } else {
      ScriptRuns(db, shop, pricing, provider, skus, zeroMissing);
    }
  }

  // ---------------------------------------------------------------------
  // Twice is once
  // ---------------------------------------------------------------------

  /** The statements lay one table of offers and one of sources over whatever is there. */
  ghost predicate Overlays(sts: seq<Statement>, offers: map<OfferKey, Offer>, sources: map<SourceKey, Source>) {
    forall d: Db :: Run(d, sts) == Db(d.offers + offers, d.sources + sources)
  }

  lemma MergeUpdate<K, V>(m: map<K, V>, over: map<K, V>, k: K, v: V)
    ensures m + over[k := v] == (m + over)[k := v]
  {
    var a, b := m + over[k := v], (m + over)[k := v];
    assert forall j :: j in a <==> j in b;
    assert forall j :: j in a ==> a[j] == b[j];
  }

  lemma {:induction false} OneOffer(d: Db, sts: seq<Statement>, offers: map<OfferKey, Offer>,
                                    sources: map<SourceKey, Source>, o: OfferKey, stock: Int32, row: Offer)
    requires Run(d, sts) == Db(d.offers + offers, d.sources + sources) && row == Offer(Positive(stock), stock > 0)
    ensures Run(d, sts + [UpsertOffer(o, stock)]) == Db(d.offers + offers[o := row], d.sources + sources)
  {
    RunMore(d, sts, UpsertOffer(o, stock));
    MergeUpdate(d.offers, offers, o, row);
  }

  lemma {:induction false} OverlayOffer(sts: seq<Statement>, offers: map<OfferKey, Offer>,
                                        sources: map<SourceKey, Source>, o: OfferKey, stock: Int32, row: Offer)
    requires Overlays(sts, offers, sources) && row == Offer(Positive(stock), stock > 0)
    ensures Overlays(sts + [UpsertOffer(o, stock)], offers[o := row], sources)
  {
    forall d: Db ensures Run(d, sts + [UpsertOffer(o, stock)]) == Db(d.offers + offers[o := row], d.sources + sources) {
      OneOffer(d, sts, offers, sources, o, stock, row);
    }
  }

  lemma {:induction false} OneSource(d: Db, sts: seq<Statement>, offers: map<OfferKey, Offer>,
                                     sources: map<SourceKey, Source>, k: SourceKey, source: Source)
    requires Run(d, sts) == Db(d.offers + offers, d.sources + sources)
    ensures Run(d, sts + [UpsertSource(k, source)]) == Db(d.offers + offers, d.sources + sources[k := source])
  {
    RunMore(d, sts, UpsertSource(k, source));
    MergeUpdate(d.sources, sources, k, source);
  }

  lemma {:induction false} OverlaySource(sts: seq<Statement>, offers: map<OfferKey, Offer>,
                                         sources: map<SourceKey, Source>, k: SourceKey, source: Source)
    requires Overlays(sts, offers, sources)
    ensures Overlays(sts + [UpsertSource(k, source)], offers, sources[k := source])
  {
    forall d: Db
      ensures Run(d, sts + [UpsertSource(k, source)]) == Db(d.offers + offers, d.sources + sources[k := source])
    {
      OneSource(d, sts, offers, sources, k, source);
    }
  }

  lemma {:induction false} LineOverlays(shop: Shop, pricing: Pricing, provider: string, p: Plan, sku: Sku,
                                        front: map<OfferKey, Offer>, front': map<SourceKey, Source>)
    returns (offers: map<OfferKey, Offer>, sources: map<SourceKey, Source>)
    requires Overlays(p.statements, front, front')
    ensures Overlays(PlanLine(shop, pricing, provider, p, sku).statements, offers, sources)
  {
    offers, sources := front, front';
    if !p.failed && Taken(shop, pricing, provider, sku) && OfferFits(OfferOf(shop, pricing, sku)) {
      var o := OfferOf(shop, pricing, sku);
      OverlayOffer(p.statements, front, front', o, sku.stock, Offer(Positive(sku.stock), sku.stock > 0));
      offers := front[o := Offer(Positive(sku.stock), sku.stock > 0)];
      if SourceFits(KeyOf(sku), SourceOf(shop, pricing, sku)) {
        OverlaySource(p.statements + [UpsertOffer(o, sku.stock)], offers, front',
                      KeyOf(sku), SourceOf(shop, pricing, sku));
        sources := front'[KeyOf(sku) := SourceOf(shop, pricing, sku)];
      }
    }
  }

  /** So do the upserts of a list, stopped or not. */
  lemma {:induction false} PlanIsAnOverlay(shop: Shop, pricing: Pricing, provider: string, skus: seq<Sku>)
    returns (offers: map<OfferKey, Offer>, sources: map<SourceKey, Source>)
    ensures Overlays(PlanOf(shop, pricing, provider, skus).statements, offers, sources)
  {
    if skus == [] {
      offers, sources := map[], map[];
      forall d: Db ensures Run(d, []) == Db(d.offers + offers, d.sources + sources) {
        assert d.offers + offers == d.offers && d.sources + sources == d.sources;
      }
    } else {
      var n := |skus| - 1;
      offers, sources := PlanIsAnOverlay(shop, pricing, provider, skus[..n]);
      var front := PlanOf(shop, pricing, provider, skus[..n]);
      offers, sources := LineOverlays(shop, pricing, provider, front, skus[n], offers, sources);
    }
  }

  lemma {:induction false} OverlayTwice<K, V>(m: map<K, V>, over: map<K, V>)
    ensures m + over + over == m + over
  {
  }

  /** Whether it succeeds, stops at a row check or finds a sum too wide, running a sync again changes nothing. */
  lemma {:induction false} SyncIsIdempotent(db: Db, shop: Shop, pricing: Pricing, provider: string, skus: seq<Sku>,
                                            zeroMissing: bool)
    ensures var once := Synced(db, shop, pricing, provider, skus, zeroMissing);
      Synced(once, shop, pricing, provider, skus, zeroMissing) == once
  {
    var offers, sources := PlanIsAnOverlay(shop, pricing, provider, skus);
    if PlanOf(shop, pricing, provider, skus).failed {
      StoppedScript(shop, pricing, provider, skus, zeroMissing);
      OverlayTwice(db.offers, offers);
      OverlayTwice(db.sources, sources);
    } else {
      SourcesSettle(db, shop, pricing, provider, skus, zeroMissing);
      OffersSettle(db, shop, pricing, provider, skus, zeroMissing, offers, sources);
    }
  }

  lemma {:induction false} OffersSettle(db: Db, shop: Shop, pricing: Pricing, provider: string, skus: seq<Sku>,
                                        zeroMissing: bool,
                                         offers: map<OfferKey, Offer>, sources: map<SourceKey, Source>)
    requires !PlanOf(shop, pricing, provider, skus).failed
    requires Overlays(PlanOf(shop, pricing, provider, skus).statements, offers, sources)
    requires var once := Synced(db, shop, pricing, provider, skus, zeroMissing);
      Synced(once, shop, pricing, provider, skus, zeroMissing).sources == once.sources
    ensures var once := Synced(db, shop, pricing, provider, skus, zeroMissing);
      Synced(once, shop, pricing, provider, skus, zeroMissing).offers == once.offers
  {
    var once := Synced(db, shop, pricing, provider, skus, zeroMissing);
    ScriptRuns(db, shop, pricing, provider, skus, zeroMissing);
    ScriptRuns(once, shop, pricing, provider, skus, zeroMissing);
    RecomputedTwice(db.offers, offers, once.sources);
  }

  lemma {:induction false} RecomputedTwice(base: map<OfferKey, Offer>, over: map<OfferKey, Offer>,
                                           sources: map<SourceKey, Source>)
    ensures Recomputed(Recomputed(base + over, sources) + over, sources) == Recomputed(base + over, sources)
  {
    OverlayTwice(base, over);
    assert (Recomputed(base + over, sources) + over).Keys == (base + over).Keys;
  }

  lemma {:induction false} SourcesSettle(db: Db, shop: Shop, pricing: Pricing, provider: string, skus: seq<Sku>,
                                         zeroMissing: bool)
    requires !PlanOf(shop, pricing, provider, skus).failed
    ensures var once := Synced(db, shop, pricing, provider, skus, zeroMissing);
      Synced(once, shop, pricing, provider, skus, zeroMissing).sources == once.sources
  {
    var once := Synced(db, shop, pricing, provider, skus, zeroMissing);
    var twice := Synced(once, shop, pricing, provider, skus, zeroMissing);
    forall k: SourceKey
      ensures (k in twice.sources <==> k in once.sources) && (k in once.sources ==> twice.sources[k] == once.sources[k])
    {
      SyncLands(db, shop, pricing, provider, skus, zeroMissing, k);
      SyncLands(once, shop, pricing, provider, skus, zeroMissing, k);
    }
  }

  // ---------------------------------------------------------------------
  // Two providers at once
  // ---------------------------------------------------------------------

  /** One interleaving of two scripts, each in its own order. */
  ghost predicate Interleaves(r: seq<Statement>, a: seq<Statement>, b: seq<Statement>)
    decreases |r|
  {
    if r == [] then a == [] && b == []
    else
      var n, st := |r| - 1, r[|r| - 1];
      || (a != [] && a[|a| - 1] == st && Interleaves(r[..n], a[..|a| - 1], b))
      || (b != [] && b[|b| - 1] == st && Interleaves(r[..n], a, b[..|b| - 1]))
  }

  predicate Touches(st: Statement, provider: string) {
    match st
    case UpsertSource(k, _) => k.provider == provider
    case ZeroUnseen(p, _, _, _) => p == provider
    case _ => false
  }

  ghost predicate BelongsTo(sts: seq<Statement>, provider: string) {
    forall i, p :: 0 <= i < |sts| && p != provider ==> !Touches(sts[i], p)
  }

  function Of(db: Db, provider: string): map<SourceKey, Source> {
    map k | k in db.sources && k.provider == provider :: db.sources[k]
  }

  lemma ExecOther(db: Db, st: Statement, p: string)
    requires !Touches(st, p)
    ensures Of(Exec(db, st), p) == Of(db, p)
  {
  }

  lemma ExecOwn(x: Db, y: Db, st: Statement, p: string)
    requires Of(x, p) == Of(y, p)
    ensures Of(Exec(x, st), p) == Of(Exec(y, st), p)
  {
    SameOwn(x, y, p);
    var a, b := Exec(x, st), Exec(y, st);
    forall k: SourceKey | k.provider == p
      ensures (k in a.sources <==> k in b.sources) && (k in a.sources ==> a.sources[k] == b.sources[k])
    {
      assert k in x.sources <==> k in y.sources;
    }
    OwnSame(a, b, p);
  }

  ghost predicate SameFor(x: Db, y: Db, p: string) {
    forall k: SourceKey :: k.provider == p ==>
      (k in x.sources <==> k in y.sources) && (k in x.sources ==> x.sources[k] == y.sources[k])
  }

  lemma SameOwn(x: Db, y: Db, p: string)
    requires Of(x, p) == Of(y, p)
    ensures SameFor(x, y, p)
  {
    forall k: SourceKey | k.provider == p
      ensures (k in x.sources <==> k in y.sources) && (k in x.sources ==> x.sources[k] == y.sources[k])
    {
      assert k in x.sources <==> k in Of(x, p);
      assert k in y.sources <==> k in Of(y, p);
    }
  }

  lemma OwnSame(x: Db, y: Db, p: string)
    requires SameFor(x, y, p)
    ensures Of(x, p) == Of(y, p)
  {
  }

  /** A provider's sources come out of an interleaving as they come out of its own script alone. */
  lemma {:induction false} OwnSources(db: Db, r: seq<Statement>, a: seq<Statement>, b: seq<Statement>, p: string,
                                      q: string, o: string)
    requires Interleaves(r, a, b) && BelongsTo(a, p) && BelongsTo(b, q) && p != q
    ensures Of(Run(db, r), p) == Of(Run(db, a), p)
    ensures Of(Run(db, r), q) == Of(Run(db, b), q)
    ensures o != p && o != q ==> Of(Run(db, r), o) == Of(db, o)
    ensures Run(db, r).offers.Keys == Run(db, a).offers.Keys + Run(db, b).offers.Keys
    decreases |r|
  {
    if r != [] {
      var n, st := |r| - 1, r[|r| - 1];
      if a != [] && a[|a| - 1] == st && Interleaves(r[..n], a[..|a| - 1], b) {
        OwnSources(db, r[..n], a[..|a| - 1], b, p, q, o);
        OneMore(db, r[..n], a[..|a| - 1], b, st, p, q, o);
      } else {
        OwnSources(db, r[..n], a, b[..|b| - 1], p, q, o);
        OneMore(db, r[..n], b[..|b| - 1], a, st, q, p, o);
      }
    }
  }

  lemma {:induction false} OneMore(db: Db, r: seq<Statement>, a: seq<Statement>, b: seq<Statement>, st: Statement,
                                   p: string, q: string, o: string)
    requires Of(Run(db, r), p) == Of(Run(db, a), p) && Of(Run(db, r), q) == Of(Run(db, b), q)
    requires o != p && o != q ==> Of(Run(db, r), o) == Of(db, o)
    requires Run(db, r).offers.Keys == Run(db, a).offers.Keys + Run(db, b).offers.Keys
    requires p != q && forall t :: t != p ==> !Touches(st, t)
    ensures Of(Exec(Run(db, r), st), p) == Of(Exec(Run(db, a), st), p)
    ensures Of(Exec(Run(db, r), st), q) == Of(Run(db, b), q)
    ensures o != p && o != q ==> Of(Exec(Run(db, r), st), o) == Of(db, o)
    ensures Exec(Run(db, r), st).offers.Keys == Exec(Run(db, a), st).offers.Keys + Run(db, b).offers.Keys
  {
    ExecOwn(Run(db, r), Run(db, a), st, p);
    ExecOther(Run(db, r), st, q);
    if o != p && o != q { ExecOther(Run(db, r), st, o); }
  }

  lemma {:induction false} PlanBelongs(shop: Shop, pricing: Pricing, provider: string, skus: seq<Sku>)
    ensures BelongsTo(PlanOf(shop, pricing, provider, skus).statements, provider)
  {
    if skus != [] { PlanBelongs(shop, pricing, provider, skus[..|skus| - 1]); }
  }

  lemma ScriptBelongs(shop: Shop, pricing: Pricing, provider: string, skus: seq<Sku>, zeroMissing: bool)
    ensures BelongsTo(Script(shop, pricing, provider, skus, zeroMissing), provider)
  {
    PlanBelongs(shop, pricing, provider, skus);
  }

  lemma SameSources(x: Db, y: Db)
    requires forall p: string :: Of(x, p) == Of(y, p)
    ensures x.sources == y.sources
  {
    forall k: SourceKey
      ensures (k in x.sources <==> k in y.sources) && (k in x.sources ==> x.sources[k] == y.sources[k])
    {
      assert Of(x, k.provider) == Of(y, k.provider);
      assert k in x.sources <==> k in Of(x, k.provider);
      assert k in y.sources <==> k in Of(y, k.provider);
    }
  }

  lemma {:induction false} Sequentially(a: seq<Statement>, b: seq<Statement>)
    ensures Interleaves(a + b, a, b) && Interleaves(a + b, b, a)
    decreases |a| + |b|
  {
    var r := a + b;
    if b != [] {
      assert r[..|r| - 1] == a + b[..|b| - 1];
      Sequentially(a, b[..|b| - 1]);
    } else if a != [] {
      assert r == a && r[..|r| - 1] == a[..|a| - 1] + b;
      Sequentially(a[..|a| - 1], b);
    }
  }

  predicate EndsInRecompute(sts: seq<Statement>) {
    sts != [] && sts[|sts| - 1] == Recompute
  }

  /** The sums as they stand are the sums that should stand, unless they are too wide to be written. */
  ghost predicate Settled(db: Db) {
    SumsFit(db.offers.Keys, db.sources) ==> db.offers == Totals(db.offers.Keys, db.sources)
  }

  /**
   Any two interleavings of two providers' scripts end with the same sources and offers, and,
   if both recompute, with the same quantities whenever the final sums fit.
   */
  lemma {:induction false} InterleavedSyncsAgree(db: Db, a: seq<Statement>, b: seq<Statement>, p: string, q: string,
                                                 r: seq<Statement>, s: seq<Statement>)
    requires Interleaves(r, a, b) && Interleaves(s, a, b)
    requires BelongsTo(a, p) && BelongsTo(b, q) && p != q
    ensures var x, y := Run(db, r), Run(db, s);
      && x.sources == y.sources && x.offers.Keys == y.offers.Keys
      && (EndsInRecompute(a) && EndsInRecompute(b) ==>
            Settled(x) && Settled(y) && (SumsFit(x.offers.Keys, x.sources) ==> x == y))
  {
    var x, y := Run(db, r), Run(db, s);
    forall o: string ensures Of(x, o) == Of(y, o) {
      OwnSources(db, r, a, b, p, q, o);
      OwnSources(db, s, a, b, p, q, o);
    }
    SameSources(x, y);
    OwnSources(db, r, a, b, p, q, p);
    OwnSources(db, s, a, b, p, q, p);
    if EndsInRecompute(a) && EndsInRecompute(b) {
      LastIsRecompute(db, r);
      LastIsRecompute(db, s);
    }
  }

  lemma LastIsRecompute(db: Db, r: seq<Statement>)
    requires EndsInRecompute(r)
    ensures Settled(Run(db, r))
  {
  }

  predicate Completes(shop: Shop, pricing: Pricing, provider: string, skus: seq<Sku>) {
    !PlanOf(shop, pricing, provider, skus).failed
  }

  /**
   Two providers' syncs may overlap in any way, and each may succeed or stop half way: sources
   and offers end as if one had run after the other, in either order. So do the quantities,
   unless a row check stopped one of the syncs or the final sums are too wide to write.
   */
  lemma {:induction false} SyncsCommute(db: Db, shop: Shop, p: string, pricing: Pricing, skus: seq<Sku>, zero: bool,
                                        q: string, pricing': Pricing, skus': seq<Sku>, zero': bool, r: seq<Statement>)
    requires p != q
    requires Interleaves(r, Script(shop, pricing, p, skus, zero), Script(shop, pricing', q, skus', zero'))
    ensures var x := Run(db, r);
      var y := Synced(Synced(db, shop, pricing, p, skus, zero), shop, pricing', q, skus', zero');
      var z := Synced(Synced(db, shop, pricing', q, skus', zero'), shop, pricing, p, skus, zero);
      && x.sources == y.sources == z.sources && x.offers.Keys == y.offers.Keys == z.offers.Keys
      && (Completes(shop, pricing, p, skus) && Completes(shop, pricing', q, skus') ==>
            SumsFit(x.offers.Keys, x.sources) ==> x == y == z)
  {
    var a, b := Script(shop, pricing, p, skus, zero), Script(shop, pricing', q, skus', zero');
    ScriptBelongs(shop, pricing, p, skus, zero);
    ScriptBelongs(shop, pricing', q, skus', zero');
    Sequentially(a, b);
    Sequentially(b, a);
    InterleavedSyncsAgree(db, a, b, p, q, r, a + b);
    InterleavedSyncsAgree(db, a, b, p, q, r, b + a);
    RunAppend(db, a, b);
    RunAppend(db, b, a);
  }

  // ---------------------------------------------------------------------
  // When a sync stops half way
  // ---------------------------------------------------------------------

  /** The line, as its columns would hold it, passes the row checks of both tables. */
  predicate Passes(shop: Shop, pricing: Pricing, sku: Sku)
    requires sku.productSlug in shop.products && Upper(sku.countryCode) in shop.countries
  {
    OfferFits(OfferOf(shop, pricing, sku)) && SourceFits(KeyOf(sku), SourceOf(shop, pricing, sku))
  }

  ghost predicate AllPass(shop: Shop, pricing: Pricing, provider: string, skus: seq<Sku>) {
    forall i :: 0 <= i < |skus| && Taken(shop, pricing, provider, skus[i]) ==> Passes(shop, pricing, skus[i])
  }

  lemma {:induction false} PlanCompletesIff(shop: Shop, pricing: Pricing, provider: string, skus: seq<Sku>)
    ensures !PlanOf(shop, pricing, provider, skus).failed <==> AllPass(shop, pricing, provider, skus)
  {
    if skus != [] {
      var n := |skus| - 1;
      PlanCompletesIff(shop, pricing, provider, skus[..n]);
      assert forall i :: 0 <= i < n ==> skus[..n][i] == skus[i];
    }
  }

  /** The offers a list asks for, and the sources as it asks for them, read off the list and the table before it. */
  function AskedOffers(offers: set<OfferKey>, shop: Shop, pricing: Pricing, provider: string,
                       skus: seq<Sku>): set<OfferKey> {
    offers + set i | 0 <= i < |skus| && Taken(shop, pricing, provider, skus[i]) :: OfferOf(shop, pricing, skus[i])
  }

  function AskedSources(sources: map<SourceKey, Source>, shop: Shop, pricing: Pricing, provider: string, skus: seq<Sku>,
                        zeroMissing: bool): map<SourceKey, Source>
  {
    map k | k in sources.Keys + (set i | 0 <= i < |skus| :: KeyOf(skus[i]))
            && (k in sources || LastWord(shop, pricing, provider, skus, k).Some?) ::
      match LastWord(shop, pricing, provider, skus, k)
      case Some(source) => source
      case None => if zeroMissing && k.provider == provider then sources[k].(stock := 0) else sources[k]
  }

  lemma {:induction false} OffersAreAsked(db: Db, shop: Shop, pricing: Pricing, provider: string, skus: seq<Sku>)
    requires !PlanOf(shop, pricing, provider, skus).failed
    ensures Run(db, PlanOf(shop, pricing, provider, skus).statements).offers.Keys
         == AskedOffers(db.offers.Keys, shop, pricing, provider, skus)
  {
    if skus != [] {
      var n := |skus| - 1;
      PlanFront(shop, pricing, provider, skus);
      OffersAreAsked(db, shop, pricing, provider, skus[..n]);
      LineRuns(db, shop, pricing, provider, PlanOf(shop, pricing, provider, skus[..n]), skus[n]);
      AskedPush(db.offers.Keys, shop, pricing, provider, skus);
    }
  }

  function AskedByLine(shop: Shop, pricing: Pricing, provider: string, sku: Sku): set<OfferKey> {
    if Taken(shop, pricing, provider, sku) then {OfferOf(shop, pricing, sku)} else {}
  }

  lemma {:induction false} AskedPush(offers: set<OfferKey>, shop: Shop, pricing: Pricing, provider: string,
                                     skus: seq<Sku>)
    requires skus != []
    ensures AskedOffers(offers, shop, pricing, provider, skus)
         == AskedOffers(offers, shop, pricing, provider, skus[..|skus| - 1])
            + AskedByLine(shop, pricing, provider, skus[|skus| - 1])
  {
    var n := |skus| - 1;
    forall o ensures o in AskedOffers(offers, shop, pricing, provider, skus) <==>
      o in AskedOffers(offers, shop, pricing, provider, skus[..n])
      || (Taken(shop, pricing, provider, skus[n]) && o == OfferOf(shop, pricing, skus[n]))
    {
      assert forall i :: 0 <= i < n ==> skus[..n][i] == skus[i];
    }
  }

  lemma {:induction false} NamedByALine(shop: Shop, pricing: Pricing, provider: string, skus: seq<Sku>, k: SourceKey)
    requires LastWord(shop, pricing, provider, skus, k).Some?
    ensures exists i :: 0 <= i < |skus| && KeyOf(skus[i]) == k
  {
    var n := |skus| - 1;
    if !Names(shop, pricing, provider, skus[n], k) {
      NamedByALine(shop, pricing, provider, skus[..n], k);
      var i :| 0 <= i < n && KeyOf(skus[..n][i]) == k;
      assert KeyOf(skus[i]) == k;
    }
  }

  lemma {:induction false} SourcesAreAsked(db: Db, shop: Shop, pricing: Pricing, provider: string, skus: seq<Sku>,
                                           zeroMissing: bool)
    requires !PlanOf(shop, pricing, provider, skus).failed
    ensures Synced(db, shop, pricing, provider, skus, zeroMissing).sources
         == AskedSources(db.sources, shop, pricing, provider, skus, zeroMissing)
  {
    var after := Synced(db, shop, pricing, provider, skus, zeroMissing).sources;
    var asked := AskedSources(db.sources, shop, pricing, provider, skus, zeroMissing);
    forall k: SourceKey ensures (k in after <==> k in asked) && (k in after ==> after[k] == asked[k]) {
      SyncLands(db, shop, pricing, provider, skus, zeroMissing, k);
      if LastWord(shop, pricing, provider, skus, k).Some? {
        NamedByALine(shop, pricing, provider, skus, k);
      }
    }
  }

  /**
   A sync succeeds exactly when every line it takes, as the columns would hold it, passes the
   row checks, and the stock asked for each offer sums to a 32-bit figure. Then the tables
   are exactly what was asked.
   */
  lemma {:induction false} SyncSucceedsIff(db: Db, shop: Shop, pricing: Pricing, provider: string, skus: seq<Sku>,
                                           zeroMissing: bool)
    ensures var offers := AskedOffers(db.offers.Keys, shop, pricing, provider, skus);
      var sources := AskedSources(db.sources, shop, pricing, provider, skus, zeroMissing);
      && (Succeeds(db, shop, pricing, provider, skus, zeroMissing)
          <==> AllPass(shop, pricing, provider, skus) && forall o :: o in offers ==> StockOf(sources, o) < 0x8000_0000)
      && (Succeeds(db, shop, pricing, provider, skus, zeroMissing) ==>
            Synced(db, shop, pricing, provider, skus, zeroMissing) == Db(Totals(offers, sources), sources))
  {
    PlanCompletesIff(shop, pricing, provider, skus);
    if !PlanOf(shop, pricing, provider, skus).failed {
      ScriptRuns(db, shop, pricing, provider, skus, zeroMissing);
      OffersAreAsked(db, shop, pricing, provider, skus);
      SourcesAreAsked(db, shop, pricing, provider, skus, zeroMissing);
    }
  }

  /**
   Lines whose rates the parser let through, of a known provider and of amounts the columns can
   hold, pass the row checks exactly when none of the rates taken is under 0.00005.
   */
  lemma {:induction false} ParsedRatesPassIff(shop: Shop, pricing: Pricing, provider: string, skus: seq<Sku>)
    requires provider in PROVIDERS
    requires forall i :: 0 <= i < |skus| ==> ParseSuccessRate(skus[i].rate) == Some(skus[i].rate)
    requires forall i :: 0 <= i < |skus| ==>
      SalePrice(pricing, skus[i].cost) < PRICE_LIMIT && -COST_LIMIT < StoredCost(skus[i].cost) < COST_LIMIT
    ensures !PlanOf(shop, pricing, provider, skus).failed
      <==> forall i :: 0 <= i < |skus| && Taken(shop, pricing, provider, skus[i]) ==> skus[i].rate >= 0.00005
  {
    PlanCompletesIff(shop, pricing, provider, skus);
    forall i | 0 <= i < |skus| && Taken(shop, pricing, provider, skus[i])
      ensures Passes(shop, pricing, skus[i]) <==> skus[i].rate >= 0.00005
    {
      assert ParseSuccessRate(skus[i].rate).Some?;
      ParsedRateIsStorableIff(skus[i].rate);
    }
  }

  /**
   A sync that stops half way has already overwritten the quantity of the offers it
   reached with the stock of one line, and nothing recomputes it: here an offer with
   nine numbers from one supplier shows two until the next sync that succeeds. Every
   rate in the list is one the parser lets through.
   */
  lemma AStoppedSyncLeavesAWrongQuantity() returns (db: Db, shop: Shop, pricing: Pricing, skus: seq<Sku>, o: OfferKey)
    ensures Linked(db) && o in db.offers && db.offers[o].quantity == StockOf(db.sources, o)
    ensures forall i :: 0 <= i < |skus| ==> ParseSuccessRate(skus[i].rate) == Some(skus[i].rate)
    ensures PlanOf(shop, pricing, "smspool", skus).failed
    ensures var after := Synced(db, shop, pricing, "smspool", skus, true);
      o in after.offers && after.offers[o].quantity != StockOf(after.sources, o)
  {
    shop := Shop(map["whatsapp" := 0], map["NG" := 0]);
    pricing := Pricing(1500.0, 2.0, true);
    var good := Sku("smspool", "whatsapp", "NG", "w", "ng", None, 1.0, "USD", 80.0, 2);
    var bad := good.(rate := 0.00004);
    skus := [good, bad];
    assert Upper("NG") == "NG" && "smspool" in PROVIDERS;
    WitnessFits(shop, pricing, good);
    o := OfferOf(shop, pricing, good);
    var nine := Source(o, 1.0, "USD", 80.0, 9);
    var k := SourceKey("fivesim", "w", "ng", "any");
    db := Db(map[o := Offer(9, true)], map[k := nine]);
    TakeOut(db.sources, k, o);
    assert db.sources - {k} == map[];
    ParsedRateIsStorableIff(0.00004);
    StopsAtTheSecond(db, shop, pricing, "smspool", good, bad);
    var after := Synced(db, shop, pricing, "smspool", skus, true);
    TakeOut(after.sources, k, o);
  }

  lemma WitnessFits(shop: Shop, pricing: Pricing, sku: Sku)
    requires sku.productSlug in shop.products && Upper(sku.countryCode) in shop.countries
    requires sku.provider in PROVIDERS && sku.cost == 1.0 && sku.rate == 80.0 && pricing == Pricing(1500.0, 2.0, true)
    ensures Passes(shop, pricing, sku)
  {
    ParsedRateIsStorableIff(80.0);
    assert CostWithMargin(pricing, 1.0) == 3000.0;
    assert Nearest(1_000_000.0) == 1_000_000;
  }

  /** A line that passes and then one whose stored rate does not: the first is written, and that is all. */
  lemma {:induction false} StopsAtTheSecond(db: Db, shop: Shop, pricing: Pricing, provider: string, good: Sku, bad: Sku)
    requires Taken(shop, pricing, provider, good) && Passes(shop, pricing, good)
    requires Taken(shop, pricing, provider, bad) && !RateOk(StoredRate(bad.rate))
    ensures PlanOf(shop, pricing, provider, [good, bad]).failed
    ensures var o := OfferOf(shop, pricing, good);
      Synced(db, shop, pricing, provider, [good, bad], true)
      == Db(db.offers[o := Offer(Positive(good.stock), good.stock > 0)],
            db.sources[KeyOf(good) := SourceOf(shop, pricing, good)])
  {
    assert [good, bad][..1] == [good] && [good][..0] == [];
    var none := PlanOf(shop, pricing, provider, []);
    var first := PlanOf(shop, pricing, provider, [good]);
    assert first == PlanLine(shop, pricing, provider, none, good);
    assert PlanOf(shop, pricing, provider, [good, bad]) == PlanLine(shop, pricing, provider, first, bad);
    var up := UpsertOffer(OfferOf(shop, pricing, good), good.stock);
    var us := UpsertSource(KeyOf(good), SourceOf(shop, pricing, good));
    assert first.statements == [] + [up] + [us];
    assert Script(shop, pricing, provider, [good, bad], true) == first.statements;
    RunMore(db, [], up);
    RunMore(db, [] + [up], us);
  }

  /** A price list nobody can convert is skipped line by line, so a zeroing sync takes that supplier off the shelf. */
  lemma UnconvertiblePricesHideTheSupplier(db: Db, shop: Shop, pricing: Pricing, provider: string, skus: seq<Sku>,
                                           k: SourceKey)
    requires !pricing.inUsd && provider != "stub" && k in db.sources && k.provider == provider
    ensures !PlanOf(shop, pricing, provider, skus).failed
    ensures var after := Synced(db, shop, pricing, provider, skus, true);
      k in after.sources && after.sources[k] == db.sources[k].(stock := 0)
  {
    PlanCompletesIff(shop, pricing, provider, skus);
    UnseenSourcesAreZeroed(db, shop, pricing, provider, skus, true, k);
  }
}
