/** The inventory-versus-traffic analysis
    (app/Services/InventoryAnalysisService.php): product views from GA4 are
    joined with Shopify stock levels and each product is classified against
    fixed thresholds; the list of insights is cached per user and period.

    The two service calls the analysis makes (GA4 product views and Shopify
    inventory levels) are modelled in their own modules; here their answers
    are parameters, and ghost logs record which of them were requested. */
module InventoryAnalysis {
  import opened Wrappers
  import opened PhpValues
  import opened Calendar
  import opened CacheStore
  import opened GoogleAnalytics
  import ShopifyApi

  const LowStockThreshold: int := 10
  const HighTrafficThreshold: int := 50
  const HighStockThreshold: int := 100
  const LowTrafficThreshold: int := 5
  /** Number of products asked from GA4 (part of the request, see `getProductViews`). */
  const ProductLimitForAnalysis: int := 100
  const CacheTtl: nat := 3600

  const AnalysisErrorMessage: string := "Analysis failed due to an unexpected error."

  datatype Status = StockoutRisk | PromotionCandidate

  function StatusName(s: Status): string {
    match s
    case StockoutRisk => "stockout_risk"
    case PromotionCandidate => "promotion_candidate"
  }

  /** The threshold rules: low stock with high traffic is a stock-out risk,
      high stock with low traffic a promotion candidate, anything else no
      insight. */
  function Classify(stock: int, views: int): (r: Option<Status>)
    ensures r == Some(StockoutRisk) <==> stock <= LowStockThreshold && views >= HighTrafficThreshold
    ensures r == Some(PromotionCandidate) <==> stock >= HighStockThreshold && views <= LowTrafficThreshold
    ensures r.None? <==> !(stock <= LowStockThreshold && views >= HighTrafficThreshold)
                         && !(stock >= HighStockThreshold && views <= LowTrafficThreshold)
  {
    if stock <= LowStockThreshold && views >= HighTrafficThreshold then Some(StockoutRisk)
    else if stock >= HighStockThreshold && views <= LowTrafficThreshold then Some(PromotionCandidate)
    else None
  }

  /** The thresholds are inclusive on both sides. */
  lemma ClassifyBoundaries()
    ensures Classify(10, 50) == Some(StockoutRisk)
    ensures Classify(11, 50) == None && Classify(10, 49) == None
    ensures Classify(100, 5) == Some(PromotionCandidate)
    ensures Classify(99, 5) == None && Classify(100, 6) == None
    ensures Classify(0, 1000) == Some(StockoutRisk) && Classify(-3, 50) == Some(StockoutRisk)
  {
  }

  datatype Insight = Insight(productId: string, productName: string, status: Status, stock: int, views: int, message: string)

  function Message(status: Status, stock: int, views: int): string {
    match status
    case StockoutRisk => "Stock bajo (" + IntToString(stock) + ") con alto interés (" + IntToString(views) + " vistas)."
    case PromotionCandidate => "Alto stock (" + IntToString(stock) + ") con bajo interés (" + IntToString(views) + " vistas)."
  }

  /** `createInsight` with the message of its status. */
  function MakeInsight(view: ProductView, stock: int, status: Status): Insight {
    Insight(view.productId, view.productName, status, stock, view.views, Message(status, stock, view.views))
  }

  /** The insights found so far and the product ids already processed. */
  datatype Scan = Scan(insights: seq<Insight>, processed: set<string>)

  /** One step of the correlation loop. */
  function Step(s: Scan, view: ProductView, inventory: map<string, int>): Scan {
    var id := view.productId;
    if !Truthy(id) || id in s.processed then s
    else if id !in inventory then Scan(s.insights, s.processed + {id})
    else match Classify(inventory[id], view.views)
      case None => Scan(s.insights, s.processed + {id})
      case Some(status) => Scan(s.insights + [MakeInsight(view, inventory[id], status)], s.processed + {id})
  }

  /** The correlation loop over the product views, in order. */
  function Correlate(views: seq<ProductView>, inventory: map<string, int>): Scan {
    if views == [] then Scan([], {})
    else Step(Correlate(views[..|views| - 1], inventory), views[|views| - 1], inventory)
  }

  /** The analysis loop of `analyzeProductInventory`. */
  method CorrelateViews(views: seq<ProductView>, inventory: map<string, int>) returns (insights: seq<Insight>)
    ensures insights == Correlate(views, inventory).insights
  {
    insights := [];
    var processed: set<string> := {};
    var i := 0;
    while i < |views|
      invariant 0 <= i <= |views|
      invariant Scan(insights, processed) == Correlate(views[..i], inventory)
    {
      assert views[..i + 1][..i] == views[..i];
      var id := views[i].productId;
      if !Truthy(id) || id in processed {
        i := i + 1;
        continue;
      }
      if id !in inventory {
        processed := processed + {id};
        i := i + 1;
        continue;
      }
      var status := Classify(inventory[id], views[i].views);
      if status.Some? {
        insights := insights + [MakeInsight(views[i], inventory[id], status.value)];
      }
      processed := processed + {id};
      i := i + 1;
    }
    assert views[..i] == views;
  }

  /** View `i` is the first with its (truthy) product id. */
  predicate FirstOccurrence(views: seq<ProductView>, i: int)
    requires 0 <= i < |views|
  {
    Truthy(views[i].productId) && forall j :: 0 <= j < i ==> views[j].productId != views[i].productId
  }

  /** View `i` is the first of its product and yields an insight. */
  predicate YieldsInsight(views: seq<ProductView>, inventory: map<string, int>, i: int)
    requires 0 <= i < |views|
  {
    FirstOccurrence(views, i) && views[i].productId in inventory
    && Classify(inventory[views[i].productId], views[i].views).Some?
  }

  function InsightAt(views: seq<ProductView>, inventory: map<string, int>, i: int): Insight
    requires 0 <= i < |views| && YieldsInsight(views, inventory, i)
  {
    var v := views[i];
    MakeInsight(v, inventory[v.productId], Classify(inventory[v.productId], v.views).value)
  }

  /** The processed ids are exactly the truthy product ids seen. */
  lemma {:induction false} ProcessedIsTruthyIds(views: seq<ProductView>, inventory: map<string, int>)
    ensures forall id :: id in Correlate(views, inventory).processed <==>
      exists i :: 0 <= i < |views| && views[i].productId == id && Truthy(id)
  {
    if views != [] {
      var n := |views| - 1;
      ProcessedIsTruthyIds(views[..n], inventory);
      assert forall i :: 0 <= i < n ==> views[..n][i] == views[i];
    }
  }

  /** The reference list of insights, stated without the processed set: for
      each of the first `n` views in order, the insight of that view when it
      is the first of its product and meets a rule. */
  function Reference(views: seq<ProductView>, inventory: map<string, int>, n: nat): seq<Insight>
    requires n <= |views|
  {
    if n == 0 then []
    else Reference(views, inventory, n - 1)
         + (if YieldsInsight(views, inventory, n - 1) then [InsightAt(views, inventory, n - 1)] else [])
  }

  /** `x` is the insight of one of the first `n` views. */
  predicate ProducedBy(views: seq<ProductView>, inventory: map<string, int>, n: nat, x: Insight)
    requires n <= |views|
  {
    exists i :: 0 <= i < n && YieldsInsight(views, inventory, i) && x == InsightAt(views, inventory, i)
  }

  /** The correlation loop computes the reference list on every prefix. */
  lemma {:induction false} CorrelateIsReference(views: seq<ProductView>, inventory: map<string, int>, n: nat)
    requires n <= |views|
    ensures Correlate(views[..n], inventory).insights == Reference(views, inventory, n)
  {
    if n > 0 {
      var m := n - 1;
      var p := views[..n];
      assert p[..m] == views[..m];
      CorrelateIsReference(views, inventory, m);
      ProcessedIsTruthyIds(views[..m], inventory);
      assert forall i :: 0 <= i < m ==> views[..m][i] == views[i];
      var id := views[m].productId;
      var done := Correlate(views[..m], inventory).processed;
      assert (Truthy(id) && id !in done) <==> FirstOccurrence(views, m);
    }
  }

  /** `Correlate(views).insights` is the reference list. */
  lemma CorrelateMatchesReference(views: seq<ProductView>, inventory: map<string, int>)
    ensures Correlate(views, inventory).insights == Reference(views, inventory, |views|)
  {
    CorrelateIsReference(views, inventory, |views|);
    assert views[..|views|] == views;
  }

  /** An insight is in the reference list exactly when it is the insight of
      some first view of a product that is in stock data and meets a rule. */
  lemma {:induction false} ReferenceMembers(views: seq<ProductView>, inventory: map<string, int>, n: nat)
    requires n <= |views|
    ensures forall x :: x in Reference(views, inventory, n) <==> ProducedBy(views, inventory, n, x)
  {
    if n > 0 {
      ReferenceMembers(views, inventory, n - 1);
      forall x | ProducedBy(views, inventory, n, x)
        ensures x in Reference(views, inventory, n)
      {
        var i :| 0 <= i < n && YieldsInsight(views, inventory, i) && x == InsightAt(views, inventory, i);
        if i < n - 1 {
          assert ProducedBy(views, inventory, n - 1, x);
        }
      }
      forall x | x in Reference(views, inventory, n)
        ensures ProducedBy(views, inventory, n, x)
      {
        if x in Reference(views, inventory, n - 1) {
          var i :| 0 <= i < n - 1 && YieldsInsight(views, inventory, i) && x == InsightAt(views, inventory, i);
        } else {
          assert YieldsInsight(views, inventory, n - 1) && x == InsightAt(views, inventory, n - 1);
        }
      }
    }
  }

  /** The reference list names each product at most once. */
  lemma {:induction false} ReferenceDistinct(views: seq<ProductView>, inventory: map<string, int>, n: nat)
    requires n <= |views|
    ensures forall k, l :: 0 <= k < l < |Reference(views, inventory, n)| ==>
      Reference(views, inventory, n)[k].productId != Reference(views, inventory, n)[l].productId
  {
    if n > 0 {
      ReferenceDistinct(views, inventory, n - 1);
      var prev := Reference(views, inventory, n - 1);
      ReferenceMembers(views, inventory, n - 1);
      if YieldsInsight(views, inventory, n - 1) {
        forall k | 0 <= k < |prev|
          ensures prev[k].productId != views[n - 1].productId
        {
          assert prev[k] in prev;
          var i :| 0 <= i < n - 1 && YieldsInsight(views, inventory, i) && prev[k] == InsightAt(views, inventory, i);
        }
        var r := Reference(views, inventory, n);
        assert r == prev + [InsightAt(views, inventory, n - 1)];
        forall k, l | 0 <= k < l < |r|
          ensures r[k].productId != r[l].productId
        {
          if l < |prev| {
            assert r[k] == prev[k] && r[l] == prev[l];
          } else {
            assert r[k] == prev[k] && r[l].productId == views[n - 1].productId;
          }
        }
      } else {
        var r := Reference(views, inventory, n);
        assert r == prev;
        forall k, l | 0 <= k < l < |r|
          ensures r[k].productId != r[l].productId
        {
          assert r[k] == prev[k] && r[l] == prev[l];
        }
      }
    }
  }

  /** The insight list never gets longer than the list of views. */
  lemma {:induction false} CorrelateLength(views: seq<ProductView>, inventory: map<string, int>)
    ensures |Correlate(views, inventory).insights| <= |views|
  {
    if views != [] {
      CorrelateLength(views[..|views| - 1], inventory);
    }
  }

  /** A repeated product keeps the views of its first row only. */
  lemma DuplicateViewIgnored(a: ProductView, b: ProductView, inventory: map<string, int>)
    requires Truthy(a.productId) && a.productId == b.productId
    requires a.productId in inventory && Classify(inventory[a.productId], a.views).Some?
    ensures Correlate([a, b], inventory).insights == [MakeInsight(a, inventory[a.productId], Classify(inventory[a.productId], a.views).value)]
  {
    assert [a, b][..1] == [a];
    assert [a][..0] == [];
    assert Correlate([a], inventory) == Scan([MakeInsight(a, inventory[a.productId], Classify(inventory[a.productId], a.views).value)], {a.productId});
  }

  /** `array_filter(array_map(fn($view) => $view['productId'] ?? null, ...))`. */
  function ProductIds(views: seq<ProductView>): (ids: seq<string>)
    ensures forall id :: id in ids <==> exists v :: v in views && v.productId == id && Truthy(id)
  {
    if views == [] then []
    else (if Truthy(views[0].productId) then [views[0].productId] else []) + ProductIds(views[1..])
  }

  /** `array_filter` keeps order and duplicates: the extraction distributes
      over concatenation. */
  lemma {:induction false} ProductIdsAppend(a: seq<ProductView>, b: seq<ProductView>)
    ensures ProductIds(a + b) == ProductIds(a) + ProductIds(b)
    decreases |a|
  {
    if a == [] {
      assert a + b == b;
    } else {
      assert (a + b)[0] == a[0] && (a + b)[1..] == a[1..] + b;
      ProductIdsAppend(a[1..], b);
    }
  }

  /** One view gives its product id exactly when that id is truthy. */
  lemma ProductIdsSingle(v: ProductView)
    ensures ProductIds([v]) == if Truthy(v.productId) then [v.productId] else []
  {
    assert [v][1..] == [];
  }

  /** Views as `getProductViews` delivers them always give some id to look up,
      so the "no valid ids" exit is reached only with other input. */
  lemma ProductIdsOfExtractedViews(rows: seq<Row>)
    requires ProductViewRows(rows) != []
    ensures ProductIds(ProductViewRows(rows)) != []
  {
    ProductViewRowsExact(rows);
    var p := ProductViewRows(rows)[0];
    assert p in ProductViewRows(rows);
  }

  /** What a user has connected, as far as the analysis looks. */
  datatype UserContext = UserContext(id: int, hasShop: bool, gaPropertyId: Option<string>)

  /** `[['error' => ...]]` is `AnalysisError`. */
  datatype Analysis = Insights(items: seq<Insight>) | AnalysisError

  function AnalysisKey(userId: int, start: ValidDate, end: ValidDate): string {
    "inventory_analysis:user_" + IntToString(userId) + ":period_" + DateString(start) + "_" + DateString(end)
  }

  /** One run of `analyzeProductInventory`: the result, the cache it leaves,
      whether product views were requested and which ids were sent to Shopify. */
  datatype AnalysisTrace = AnalysisTrace(result: Analysis, cache: map<string, Entry<seq<Insight>>>,
                                         viewsRequested: bool, inventoryRequest: Option<seq<string>>)

  function Analyze(cache: map<string, Entry<seq<Insight>>>, user: UserContext, start: ValidDate, end: ValidDate, now: int,
                   views: Fetch<seq<ProductView>>, inventory: Fetch<map<string, int>>): AnalysisTrace
  {
    var key := AnalysisKey(user.id, start, end);
    var hit := Lookup(cache, key, now);
    if hit.Some? then AnalysisTrace(Insights(hit.value), cache, false, None)
    else if !user.hasShop || !TruthyOpt(user.gaPropertyId) then AnalysisTrace(Insights([]), Put(cache, key, [], CacheTtl, now), false, None)
    else match views
      case Threw => AnalysisTrace(AnalysisError, cache, true, None)
      case FetchFailed => AnalysisTrace(Insights([]), cache, true, None)
      case Fetched(vs) =>
        if vs == [] then AnalysisTrace(Insights([]), Put(cache, key, [], CacheTtl, now), true, None)
        else
          var ids := ProductIds(vs);
          if ids == [] then AnalysisTrace(Insights([]), Put(cache, key, [], CacheTtl, now), true, None)
          else match inventory
            case Threw => AnalysisTrace(AnalysisError, cache, true, Some(ids))
            case FetchFailed => AnalysisTrace(Insights([]), cache, true, Some(ids))
            case Fetched(levels) =>
              var ins := Correlate(vs, levels).insights;
              AnalysisTrace(Insights(ins), Put(cache, key, ins, CacheTtl, now), true, Some(ids))
  }

  /** A cached list (the empty one included) is returned without any call. */
  lemma AnalyzeCacheHit(cache: map<string, Entry<seq<Insight>>>, user: UserContext, start: ValidDate, end: ValidDate, now: int,
                        views: Fetch<seq<ProductView>>, inventory: Fetch<map<string, int>>)
    requires Lookup(cache, AnalysisKey(user.id, start, end), now).Some?
    ensures var t := Analyze(cache, user, start, end, now, views, inventory);
      t.result == Insights(Lookup(cache, AnalysisKey(user.id, start, end), now).value)
      && t.cache == cache && !t.viewsRequested && t.inventoryRequest.None?
  {
  }

  /** Missing connections give an empty list that is cached, with no call. */
  lemma AnalyzeMissingConnection(cache: map<string, Entry<seq<Insight>>>, user: UserContext, start: ValidDate, end: ValidDate, now: int,
                                 views: Fetch<seq<ProductView>>, inventory: Fetch<map<string, int>>)
    requires Lookup(cache, AnalysisKey(user.id, start, end), now).None?
    requires !user.hasShop || !TruthyOpt(user.gaPropertyId)
    ensures var t := Analyze(cache, user, start, end, now, views, inventory);
      t.result == Insights([]) && !t.viewsRequested && t.inventoryRequest.None?
      && Lookup(t.cache, AnalysisKey(user.id, start, end), now) == Some([])
  {
  }

  /** Errors of either service are never cached; an exception gives the error
      entry, a handled error the empty list. */
  lemma AnalyzeErrorsNotCached(cache: map<string, Entry<seq<Insight>>>, user: UserContext, start: ValidDate, end: ValidDate, now: int,
                               views: Fetch<seq<ProductView>>, inventory: Fetch<map<string, int>>)
    ensures var t := Analyze(cache, user, start, end, now, views, inventory);
      t.result == AnalysisError ==> t.cache == cache
    ensures var t := Analyze(cache, user, start, end, now, views, inventory);
      Lookup(cache, AnalysisKey(user.id, start, end), now).None? && user.hasShop && TruthyOpt(user.gaPropertyId)
      && (views.FetchFailed? || (views.Fetched? && ProductIds(views.value) != [] && inventory.FetchFailed?))
      ==> t.result == Insights([]) && t.cache == cache
    ensures var t := Analyze(cache, user, start, end, now, views, inventory);
      t.result == AnalysisError <==>
        Lookup(cache, AnalysisKey(user.id, start, end), now).None? && user.hasShop && TruthyOpt(user.gaPropertyId)
        && (views.Threw? || (views.Fetched? && ProductIds(views.value) != [] && inventory.Threw?))
  {
  }

  /** A complete analysis returns the correlated insights, caches them for an
      hour, and asked Shopify for exactly the extracted product ids. */
  lemma AnalyzeSuccess(cache: map<string, Entry<seq<Insight>>>, user: UserContext, start: ValidDate, end: ValidDate, now: int,
                       vs: seq<ProductView>, levels: map<string, int>)
    requires Lookup(cache, AnalysisKey(user.id, start, end), now).None?
    requires user.hasShop && TruthyOpt(user.gaPropertyId) && ProductIds(vs) != []
    ensures var t := Analyze(cache, user, start, end, now, Fetched(vs), Fetched(levels));
      t.result == Insights(Correlate(vs, levels).insights)
      && t.inventoryRequest == Some(ProductIds(vs))
      && Lookup(t.cache, AnalysisKey(user.id, start, end), now + CacheTtl - 1) == Some(Correlate(vs, levels).insights)
      && Lookup(t.cache, AnalysisKey(user.id, start, end), now + CacheTtl).None?
  {
  }

  /** Every insight names a product whose stock Shopify reported, carries
      that stock, meets the rule of its status and says so in its message; no
      product appears twice. */
  lemma CorrelateMeetsRules(vs: seq<ProductView>, levels: map<string, int>)
    ensures forall x :: x in Correlate(vs, levels).insights ==>
      x.productId in levels && x.stock == levels[x.productId] && Classify(x.stock, x.views) == Some(x.status)
      && x.message == Message(x.status, x.stock, x.views)
    ensures forall k, l :: 0 <= k < l < |Correlate(vs, levels).insights| ==>
      Correlate(vs, levels).insights[k].productId != Correlate(vs, levels).insights[l].productId
  {
    CorrelateMatchesReference(vs, levels);
    ReferenceMembers(vs, levels, |vs|);
    ReferenceDistinct(vs, levels, |vs|);
    forall x | x in Correlate(vs, levels).insights
      ensures x.productId in levels && x.stock == levels[x.productId] && Classify(x.stock, x.views) == Some(x.status)
      && x.message == Message(x.status, x.stock, x.views)
    {
      assert ProducedBy(vs, levels, |vs|, x);
    }
  }

  /** Whatever path is taken, every insight returned from a fresh analysis
      meets its rule. */
  lemma AnalyzeInsightsMeetRules(cache: map<string, Entry<seq<Insight>>>, user: UserContext, start: ValidDate, end: ValidDate, now: int,
                                 vs: seq<ProductView>, levels: map<string, int>)
    requires Lookup(cache, AnalysisKey(user.id, start, end), now).None?
    ensures var t := Analyze(cache, user, start, end, now, Fetched(vs), Fetched(levels));
      t.result.Insights? && forall x :: x in t.result.items ==>
        x.productId in levels && Classify(x.stock, x.views) == Some(x.status)
  {
    CorrelateMeetsRules(vs, levels);
  }

  /** Fed by `getInventoryLevels` as written, an analysis of a product the
      shop stocks ends in the error entry and caches nothing; with `Arr`
      imported the same input gives the stock-out insight. */
  lemma ArrNotImportedBreaksAnalysis(cache: map<string, Entry<seq<Insight>>>, user: UserContext, start: ValidDate, end: ValidDate,
                                     now: int, shop: ShopifyApi.ShopRow)
    requires Lookup(cache, AnalysisKey(user.id, start, end), now).None?
    requires user.hasShop && TruthyOpt(user.gaPropertyId) && ShopifyApi.HasCredentials(shop)
    ensures var vs := [ProductView("1", "Mug", 60)];
      var t := Analyze(cache, user, start, end, now, Fetched(vs),
                       ShopifyApi.InventoryLevelsAsWritten(shop, ProductIds(vs), ShopifyApi.ProductOneHasFive).result);
      t.result == AnalysisError && t.cache == cache
    ensures var vs := [ProductView("1", "Mug", 60)];
      var t := Analyze(cache, user, start, end, now, Fetched(vs),
                       ShopifyApi.InventoryLevels(shop, ProductIds(vs), ShopifyApi.ProductOneHasFive).result);
      t.result == Insights([MakeInsight(vs[0], 5, StockoutRisk)])
  {
    var vs := [ProductView("1", "Mug", 60)];
    assert ProductIds(vs) == ["1"];
    ShopifyApi.InventoryArrExample(shop);
    assert Classify(5, 60) == Some(StockoutRisk);
    assert vs[..0] == [];
    assert Correlate(vs, map["1" := 5]).insights == [MakeInsight(vs[0], 5, StockoutRisk)];
  }

  /** `InventoryAnalysisService` with the cache it writes to. */
  class InventoryAnalysisService {
    var cache: map<string, Entry<seq<Insight>>>
    ghost var viewRequests: nat
    ghost var inventoryRequests: seq<seq<string>>

    constructor (initial: map<string, Entry<seq<Insight>>>)
      ensures cache == initial && viewRequests == 0 && inventoryRequests == []
    {
      cache := initial;
      viewRequests := 0;
      inventoryRequests := [];
    }

    method AnalyzeProductInventory(user: UserContext, start: ValidDate, end: ValidDate, now: int,
                                   views: Fetch<seq<ProductView>>, inventory: Fetch<map<string, int>>) returns (result: Analysis)
      modifies this
      ensures var t := Analyze(old(cache), user, start, end, now, views, inventory);
        result == t.result && cache == t.cache
        && viewRequests == old(viewRequests) + (if t.viewsRequested then 1 else 0)
        && inventoryRequests == old(inventoryRequests) + (if t.inventoryRequest.Some? then [t.inventoryRequest.value] else [])
    {
      var key := AnalysisKey(user.id, start, end);
      var cached := Lookup(cache, key, now);
      if cached.Some? {
        return Insights(cached.value);
      }
      if !user.hasShop || !TruthyOpt(user.gaPropertyId) {
        cache := Put(cache, key, [], CacheTtl, now);
        return Insights([]);
      }
      viewRequests := viewRequests + 1;
      if views.Threw? {
        return AnalysisError;
      }
      if views.FetchFailed? {
        return Insights([]);
      }
      var vs := views.value;
      if vs == [] {
        cache := Put(cache, key, [], CacheTtl, now);
        return Insights([]);
      }
      var ids := ProductIds(vs);
      if ids == [] {
        cache := Put(cache, key, [], CacheTtl, now);
        return Insights([]);
      }
      inventoryRequests := inventoryRequests + [ids];
      if inventory.Threw? {
        return AnalysisError;
      }
      if inventory.FetchFailed? {
        return Insights([]);
      }
      var insights := CorrelateViews(vs, inventory.value);
      cache := Put(cache, key, insights, CacheTtl, now);
      result := Insights(insights);
    }
  }
}
