/** The dashboard orchestration: one request for a user and a period identifier
    becomes a date range, the metric sections of whichever sources are
    connected, derived ratios, and a response that is cached for 900 seconds
    unless a throwable reached the outer handler. */
module Dashboard {
  import opened Wrappers
  import opened PhpValues
  import opened Calendar
  import opened CacheStore
  import ShopifyApi
  import GoogleAnalytics
  import InventoryAnalysis

  const CacheTtl: nat := 900
  const PartialFailureMessage: string := "Failed to fetch partial dashboard data. Please try again later."

  // ---------------------------------------------------------------------------
  // Periods
  // ---------------------------------------------------------------------------

  /** `[$startDate, $endDate, $periodLabel]`, at day granularity. */
  datatype DateRange = DateRange(start: ValidDate, end: ValidDate, periodLabel: string)

  /** `calculateDateRange`: the period identifier read against today's date.
      Every range is non-empty and ends no later than today. */
  function CalculateDateRange(period: string, today: ValidDate): (r: DateRange)
    ensures AtMost(r.start, r.end) && AtMost(r.end, today)
    ensures r.periodLabel in {"last_30_days", "this_month", "last_month", "last_7_days"}
  {
    if period == "30d" then DateRange(SubDays(today, 29), today, "last_30_days")
    else if period == "this_month" then DateRange(StartOfMonth(today), today, "this_month")
    else if period == "last_month" then
      var previous := SubMonthNoOverflow(today);
      DateRange(StartOfMonth(previous), EndOfMonth(previous), "last_month")
    else DateRange(SubDays(today, 6), today, "last_7_days")
  }

  /** `30d` covers today and the 29 days before it. */
  lemma ThirtyDayPeriod(today: ValidDate)
    ensures var r := CalculateDateRange("30d", today);
      r.end == today && r.periodLabel == "last_30_days" && |DaysFromTo(r.start, r.end)| == 30
  {
    DaysFromToLength(today, 29);
  }

  /** `7d` and every identifier not listed in the switch cover today and the
      6 days before it, labelled `last_7_days`. */
  lemma SevenDayPeriod(period: string, today: ValidDate)
    requires period != "30d" && period != "this_month" && period != "last_month"
    ensures var r := CalculateDateRange(period, today);
      r.end == today && r.periodLabel == "last_7_days" && |DaysFromTo(r.start, r.end)| == 7
  {
    DaysFromToLength(today, 6);
  }

  /** `this_month` runs from the first of the current month to today. */
  lemma ThisMonthPeriod(today: ValidDate)
    ensures var r := CalculateDateRange("this_month", today);
      r.end == today && r.start == Date(today.year, today.month, 1)
      && |DaysFromTo(r.start, r.end)| == today.day
  {
    MonthToDateLength(today);
  }

  /** `last_month` is the whole previous calendar month: it starts on a first,
      ends the day before this month starts, and has that month's length. */
  lemma LastMonthPeriod(today: ValidDate)
    ensures var r := CalculateDateRange("last_month", today);
      r.start.day == 1 && r.start.year == r.end.year && r.start.month == r.end.month
      && NextDay(r.end) == StartOfMonth(today)
      && |DaysFromTo(r.start, r.end)| == DaysInMonth(r.start.year, r.start.month)
  {
    PreviousMonth(today);
  }

  // ---------------------------------------------------------------------------
  // Derived metrics
  // ---------------------------------------------------------------------------

  /** Average order value: null unless both inputs are known, 0 without paid
      orders, otherwise the amount that times the order count gives the sales. */
  function Aov(paidSales: Option<real>, paidOrders: Option<int>): (r: Option<real>)
    ensures r.Some? <==> paidSales.Some? && paidOrders.Some?
    ensures r.Some? && paidOrders.value > 0 ==> r.value * paidOrders.value as real == paidSales.value
    ensures r.Some? && paidOrders.value <= 0 ==> r.value == 0.0
  {
    if paidSales.Some? && paidOrders.Some? then
      Some(if paidOrders.value > 0 then paidSales.value / paidOrders.value as real else 0.0)
    else None
  }

  /** Conversion rate in percent: null unless total orders and sessions are
      known, 0 without sessions, otherwise orders per session times 100. */
  function ConversionRate(totalOrders: Option<int>, sessions: Option<int>): (r: Option<real>)
    ensures r.Some? <==> totalOrders.Some? && sessions.Some?
    ensures r.Some? && sessions.value > 0 ==> r.value * sessions.value as real == totalOrders.value as real * 100.0
    ensures r.Some? && sessions.value <= 0 ==> r.value == 0.0
  {
    if totalOrders.Some? && sessions.Some? then
      Some(if sessions.value > 0 then totalOrders.value as real / sessions.value as real * 100.0 else 0.0)
    else None
  }

  // ---------------------------------------------------------------------------
  // Sections of the response
  // ---------------------------------------------------------------------------

  /** What the five `ShopifyApiService` calls return: the shop's `name` (null
      when the shop info or its name is null), the paid sales total, the paid
      and the total order counts, and the daily trend. */
  datatype ShopifyReplies = ShopifyReplies(
    shopName: Option<string>,
    paidSales: Option<real>,
    paidOrders: Option<int>,
    totalOrders: Option<int>,
    salesTrend: Option<seq<ShopifyApi.DailySales>>)

  /** What `getBasicMetrics` and `getSessionsByChannel` return. */
  datatype GaReplies = GaReplies(
    basic: Option<GoogleAnalytics.BasicMetrics>,
    channels: Option<seq<GoogleAnalytics.ChannelSessions>>)

  datatype ShopifyMetrics = ShopifyMetrics(
    shopName: string,
    totalOrders: Option<int>,
    paidSales: Option<real>,
    aov: Option<real>,
    salesTrend: Option<seq<ShopifyApi.DailySales>>)

  datatype GaMetrics = GaMetrics(
    sessions: Option<int>,
    activeUsers: Option<int>,
    trafficSources: Option<seq<GoogleAnalytics.ChannelSessions>>)

  datatype CalculatedMetrics = CalculatedMetrics(conversionRate: Option<real>)

  /** The `inventory_insights` section: what the analysis service returned (its
      own error list included), or the dashboard's `['error' => ...]` entry. */
  datatype InsightsSection = Analysed(analysis: InventoryAnalysis.Analysis) | PartialFailure

  datatype ConnectionFlags = ConnectionFlags(shopifyConnected: bool, ga4Connected: bool, ga4PropertySet: bool)

  datatype PeriodInfo = PeriodInfo(periodLabel: string, startDate: string, endDate: string)

  /** The response array; a `None` section is rendered as `[]`. */
  datatype Dashboard = Dashboard(
    userName: string,
    connections: ConnectionFlags,
    shopifyMetrics: Option<ShopifyMetrics>,
    gaMetrics: Option<GaMetrics>,
    calculatedMetrics: Option<CalculatedMetrics>,
    inventoryInsights: Option<InsightsSection>,
    period: PeriodInfo)

  /** The user with the relations the service loads. */
  datatype DashboardUser = DashboardUser(
    id: int,
    name: string,
    shop: Option<ShopifyApi.ShopRow>,
    gaConnection: Option<GoogleAnalytics.GaRow>)

  /** `fetchShopifyMetrics`: the shop name falls back to the shop's domain. */
  function ShopifyMetricsOf(shop: ShopifyApi.ShopRow, replies: ShopifyReplies): (m: ShopifyMetrics)
    ensures replies.shopName.Some? ==> m.shopName == replies.shopName.value
    ensures replies.shopName.None? ==> m.shopName == shop.domain
    ensures m.totalOrders == replies.totalOrders && m.paidSales == replies.paidSales
    ensures m.aov == Aov(replies.paidSales, replies.paidOrders)
    ensures m.salesTrend == replies.salesTrend
  {
    ShopifyMetrics(replies.shopName.GetOr(shop.domain), replies.totalOrders, replies.paidSales,
                   Aov(replies.paidSales, replies.paidOrders), replies.salesTrend)
  }

  /** `fetchGaMetrics`: sessions and active users are known exactly when the
      basic metrics are; the traffic sources are passed through. */
  function GaMetricsOf(replies: GaReplies): (m: GaMetrics)
    ensures m.sessions.Some? <==> replies.basic.Some?
    ensures m.activeUsers.Some? <==> replies.basic.Some?
    ensures replies.basic.Some? ==> m.sessions.value == replies.basic.value.sessions
                                    && m.activeUsers.value == replies.basic.value.activeUsers
    ensures m.trafficSources == replies.channels
  {
    match replies.basic
    case Some(b) => GaMetrics(Some(b.sessions), Some(b.activeUsers), replies.channels)
    case None => GaMetrics(None, None, replies.channels)
  }

  /** `calculateCombinedMetrics`. */
  function CalculateCombinedMetrics(shopify: ShopifyMetrics, sessions: Option<int>): (c: CalculatedMetrics)
    ensures c.conversionRate.Some? <==> shopify.totalOrders.Some? && sessions.Some?
    ensures c.conversionRate == ConversionRate(shopify.totalOrders, sessions)
  {
    CalculatedMetrics(ConversionRate(shopify.totalOrders, sessions))
  }

  /** `$gaReady`: a GA connection with a non-null property id (an empty id counts). */
  predicate GaReady(user: DashboardUser) {
    user.gaConnection.Some? && user.gaConnection.value.propertyId.Some?
  }

  /** `formatResponse`: the connection flags mirror which records exist, the
      period is printed as `Y-m-d` strings, and the sections are kept as given. */
  function FormatResponse(user: DashboardUser, range: DateRange, shopify: Option<ShopifyMetrics>,
                          ga: Option<GaMetrics>, calculated: Option<CalculatedMetrics>,
                          insights: Option<InsightsSection>): (d: Dashboard)
    ensures d.userName == user.name
    ensures d.connections.shopifyConnected <==> user.shop.Some?
    ensures d.connections.ga4Connected <==> user.gaConnection.Some?
    ensures d.connections.ga4PropertySet <==> GaReady(user)
    ensures d.period == PeriodInfo(range.periodLabel, DateString(range.start), DateString(range.end))
    ensures d.shopifyMetrics == shopify && d.gaMetrics == ga
    ensures d.calculatedMetrics == calculated && d.inventoryInsights == insights
  {
    Dashboard(user.name,
              ConnectionFlags(user.shop.Some?, user.gaConnection.Some?, GaReady(user)),
              shopify, ga, calculated, insights,
              PeriodInfo(range.periodLabel, DateString(range.start), DateString(range.end)))
  }

  /** The response of the outer `catch (Throwable)`: every section empty and
      the error entry in place of the insights. */
  function PartialFailureResponse(user: DashboardUser, range: DateRange): Dashboard {
    FormatResponse(user, range, None, None, None, Some(PartialFailure))
  }

  // ---------------------------------------------------------------------------
  // Which services are called
  // ---------------------------------------------------------------------------

  datatype Call =
    | ShopInfoCall | TotalSalesCall | PaidOrdersCountCall | TotalOrdersCountCall | SalesTrendCall
    | BasicMetricsCall | SessionsByChannelCall
    | InventoryAnalysisCall

  datatype Service = Shopify | GoogleAnalytics | InventoryAnalysis

  /** The service each call goes to. */
  function ServiceOf(c: Call): Service {
    match c
    case BasicMetricsCall | SessionsByChannelCall => GoogleAnalytics
    case InventoryAnalysisCall => InventoryAnalysis
    case _ => Shopify
  }

  const ShopifyCalls: seq<Call> := [ShopInfoCall, TotalSalesCall, PaidOrdersCountCall, TotalOrdersCountCall, SalesTrendCall]
  const GaCalls: seq<Call> := [BasicMetricsCall, SessionsByChannelCall]

  /** The service calls of one uncached request, in order, when none raises. */
  function Plan(user: DashboardUser): seq<Call> {
    ShopifyPart(user) + GaPart(user)
  }

  /** Step 2: the Shopify calls, made only for a user with a shop. */
  function ShopifyPart(user: DashboardUser): seq<Call> {
    if user.shop.Some? then ShopifyCalls else []
  }

  /** Steps 3 to 5: the GA calls and the inventory analysis, made only for a
      ready GA connection, the analysis only when there is a shop too. */
  function GaPart(user: DashboardUser): seq<Call> {
    if GaReady(user) then GaCalls + (if user.shop.Some? then [InventoryAnalysisCall] else []) else []
  }

  /** Every planned call goes to a service the user is connected to. */
  lemma PlanServices(user: DashboardUser)
    ensures forall c :: c in Plan(user) && ServiceOf(c) == Shopify ==> user.shop.Some?
    ensures forall c :: c in Plan(user) && ServiceOf(c) == GoogleAnalytics ==> GaReady(user)
    ensures forall c :: c in Plan(user) && ServiceOf(c) == InventoryAnalysis ==> user.shop.Some? && GaReady(user)
  {
  }

  /** The call named by `raisedAt` throws and comes up in `plan`. */
  predicate Raises(plan: seq<Call>, raisedAt: Option<Call>) {
    raisedAt.Some? && raisedAt.value in plan
  }

  /** The calls of `plan` that are made: all of them, or those up to and
      including the one that throws. */
  function Through(plan: seq<Call>, raisedAt: Option<Call>): seq<Call> {
    if plan == [] then []
    else if raisedAt == Some(plan[0]) then [plan[0]]
    else [plan[0]] + Through(plan[1..], raisedAt)
  }

  /** The calls made form a prefix of the plan; it is the whole plan unless a
      planned call throws, and then it ends with that call. */
  lemma {:induction false} ThroughPrefix(plan: seq<Call>, raisedAt: Option<Call>)
    ensures Through(plan, raisedAt) <= plan
    ensures !Raises(plan, raisedAt) ==> Through(plan, raisedAt) == plan
    ensures Raises(plan, raisedAt) ==> |Through(plan, raisedAt)| > 0
                                       && Through(plan, raisedAt)[|Through(plan, raisedAt)| - 1] == raisedAt.value
  {
    if plan != [] && raisedAt != Some(plan[0]) {
      ThroughPrefix(plan[1..], raisedAt);
      assert plan == [plan[0]] + plan[1..];
    }
  }

  /** A plan made of two parts is cut in the first part, or runs it whole. */
  lemma {:induction false} ThroughAppend(a: seq<Call>, b: seq<Call>, raisedAt: Option<Call>)
    ensures Through(a + b, raisedAt) == if Raises(a, raisedAt) then Through(a, raisedAt) else a + Through(b, raisedAt)
  {
    if a != [] {
      assert (a + b)[0] == a[0];
      assert (a + b)[1..] == a[1..] + b;
      ThroughAppend(a[1..], b, raisedAt);
      assert a == [a[0]] + a[1..];
    } else {
      assert a + b == b;
    }
  }

  /** One step of `Through`. */
  lemma ThroughCons(c: Call, rest: seq<Call>, raisedAt: Option<Call>)
    ensures Through([c] + rest, raisedAt) == if raisedAt == Some(c) then [c] else [c] + Through(rest, raisedAt)
  {
    assert ([c] + rest)[1..] == rest;
  }

  /** The Shopify calls made, by the call that throws. */
  lemma ThroughShopifyCalls(raisedAt: Option<Call>)
    ensures Through(ShopifyCalls, raisedAt) ==
      if raisedAt == Some(ShopInfoCall) then [ShopInfoCall]
      else if raisedAt == Some(TotalSalesCall) then [ShopInfoCall, TotalSalesCall]
      else if raisedAt == Some(PaidOrdersCountCall) then [ShopInfoCall, TotalSalesCall, PaidOrdersCountCall]
      else if raisedAt == Some(TotalOrdersCountCall) then [ShopInfoCall, TotalSalesCall, PaidOrdersCountCall, TotalOrdersCountCall]
      else ShopifyCalls
  {
    ThroughCons(SalesTrendCall, [], raisedAt);
    ThroughCons(TotalOrdersCountCall, [SalesTrendCall], raisedAt);
    ThroughCons(PaidOrdersCountCall, [TotalOrdersCountCall, SalesTrendCall], raisedAt);
    ThroughCons(TotalSalesCall, [PaidOrdersCountCall, TotalOrdersCountCall, SalesTrendCall], raisedAt);
    ThroughCons(ShopInfoCall, [TotalSalesCall, PaidOrdersCountCall, TotalOrdersCountCall, SalesTrendCall], raisedAt);
    assert ShopifyCalls == [ShopInfoCall] + [TotalSalesCall, PaidOrdersCountCall, TotalOrdersCountCall, SalesTrendCall];
  }

  /** The Shopify step lists every call that goes to Shopify. */
  lemma ShopifyCallsListed(c: Call)
    ensures c in ShopifyCalls <==> ServiceOf(c) == Shopify
  {
    match c
    case ShopInfoCall => assert ShopifyCalls[0] == c;
    case TotalSalesCall => assert ShopifyCalls[1] == c;
    case PaidOrdersCountCall => assert ShopifyCalls[2] == c;
    case TotalOrdersCountCall => assert ShopifyCalls[3] == c;
    case SalesTrendCall => assert ShopifyCalls[4] == c;
    case _ =>
  }

  /** The GA calls made, by the call that throws. */
  lemma ThroughGaCalls(raisedAt: Option<Call>)
    ensures Through(GaCalls, raisedAt) == if raisedAt == Some(BasicMetricsCall) then [BasicMetricsCall] else GaCalls
  {
    ThroughCons(SessionsByChannelCall, [], raisedAt);
    ThroughCons(BasicMetricsCall, [SessionsByChannelCall], raisedAt);
    assert GaCalls == [BasicMetricsCall] + [SessionsByChannelCall];
  }

  /** A call of the plan throws exactly when one of its two parts has it. */
  lemma RaisesInPlan(user: DashboardUser, raisedAt: Option<Call>)
    ensures Raises(Plan(user), raisedAt) <==> Raises(ShopifyPart(user), raisedAt) || Raises(GaPart(user), raisedAt)
  {
  }

  /** What the services return for one request; `raisedAt` names the call, if
      any, that raises a throwable instead of returning. */
  datatype Sources = Sources(shopify: ShopifyReplies, ga: GaReplies, inventory: InventoryAnalysis.Analysis,
                             raisedAt: Option<Call>)

  /** The four sections the `try` block fills in. */
  datatype Sections = Sections(
    shopify: Option<ShopifyMetrics>,
    ga: Option<GaMetrics>,
    calculated: Option<CalculatedMetrics>,
    insights: Option<InsightsSection>)

  /** The sections of steps 3 to 5, given the Shopify section of step 2. */
  function GaSectionsOf(user: DashboardUser, shopify: Option<ShopifyMetrics>, sources: Sources): Sections {
    if GaReady(user) then
      var ga := GaMetricsOf(sources.ga);
      var calculated :=
        if shopify.Some? && ga.sessions.Some? then Some(CalculateCombinedMetrics(shopify.value, ga.sessions)) else None;
      var insights := if user.shop.Some? then Some(Analysed(sources.inventory)) else None;
      Sections(shopify, Some(ga), calculated, insights)
    else Sections(shopify, None, None, None)
  }

  /** The sections of an uncached request in which nothing raised. */
  function SectionsOf(user: DashboardUser, sources: Sources): Sections {
    var shopify := if user.shop.Some? then Some(ShopifyMetricsOf(user.shop.value, sources.shopify)) else None;
    GaSectionsOf(user, shopify, sources)
  }

  /** The response of an uncached request in which nothing raised. */
  function Assemble(user: DashboardUser, range: DateRange, sources: Sources): Dashboard {
    var s := SectionsOf(user, sources);
    FormatResponse(user, range, s.shopify, s.ga, s.calculated, s.insights)
  }

  /** `"dashboard_data:user_{id}:period_{periodIdentifier}"`. */
  function CacheKey(userId: int, period: string): (k: string)
    ensures |k| > |period| && k[|k| - |period|..] == period
  {
    "dashboard_data:user_" + IntToString(userId) + ":period_" + period
  }

  /** For one user, different period identifiers never share a cache entry. */
  lemma CacheKeyPerPeriod(userId: int, p: string, q: string)
    requires p != q
    ensures CacheKey(userId, p) != CacheKey(userId, q)
  {
    var prefix := "dashboard_data:user_" + IntToString(userId) + ":period_";
    assert CacheKey(userId, p) == prefix + p && CacheKey(userId, q) == prefix + q;
  }

  datatype DashboardTrace = DashboardTrace(result: Dashboard, cache: map<string, Entry<Dashboard>>, calls: seq<Call>)

  /** `getDashboardData`. A stored response is always a non-empty array, so
      any entry still alive is a hit; a miss computes the response, which is
      cached unless a call raised. */
  function DashboardFor(cache: map<string, Entry<Dashboard>>, user: DashboardUser, period: string,
                        today: ValidDate, now: int, sources: Sources): DashboardTrace
  {
    var key := CacheKey(user.id, period);
    var hit := Lookup(cache, key, now);
    if hit.Some? then DashboardTrace(hit.value, cache, [])
    else
      var range := CalculateDateRange(period, today);
      var plan := Plan(user);
      if Raises(plan, sources.raisedAt) then
        DashboardTrace(PartialFailureResponse(user, range), cache, Through(plan, sources.raisedAt))
      else
        var data := Assemble(user, range, sources);
        DashboardTrace(data, Put(cache, key, data, CacheTtl, now), plan)
  }

  // ---------------------------------------------------------------------------
  // Properties of a request
  // ---------------------------------------------------------------------------

  /** A live cache entry is returned as stored, with no call and no write. */
  lemma CachedDashboard(cache: map<string, Entry<Dashboard>>, user: DashboardUser, period: string,
                        today: ValidDate, now: int, sources: Sources)
    requires Lookup(cache, CacheKey(user.id, period), now).Some?
    ensures var t := DashboardFor(cache, user, period, today, now, sources);
      t.result == Lookup(cache, CacheKey(user.id, period), now).value && t.cache == cache && t.calls == []
  {
  }

  /** Only services the user is connected to are called: Shopify only with a
      shop, GA only with a ready GA connection, the inventory analysis only
      with both. */
  lemma {:induction false} CallsGated(cache: map<string, Entry<Dashboard>>, user: DashboardUser, period: string,
                                      today: ValidDate, now: int, sources: Sources)
    ensures var t := DashboardFor(cache, user, period, today, now, sources);
      forall c :: c in t.calls && ServiceOf(c) == Shopify ==> user.shop.Some?
    ensures var t := DashboardFor(cache, user, period, today, now, sources);
      forall c :: c in t.calls && ServiceOf(c) == GoogleAnalytics ==> GaReady(user)
    ensures var t := DashboardFor(cache, user, period, today, now, sources);
      forall c :: c in t.calls && ServiceOf(c) == InventoryAnalysis ==> user.shop.Some? && GaReady(user)
  {
    ThroughPrefix(Plan(user), sources.raisedAt);
    PlanServices(user);
    var t := DashboardFor(cache, user, period, today, now, sources);
    assert forall c :: c in t.calls ==> c in Plan(user);
  }

  /** Without a shop `shopify_metrics` is empty; without a ready GA connection
      the GA and calculated sections are empty; insights from the analysis
      appear only with both. */
  lemma SectionsGated(cache: map<string, Entry<Dashboard>>, user: DashboardUser, period: string,
                      today: ValidDate, now: int, sources: Sources)
    requires Lookup(cache, CacheKey(user.id, period), now).None?
    ensures var t := DashboardFor(cache, user, period, today, now, sources);
      user.shop.None? ==> t.result.shopifyMetrics.None?
    ensures var t := DashboardFor(cache, user, period, today, now, sources);
      !GaReady(user) ==> t.result.gaMetrics.None? && t.result.calculatedMetrics.None?
    ensures var t := DashboardFor(cache, user, period, today, now, sources);
      t.result.inventoryInsights.Some? && t.result.inventoryInsights.value.Analysed? ==> user.shop.Some? && GaReady(user)
  {
  }

  /** An uncached request in which nothing raised stores its response for 900
      seconds, an analysis error list included, so that a repeat within that
      time returns it with no call; other keys are untouched. */
  lemma ResponseCached(cache: map<string, Entry<Dashboard>>, user: DashboardUser, period: string,
                       today: ValidDate, now: int, sources: Sources, later: int, again: Sources)
    requires Lookup(cache, CacheKey(user.id, period), now).None?
    requires !Raises(Plan(user), sources.raisedAt)
    requires now <= later < now + CacheTtl
    ensures var t := DashboardFor(cache, user, period, today, now, sources);
      Lookup(t.cache, CacheKey(user.id, period), later) == Some(t.result)
      && DashboardFor(t.cache, user, period, today, later, again) == DashboardTrace(t.result, t.cache, [])
    ensures var t := DashboardFor(cache, user, period, today, now, sources);
      user.shop.Some? && GaReady(user) ==> t.result.inventoryInsights == Some(Analysed(sources.inventory))
    ensures var t := DashboardFor(cache, user, period, today, now, sources);
      forall k :: k in cache && k != CacheKey(user.id, period) ==> k in t.cache && t.cache[k] == cache[k]
  {
  }

  /** A throwable from any planned call stops the calls after it, caches
      nothing and gives empty sections with the error entry. */
  lemma PartialFailureNotCached(cache: map<string, Entry<Dashboard>>, user: DashboardUser, period: string,
                                today: ValidDate, now: int, sources: Sources)
    requires Lookup(cache, CacheKey(user.id, period), now).None?
    requires Raises(Plan(user), sources.raisedAt)
    ensures var t := DashboardFor(cache, user, period, today, now, sources);
      t.cache == cache
      && t.result.shopifyMetrics.None? && t.result.gaMetrics.None? && t.result.calculatedMetrics.None?
      && t.result.inventoryInsights == Some(PartialFailure)
      && t.calls <= Plan(user) && t.calls[|t.calls| - 1] == sources.raisedAt.value
  {
    ThroughPrefix(Plan(user), sources.raisedAt);
  }

  /** The conversion rate is computed exactly when the shop and the GA
      connection are both there and the basic GA metrics came back. */
  lemma ConversionGated(cache: map<string, Entry<Dashboard>>, user: DashboardUser, period: string,
                        today: ValidDate, now: int, sources: Sources)
    requires Lookup(cache, CacheKey(user.id, period), now).None?
    requires !Raises(Plan(user), sources.raisedAt)
    ensures var t := DashboardFor(cache, user, period, today, now, sources);
      t.result.calculatedMetrics.Some? <==> user.shop.Some? && GaReady(user) && sources.ga.basic.Some?
    ensures var t := DashboardFor(cache, user, period, today, now, sources);
      t.result.calculatedMetrics.Some? ==>
        t.result.calculatedMetrics.value.conversionRate
        == ConversionRate(sources.shopify.totalOrders, Some(sources.ga.basic.value.sessions))
  {
  }

  /** The `"7d"` default: an unknown identifier gives the same sections and
      period as `7d`, though under its own cache key. */
  lemma UnknownPeriodIsSevenDays(cache: map<string, Entry<Dashboard>>, user: DashboardUser, period: string,
                                 today: ValidDate, now: int, sources: Sources)
    requires period != "30d" && period != "this_month" && period != "last_month" && period != "7d"
    requires Lookup(cache, CacheKey(user.id, period), now).None?
    requires Lookup(cache, CacheKey(user.id, "7d"), now).None?
    ensures DashboardFor(cache, user, period, today, now, sources).result
            == DashboardFor(cache, user, "7d", today, now, sources).result
    ensures CacheKey(user.id, period) != CacheKey(user.id, "7d")
  {
    CacheKeyPerPeriod(user.id, period, "7d");
  }

  // ---------------------------------------------------------------------------
  // The service
  // ---------------------------------------------------------------------------

  class DashboardService {
    var cache: map<string, Entry<Dashboard>>
    /** Every service call made, in order. */
    ghost var calls: seq<Call>

    constructor (initial: map<string, Entry<Dashboard>>)
      ensures cache == initial && calls == []
    {
      cache := initial;
      calls := [];
    }

    /** One call into another service; `raised` when it is the one that throws. */
    method Invoke(c: Call, raisedAt: Option<Call>) returns (raised: bool)
      modifies this
      ensures raised <==> raisedAt == Some(c)
      ensures cache == old(cache) && calls == old(calls) + [c]
    {
      calls := calls + [c];
      raised := raisedAt == Some(c);
    }

    /** The five Shopify calls of `fetchShopifyMetrics`, in order, up to the
        first that throws. */
    method RequestShopify(raisedAt: Option<Call>) returns (raised: bool)
      modifies this
      ensures raised <==> Raises(ShopifyCalls, raisedAt)
      ensures cache == old(cache) && calls == old(calls) + Through(ShopifyCalls, raisedAt)
    {
      ThroughShopifyCalls(raisedAt);
      if raisedAt.Some? {
        ShopifyCallsListed(raisedAt.value);
      }
      ghost var before := calls;
      raised := Invoke(ShopInfoCall, raisedAt);
      if raised { return; }
      raised := Invoke(TotalSalesCall, raisedAt);
      assert calls == before + [ShopInfoCall, TotalSalesCall];
      if raised { return; }
      raised := Invoke(PaidOrdersCountCall, raisedAt);
      assert calls == before + [ShopInfoCall, TotalSalesCall, PaidOrdersCountCall];
      if raised { return; }
      raised := Invoke(TotalOrdersCountCall, raisedAt);
      assert calls == before + [ShopInfoCall, TotalSalesCall, PaidOrdersCountCall, TotalOrdersCountCall];
      if raised { return; }
      raised := Invoke(SalesTrendCall, raisedAt);
      assert calls == before + ShopifyCalls;
    }

    /** `fetchShopifyMetrics`: the Shopify calls, then the AOV and the section. */
    method FetchShopifyMetrics(shop: ShopifyApi.ShopRow, replies: ShopifyReplies, raisedAt: Option<Call>)
      returns (metrics: ShopifyMetrics, raised: bool)
      modifies this
      ensures raised <==> Raises(ShopifyCalls, raisedAt)
      ensures !raised ==> metrics == ShopifyMetricsOf(shop, replies)
      ensures cache == old(cache) && calls == old(calls) + Through(ShopifyCalls, raisedAt)
    {
      metrics := ShopifyMetrics(shop.domain, None, None, None, None);
      raised := RequestShopify(raisedAt);
      if raised {
        return;
      }
      var aov := Aov(replies.paidSales, replies.paidOrders);
      metrics := ShopifyMetrics(replies.shopName.GetOr(shop.domain), replies.totalOrders, replies.paidSales,
                                aov, replies.salesTrend);
    }

    /** `fetchGaMetrics`: the basic metrics, then the channel breakdown. */
    method FetchGaMetrics(replies: GaReplies, raisedAt: Option<Call>) returns (metrics: GaMetrics, raised: bool)
      modifies this
      ensures raised <==> Raises(GaCalls, raisedAt)
      ensures !raised ==> metrics == GaMetricsOf(replies)
      ensures cache == old(cache) && calls == old(calls) + Through(GaCalls, raisedAt)
    {
      ThroughGaCalls(raisedAt);
      metrics := GaMetrics(None, None, None);
      raised := Invoke(BasicMetricsCall, raisedAt);
      if raised { return; }
      raised := Invoke(SessionsByChannelCall, raisedAt);
      if raised { return; }
      var sessions: Option<int> := None;
      var activeUsers: Option<int> := None;
      if replies.basic.Some? {
        sessions := Some(replies.basic.value.sessions);
        activeUsers := Some(replies.basic.value.activeUsers);
      }
      metrics := GaMetrics(sessions, activeUsers, replies.channels);
    }

    /** Steps 3 to 5 of the `try` block: GA metrics for a ready connection,
        then the combined metrics and, with a shop, the inventory analysis. */
    method FetchGaSections(user: DashboardUser, shopify: Option<ShopifyMetrics>, sources: Sources)
      returns (sections: Sections, raised: bool)
      modifies this
      ensures raised <==> Raises(GaPart(user), sources.raisedAt)
      ensures !raised ==> sections == GaSectionsOf(user, shopify, sources)
      ensures cache == old(cache) && calls == old(calls) + Through(GaPart(user), sources.raisedAt)
    {
      sections := Sections(shopify, None, None, None);
      raised := false;
      var gaReady := user.gaConnection.Some? && user.gaConnection.value.propertyId.Some?;
      if gaReady {
        ghost var inventoryPart := if user.shop.Some? then [InventoryAnalysisCall] else [];
        ThroughAppend(GaCalls, inventoryPart, sources.raisedAt);
        ThroughPrefix(GaCalls, sources.raisedAt);
        var ga;
        ga, raised := FetchGaMetrics(sources.ga, sources.raisedAt);
        if raised {
          return;
        }
        var calculated: Option<CalculatedMetrics> := None;
        if shopify.Some? && ga.sessions.Some? {
          calculated := Some(CalculateCombinedMetrics(shopify.value, ga.sessions));
        }
        var insights: Option<InsightsSection> := None;
        if user.shop.Some? {
          raised := Invoke(InventoryAnalysisCall, sources.raisedAt);
          if raised {
            return;
          }
          insights := Some(Analysed(sources.inventory));
        }
        sections := Sections(shopify, Some(ga), calculated, insights);
      }
    }

    /** The `try` block of `getDashboardData`: steps 2 to 5, stopping at the
        first call that throws. */
    method TryFetchSections(user: DashboardUser, sources: Sources) returns (sections: Sections, raised: bool)
      modifies this
      ensures raised <==> Raises(Plan(user), sources.raisedAt)
      ensures !raised ==> sections == SectionsOf(user, sources)
      ensures cache == old(cache) && calls == old(calls) + Through(Plan(user), sources.raisedAt)
    {
      ThroughAppend(ShopifyPart(user), GaPart(user), sources.raisedAt);
      ThroughPrefix(ShopifyPart(user), sources.raisedAt);
      RaisesInPlan(user, sources.raisedAt);
      sections := Sections(None, None, None, None);
      var shopifyMetrics: Option<ShopifyMetrics> := None;
      raised := false;
      if user.shop.Some? {
        var m;
        m, raised := FetchShopifyMetrics(user.shop.value, sources.shopify, sources.raisedAt);
        if raised {
          return;
        }
        shopifyMetrics := Some(m);
      }
      assert calls == old(calls) + ShopifyPart(user);
      assert shopifyMetrics == if user.shop.Some? then Some(ShopifyMetricsOf(user.shop.value, sources.shopify)) else None;
      sections, raised := FetchGaSections(user, shopifyMetrics, sources);
    }

    /** `getDashboardData`. */
    method GetDashboardData(user: DashboardUser, period: string, today: ValidDate, now: int, sources: Sources)
      returns (data: Dashboard)
      modifies this
      ensures var t := DashboardFor(old(cache), user, period, today, now, sources);
        data == t.result && cache == t.cache && calls == old(calls) + t.calls
    {
      var key := CacheKey(user.id, period);
      var cached := Lookup(cache, key, now);
      if cached.Some? {
        return cached.value;
      }
      var range := CalculateDateRange(period, today);
      ThroughPrefix(Plan(user), sources.raisedAt);
      var sections, raised := TryFetchSections(user, sources);
      if raised {
        return PartialFailureResponse(user, range);
      }
      data := FormatResponse(user, range, sections.shopify, sections.ga, sections.calculated, sections.insights);
      cache := Put(cache, key, data, CacheTtl, now);
    }
  }
}
