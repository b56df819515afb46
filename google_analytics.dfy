/** The Google Analytics 4 client (app/Services/GoogleAnalyticsService.php):
    the OAuth token lifecycle of a stored GA connection, the retry-once-on-401
    wrapper around report calls, and the extraction of report rows into the
    shapes the dashboard and the inventory analysis consume.

    The OAuth provider and the Data API are outside the model: the answer the
    provider gives to a refresh grant and the answers the API gives to the
    first and to the retried call are parameters. Ghost logs on the service
    record which refresh tokens were sent to the provider and which access
    tokens were used for which report calls. */
module GoogleAnalytics {
  import opened Wrappers
  import opened PhpValues
  import Encrypted
  import FormRequests

  /** A stored token is used only while it expires more than a minute from now. */
  const ExpiryMarginSeconds: int := 60

  /** The property resource name prefix of the GA4 Data API. */
  const PropertiesPrefix: string := "properties/"

  /** One report row: its dimension values and metric values; a value whose
      `getValue()` is null is `None` (metrics already cast to integers). */
  datatype Row = Row(dimensions: seq<Option<string>>, metrics: seq<Option<int>>)

  /** The answer of one Data API call: a response, a `GoogleServiceException`
      with code 401, or any other exception. */
  datatype ApiOutcome<T> = Ok(value: T) | Unauthorized | OtherError

  /** The OAuth provider's answer to a token grant. */
  datatype GrantOutcome =
    | Granted(accessToken: string, expires: Option<int>, refreshToken: Option<string>)
      // `IdentityProviderException`: the refresh token is invalid or revoked
    | Rejected
      // any other throwable raised by the provider client
    | Failed

  /** The columns of a `ga_connections` row as stored (tokens encrypted). */
  datatype GaRow = GaRow(
    propertyId: Option<string>,
    accessTokenCipher: Option<string>,
    refreshTokenCipher: Option<string>,
    expiresAt: Option<int>)

  /** `$connection->access_token`, read through the `Encrypted` cast. */
  function AccessTokenOf(row: GaRow): Option<string> {
    Encrypted.Get(row.accessTokenCipher)
  }

  /** `$connection->refresh_token`, read through the `Encrypted` cast. */
  function RefreshTokenOf(row: GaRow): Option<string> {
    Encrypted.Get(row.refreshTokenCipher)
  }

  /** The stored access token can be used without refreshing. */
  predicate TokenUsable(row: GaRow, now: int) {
    TruthyOpt(AccessTokenOf(row)) && row.expiresAt.Some? && row.expiresAt.value > now + ExpiryMarginSeconds
  }

  /** `$newExpiresIn ? now()->addSeconds($newExpiresIn) : null`. */
  function ExpiresAtFrom(now: int, expires: Option<int>): (r: Option<int>)
    ensures r.Some? <==> expires.Some? && expires.value != 0
    ensures r.Some? ==> r.value == now + expires.value
  {
    if expires.Some? && expires.value != 0 then Some(now + expires.value) else None
  }

  /** The row after `$connection->update([...])` with a new token set; both
      tokens go through the `Encrypted` cast, the property id is untouched. */
  function StoreGrant(row: GaRow, now: int, accessToken: string, expires: Option<int>, refreshToken: string): GaRow {
    row.(accessTokenCipher := Encrypted.Set(Some(accessToken)),
         expiresAt := ExpiresAtFrom(now, expires),
         refreshTokenCipher := Encrypted.Set(Some(refreshToken)))
  }

  /** What a token operation returns, the row it leaves, the refresh tokens it
      sent to the provider and whether it stored a refreshed token. */
  datatype TokenTrace = TokenTrace(token: Option<string>, row: GaRow, sent: seq<string>, refreshed: bool)

  /** `attemptTokenRefresh` as a function of the stored row. */
  function Refresh(row: GaRow, now: int, grant: GrantOutcome): TokenTrace {
    if !TruthyOpt(row.refreshTokenCipher) then TokenTrace(None, row, [], false)
    else match Encrypted.Decrypt(row.refreshTokenCipher.value)
      case None => TokenTrace(None, row, [], false)
      case Some(refreshToken) =>
        match grant
        case Granted(accessToken, expires, returned) =>
          TokenTrace(Some(accessToken), StoreGrant(row, now, accessToken, expires, returned.GetOr(refreshToken)), [refreshToken], true)
        case Rejected => TokenTrace(None, row, [refreshToken], false)
        case Failed => TokenTrace(None, row, [refreshToken], false)
  }

  /** `getValidAccessToken` as a function of the stored row. */
  function ValidAccessToken(row: GaRow, now: int, grant: GrantOutcome): TokenTrace {
    if TokenUsable(row, now) then TokenTrace(AccessTokenOf(row), row, [], false)
    else if TruthyOpt(RefreshTokenOf(row)) then Refresh(row, now, grant)
    else TokenTrace(None, row, [], false)
  }

  /** The outcome of a report call wrapped in the retry-once policy: its
      result, the row it leaves, the refresh tokens sent, the access tokens
      used for Data API calls (in order) and the request's refresh flag. */
  datatype RunTrace<T> = RunTrace(result: Option<T>, row: GaRow, sent: seq<string>, calls: seq<string>, refreshed: bool)

  /** `runReportWithErrorHandling` / `batchRunReportsWithErrorHandling` as a
      function of the stored row and of the API's answers to the two calls. */
  function RetryOnce<T>(row: GaRow, now: int, grant: GrantOutcome, first: ApiOutcome<T>, second: ApiOutcome<T>): RunTrace<T> {
    var v := ValidAccessToken(row, now, grant);
    if !TruthyOpt(v.token) then RunTrace(None, v.row, v.sent, [], v.refreshed)
    else match first
      case Ok(response) => RunTrace(Some(response), v.row, v.sent, [v.token.value], v.refreshed)
      case OtherError => RunTrace(None, v.row, v.sent, [v.token.value], v.refreshed)
      case Unauthorized =>
        if v.refreshed then RunTrace(None, v.row, v.sent, [v.token.value], true)
        else
          var r := Refresh(v.row, now, grant);
          if !TruthyOpt(r.token) then RunTrace(None, r.row, v.sent + r.sent, [v.token.value], r.refreshed)
          else RunTrace(if second.Ok? then Some(second.value) else None, r.row, v.sent + r.sent, [v.token.value, r.token.value], true)
  }

  // ---------------------------------------------------------------- token lemmas

  /** A successful refresh stores the new access token and expiry, keeps the
      old refresh token unless the provider returned a new one, and leaves the
      property id alone; a failed refresh changes nothing. */
  lemma RefreshStores(row: GaRow, now: int, grant: GrantOutcome)
    ensures var t := Refresh(row, now, grant);
      t.refreshed <==> t.token.Some?
    ensures var t := Refresh(row, now, grant);
      t.refreshed ==>
        grant.Granted? && t.token == Some(grant.accessToken)
        && AccessTokenOf(t.row) == Some(grant.accessToken)
        && t.row.expiresAt == ExpiresAtFrom(now, grant.expires)
        && RefreshTokenOf(t.row) == Some(grant.refreshToken.GetOr(Encrypted.Decrypt(row.refreshTokenCipher.value).value))
        && t.row.propertyId == row.propertyId
    ensures var t := Refresh(row, now, grant);
      !t.refreshed ==> t.row == row
  {
    var t := Refresh(row, now, grant);
    if t.refreshed {
      Encrypted.GetSet(Some(grant.accessToken));
      Encrypted.GetSet(Some(grant.refreshToken.GetOr(Encrypted.Decrypt(row.refreshTokenCipher.value).value)));
    }
  }

  /** A refresh sends the stored (decrypted) refresh token to the provider,
      exactly when the stored value decrypts. */
  lemma RefreshSends(row: GaRow, now: int, grant: GrantOutcome)
    ensures var t := Refresh(row, now, grant);
      |t.sent| <= 1
      && (|t.sent| == 1 <==> row.refreshTokenCipher.Some? && Encrypted.Decrypt(row.refreshTokenCipher.value).Some?)
      && (|t.sent| == 1 ==> Some(t.sent[0]) == RefreshTokenOf(row))
  {
  }

  /** The stored token is returned as is, without any exchange, exactly when
      it is usable; otherwise the only token returned is a refreshed one. */
  lemma ValidAccessTokenUsable(row: GaRow, now: int, grant: GrantOutcome)
    ensures var t := ValidAccessToken(row, now, grant);
      TokenUsable(row, now) <==> (TruthyOpt(t.token) && !t.refreshed)
    ensures var t := ValidAccessToken(row, now, grant);
      TokenUsable(row, now) ==> t.token == AccessTokenOf(row) && t.sent == [] && t.row == row
    ensures var t := ValidAccessToken(row, now, grant);
      !TokenUsable(row, now) && t.token.Some? ==> t.refreshed && grant.Granted? && t.token == Some(grant.accessToken)
  {
  }

  /** A stale token with no usable refresh token gives null and contacts nobody. */
  lemma StaleWithoutRefreshToken(row: GaRow, now: int, grant: GrantOutcome)
    requires !TokenUsable(row, now) && !TruthyOpt(RefreshTokenOf(row))
    ensures ValidAccessToken(row, now, grant) == TokenTrace(None, row, [], false)
  {
  }

  // ---------------------------------------------------------------- retry lemmas

  /** Within one wrapped report call at most one refresh grant is sent and at
      most two Data API calls are made. */
  lemma {:induction false} RetryOnceBounds<T>(row: GaRow, now: int, grant: GrantOutcome, first: ApiOutcome<T>, second: ApiOutcome<T>)
    ensures |RetryOnce(row, now, grant, first, second).sent| <= 1
    ensures |RetryOnce(row, now, grant, first, second).calls| <= 2
  {
    var v := ValidAccessToken(row, now, grant);
    RefreshSends(row, now, grant);
    if TruthyOpt(v.token) && first.Unauthorized? && !v.refreshed {
      ValidAccessTokenUsable(row, now, grant);
      assert v.sent == [];
      RefreshSends(v.row, now, grant);
    }
  }

  /** The call is retried only after a 401 on the first attempt with a token
      that was not refreshed in this request, and the retry uses the token the
      provider has just granted. */
  lemma {:induction false} RetryOnlyAfterUnauthorized<T>(row: GaRow, now: int, grant: GrantOutcome, first: ApiOutcome<T>, second: ApiOutcome<T>)
    ensures var t := RetryOnce(row, now, grant, first, second);
      |t.calls| == 2 <==>
        first.Unauthorized? && TokenUsable(row, now) && TruthyOpt(Refresh(row, now, grant).token)
    ensures var t := RetryOnce(row, now, grant, first, second);
      |t.calls| == 2 ==>
        t.calls[0] == AccessTokenOf(row).value && grant.Granted? && t.calls[1] == grant.accessToken && t.refreshed
  {
    ValidAccessTokenUsable(row, now, grant);
  }

  /** A result is returned only as the answer to the first call or to the
      retried call; any non-401 failure of the first call gives null at once. */
  lemma {:induction false} RetryOnceResult<T>(row: GaRow, now: int, grant: GrantOutcome, first: ApiOutcome<T>, second: ApiOutcome<T>)
    ensures var t := RetryOnce(row, now, grant, first, second);
      t.result.Some? ==>
        (first.Ok? && t.result.value == first.value && |t.calls| == 1)
        || (|t.calls| == 2 && second.Ok? && t.result.value == second.value)
    ensures var t := RetryOnce(row, now, grant, first, second);
      first.OtherError? ==> t.result.None? && |t.calls| <= 1
    ensures var t := RetryOnce(row, now, grant, first, second);
      first.Ok? && TruthyOpt(ValidAccessToken(row, now, grant).token) ==> t.result == Some(first.value)
  {
  }

  /** A 401 on a token refreshed earlier in the same request is not retried. */
  lemma NoSecondRefreshInRequest<T>(row: GaRow, now: int, grant: GrantOutcome, second: ApiOutcome<T>)
    requires !TokenUsable(row, now)
    ensures var t := RetryOnce(row, now, grant, Unauthorized, second);
      t.result.None? && |t.calls| <= 1 && |t.sent| <= 1
  {
    RefreshSends(row, now, grant);
  }

  // ---------------------------------------------------------------- row extraction

  /** Basic metrics of a report. */
  datatype BasicMetrics = BasicMetrics(sessions: int, activeUsers: int)

  /** A metric value by position, null or missing as 0. */
  function MetricAt(row: Row, i: nat): int {
    if i < |row.metrics| then row.metrics[i].GetOr(0) else 0
  }

  /** The basic metrics of a response: the first row's first two metrics, or
      zeros when there are no rows. */
  function BasicMetricsOf(rows: seq<Row>): (m: BasicMetrics)
    ensures rows == [] ==> m == BasicMetrics(0, 0)
    ensures rows != [] ==> m.sessions == MetricAt(rows[0], 0) && m.activeUsers == MetricAt(rows[0], 1)
  {
    if |rows| > 0 then BasicMetrics(MetricAt(rows[0], 0), MetricAt(rows[0], 1)) else BasicMetrics(0, 0)
  }

  /** Sessions of one default channel group. */
  datatype ChannelSessions = ChannelSessions(channel: string, sessions: int)

  /** A row carries a channel dimension and a sessions metric. */
  predicate HasChannelValues(row: Row) {
    |row.dimensions| >= 1 && |row.metrics| >= 1
  }

  function ChannelOf(row: Row): ChannelSessions
    requires HasChannelValues(row)
  {
    ChannelSessions(row.dimensions[0].GetOr("unknown"), row.metrics[0].GetOr(0))
  }

  /** The channel list of a response, in response order. */
  function ChannelRows(rows: seq<Row>): seq<ChannelSessions> {
    if rows == [] then []
    else if HasChannelValues(rows[0]) then [ChannelOf(rows[0])] + ChannelRows(rows[1..])
    else ChannelRows(rows[1..])
  }

  lemma {:induction false} ChannelRowsAppend(a: seq<Row>, b: seq<Row>)
    ensures ChannelRows(a + b) == ChannelRows(a) + ChannelRows(b)
  {
    if a == [] {
      assert a + b == b;
    } else {
      assert (a + b)[1..] == a[1..] + b;
      ChannelRowsAppend(a[1..], b);
    }
  }

  /** Every complete row contributes its channel, and every entry comes from
      a complete row: only rows lacking the needed values are dropped. */
  lemma {:induction false} ChannelRowsExact(rows: seq<Row>)
    ensures forall r :: r in rows && HasChannelValues(r) ==> ChannelOf(r) in ChannelRows(rows)
    ensures forall c :: c in ChannelRows(rows) ==> exists r :: r in rows && HasChannelValues(r) && c == ChannelOf(r)
    ensures |ChannelRows(rows)| <= |rows|
  {
    if rows != [] {
      ChannelRowsExact(rows[1..]);
      assert forall r :: r in rows ==> r == rows[0] || r in rows[1..];
    }
  }

  /** The `foreach` over the response rows in `getSessionsByChannel`. */
  method ExtractChannels(rows: seq<Row>) returns (channels: seq<ChannelSessions>)
    ensures channels == ChannelRows(rows)
  {
    channels := [];
    var i := 0;
    while i < |rows|
      invariant 0 <= i <= |rows|
      invariant channels == ChannelRows(rows[..i])
    {
      assert rows[..i + 1] == rows[..i] + [rows[i]];
      ChannelRowsAppend(rows[..i], [rows[i]]);
      if HasChannelValues(rows[i]) {
        channels := channels + [ChannelOf(rows[i])];
      }
      i := i + 1;
    }
    assert rows[..i] == rows;
  }

  /** Views of one item, as reported by the `itemsViewed` metric. */
  datatype ProductView = ProductView(productId: string, productName: string, views: int)

  /** A row carries an item id, an item name and a view count, and its item
      id is not empty (PHP `empty`: null, "" and "0" are empty). */
  predicate HasProductValues(row: Row) {
    |row.dimensions| >= 2 && |row.metrics| >= 1 && TruthyOpt(row.dimensions[0])
  }

  function ProductViewOf(row: Row): ProductView
    requires HasProductValues(row)
  {
    ProductView(row.dimensions[0].value, row.dimensions[1].GetOr("Unknown Name"), row.metrics[0].GetOr(0))
  }

  /** The product-view list of a response, in response order. */
  function ProductViewRows(rows: seq<Row>): seq<ProductView> {
    if rows == [] then []
    else if HasProductValues(rows[0]) then [ProductViewOf(rows[0])] + ProductViewRows(rows[1..])
    else ProductViewRows(rows[1..])
  }

  lemma {:induction false} ProductViewRowsAppend(a: seq<Row>, b: seq<Row>)
    ensures ProductViewRows(a + b) == ProductViewRows(a) + ProductViewRows(b)
  {
    if a == [] {
      assert a + b == b;
    } else {
      assert (a + b)[1..] == a[1..] + b;
      ProductViewRowsAppend(a[1..], b);
    }
  }

  /** Every complete row contributes its item, every entry comes from a
      complete row, and every product id is truthy. */
  lemma {:induction false} ProductViewRowsExact(rows: seq<Row>)
    ensures forall r :: r in rows && HasProductValues(r) ==> ProductViewOf(r) in ProductViewRows(rows)
    ensures forall p :: p in ProductViewRows(rows) ==> exists r :: r in rows && HasProductValues(r) && p == ProductViewOf(r)
    ensures forall p :: p in ProductViewRows(rows) ==> Truthy(p.productId)
  {
    if rows != [] {
      ProductViewRowsExact(rows[1..]);
      assert forall r :: r in rows ==> r == rows[0] || r in rows[1..];
    }
  }

  /** The `foreach` over the response rows in `getProductViews`. */
  method ExtractProductViews(rows: seq<Row>) returns (views: seq<ProductView>)
    ensures views == ProductViewRows(rows)
  {
    views := [];
    var i := 0;
    while i < |rows|
      invariant 0 <= i <= |rows|
      invariant views == ProductViewRows(rows[..i])
    {
      assert rows[..i + 1] == rows[..i] + [rows[i]];
      ProductViewRowsAppend(rows[..i], [rows[i]]);
      if HasProductValues(rows[i]) {
        views := views + [ProductViewOf(rows[i])];
      }
      i := i + 1;
    }
    assert rows[..i] == rows;
  }

  /** The key a batch report is filed under: its request's key, or
      `unknown_<index>` when the response has more reports than requests. */
  function KeyAt(keys: seq<string>, i: nat): string {
    if i < |keys| then keys[i] else "unknown_" + NatToString(i)
  }

  /** The rows of one batch report: none when the report is null or empty. */
  function RowsOfReport(report: Option<seq<Row>>): seq<Row> {
    if report.Some? && |report.value| > 0 then report.value else []
  }

  /** The results after filing the first `n` reports. */
  function FileReports(keys: seq<string>, reports: seq<Option<seq<Row>>>, n: nat): map<string, seq<Row>>
    requires n <= |reports|
  {
    if n == 0 then map[] else FileReports(keys, reports, n - 1)[KeyAt(keys, n - 1) := RowsOfReport(reports[n - 1])]
  }

  /** The results after giving each of the first `n` keys an empty list if
      it has no entry yet. */
  function FillMissing(results: map<string, seq<Row>>, keys: seq<string>, n: nat): map<string, seq<Row>>
    requires n <= |keys|
  {
    if n == 0 then results
    else
      var m := FillMissing(results, keys, n - 1);
      if keys[n - 1] in m then m else m[keys[n - 1] := []]
  }

  /** The result map of `getMultipleReports` after a successful batch call. */
  function ReportsByKey(keys: seq<string>, reports: seq<Option<seq<Row>>>): map<string, seq<Row>> {
    FillMissing(FileReports(keys, reports, |reports|), keys, |keys|)
  }

  lemma {:induction false} FileReportsDomain(keys: seq<string>, reports: seq<Option<seq<Row>>>, n: nat)
    requires n <= |reports|
    ensures forall k :: k in FileReports(keys, reports, n) <==> exists i :: 0 <= i < n && k == KeyAt(keys, i)
  {
    if n > 0 {
      FileReportsDomain(keys, reports, n - 1);
    }
  }

  lemma {:induction false} FileReportsValue(keys: seq<string>, reports: seq<Option<seq<Row>>>, n: nat, i: nat)
    requires i < n <= |reports|
    requires forall j :: i < j < n ==> KeyAt(keys, j) != KeyAt(keys, i)
    ensures KeyAt(keys, i) in FileReports(keys, reports, n)
    ensures FileReports(keys, reports, n)[KeyAt(keys, i)] == RowsOfReport(reports[i])
  {
    if i < n - 1 {
      FileReportsValue(keys, reports, n - 1, i);
    }
  }

  lemma {:induction false} FillMissingKeeps(results: map<string, seq<Row>>, keys: seq<string>, n: nat)
    requires n <= |keys|
    ensures forall k :: k in FillMissing(results, keys, n) <==> k in results || k in keys[..n]
    ensures forall k :: k in results ==> FillMissing(results, keys, n)[k] == results[k]
    ensures forall k :: k in FillMissing(results, keys, n) && k !in results ==> FillMissing(results, keys, n)[k] == []
  {
    if n > 0 {
      FillMissingKeeps(results, keys, n - 1);
      assert keys[..n] == keys[..n - 1] + [keys[n - 1]];
    }
  }

  /** Every requested key and every filed report has an entry; a report is
      found under its key unless a later report is filed under the same key;
      a requested key with no report maps to an empty list. */
  lemma ReportsByKeyProperties(keys: seq<string>, reports: seq<Option<seq<Row>>>)
    ensures forall k :: k in ReportsByKey(keys, reports) <==>
      (k in keys || exists i :: 0 <= i < |reports| && k == KeyAt(keys, i))
    ensures forall i :: 0 <= i < |reports| && (forall j :: i < j < |reports| ==> KeyAt(keys, j) != KeyAt(keys, i)) ==>
      ReportsByKey(keys, reports)[KeyAt(keys, i)] == RowsOfReport(reports[i])
    ensures forall k :: k in keys && (forall i :: 0 <= i < |reports| ==> KeyAt(keys, i) != k) ==>
      ReportsByKey(keys, reports)[k] == []
  {
    var filed := FileReports(keys, reports, |reports|);
    FileReportsDomain(keys, reports, |reports|);
    FillMissingKeeps(filed, keys, |keys|);
    assert keys[..|keys|] == keys;
    forall i | 0 <= i < |reports| && (forall j :: i < j < |reports| ==> KeyAt(keys, j) != KeyAt(keys, i))
      ensures ReportsByKey(keys, reports)[KeyAt(keys, i)] == RowsOfReport(reports[i])
    {
      FileReportsValue(keys, reports, |reports|, i);
    }
  }

  /** The two loops of `getMultipleReports` that file the batch reports
      under their keys and fill in the keys left without a report. */
  method CollectReports(keys: seq<string>, reports: seq<Option<seq<Row>>>) returns (results: map<string, seq<Row>>)
    ensures results == ReportsByKey(keys, reports)
  {
    results := map[];
    var i := 0;
    while i < |reports|
      invariant 0 <= i <= |reports|
      invariant results == FileReports(keys, reports, i)
    {
      results := results[KeyAt(keys, i) := RowsOfReport(reports[i])];
      i := i + 1;
    }
    ghost var filed := results;
    var j := 0;
    while j < |keys|
      invariant 0 <= j <= |keys|
      invariant results == FillMissing(filed, keys, j)
    {
      if keys[j] !in results {
        results := results[keys[j] := []];
      }
      j := j + 1;
    }
  }

  /** The resource name the batch call sends: `'properties/' . $ga4PropertyId`. */
  function BatchResource(propertyId: string): (r: string)
    ensures |r| == |PropertiesPrefix| + |propertyId| && r[..|PropertiesPrefix|] == PropertiesPrefix
  {
    PropertiesPrefix + propertyId
  }

  /** As written, an id the request rules accept already starts with
      `properties/`, so the batch resource carries the prefix twice and no
      longer has the shape of a property resource name. */
  lemma BatchResourceDoublePrefixed(propertyId: string)
    requires FormRequests.PropertyIdValid(FormRequests.Str(propertyId))
    ensures BatchResource(propertyId)[..2 * |PropertiesPrefix|] == PropertiesPrefix + PropertiesPrefix
    ensures !FormRequests.MatchesPropertyPattern(BatchResource(propertyId))
  {
    var r := BatchResource(propertyId);
    var n := |PropertiesPrefix|;
    assert propertyId[..n] == PropertiesPrefix by {
      if !FormRequests.IsPropertyResource(propertyId) {
        assert propertyId[..|propertyId| - 1][..n] == propertyId[..n];
      }
    }
    assert |propertyId| > n;
    assert r[..2 * n] == PropertiesPrefix + propertyId[..n];
    assert r[n] == 'p' && !IsDigit(r[n]);
    assert r[..|r| - 1][n] == 'p';
  }

  /** The batch resource as evidently intended: the stored id verbatim, as
      the single-report call sends it. */
  function BatchResourceIntended(propertyId: string): (r: string)
    ensures |r| == |propertyId|
  {
    propertyId
  }

  // ---------------------------------------------------------------- the stateful objects

  /** A Data API call made: the access token set on the client, the resource. */
  datatype ReportCall = ReportCall(accessToken: string, resource: string)

  function CallsTo(tokens: seq<string>, resource: string): (r: seq<ReportCall>)
    ensures |r| == |tokens|
    ensures forall i :: 0 <= i < |r| ==> r[i] == ReportCall(tokens[i], resource)
  {
    if tokens == [] then [] else [ReportCall(tokens[0], resource)] + CallsTo(tokens[1..], resource)
  }

  /** With the intended resource, the batch calls made with any sequence of
      tokens are exactly the calls the single-report path makes on the stored
      id, and each names a property resource. */
  lemma BatchResourceIntendedIsResource(propertyId: string, tokens: seq<string>)
    requires FormRequests.PropertyIdValid(FormRequests.Str(propertyId))
    ensures CallsTo(tokens, BatchResourceIntended(propertyId)) == CallsTo(tokens, propertyId)
    ensures forall c :: c in CallsTo(tokens, BatchResourceIntended(propertyId)) ==>
      FormRequests.MatchesPropertyPattern(c.resource)
  {
    assert BatchResourceIntended(propertyId) == propertyId;
  }

  /** A `GaConnection` model instance. */
  class GaConnection {
    var propertyId: Option<string>
    var accessTokenCipher: Option<string>
    var refreshTokenCipher: Option<string>
    var expiresAt: Option<int>

    constructor (row: GaRow)
      ensures Row() == row
    {
      propertyId := row.propertyId;
      accessTokenCipher := row.accessTokenCipher;
      refreshTokenCipher := row.refreshTokenCipher;
      expiresAt := row.expiresAt;
    }

    function Row(): GaRow
      reads this
    {
      GaRow(propertyId, accessTokenCipher, refreshTokenCipher, expiresAt)
    }

    /** `$connection->update(['access_token' => ..., 'expires_at' => ..., 'refresh_token' => ...])`. */
    method StoreTokens(now: int, accessToken: string, expires: Option<int>, refreshToken: string)
      modifies this
      ensures Row() == StoreGrant(old(Row()), now, accessToken, expires, refreshToken)
    {
      accessTokenCipher := Encrypted.Set(Some(accessToken));
      expiresAt := ExpiresAtFrom(now, expires);
      refreshTokenCipher := Encrypted.Set(Some(refreshToken));
    }
  }

  /** `GoogleAnalyticsService` with its per-request refresh flag. */
  class GoogleAnalyticsService {
    var tokenRefreshedInRequest: bool
    /** Refresh tokens sent to the OAuth provider, in order. */
    ghost var refreshGrants: seq<string>
    /** Data API calls made, in order. */
    ghost var reportCalls: seq<ReportCall>

    constructor ()
      ensures !tokenRefreshedInRequest && refreshGrants == [] && reportCalls == []
    {
      tokenRefreshedInRequest := false;
      refreshGrants := [];
      reportCalls := [];
    }

    method AttemptTokenRefresh(conn: GaConnection, now: int, grant: GrantOutcome) returns (token: Option<string>)
      modifies this, conn
      ensures var t := Refresh(old(conn.Row()), now, grant);
        token == t.token && conn.Row() == t.row
        && refreshGrants == old(refreshGrants) + t.sent && reportCalls == old(reportCalls)
        && tokenRefreshedInRequest == (old(tokenRefreshedInRequest) || t.refreshed)
    {
      var raw := conn.refreshTokenCipher;
      if !TruthyOpt(raw) {
        return None;
      }
      var decrypted := Encrypted.Decrypt(raw.value);
      if decrypted.None? {
        return None;
      }
      refreshGrants := refreshGrants + [decrypted.value];
      match grant
      case Granted(accessToken, expires, returned) =>
        conn.StoreTokens(now, accessToken, expires, returned.GetOr(decrypted.value));
        tokenRefreshedInRequest := true;
        token := Some(accessToken);
      case Rejected =>
        token := None;
      case Failed =>
        token := None;
    }

    method GetValidAccessToken(conn: GaConnection, now: int, grant: GrantOutcome) returns (token: Option<string>)
      modifies this, conn
      ensures var t := ValidAccessToken(old(conn.Row()), now, grant);
        token == t.token && conn.Row() == t.row
        && refreshGrants == old(refreshGrants) + t.sent && reportCalls == old(reportCalls)
        && tokenRefreshedInRequest == (old(tokenRefreshedInRequest) || t.refreshed)
    {
      var current := Encrypted.Get(conn.accessTokenCipher);
      var expires := conn.expiresAt;
      if TruthyOpt(current) && expires.Some? && expires.value > now + ExpiryMarginSeconds {
        return current;
      }
      if TruthyOpt(Encrypted.Get(conn.refreshTokenCipher)) {
        token := AttemptTokenRefresh(conn, now, grant);
      } else {
        token := None;
      }
    }

    /** The shared body of the two wrappers: reset the flag, get a token,
        call, and on a 401 with no refresh yet refresh once and call again. */
    method RetryOnceOnUnauthorized<T>(conn: GaConnection, resource: string, now: int, grant: GrantOutcome,
                                      first: ApiOutcome<T>, second: ApiOutcome<T>) returns (response: Option<T>)
      modifies this, conn
      ensures var t := RetryOnce(old(conn.Row()), now, grant, first, second);
        response == t.result && conn.Row() == t.row
        && refreshGrants == old(refreshGrants) + t.sent
        && reportCalls == old(reportCalls) + CallsTo(t.calls, resource)
        && tokenRefreshedInRequest == t.refreshed
    {
      tokenRefreshedInRequest := false;
      var token := GetValidAccessToken(conn, now, grant);
      if !TruthyOpt(token) {
        return None;
      }
      reportCalls := reportCalls + [ReportCall(token.value, resource)];
      match first
      case Ok(value) =>
        response := Some(value);
      case OtherError =>
        response := None;
      case Unauthorized =>
        if tokenRefreshedInRequest {
          response := None;
        } else {
          var newToken := AttemptTokenRefresh(conn, now, grant);
          if TruthyOpt(newToken) {
            reportCalls := reportCalls + [ReportCall(newToken.value, resource)];
            response := if second.Ok? then Some(second.value) else None;
          } else {
            response := None;
          }
        }
    }

    /** `runReportWithErrorHandling`: the property id is passed to the API as stored. */
    method RunReportWithErrorHandling(conn: GaConnection, propertyId: string, now: int, grant: GrantOutcome,
                                      first: ApiOutcome<seq<Row>>, second: ApiOutcome<seq<Row>>) returns (response: Option<seq<Row>>)
      modifies this, conn
      ensures var t := RetryOnce(old(conn.Row()), now, grant, first, second);
        response == t.result && conn.Row() == t.row
        && refreshGrants == old(refreshGrants) + t.sent
        && reportCalls == old(reportCalls) + CallsTo(t.calls, propertyId)
        && tokenRefreshedInRequest == t.refreshed
    {
      response := RetryOnceOnUnauthorized(conn, propertyId, now, grant, first, second);
    }

    /** `batchRunReportsWithErrorHandling`: the API is called on
        `'properties/' . $ga4PropertyId`. */
    method BatchRunReportsWithErrorHandling(conn: GaConnection, propertyId: string, now: int, grant: GrantOutcome,
                                            first: ApiOutcome<seq<Option<seq<Row>>>>, second: ApiOutcome<seq<Option<seq<Row>>>>)
      returns (response: Option<seq<Option<seq<Row>>>>)
      modifies this, conn
      ensures var t := RetryOnce(old(conn.Row()), now, grant, first, second);
        response == t.result && conn.Row() == t.row
        && refreshGrants == old(refreshGrants) + t.sent
        && reportCalls == old(reportCalls) + CallsTo(t.calls, BatchResource(propertyId))
        && tokenRefreshedInRequest == t.refreshed
    {
      response := RetryOnceOnUnauthorized(conn, BatchResource(propertyId), now, grant, first, second);
    }

    method GetBasicMetrics(conn: GaConnection, now: int, grant: GrantOutcome,
                           first: ApiOutcome<seq<Row>>, second: ApiOutcome<seq<Row>>) returns (metrics: Option<BasicMetrics>)
      modifies this, conn
      ensures !TruthyOpt(old(conn.propertyId)) ==> metrics.None? && unchanged(this, conn)
      ensures TruthyOpt(old(conn.propertyId)) ==>
        var t := RetryOnce(old(conn.Row()), now, grant, first, second);
        conn.Row() == t.row && refreshGrants == old(refreshGrants) + t.sent
        && reportCalls == old(reportCalls) + CallsTo(t.calls, old(conn.propertyId).value)
        && metrics == (if t.result.Some? then Some(BasicMetricsOf(t.result.value)) else None)
        && tokenRefreshedInRequest == t.refreshed
    {
      var propertyId := conn.propertyId;
      if !TruthyOpt(propertyId) {
        return None;
      }
      var response := RunReportWithErrorHandling(conn, propertyId.value, now, grant, first, second);
      if response.Some? && |response.value| > 0 {
        metrics := Some(BasicMetrics(MetricAt(response.value[0], 0), MetricAt(response.value[0], 1)));
      } else if response.Some? {
        metrics := Some(BasicMetrics(0, 0));
      } else {
        metrics := None;
      }
    }

    method GetSessionsByChannel(conn: GaConnection, now: int, grant: GrantOutcome,
                                first: ApiOutcome<seq<Row>>, second: ApiOutcome<seq<Row>>) returns (channels: Option<seq<ChannelSessions>>)
      modifies this, conn
      ensures !TruthyOpt(old(conn.propertyId)) ==> channels.None? && unchanged(this, conn)
      ensures TruthyOpt(old(conn.propertyId)) ==>
        var t := RetryOnce(old(conn.Row()), now, grant, first, second);
        conn.Row() == t.row && refreshGrants == old(refreshGrants) + t.sent
        && reportCalls == old(reportCalls) + CallsTo(t.calls, old(conn.propertyId).value)
        && channels == (if t.result.Some? then Some(ChannelRows(t.result.value)) else None)
        && tokenRefreshedInRequest == t.refreshed
    {
      var propertyId := conn.propertyId;
      if !TruthyOpt(propertyId) {
        return None;
      }
      var response := RunReportWithErrorHandling(conn, propertyId.value, now, grant, first, second);
      if response.Some? && |response.value| > 0 {
        var extracted := ExtractChannels(response.value);
        channels := Some(extracted);
      } else if response.Some? {
        channels := Some([]);
      } else {
        channels := None;
      }
    }

    method GetProductViews(conn: GaConnection, now: int, grant: GrantOutcome,
                           first: ApiOutcome<seq<Row>>, second: ApiOutcome<seq<Row>>) returns (views: Option<seq<ProductView>>)
      modifies this, conn
      ensures !TruthyOpt(old(conn.propertyId)) ==> views.None? && unchanged(this, conn)
      ensures TruthyOpt(old(conn.propertyId)) ==>
        var t := RetryOnce(old(conn.Row()), now, grant, first, second);
        conn.Row() == t.row && refreshGrants == old(refreshGrants) + t.sent
        && reportCalls == old(reportCalls) + CallsTo(t.calls, old(conn.propertyId).value)
        && views == (if t.result.Some? then Some(ProductViewRows(t.result.value)) else None)
        && tokenRefreshedInRequest == t.refreshed
    {
      var propertyId := conn.propertyId;
      if !TruthyOpt(propertyId) {
        return None;
      }
      var response := RunReportWithErrorHandling(conn, propertyId.value, now, grant, first, second);
      if response.Some? && |response.value| > 0 {
        var extracted := ExtractProductViews(response.value);
        views := Some(extracted);
      } else if response.Some? {
        views := Some([]);
      } else {
        views := None;
      }
    }

    /** `getMultipleReports` for report definitions whose keys are `keys`, in order. */
    method GetMultipleReports(conn: GaConnection, keys: seq<string>, now: int, grant: GrantOutcome,
                              first: ApiOutcome<seq<Option<seq<Row>>>>, second: ApiOutcome<seq<Option<seq<Row>>>>)
      returns (results: Option<map<string, seq<Row>>>)
      modifies this, conn
      ensures !TruthyOpt(old(conn.propertyId)) ==> results.None? && unchanged(this, conn)
      ensures TruthyOpt(old(conn.propertyId)) && keys == [] ==> results == Some(map[]) && unchanged(this, conn)
      ensures TruthyOpt(old(conn.propertyId)) && keys != [] ==>
        var t := RetryOnce(old(conn.Row()), now, grant, first, second);
        conn.Row() == t.row && refreshGrants == old(refreshGrants) + t.sent
        && reportCalls == old(reportCalls) + CallsTo(t.calls, BatchResource(old(conn.propertyId).value))
        && results == (if t.result.Some? then Some(ReportsByKey(keys, t.result.value)) else None)
        && tokenRefreshedInRequest == t.refreshed
    {
      var propertyId := conn.propertyId;
      if !TruthyOpt(propertyId) {
        return None;
      }
      if keys == [] {
        return Some(map[]);
      }
      var batch := BatchRunReportsWithErrorHandling(conn, propertyId.value, now, grant, first, second);
      if batch.None? {
        return None;
      }
      var collected := CollectReports(keys, batch.value);
      results := Some(collected);
    }
  }
}
