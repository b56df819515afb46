# Shopify analytics backend: a verified model of its core

This project models the analytics core of a Laravel backend. The backend joins a Shopify store's orders and stock with that store's Google Analytics 4 traffic and serves the result as a dashboard. The model covers six parts:

- **The Shopify Admin REST adapter** (`ShopifyApi`):
  - the credential guard every method opens with;
  - the `orders/count.json` query;
  - the `rel="next"` lookup in the `Link` header (RFC 8288, section 3);
  - the paginated sales sum and the per-day sales trend;
  - the inventory lookup in chunks of at most 250 product ids, with stock summed over each product's variants.
- **The Google Analytics 4 client** (`GoogleAnalytics`):
  - the token-usable test: a truthy token that expires more than 60 seconds from now;
  - the refresh-token grant (RFC 6749, section 6);
  - the report wrapper that retries once after an HTTP 401 (RFC 6750, section 3.1);
  - how report rows become metrics, channel lists, product-view lists and keyed batch results.
- **The inventory-versus-traffic analysis** (`InventoryAnalysis`):
  - a cache-aside wrapper, with negative caching, around one join of ranked product views against a product-id to stock map;
  - four inclusive thresholds.
- **The dashboard orchestration** (`Dashboard`):
  - the period identifier turned into a date range;
  - which services a request may call;
  - average order value and conversion rate;
  - the response shape, and when it is cached for 900 seconds.
- **The credential writes of the connection controller** (`Connections`):
  - the Shopify token upsert;
  - the OAuth authorization-code callback (RFC 6749, sections 4.1.3 and 5.1);
  - the GA4 property id save.
- **The `Encrypted` attribute cast** (`Encrypted`) and **the three form requests** (`FormRequests`).

Helper modules:

- `Wrappers`: `Option` and the `Fetch` outcome of a call that can fail or throw.
- `PhpValues`: PHP truthiness, `is_numeric`, `(int)` truncation and integer-to-string.
- `Calendar`: proleptic Gregorian dates.
- `CacheStore`: Laravel's cache with lazy expiry.

Everything outside the process is an input:

- every HTTP response, provider answer and API outcome;
- the current time, given as an integer clock and a date;
- database rows, given as maps keyed by user id.

Code whose fields the source updates in place is modelled as a class:

- the services, with their cache and their per-request refresh flag;
- the `GaConnection` record;
- the controller's two tables.

Each method of those classes is proved equal to a specification function. The properties are lemmas about those functions.

Ghost logs record what was sent out: page and chunk requests, refresh grants, Data API calls, authorization codes and dashboard service calls. The properties about calls made rest on these logs.

## Model

| member | source | states |
|---|---|---|
| PhpValues.IntCast | app/Services/ShopifyApiService.php:86 | `(int)` of a number truncates toward zero: the result is within one below a non-negative input and within one above a negative input |
| PhpValues.NatToString | app/Services/ShopifyApiService.php:281 | the decimal rendering of a natural number is non-empty and all digits, with a leading `0` exactly when the number is 0 |
| PhpValues.NatToStringValue | app/Services/ShopifyApiService.php:281 | the rendering read back as decimal digits is the number itself |
| PhpValues.NatToStringInjective | app/Services/ShopifyApiService.php:281 | distinct numbers render as distinct strings |
| PhpValues.IntToString | app/Services/ShopifyApiService.php:281 | a non-negative integer key renders as its digits, a negative one as `-` followed by the digits of its magnitude |
| PhpValues.IntToStringInjective | app/Services/ShopifyApiService.php:281 | distinct integer keys render as distinct strings |
| PhpValues.DigitsAreNumeric | app/Services/ShopifyApiService.php:219 | a non-empty string of digits passes `is_numeric` |
| CacheStore.PutThenLookup | app/Services/DashboardService.php:40-46 | a value put with a TTL is read back unchanged for exactly TTL seconds and absent afterwards; other keys read as before |
| Calendar.DaysInMonth | app/Services/DashboardService.php:166 | a month has 28 to 31 days, and February has 29 exactly in a leap year |
| Calendar.NextDay | app/Services/ShopifyApiService.php:130-134 | the next day is a valid date strictly after the given one |
| Calendar.PrevDay | app/Services/DashboardService.php:157 | the previous day is valid, strictly before, and its next day is the given date |
| Calendar.NextDayIsImmediate | app/Services/ShopifyApiService.php:130-134 | no valid date lies strictly between a date and its next day |
| Calendar.SubDays | app/Services/DashboardService.php:157-171 | `subDays(n)` gives a valid date no later than the given one, and strictly earlier when n > 0 |
| Calendar.StartOfMonth | app/Services/DashboardService.php:161 | `startOfMonth()` is day 1 of the same month and year, and no later than the date |
| Calendar.EndOfMonth | app/Services/DashboardService.php:166 | `endOfMonth()` is in the same month and year, no earlier than the date, and the next day is a first of month |
| Calendar.SubMonthNoOverflow | app/Services/DashboardService.php:165-166 | `subMonthNoOverflow()` lands strictly earlier, in the previous month; from January it lands in December of the previous year |
| Calendar.DaysFromTo | app/Services/ShopifyApiService.php:130-134 | the daily period from s to e is empty exactly when e is before s; otherwise it starts at s, ends at e, stays within [s, e] and steps one day at a time |
| Calendar.DaysFromToIncreasing | app/Services/ShopifyApiService.php:130-134 | the days of the period are strictly increasing, so no bucket is created twice |
| Calendar.DaysFromToMembership | app/Services/ShopifyApiService.php:130-174 | a date has a bucket exactly when it lies in [s, e] |
| Calendar.DaysFromToLength | app/Services/DashboardService.php:157-171 | the range from `subDays(n)` to today has n + 1 days |
| Calendar.SubDaysWithinMonth | app/Services/DashboardService.php:157 | counting back fewer days than the day of the month stays in the month |
| Calendar.MonthToDateLength | app/Services/DashboardService.php:161 | the month-to-date range has as many days as today's day of the month |
| Calendar.PreviousMonth | app/Services/DashboardService.php:165-166 | the previous month ends on the day before this month starts, and its first-to-last range has as many days as the month |
| Calendar.Pad | app/Services/DashboardService.php:317-318 | a string at least as wide as requested is kept as it is; a shorter one gets exactly the missing number of `0`s in front |
| Calendar.DateString | app/Services/DashboardService.php:317-318 | `toDateString()` renders a date in at least ten characters |
| Calendar.DateStringLayout | app/Services/DashboardService.php:317-318 | the rendering is the year padded to four digits (after a `-` when negative), a `-`, the two-digit month, a `-` and the two-digit day, each field reading back as its value |
| Calendar.DateStringRoundTrip | app/Services/DashboardService.php:317-318 | parsing the Y-m-d string back gives the valid date that was rendered |
| Calendar.DateStringInjective | app/Services/DashboardService.php:317-318 | distinct valid dates render as distinct strings, so day keys never collide |
| Calendar.DateStringExample | app/Services/DashboardService.php:317-318 | 3 April 2025 renders as `2025-04-03` |
| Calendar.PadNumber | app/Services/DashboardService.php:317-318 | a padded number is all digits, reads back as the number and is at least as wide as requested; a number below 100 padded to 2 is exactly two characters |
| Calendar.YearStringLayout | app/Services/DashboardService.php:317-318 | a year renders as at least four digits reading back as the year, after a `-` when it is negative |
| Encrypted.Encrypt | app/Casts/Encrypted.php:48 | a ciphertext is longer than its plaintext and never PHP-falsy |
| Encrypted.Decrypt | app/Casts/Encrypted.php:27 | a successful decryption is shorter than the ciphertext |
| Encrypted.DecryptEncrypt | app/Casts/Encrypted.php:27-48 | decrypting an encryption gives the plaintext back |
| Encrypted.Get | app/Casts/Encrypted.php:20-34 | null reads as null, an undecryptable value as null rather than an exception, and any other value as its decryption |
| Encrypted.Set | app/Casts/Encrypted.php:45-49 | null is stored as null, and any other value, "" included, as a ciphertext that decrypts to it |
| Encrypted.GetSet | app/Casts/Encrypted.php:20-49 | reading back what was written gives the written value, null included |
| Encrypted.SetOfCiphertext | app/Casts/Encrypted.php:48 | writing a ciphertext through the cast stores it encrypted again, so it reads back as the ciphertext, not the plaintext |
| FormRequests.AcceptedPropertyIdShape | app/Http/Requests/SaveGaPropertyRequest.php:27-33 | an accepted property id is a string of at most 255 characters: `properties/`, one or more ASCII digits, and optionally one final newline |
| FormRequests.PropertyResourceAccepted | app/Http/Requests/SaveGaPropertyRequest.php:27-33 | conversely, every such string of at most 255 characters is accepted |
| FormRequests.PropertyIdExamples | app/Http/Requests/SaveGaPropertyRequest.php:32-41 | `properties/123` is accepted, and so is the same id followed by a newline; `123`, `properties/`, `properties/12a`, a non-string and a missing field are refused |
| FormRequests.ValidPropertyIdIsTruthy | app/Http/Requests/SaveGaPropertyRequest.php:32 | an accepted property id is never PHP-falsy |
| FormRequests.AcceptedRegistration | app/Http/Requests/Auth/RegisterRequest.php:29-40 | an accepted registration has a name and an e-mail of 1 to 255 characters, a well-formed unused e-mail, and a password of at least 8 characters equal to its confirmation |
| FormRequests.AcceptedPasswordShape | app/Http/Requests/Auth/RegisterRequest.php:31-40 | an accepted password has at least 8 characters, an upper-case letter, a lower-case letter, a digit and a symbol, and equals its confirmation |
| FormRequests.StrongPasswordAccepted | app/Http/Requests/Auth/RegisterRequest.php:34-38 | `Secret1!` meets the whole policy |
| FormRequests.LowerCasePasswordRejected | app/Http/Requests/Auth/RegisterRequest.php:36 | `secret1!` fails `mixedCase` |
| FormRequests.PasswordWithoutSymbolRejected | app/Http/Requests/Auth/RegisterRequest.php:38 | `Secret12` fails `symbols` |
| FormRequests.NewlineDefeatsMixedCase | app/Http/Requests/Auth/RegisterRequest.php:36 | a newline between the only lower-case and the only upper-case letter defeats `mixedCase` |
| FormRequests.NoDomainFormatCheck | app/Http/Requests/SaveShopifyTokenRequest.php:28-39 | with the domain regex commented out, every string of 1 to 255 characters that does not start with whitespace passes as a domain, with any such token |
| FormRequests.ShopifyTokenExamples | app/Http/Requests/SaveShopifyTokenRequest.php:28-39 | `not a domain` is accepted; a blank domain, a blank token, a non-string and a missing field are each refused |
| FormRequests.ShopifyDomainLengthBoundary | app/Http/Requests/SaveShopifyTokenRequest.php:28-39 | a 255-character domain is accepted and a 256-character one refused |
| ShopifyApi.IndexOf | app/Services/ShopifyApiService.php:186 | the position found holds the character, and no earlier position does |
| ShopifyApi.Explode | app/Services/ShopifyApiService.php:186 | `explode(',')` gives at least one part, and no part contains a comma |
| ShopifyApi.ImplodeExplode | app/Services/ShopifyApiService.php:186 | splitting the header on commas loses nothing: joining the parts gives it back |
| ShopifyApi.CloseFrom | app/Services/ShopifyApiService.php:189 | the closing `>` found is the first one and has no newline before it; when none is found, every later `>` has a newline before it |
| ShopifyApi.AngleMatch | app/Services/ShopifyApiService.php:189 | the captured group of `/<(.*?)>/` contains neither `>` nor a newline |
| ShopifyApi.AngleMatchLeftmost | app/Services/ShopifyApiService.php:189 | there is no match exactly when no `<` in the segment has a `>` after it on the same line; a match captures the text after the leftmost such `<` up to its first `>` |
| ShopifyApi.AngleMatchShape | app/Services/ShopifyApiService.php:189 | a match is a `<`, the group and a `>`, in that order, somewhere in the segment |
| ShopifyApi.FirstNext | app/Services/ShopifyApiService.php:187-192 | a next link found is the group of some segment that contains `rel="next"` |
| ShopifyApi.FirstNextIsFirst | app/Services/ShopifyApiService.php:187-192 | the first segment that contains `rel="next"` and has a match decides the link |
| ShopifyApi.NextLinkExample | app/Services/ShopifyApiService.php:183-193 | in `<a>,<b>; rel="next"` the next link is `b`: a segment without `rel="next"` is passed over |
| ShopifyApi.FirstNextExample | app/Services/ShopifyApiService.php:187-192 | over the segments `<a>` and `<b>; rel="next"` the search yields `b` |
| ShopifyApi.ExplodeExample | app/Services/ShopifyApiService.php:186 | `<a>,<b>; rel="next"` splits into two segments |
| ShopifyApi.FirstCommaExample | app/Services/ShopifyApiService.php:186 | the first comma of that header is at position 3, after `<a>` |
| ShopifyApi.NoCommaExample | app/Services/ShopifyApiService.php:186 | a header without commas is one segment |
| ShopifyApi.AngleExample | app/Services/ShopifyApiService.php:189 | `/<(.*?)>/` captures `b` in `<b>; rel="next"` |
| ShopifyApi.CloseFromReaches | app/Services/ShopifyApiService.php:189 | the lazy group stops at the first `>` when no newline comes before it |
| ShopifyApi.ParseNextLink | app/Services/ShopifyApiService.php:183-193 | the loop over the header's segments gives exactly the specified next link |
| ShopifyApi.SavedShopHasCredentials | app/Services/ShopifyApiService.php:18-21 | a shop saved through the cast with a truthy domain and a truthy token passes the credential guard |
| ShopifyApi.ShopInfo | app/Services/ShopifyApiService.php:16-40 | a request is made exactly when the shop has credentials; the result is the `shop` field of a successful response, and null otherwise |
| ShopifyApi.OrdersCountQuery | app/Services/ShopifyApiService.php:61-70 | the query has the status and both timestamps; `financial_status` is present exactly when it is given, with its value; there are no other keys |
| ShopifyApi.OrdersCount | app/Services/ShopifyApiService.php:53-103 | a query is sent exactly when the shop has credentials; a count is returned exactly for a successful numeric `count`, and it is `(int)` of that value |
| ShopifyApi.ThenThen | app/Services/ShopifyApiService.php:118 | requests made before a trace compose in order |
| ShopifyApi.Paginate | app/Services/ShopifyApiService.php:118 | the loop makes at most one request per answer; its first request is the one the state asks for, and it runs out of answers only after using them all |
| ShopifyApi.PaginateStep | app/Services/ShopifyApiService.php:118 | one turn of the loop either ends the whole fetch with its outcome or leaves exactly the rest of the fetch to do |
| ShopifyApi.TurnContinues | app/Services/ShopifyApiService.php:118 | a turn continues only after a page with a truthy next link, which it follows, or after a 429, which asks for the same target again |
| ShopifyApi.PaginateFollowsLinks | app/Services/ShopifyApiService.php:118 | every request but the last was answered by a page with a next link or by a 429; the request after it is that link, or the same target |
| ShopifyApi.PaginateDone | app/Services/ShopifyApiService.php:118 | a completed fetch ends on a page without a next link, or on a first-page 429, and returns the fold of exactly the pages it requested |
| ShopifyApi.PaginateAborted | app/Services/ShopifyApiService.php:118 | a null result stopped at an exception, at a failure other than 429, or at an order the fold could not read |
| ShopifyApi.PaginateFirstRateLimit | app/Services/ShopifyApiService.php:118-165 | a 429 while no next page is known ends the loop after one request, with the running total as a success |
| ShopifyApi.PaginateRefetch | app/Services/ShopifyApiService.php:118-165 | a 429 on a later page asks for the same URL again, with no cap |
| ShopifyApi.SalesFoldPages | app/Services/ShopifyApiService.php:118 | summing the pages read adds every numeric `total_price` of every page |
| ShopifyApi.TotalSalesDone | app/Services/ShopifyApiService.php:108-120 | without credentials nothing is requested and the result is null; a completed sum is the total of the numeric prices over exactly the pages requested |
| ShopifyApi.AddPageSales | app/Services/ShopifyApiService.php:118 | the inner `foreach` adds exactly the page's numeric totals |
| ShopifyApi.ReadSalesPage | app/Services/ShopifyApiService.php:118 | a page read adds its totals and yields its next link |
| ShopifyApi.GetTotalSales | app/Services/ShopifyApiService.php:108-120 | the `do … while` loop produces exactly the specified outcome and request sequence |
| ShopifyApi.ZeroBuckets | app/Services/ShopifyApiService.php:130-134 | there is one zero bucket per day of the period |
| ShopifyApi.TrendOf | app/Services/ShopifyApiService.php:205 | `array_values` gives one row per day of the period |
| ShopifyApi.AddOrdersBuckets | app/Services/ShopifyApiService.php:171-177 | adding a page's orders fails exactly when one of them has an unparsable date; otherwise it keeps the set of days and adds each day's own numeric totals |
| ShopifyApi.TrendFoldPages | app/Services/ShopifyApiService.php:151-201 | after all pages, each day's bucket holds its initial value plus that day's totals over the pages read |
| ShopifyApi.TrendOfRows | app/Services/ShopifyApiService.php:205 | row k is the k-th day's date string with its bucket |
| ShopifyApi.SalesTrendDone | app/Services/ShopifyApiService.php:122-206 | a completed trend has one row per day from start to end, in date order, each holding that day's numeric totals over the pages requested; orders outside the period are ignored |
| ShopifyApi.SalesTrendUnreadable | app/Services/ShopifyApiService.php:174-198 | a page with an order whose date cannot be parsed ends the trend with null |
| ShopifyApi.AddPageOrders | app/Services/ShopifyApiService.php:171-177 | the inner `foreach` computes exactly the specified bucket update |
| ShopifyApi.ReadTrendPage | app/Services/ShopifyApiService.php:169-193 | a page read updates the buckets and yields its next link |
| ShopifyApi.InitBuckets | app/Services/ShopifyApiService.php:130-134 | the initial loop creates exactly the zero buckets |
| ShopifyApi.GetSalesTrend | app/Services/ShopifyApiService.php:122-206 | the buckets and the pagination loop produce exactly the specified trend and request sequence |
| ShopifyApi.Chunks | app/Services/ShopifyApiService.php:229 | `array_chunk(…, 250)` keeps every id in order, in chunks of 1 to 250 ids, every chunk but the last full, with the ceiling of n/250 chunks |
| ShopifyApi.NumericIds | app/Services/ShopifyApiService.php:219 | `array_filter(…, 'is_numeric')` keeps exactly the numeric ids |
| ShopifyApi.NumericIdsAppend | app/Services/ShopifyApiService.php:219 | filtering a concatenation is the concatenation of the filtered parts, so order and repetitions are kept |
| ShopifyApi.NumericIdsSingle | app/Services/ShopifyApiService.php:219 | one id is kept exactly when it is numeric |
| ShopifyApi.ScanChunksStep | app/Services/ShopifyApiService.php:233-295 | a chunk answered with products continues with them stored; any other answer ends the lookup as a failure after that chunk's request |
| ShopifyApi.StoreProductsValues | app/Services/ShopifyApiService.php:264-283 | storing products adds exactly the products with a truthy id, each with the stock of its last occurrence; other keys keep their values |
| ShopifyApi.StoreProductsAppend | app/Services/ShopifyApiService.php:264-283 | storing two lists of products is storing one after the other |
| ShopifyApi.ScanChunksRequests | app/Services/ShopifyApiService.php:233-295 | the chunks are requested in order, at most all of them, and nothing escapes the lookup |
| ShopifyApi.ScanChunksFetched | app/Services/ShopifyApiService.php:233-300 | all or nothing: the lookup succeeds exactly when every chunk is answered with a response, and then it asked for every chunk and holds exactly the returned products |
| ShopifyApi.ScanChunksFailed | app/Services/ShopifyApiService.php:246-294 | a failed lookup stopped at the first chunk that failed or threw, and returns no partial map |
| ShopifyApi.InventoryLevelsGuards | app/Services/ShopifyApiService.php:210-223 | without credentials the lookup is null; with no numeric id it is the empty map, with no request |
| ShopifyApi.InventoryLevelsDone | app/Services/ShopifyApiService.php:214-300 | a completed lookup asked for the numeric ids in consecutive chunks of at most 250, and maps each returned product with an id to its variant sum |
| ShopifyApi.StockExample | app/Services/ShopifyApiService.php:268-279 | stock is the plain sum of the truncated numeric quantities, so a negative quantity lowers it; a product without variants has stock 0 |
| ShopifyApi.ChunksOfTwoHundredFiftyOne | app/Services/ShopifyApiService.php:229 | 251 ids make two requests, of 250 ids and 1 id |
| ShopifyApi.SumVariants | app/Services/ShopifyApiService.php:271-279 | the variant loop computes exactly the specified stock sum |
| ShopifyApi.StoreChunk | app/Services/ShopifyApiService.php:263-283 | the product loop computes exactly the specified map update |
| ShopifyApi.GetInventoryLevels | app/Services/ShopifyApiService.php:208-300 | the chunk loop, with `Arr::get` as a keyed lookup, produces exactly the specified result and request sequence |
| ShopifyApi.AsWrittenThrowsOnFirstProduct | app/Services/ShopifyApiService.php:265-288 | as written, the first product of the first response throws an `Error` that the `catch (\Exception)` does not catch |
| ShopifyApi.AsWrittenNeverStores | app/Services/ShopifyApiService.php:265 | as written, a lookup ends normally only if no response held a product, and then it maps nothing |
| ShopifyApi.InventoryArrExample | app/Services/ShopifyApiService.php:265 | asking for product 1, which has stock 5: as written the lookup throws; with `Arr` resolved it returns stock 5 under key "1" |
| ShopifyApi.FirstPageRateLimitReportsZero | app/Services/ShopifyApiService.php:118 | as written, a 429 on the first page reports a total of 0 as a success after one request; retrying the page reads the order of 10 |
| ShopifyApi.TotalSalesRetryingDone | app/Services/ShopifyApiService.php:118 | with the retry, a total is returned only after a page without a next link, and it sums exactly the pages requested |
| ShopifyApi.GuardsBlockRequests | app/Services/ShopifyApiService.php:18-213 | without a token or a domain every method returns null and makes no request |
| GoogleAnalytics.ExpiresAtFrom | app/Services/GoogleAnalyticsService.php:89-90 | an expiry is stored exactly when a non-zero `expires` is given, and it is now plus that many seconds |
| GoogleAnalytics.RefreshStores | app/Services/GoogleAnalyticsService.php:64-112 | a refresh succeeds exactly when it returns a token; it then stores that access token and the new expiry, and stores the returned refresh token or else the old decrypted one; the property id is kept; a failed refresh changes nothing |
| GoogleAnalytics.RefreshSends | app/Services/GoogleAnalyticsService.php:69-85 | at most one grant is sent; one is sent exactly when the stored refresh token exists and decrypts, and it carries that decrypted token |
| GoogleAnalytics.ValidAccessTokenUsable | app/Services/GoogleAnalyticsService.php:121-145 | the stored token comes back unchanged, with no grant and no write, exactly when it is truthy and expires more than 60 s from now; otherwise the only token returned is a freshly granted one |
| GoogleAnalytics.StaleWithoutRefreshToken | app/Services/GoogleAnalyticsService.php:140-145 | a stale token with no refresh token gives null and contacts nobody |
| GoogleAnalytics.RetryOnceBounds | app/Services/GoogleAnalyticsService.php:158-225 | one wrapped report call sends at most one refresh grant and makes at most two Data API calls |
| GoogleAnalytics.RetryOnlyAfterUnauthorized | app/Services/GoogleAnalyticsService.php:185-213 | there is a second call exactly after a 401 on a token not refreshed in this request, and only with a successful refresh; the retry uses the newly granted token |
| GoogleAnalytics.RetryOnceResult | app/Services/GoogleAnalyticsService.php:179-225 | a result is the first call's answer after one call, or the retried call's answer; a non-401 failure gives null with no retry |
| GoogleAnalytics.NoSecondRefreshInRequest | app/Services/GoogleAnalyticsService.php:186-208 | a 401 on a token refreshed earlier in the same call is not retried |
| GoogleAnalytics.BasicMetricsOf | app/Services/GoogleAnalyticsService.php:252-263 | the first row's first two metrics, with a missing value read as 0; no rows give 0 and 0 |
| GoogleAnalytics.ChannelRowsAppend | app/Services/GoogleAnalyticsService.php:293-304 | the channel list of concatenated rows is the concatenation of their lists |
| GoogleAnalytics.ChannelRowsExact | app/Services/GoogleAnalyticsService.php:293-304 | every row with both values contributes its channel, every entry comes from such a row, and the list is no longer than the rows |
| GoogleAnalytics.ExtractChannels | app/Services/GoogleAnalyticsService.php:293-304 | the `foreach` computes exactly the specified channel list, in response order |
| GoogleAnalytics.ProductViewRowsAppend | app/Services/GoogleAnalyticsService.php:345-362 | the product-view list of concatenated rows is the concatenation of their lists |
| GoogleAnalytics.ProductViewRowsExact | app/Services/GoogleAnalyticsService.php:345-362 | every complete row contributes its item, every entry comes from such a row, and every entry has a truthy item id |
| GoogleAnalytics.ExtractProductViews | app/Services/GoogleAnalyticsService.php:345-362 | the `foreach` computes exactly the specified product-view list, in response order |
| GoogleAnalytics.FileReportsDomain | app/Services/GoogleAnalyticsService.php:503-525 | after filing n reports, the keys present are exactly the keys of those reports |
| GoogleAnalytics.FileReportsValue | app/Services/GoogleAnalyticsService.php:503-525 | a report's key holds that report's rows unless a later report has the same key |
| GoogleAnalytics.FillMissingKeeps | app/Services/GoogleAnalyticsService.php:527-533 | filling adds the missing requested keys with empty lists and keeps every filed entry |
| GoogleAnalytics.ReportsByKeyProperties | app/Services/GoogleAnalyticsService.php:500-538 | every requested key and every filed report has an entry; each report's rows sit under its key unless overwritten; a requested key with no report maps to the empty list |
| GoogleAnalytics.CollectReports | app/Services/GoogleAnalyticsService.php:500-538 | the two loops compute exactly the specified result map |
| GoogleAnalytics.BatchResource | app/Services/GoogleAnalyticsService.php:406-421 | the batch resource is `properties/` followed by the stored id |
| GoogleAnalytics.BatchResourceDoublePrefixed | app/Services/GoogleAnalyticsService.php:406 | for every id the request rules accept, the batch resource starts with `properties/properties/` and is no longer a property resource name |
| GoogleAnalytics.BatchResourceIntended | app/Services/GoogleAnalyticsService.php:181 | the intended batch resource is the stored id, unchanged |
| GoogleAnalytics.BatchResourceIntendedIsResource | app/Services/GoogleAnalyticsService.php:181 | with the intended resource and an accepted id, the batch calls are exactly the single-report calls on the stored id, and every call names a property resource |
| GoogleAnalytics.CallsTo | app/Services/GoogleAnalyticsService.php:177-199 | one Data API call per token set on the client, each on the same resource |
| GoogleAnalytics.GaConnection.constructor | app/Models/GaConnection.php:16-34 | the record holds the given row |
| GoogleAnalytics.GaConnection.StoreTokens | app/Services/GoogleAnalyticsService.php:88-99 | `update([...])` stores the new tokens through the cast and the new expiry, and nothing else |
| GoogleAnalytics.GoogleAnalyticsService.constructor | app/Services/GoogleAnalyticsService.php:30-56 | a new service has no refresh flag set and has sent nothing |
| GoogleAnalytics.GoogleAnalyticsService.AttemptTokenRefresh | app/Services/GoogleAnalyticsService.php:64-112 | the method's token, the record it leaves, the grants it sends and the flag it sets are exactly those of the refresh specification |
| GoogleAnalytics.GoogleAnalyticsService.GetValidAccessToken | app/Services/GoogleAnalyticsService.php:121-145 | exactly the token-validity specification, state included |
| GoogleAnalytics.GoogleAnalyticsService.RetryOnceOnUnauthorized | app/Services/GoogleAnalyticsService.php:158-225 | the shared retry-once body: result, record, grants, Data API calls and flag match the retry specification |
| GoogleAnalytics.GoogleAnalyticsService.RunReportWithErrorHandling | app/Services/GoogleAnalyticsService.php:158-225 | the retry specification, with every call made on the stored property id |
| GoogleAnalytics.GoogleAnalyticsService.BatchRunReportsWithErrorHandling | app/Services/GoogleAnalyticsService.php:382-442 | the retry specification, with every call made on the batch resource as written |
| GoogleAnalytics.GoogleAnalyticsService.GetBasicMetrics | app/Services/GoogleAnalyticsService.php:238-267 | null with no request and no change when the property id is falsy; otherwise the retry specification, with the basic metrics of the rows, or null when the fetch failed |
| GoogleAnalytics.GoogleAnalyticsService.GetSessionsByChannel | app/Services/GoogleAnalyticsService.php:278-316 | null with no request when the property id is falsy; otherwise the channel list of the rows, `[]` for none, or null when the fetch failed |
| GoogleAnalytics.GoogleAnalyticsService.GetProductViews | app/Services/GoogleAnalyticsService.php:328-370 | null with no request when the property id is falsy; otherwise the product-view list of the rows, `[]` for none, or null when the fetch failed |
| GoogleAnalytics.GoogleAnalyticsService.GetMultipleReports | app/Services/GoogleAnalyticsService.php:459-538 | null with no request when the property id is falsy, `[]` with no request for no definitions; otherwise the reports filed by key, or null when the batch call failed |
| InventoryAnalysis.Classify | app/Services/InventoryAnalysisService.php:139-149 | stock-out risk exactly when stock ≤ 10 and views ≥ 50; promotion candidate exactly when stock ≥ 100 and views ≤ 5; no status exactly when neither holds |
| InventoryAnalysis.ClassifyBoundaries | app/Services/InventoryAnalysisService.php:139-149 | (10, 50) is a risk; (11, 50) and (10, 49) are neither; (100, 5) is a candidate; (99, 5) and (100, 6) are neither; negative stock counts as low |
| InventoryAnalysis.CorrelateViews | app/Services/InventoryAnalysisService.php:111-158 | the `foreach` over the views computes exactly the specified insight list |
| InventoryAnalysis.ProcessedIsTruthyIds | app/Services/InventoryAnalysisService.php:118-157 | the processed set is exactly the truthy product ids seen, whether or not they had stock |
| InventoryAnalysis.CorrelateIsReference | app/Services/InventoryAnalysisService.php:114-158 | on every prefix of the views, the loop computes the reference list: one insight per first occurrence of a product that has stock and meets a rule, in view order |
| InventoryAnalysis.CorrelateMatchesReference | app/Services/InventoryAnalysisService.php:114-158 | the loop's insights are the reference list |
| InventoryAnalysis.ReferenceMembers | app/Services/InventoryAnalysisService.php:114-158 | an insight is in the list exactly when it is the insight of the first view of its product |
| InventoryAnalysis.ReferenceDistinct | app/Services/InventoryAnalysisService.php:118-157 | no product appears twice in the list |
| InventoryAnalysis.CorrelateLength | app/Services/InventoryAnalysisService.php:114-158 | there are never more insights than views |
| InventoryAnalysis.DuplicateViewIgnored | app/Services/InventoryAnalysisService.php:118-157 | a repeated product keeps the views of its first row only |
| InventoryAnalysis.ProductIds | app/Services/InventoryAnalysisService.php:87 | an id is sent to Shopify exactly when some view carries it as a truthy product id |
| InventoryAnalysis.ProductIdsAppend | app/Services/InventoryAnalysisService.php:87 | the extraction of a concatenation is the concatenation of the extractions, so order and repeated ids are kept |
| InventoryAnalysis.ProductIdsSingle | app/Services/InventoryAnalysisService.php:87 | one view gives its product id exactly when that id is truthy, and nothing otherwise |
| InventoryAnalysis.ProductIdsOfExtractedViews | app/Services/InventoryAnalysisService.php:87-94 | views from `getProductViews` always give some id when there are any, so the no-ids branch is unreachable from it |
| InventoryAnalysis.AnalyzeCacheHit | app/Services/InventoryAnalysisService.php:40-48 | a cached list, the empty one included, is returned unchanged with no call and no write |
| InventoryAnalysis.AnalyzeMissingConnection | app/Services/InventoryAnalysisService.php:53-58 | a missing shop or a falsy property id gives `[]`, caches `[]`, and makes no call |
| InventoryAnalysis.AnalyzeErrorsNotCached | app/Services/InventoryAnalysisService.php:71-174 | an exception gives the error entry and caches nothing, exactly when it comes from a call that was made; a handled fetch failure gives `[]` and caches nothing |
| InventoryAnalysis.AnalyzeSuccess | app/Services/InventoryAnalysisService.php:87-165 | a complete analysis returns the correlated insights, asked Shopify for exactly the extracted ids, and caches the insights for 3600 s and no longer |
| InventoryAnalysis.CorrelateMeetsRules | app/Services/InventoryAnalysisService.php:127-190 | every insight names a product Shopify reported, carries that stock, meets the rule of its status and says so in its message; no product appears twice |
| InventoryAnalysis.AnalyzeInsightsMeetRules | app/Services/InventoryAnalysisService.php:38-175 | when both fetches succeed, an uncached analysis returns insights, and each one names a product Shopify reported and meets the rule of its status |
| InventoryAnalysis.ArrNotImportedBreaksAnalysis | app/Services/InventoryAnalysisService.php:100-174 | fed by the lookup as written, an analysis of a stocked product ends in the error entry and caches nothing; with `Arr` resolved it gives the stock-out insight |
| InventoryAnalysis.InventoryAnalysisService.constructor | app/Services/InventoryAnalysisService.php:25-28 | the service starts from the given cache and has made no request |
| InventoryAnalysis.InventoryAnalysisService.AnalyzeProductInventory | app/Services/InventoryAnalysisService.php:38-175 | the result, the cache left and the requests made are exactly those of the analysis specification |
| Dashboard.CalculateDateRange | app/Services/DashboardService.php:151-176 | start ≤ end ≤ today for every identifier, and the label is one of the four |
| Dashboard.ThirtyDayPeriod | app/Services/DashboardService.php:156-159 | `30d` runs from 29 days before today to today: 30 days labelled `last_30_days` |
| Dashboard.SevenDayPeriod | app/Services/DashboardService.php:169-173 | `7d` and every unlisted identifier run from 6 days before today to today: 7 days labelled `last_7_days` |
| Dashboard.ThisMonthPeriod | app/Services/DashboardService.php:160-163 | `this_month` runs from this month's first to today, as many days as today's day of the month |
| Dashboard.LastMonthPeriod | app/Services/DashboardService.php:164-168 | `last_month` is the whole previous calendar month, ending the day before this month starts |
| Dashboard.Aov | app/Services/DashboardService.php:197-200 | null unless both paid sales and the paid-order count are known; with paid orders, AOV times the count is the sales; with a count of 0 it is 0 |
| Dashboard.ConversionRate | app/Services/DashboardService.php:268-270 | null unless total orders and sessions are known; with sessions, rate times sessions is orders times 100; with 0 sessions it is 0 |
| Dashboard.ShopifyMetricsOf | app/Services/DashboardService.php:197-208 | the shop name, or the domain without one; the counts, sales and trend as returned; AOV from the paid figures |
| Dashboard.GaMetricsOf | app/Services/DashboardService.php:232-254 | sessions and active users are known exactly when the basic metrics came back; the traffic sources are as returned |
| Dashboard.CalculateCombinedMetrics | app/Services/DashboardService.php:265-275 | a conversion rate exactly when total orders and sessions are known, and it equals the conversion-rate specification |
| Dashboard.FormatResponse | app/Services/DashboardService.php:291-321 | the flags mirror a shop, a GA connection and a non-null property id; the period carries the label and both date strings; the sections pass through |
| Dashboard.PlanServices | app/Services/DashboardService.php:69-99 | every planned call goes to a service the user is connected to, and the inventory analysis needs both connections |
| Dashboard.ThroughPrefix | app/Services/DashboardService.php:67-101 | the calls made are a prefix of the plan, the whole plan when nothing throws, and never empty when something does |
| Dashboard.ThroughAppend | app/Services/DashboardService.php:67-101 | a throw in the first part of a plan stops the second part from running |
| Dashboard.ThroughCons | app/Services/DashboardService.php:67-101 | the call that throws is the last call made |
| Dashboard.ThroughShopifyCalls | app/Services/DashboardService.php:191-195 | the Shopify calls made, for each call that might throw |
| Dashboard.ShopifyCallsListed | app/Services/DashboardService.php:191-195 | the Shopify step lists exactly the calls that go to Shopify |
| Dashboard.ThroughGaCalls | app/Services/DashboardService.php:229-230 | a throw in `getBasicMetrics` skips `getSessionsByChannel` |
| Dashboard.RaisesInPlan | app/Services/DashboardService.php:67-101 | something in the plan throws exactly when something in its Shopify part or its GA part does |
| Dashboard.CacheKey | app/Services/DashboardService.php:37 | the key ends with the raw period identifier |
| Dashboard.CacheKeyPerPeriod | app/Services/DashboardService.php:37 | for one user, different identifiers never share a key |
| Dashboard.CachedDashboard | app/Services/DashboardService.php:40-46 | a live cache entry is returned as stored, with no call and no write |
| Dashboard.CallsGated | app/Services/DashboardService.php:69-99 | Shopify is called only for a user with a shop; GA only with a connection whose property id is non-null; the analysis only with both |
| Dashboard.SectionsGated | app/Services/DashboardService.php:67-99 | without a shop there are no Shopify metrics; without a ready GA connection there are no GA or calculated metrics; analysis insights appear only with both |
| Dashboard.ResponseCached | app/Services/DashboardService.php:91-143 | an uncached request with no throw stores its response, an analysis error list included, for 900 s; a repeat then gets it with no call; other keys are untouched |
| Dashboard.PartialFailureNotCached | app/Services/DashboardService.php:101-121 | a throw stops the calls after it, caches nothing, and gives empty sections with the error entry |
| Dashboard.ConversionGated | app/Services/DashboardService.php:81-83 | a conversion rate section exists exactly when there is a shop, a ready GA connection and basic GA metrics, and it uses the reported sessions |
| Dashboard.UnknownPeriodIsSevenDays | app/Services/DashboardService.php:169-173 | an unknown identifier gives the same response as `7d`, under its own cache key |
| Dashboard.DashboardService.constructor | app/Services/DashboardService.php:19-23 | the service starts from the given cache and has made no call |
| Dashboard.DashboardService.Invoke | app/Services/DashboardService.php:67-101 | one call is logged; it raises exactly when it is the call that throws |
| Dashboard.DashboardService.RequestShopify | app/Services/DashboardService.php:191-195 | the five Shopify calls, in order, up to the one that throws |
| Dashboard.DashboardService.FetchShopifyMetrics | app/Services/DashboardService.php:185-211 | it raises exactly when a Shopify call throws; otherwise it returns the specified Shopify section; the calls made are logged |
| Dashboard.DashboardService.FetchGaMetrics | app/Services/DashboardService.php:220-257 | it raises exactly when a GA call throws; otherwise it returns the specified GA section |
| Dashboard.DashboardService.FetchGaSections | app/Services/DashboardService.php:76-99 | steps 3 to 5 give exactly the specified sections, with the calls of the GA part up to a throw |
| Dashboard.DashboardService.TryFetchSections | app/Services/DashboardService.php:67-99 | the `try` block gives exactly the specified sections and calls, and raises exactly when a planned call throws |
| Dashboard.DashboardService.GetDashboardData | app/Services/DashboardService.php:33-144 | the response, the cache left and the calls made are exactly those of the request specification |
| Connections.ShopTokenSaved | app/Http/Controllers/Api/V1/ConnectionController.php:23-39 | a refused request writes nothing; 200 exactly with a user and valid fields; valid fields without a user give 401; a save upserts the user's one row with the domain and a token that reads back as sent, and no other row changes |
| Connections.SavedShopCredentials | app/Http/Controllers/Api/V1/ConnectionController.php:29-32 | a saved shop passes the Shopify credential guard unless the domain or the token is the string "0" |
| Connections.CallbackGuards | app/Http/Controllers/Api/V1/ConnectionController.php:71-130 | a missing or non-string code gives 422, and a missing user 401, both before any exchange or write; an exchange happens exactly when both pass; a failed exchange writes nothing and gives 400 or 500 |
| Connections.CallbackStores | app/Http/Controllers/Api/V1/ConnectionController.php:100-122 | a granted exchange returns 200 and stores an access token that reads back as sent and the new expiry; it keeps the property id, stores a returned refresh token, and leaves other users' rows alone |
| Connections.CallbackDoubleEncrypts | app/Http/Controllers/Api/V1/ConnectionController.php:112 | as written, a callback with no new refresh token leaves a refresh token that reads back as the old ciphertext, not the token, and the next refresh sends that ciphertext to the provider |
| Connections.CallbackIntendedKeepsRefreshToken | app/Http/Controllers/Api/V1/ConnectionController.php:112 | with the raw ciphertext written back unchanged, the refresh token survives the callback and the next refresh sends it |
| Connections.PropertySaved | app/Http/Controllers/Api/V1/ConnectionController.php:139-143 | 200 exactly with a user, a valid id and an existing connection; every refusal writes nothing; no connection means 404; a save changes the property id alone |
| Connections.SavedPropertyIsUsable | app/Http/Controllers/Api/V1/ConnectionController.php:142 | a saved property id is truthy, so the report getters use it |
| Connections.ConnectionController.constructor | app/Http/Controllers/Api/V1/ConnectionController.php:20 | the controller (which has no constructor of its own) starts from the given tables and has exchanged no code |
| Connections.ConnectionController.SaveShopifyTokenRequest | app/Http/Controllers/Api/V1/ConnectionController.php:23-39 | status and shops table exactly as the save specification says; the GA table is untouched |
| Connections.ConnectionController.HandleGoogleCallback | app/Http/Controllers/Api/V1/ConnectionController.php:65-131 | status and GA table exactly as the callback specification (as written) says, with the code exchanged logged; shops untouched |
| Connections.ConnectionController.SaveGaPropertyIdRequest | app/Http/Controllers/Api/V1/ConnectionController.php:139-143 | status and GA table exactly as the property specification says; nothing else changes |

## Left out

- HTTP transport is out of the model: the `retry(3, 1000)`, the `sleep(5)`, headers and URLs. Each page, chunk or API response is an input. Whether `retry()` throws after its last attempt is library behaviour and is not modelled.
- Logging (`Log::`) is not modelled; it has no effect on results.
- `Crypt` is modelled by a concrete tagged cipher. The properties use only its round-trip law and the fact that a ciphertext is longer than its plaintext. Real key handling and `DecryptException` causes are not modelled.
- The Google and OAuth client libraries are out of the model. A grant's `getExpires` is taken as the number of seconds to go, as the code reads it.
- The report request bodies (`RunReportRequest`, `DateRange`, `OrderBy`, limits) are not modelled. Ordering and limits are the provider's; the model keeps the order received.
- Sales, AOV and conversion rate are exact `real`s. PHP float rounding is not modelled.
- Time is a given integer clock and a given date. `Carbon::now()`, time of day and time zones are not modelled. `startOfDay()` and `endOfDay()` are no-ops at day granularity.
- Order timestamps are given as already parsed dates, or as unparsable. `Carbon::parse` itself is not modelled.
- The ISO-8601 query timestamps are given strings.
- Pagination has an extra `Incomplete` outcome for a run that uses up the given answers. The source can loop for ever on repeated 429s, which a finite list of answers cannot show.
- Response functions are total and deterministic: the same chunk always gets the same answer.
- The dashboard takes the other services' results as parameters (`Sources`), and `raisedAt` names the one call that throws. It does not call the GA or inventory models directly.
- Provider instantiation failures are not modelled: the 500 at app/Http/Controllers/Api/V1/ConnectionController.php:88-95 and the client set-up failure at app/Services/GoogleAnalyticsService.php:170-176.
- Database exceptions are not modelled: the 500 at app/Http/Controllers/Api/V1/ConnectionController.php:35-38 and the catch-all of `saveGaPropertyId`. Their response bodies are out of the model too.
- Connections.SaveGaPropertyId: it does not model the 401 in `saveGaPropertyId`, because `authorize` has already refused an anonymous caller with 403.
- Connections.ConnectionController.HandleGoogleCallback: it models the code as written, keeping the double encryption of F2 in the findings below. The intended write is `CallbackRowIntended`, proved beside it.
- GoogleAnalytics.GoogleAnalyticsService.GetMultipleReports: the report rows hold integer metrics. The source (app/Services/GoogleAnalyticsService.php:515-516) copies each metric's raw `getValue()` string, such as `"12.5"`, without the `(int)` cast the other report readers apply.
- PhpValues.IntCast: integers are unbounded. PHP's 64-bit `int` is not modelled, so neither is `(int)` of a float outside its range.
- ShopifyApi.SumVariants: the stock sum is unbounded; `$totalInventory +=` wrapping into a float past `PHP_INT_MAX` is not modelled.
- GoogleAnalytics.GoogleAnalyticsService.BatchRunReportsWithErrorHandling: it models the code as written, with the `properties/` prefix of F3. The intended resource is `BatchResourceIntended`, proved beside it.
- ShopifyApi.GetTotalSales: it models the code as written, with the first-page 429 of F4. `TotalSalesRetrying` is the intended behaviour.
- `getInventoryLevels` is modelled with `Arr::get` resolving (`GetInventoryLevels`). Its as-written behaviour is `InventoryLevelsAsWritten`, described under F1.
- E-mail well-formedness and uniqueness (`email`, `unique:users,email`) are boolean inputs, because they need a library validator and the database.
- The password symbol and case classes are ASCII. Unicode categories beyond ASCII are not modelled.
- `redirectToGoogle`, `AuthController`, `UserController`, `DashboardController`, `InventoryController` and the routes are not part of this model. They do authentication, routing and JSON wrapping only.
- `TrendOf` falls back to a zero row for a day without a bucket. This cannot happen after `ZeroBuckets`, and no property depends on it.
- The `use HasFactory` models and the migrations are only the record shapes: `ShopRow`, `GaRow`, and one row per user id.

## Findings

| source | as written | input that shows it | evidently intended | confidence | as-written member | corrected member |
|---|---|---|---|---|---|---|
| app/Services/ShopifyApiService.php:265 | F1: `Arr::get` without `use Illuminate\Support\Arr`. Inside `App\Services` this names a missing class, and the `Error` escapes `catch (\Exception)` at line 288. | A shop whose response for product "1" holds one product with stock 5. The lookup throws, and the analysis returns the error entry. | `Arr::get` as a keyed lookup with a default, giving `["1" => 5]` and a stock-out insight for 60 views | not executed | ShopifyApi.InventoryArrExample, ShopifyApi.AsWrittenThrowsOnFirstProduct, InventoryAnalysis.ArrNotImportedBreaksAnalysis | ShopifyApi.GetInventoryLevels, ShopifyApi.InventoryLevelsDone |
| app/Http/Controllers/Api/V1/ConnectionController.php:112 | F2: with no new refresh token, the stored refresh token's raw ciphertext is written back through the encrypting cast (app/Casts/Encrypted.php:48) | A connection holding refresh token r, then a callback whose grant has no refresh token. The token read back is encrypt(r), and the next refresh sends it. | Keep the stored ciphertext unchanged, so the token still reads as r | not executed | Connections.CallbackDoubleEncrypts | Connections.CallbackIntendedKeepsRefreshToken |
| app/Services/GoogleAnalyticsService.php:406 | F3: the batch call sends `'properties/' . $ga4PropertyId`, while the single-report call at line 181 sends the id as stored | `properties/123`, the id the request rules require, becomes `properties/properties/123` | Send the stored id verbatim, like line 181 | not executed | GoogleAnalytics.BatchResourceDoublePrefixed | GoogleAnalytics.BatchResourceIntendedIsResource |
| app/Services/ShopifyApiService.php:118 | F4: a 429 reaches `continue`, which jumps to `while ($nextPageUrl)`. On the first page that is still null, so the loop ends. | A first page answered 429, provided `retry(3, 1000)` hands back the failed response rather than throwing, then a page holding one order of 10. The total is reported as 0.0 after one request. | Re-request the first page, as a 429 on later pages does, giving 10.0 | not executed | ShopifyApi.FirstPageRateLimitReportsZero | ShopifyApi.TotalSalesRetryingDone |

