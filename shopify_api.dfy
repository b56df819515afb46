/** The Shopify Admin REST adapter (app/Services/ShopifyApiService.php):
    credential guards, the orders-count query, cursor pagination over the
    `Link` response header (RFC 8288, section 3), the paid-sales total, the
    daily sales trend and the chunked inventory lookup.

    HTTP is outside the model. A paginated fetch receives the responses its
    successive requests get, in order (a script); one that would need more
    responses than the script holds ends as `Incomplete`. An inventory chunk
    request is answered by a function of the ids it asks for. */
module ShopifyApi {
  import opened Wrappers
  import opened PhpValues
  import opened Calendar
  import Encrypted

  // ---------------------------------------------------------------- Link header

  /** The position of the first `c` in `s`. */
  function IndexOf(s: string, c: char): (i: nat)
    requires c in s
    ensures i < |s| && s[i] == c && c !in s[..i]
  {
    if s[0] == c then 0 else assert s[1..] == s[..][1..]; IndexOf(s[1..], c) + 1
  }

  /** `explode(',', $s)`. */
  function Explode(s: string): (parts: seq<string>)
    ensures |parts| >= 1
    ensures forall k :: 0 <= k < |parts| ==> ',' !in parts[k]
    decreases |s|
  {
    if ',' !in s then [s]
    else var i := IndexOf(s, ','); [s[..i]] + Explode(s[i + 1..])
  }

  /** `implode(',', $parts)`. */
  function Implode(parts: seq<string>): string
    requires |parts| >= 1
  {
    if |parts| == 1 then parts[0] else parts[0] + "," + Implode(parts[1..])
  }

  /** Splitting on commas loses nothing: joining the parts gives the header back. */
  lemma {:induction false} ImplodeExplode(s: string)
    ensures Implode(Explode(s)) == s
    decreases |s|
  {
    if ',' in s {
      var i := IndexOf(s, ',');
      var rest := Explode(s[i + 1..]);
      ImplodeExplode(s[i + 1..]);
      assert Explode(s) == [s[..i]] + rest;
      assert ([s[..i]] + rest)[1..] == rest;
      assert Implode(Explode(s)) == s[..i] + "," + Implode(rest);
      assert s == s[..i] + "," + s[i + 1..];
    }
  }

  /** `t` occurs in `s` at position `i`. */
  predicate OccursAt(s: string, t: string, i: int) {
    0 <= i <= |s| - |t| && s[i..i + |t|] == t
  }

  /** `strpos($s, $t) !== false`. */
  predicate Contains(s: string, t: string) {
    exists i | 0 <= i <= |s| - |t| :: OccursAt(s, t, i)
  }

  const RelNext: string := "rel=\"next\""

  /** From position `j`, the first `>` reached before any newline (PCRE's `.`
      does not match a newline). */
  function CloseFrom(s: string, j: nat): (r: Option<nat>)
    requires j <= |s|
    ensures r.Some? ==>
      j <= r.value < |s| && s[r.value] == '>' && forall k :: j <= k < r.value ==> s[k] != '>' && s[k] != '\n'
    ensures r.None? ==> forall k :: j <= k < |s| && s[k] == '>' ==> exists m :: j <= m < k && s[m] == '\n'
    decreases |s| - j
  {
    if j == |s| then None
    else if s[j] == '>' then Some(j)
    else if s[j] == '\n' then None
    else CloseFrom(s, j + 1)
  }

  /** `preg_match('/<(.*?)>/', $s, $m)` searching from position `i`: the group
      of the leftmost match, None when there is no match. */
  function AngleMatch(s: string, i: nat): (r: Option<string>)
    requires i <= |s|
    ensures r.Some? ==> '>' !in r.value && '\n' !in r.value
    decreases |s| - i
  {
    if i == |s| then None
    else if s[i] == '<' && CloseFrom(s, i + 1).Some? then
      var j := CloseFrom(s, i + 1).value;
      Some(s[i + 1..j])
    else AngleMatch(s, i + 1)
  }

  /** A match of `/<(.*?)>/` starts at position `p`. */
  predicate OpensMatch(s: string, p: nat)
    requires p < |s|
  {
    s[p] == '<' && CloseFrom(s, p + 1).Some?
  }

  /** The search is complete and leftmost: it finds nothing exactly when no
      position opens a match, and otherwise returns the group of the first
      position that does. */
  lemma {:induction false} AngleMatchLeftmost(s: string, i: nat)
    requires i <= |s|
    ensures AngleMatch(s, i).None? <==> forall p :: i <= p < |s| ==> !OpensMatch(s, p)
    ensures AngleMatch(s, i).Some? ==>
      exists p :: i <= p < |s| && OpensMatch(s, p) && AngleMatch(s, i).value == s[p + 1..CloseFrom(s, p + 1).value]
                  && forall q :: i <= q < p ==> !OpensMatch(s, q)
    decreases |s| - i
  {
    if i < |s| && !OpensMatch(s, i) {
      AngleMatchLeftmost(s, i + 1);
      if AngleMatch(s, i).Some? {
        var p :| i + 1 <= p < |s| && OpensMatch(s, p) && AngleMatch(s, i + 1).value == s[p + 1..CloseFrom(s, p + 1).value]
                 && forall q :: i + 1 <= q < p ==> !OpensMatch(s, q);
        assert forall q :: i <= q < p ==> !OpensMatch(s, q);
      }
    } else if i < |s| {
      assert i <= i < |s| && OpensMatch(s, i);
    }
  }

  /** A match is a `<`, the group, and a `>`, at some position. */
  lemma {:induction false} AngleMatchShape(s: string, i: nat)
    requires i <= |s| && AngleMatch(s, i).Some?
    ensures var u := AngleMatch(s, i).value;
      exists p :: i <= p && p + |u| + 1 < |s| && s[p] == '<' && s[p + 1..p + 1 + |u|] == u && s[p + 1 + |u|] == '>'
    decreases |s| - i
  {
    if !(s[i] == '<' && CloseFrom(s, i + 1).Some?) {
      AngleMatchShape(s, i + 1);
    } else {
      var j := CloseFrom(s, i + 1).value;
      assert s[i + 1..i + 1 + (j - i - 1)] == AngleMatch(s, i).value;
    }
  }

  /** The `foreach ($links as $link)` search: the group of the first segment
      that names `rel="next"` and has a `<...>` match. */
  function FirstNext(segments: seq<string>): (r: Option<string>)
    ensures r.Some? ==> exists k :: 0 <= k < |segments| && Contains(segments[k], RelNext) && AngleMatch(segments[k], 0) == r
  {
    if segments == [] then None
    else if Contains(segments[0], RelNext) && AngleMatch(segments[0], 0).Some? then AngleMatch(segments[0], 0)
    else
      var r := FirstNext(segments[1..]);
      assert r.Some? ==> exists k :: 1 <= k < |segments| && Contains(segments[k], RelNext) && AngleMatch(segments[k], 0) == r;
      r
  }

  /** The next-page URL of a response from its `Link` header ("" when absent). */
  function NextLink(header: string): Option<string> {
    if !Truthy(header) then None else FirstNext(Explode(header))
  }

  /** The segments before the chosen one have no usable `rel="next"` link. */
  lemma {:induction false} FirstNextIsFirst(segments: seq<string>, k: nat)
    requires k < |segments| && Contains(segments[k], RelNext) && AngleMatch(segments[k], 0).Some?
    ensures FirstNext(segments).Some?
    ensures FirstNext(segments) == AngleMatch(segments[k], 0)
            || exists m :: 0 <= m < k && Contains(segments[m], RelNext) && AngleMatch(segments[m], 0).Some?
  {
    if k > 0 && !(Contains(segments[0], RelNext) && AngleMatch(segments[0], 0).Some?) {
      FirstNextIsFirst(segments[1..], k - 1);
      if !(FirstNext(segments[1..]) == AngleMatch(segments[1..][k - 1], 0)) {
        var m :| 0 <= m < k - 1 && Contains(segments[1..][m], RelNext) && AngleMatch(segments[1..][m], 0).Some?;
        assert segments[1..][m] == segments[m + 1];
      }
    }
  }

  /** A segment without `rel="next"` is passed over for a later one. */
  lemma NextLinkExample()
    ensures NextLink("<a>,<b>; rel=\"next\"") == Some("b")
  {
    ExplodeExample();
    FirstNextExample();
  }

  lemma FirstNextExample()
    ensures FirstNext(["<a>", "<b>; rel=\"next\""]) == Some("b")
  {
    var second := "<b>; rel=\"next\"";
    assert !Contains("<a>", RelNext);
    assert OccursAt(second, RelNext, 5);
    AngleExample();
    assert FirstNext([second]) == Some("b");
    assert ["<a>", second][1..] == [second];
  }

  lemma ExplodeExample()
    ensures Explode("<a>,<b>; rel=\"next\"") == ["<a>", "<b>; rel=\"next\""]
  {
    var h := "<a>,<b>; rel=\"next\"";
    var second := "<b>; rel=\"next\"";
    FirstCommaExample();
    NoCommaExample();
    assert h[4..] == second;
    assert Explode(h) == [h[..3]] + Explode(h[4..]);
  }

  lemma FirstCommaExample()
    ensures IndexOf("<a>,<b>; rel=\"next\"", ',') == 3
    ensures "<a>,<b>; rel=\"next\""[..3] == "<a>"
  {
    var h := "<a>,<b>; rel=\"next\"";
    assert h[3] == ',';
    assert h[..3] == "<a>";
  }

  lemma NoCommaExample()
    ensures Explode("<b>; rel=\"next\"") == ["<b>; rel=\"next\""]
  {
    var second := "<b>; rel=\"next\"";
    assert forall k :: 0 <= k < |second| ==> second[k] != ',';
  }

  lemma AngleExample()
    ensures AngleMatch("<b>; rel=\"next\"", 0) == Some("b")
  {
    var second := "<b>; rel=\"next\"";
    assert CloseFrom(second, 2) == Some(2);
    assert CloseFrom(second, 1) == Some(2);
    assert second[1..2] == "b";
  }

  /** `CloseFrom` stops at the first `>` when no newline comes before it. */
  lemma {:induction false} CloseFromReaches(s: string, j: nat, t: nat)
    requires j <= t < |s| && s[t] == '>'
    requires forall k :: j <= k < t ==> s[k] != '>' && s[k] != '\n'
    ensures CloseFrom(s, j) == Some(t)
    decreases t - j
  {
    if j < t {
      CloseFromReaches(s, j + 1, t);
    }
  }

  /** The inner loop over the header's segments, stopping at the first hit. */
  method ParseNextLink(header: string) returns (next: Option<string>)
    ensures next == NextLink(header)
  {
    next := None;
    if !Truthy(header) {
      return;
    }
    var links := Explode(header);
    var i := 0;
    while i < |links|
      invariant 0 <= i <= |links|
      invariant FirstNext(links) == FirstNext(links[i..])
    {
      assert links[i..][1..] == links[i + 1..];
      if Contains(links[i], RelNext) {
        var matches := AngleMatch(links[i], 0);
        if matches.Some? {
          next := matches;
          return;
        }
      }
      i := i + 1;
    }
  }

  // ---------------------------------------------------------------- Credentials

  /** A `shops` row: the domain and the stored (encrypted) access token. */
  datatype ShopRow = ShopRow(domain: string, accessTokenCipher: string)

  /** `$shop->access_token`, read through the `Encrypted` cast. */
  function AccessToken(shop: ShopRow): Option<string> {
    Encrypted.Get(Some(shop.accessTokenCipher))
  }

  /** The guard every method opens with: `$shop->access_token && $shop->shop_domain`. */
  predicate HasCredentials(shop: ShopRow) {
    TruthyOpt(AccessToken(shop)) && Truthy(shop.domain)
  }

  /** A shop saved through the cast with a truthy token and domain passes the guard. */
  lemma SavedShopHasCredentials(domain: string, token: string)
    requires Truthy(domain) && Truthy(token)
    ensures HasCredentials(ShopRow(domain, Encrypted.Set(Some(token)).value))
  {
    Encrypted.GetSet(Some(token));
  }

  // ---------------------------------------------------------------- Shop info

  /** The answer to a single request: a 2xx body's field, an error status,
      or an exception. */
  datatype Reply<J> = Success(field: Option<J>) | HttpError(status: int) | Raised

  /** One run of a single-request method: its result and whether the
      request was sent. */
  datatype CallTrace<R> = CallTrace(result: Option<R>, requested: bool)

  /** `getShopInfo`: the `shop` field of a successful response, else null. */
  function ShopInfo<J>(shop: ShopRow, reply: Reply<J>): (t: CallTrace<J>)
    ensures t.requested <==> HasCredentials(shop)
    ensures t.result.Some? <==> HasCredentials(shop) && reply.Success? && reply.field.Some?
    ensures t.result.Some? ==> t.result == reply.field
  {
    if !HasCredentials(shop) then CallTrace(None, false)
    else match reply
      case Success(field) => CallTrace(field, true)
      case HttpError(_) => CallTrace(None, true)
      case Raised => CallTrace(None, true)
  }

  // ---------------------------------------------------------------- Orders count

  /** The query of `getOrdersCount`. The timestamps are the `toIso8601String()`
      renderings of the two dates, taken as given. */
  function OrdersCountQuery(status: string, createdAtMin: string, createdAtMax: string,
                            financialStatus: Option<string>): (q: map<string, string>)
    ensures "status" in q && q["status"] == status
    ensures "created_at_min" in q && q["created_at_min"] == createdAtMin
    ensures "created_at_max" in q && q["created_at_max"] == createdAtMax
    ensures "financial_status" in q <==> financialStatus.Some?
    ensures financialStatus.Some? ==> q["financial_status"] == financialStatus.value
    ensures q.Keys <= {"status", "created_at_min", "created_at_max", "financial_status"}
  {
    var base := map["status" := status, "created_at_min" := createdAtMin, "created_at_max" := createdAtMax];
    if financialStatus.Some? then base["financial_status" := financialStatus.value] else base
  }

  /** `getOrdersCount`: the query sent (if any) and the count, `(int)` of a
      numeric `count` field; null for a missing or non-numeric count and for
      every failure, a 429 included. */
  function OrdersCount(shop: ShopRow, status: string, createdAtMin: string, createdAtMax: string,
                       financialStatus: Option<string>, reply: Reply<Scalar>): (r: (Option<int>, Option<map<string, string>>))
    ensures r.1.Some? <==> HasCredentials(shop)
    ensures r.1.Some? ==> r.1.value == OrdersCountQuery(status, createdAtMin, createdAtMax, financialStatus)
    ensures r.0.Some? <==> HasCredentials(shop) && reply.Success? && reply.field.Some? && reply.field.value.Numeric?
    ensures r.0.Some? ==> r.0.value == IntCast(reply.field.value.value)
  {
    if !HasCredentials(shop) then (None, None)
    else
      var query := OrdersCountQuery(status, createdAtMin, createdAtMax, financialStatus);
      match reply
        case Success(Some(Numeric(c))) => (Some(IntCast(c)), Some(query))
        case Success(_) => (None, Some(query))
        case HttpError(_) => (None, Some(query))
        case Raised => (None, Some(query))
  }

  // ---------------------------------------------------------------- Pagination

  /** `created_at` once `Carbon::parse` has read it; `Unparsable` is a value
      it rejects with an exception. */
  datatype OrderDate = ParsedAt(date: ValidDate) | Unparsable

  /** An order as the pagination loops read it (absent fields are None). */
  datatype Order = Order(createdAt: Option<OrderDate>, totalPrice: Option<Scalar>)

  /** One page request's answer: a non-failed response (its `orders` field,
      None when not an array, and its `Link` header, "" when absent), a failed
      response (status 400 or more) or an exception. */
  datatype PageResponse = Page(orders: Option<seq<Order>>, link: string) | PageFailed(status: int) | PageThrew

  const TooManyRequests: int := 429

  /** What a request asks for: `orders.json` with the query, or a next-page URL. */
  datatype Target = FirstPage | NextPage(url: string)

  /** How a paginated fetch ends: with its value, with null, or (a model
      artefact) having used up the responses it was given. */
  datatype Paged<A> = Done(value: A) | Aborted | Incomplete

  datatype PagedTrace<A> = PagedTrace(outcome: Paged<A>, requests: seq<Target>)

  /** `$currentUrl = $nextPageUrl ?: $apiUrl`. */
  function TargetOf(next: Option<string>): Target {
    if TruthyOpt(next) then NextPage(next.value) else FirstPage
  }

  /** A trace with requests made before it. */
  function Then<A>(before: seq<Target>, t: PagedTrace<A>): PagedTrace<A> {
    PagedTrace(t.outcome, before + t.requests)
  }

  lemma ThenThen<A>(before: seq<Target>, t: Target, u: PagedTrace<A>)
    ensures Then(before, Then([t], u)) == Then(before + [t], u)
  {
    assert before + ([t] + u.requests) == before + [t] + u.requests;
  }

  /** What one turn of the loop leads to: the end of the fetch, or the next
      turn from a new state. */
  datatype Turn<A> = Stop(outcome: Paged<A>) | Continue(acc: A, next: Option<string>)

  /** One turn of the `do { ... } while ($nextPageUrl)` loop from the state
      (`acc`, `next`) on answer `response`. `fold` folds one page's `orders`
      into the accumulator (None: it threw). A 429 `continue`s to the loop
      test, which ends the loop with the running value while `next` is still
      null; with `retryFirst` the first page is asked for again instead. */
  function TurnOf<A>(fold: (A, Option<seq<Order>>) -> Option<A>, acc: A, next: Option<string>,
                     response: PageResponse, retryFirst: bool): Turn<A>
  {
    match response
    case PageThrew => Stop(Aborted)
    case PageFailed(status) =>
      if status != TooManyRequests then Stop(Aborted)
      else if TruthyOpt(next) || retryFirst then Continue(acc, next)
      else Stop(Done(acc))
    case Page(orders, link) =>
      match fold(acc, orders)
      case None => Stop(Aborted)
      case Some(acc') => if TruthyOpt(NextLink(link)) then Continue(acc', NextLink(link)) else Stop(Done(acc'))
  }

  /** The whole loop from the state (`acc`, `next`), answered by `pages` in order. */
  function Paginate<A>(fold: (A, Option<seq<Order>>) -> Option<A>, acc: A, next: Option<string>,
                       pages: seq<PageResponse>, retryFirst: bool): (t: PagedTrace<A>)
    ensures |t.requests| <= |pages|
    ensures pages != [] ==> |t.requests| >= 1 && t.requests[0] == TargetOf(next)
    ensures t.outcome.Incomplete? ==> |t.requests| == |pages|
    decreases |pages|
  {
    if pages == [] then PagedTrace(Incomplete, [])
    else match TurnOf(fold, acc, next, pages[0], retryFirst)
      case Stop(outcome) => PagedTrace(outcome, [TargetOf(next)])
      case Continue(acc', next') => Then([TargetOf(next)], Paginate(fold, acc', next', pages[1..], retryFirst))
  }

  /** The loop's `i`-th turn in terms of the whole: what a loop that has
      made the requests `before` goes on to do. */
  lemma PaginateStep<A>(fold: (A, Option<seq<Order>>) -> Option<A>, acc: A, next: Option<string>,
                        pages: seq<PageResponse>, retryFirst: bool, i: nat, before: seq<Target>)
    requires i < |pages|
    ensures TurnOf(fold, acc, next, pages[i], retryFirst).Stop? ==>
      Then(before, Paginate(fold, acc, next, pages[i..], retryFirst))
      == PagedTrace(TurnOf(fold, acc, next, pages[i], retryFirst).outcome, before + [TargetOf(next)])
    ensures TurnOf(fold, acc, next, pages[i], retryFirst).Continue? ==>
      Then(before, Paginate(fold, acc, next, pages[i..], retryFirst))
      == Then(before + [TargetOf(next)], Paginate(fold, TurnOf(fold, acc, next, pages[i], retryFirst).acc,
                                                  TurnOf(fold, acc, next, pages[i], retryFirst).next, pages[i + 1..], retryFirst))
  {
    assert pages[i..][0] == pages[i] && pages[i..][1..] == pages[i + 1..];
    var turn := TurnOf(fold, acc, next, pages[i], retryFirst);
    if turn.Continue? {
      ThenThen(before, TargetOf(next), Paginate(fold, turn.acc, turn.next, pages[i + 1..], retryFirst));
    }
  }

  /** A turn that continues was a page with a next link or a 429, and the
      next turn asks for that link or for the same target again. */
  lemma TurnContinues<A>(fold: (A, Option<seq<Order>>) -> Option<A>, acc: A, next: Option<string>,
                         response: PageResponse, retryFirst: bool)
    requires TurnOf(fold, acc, next, response, retryFirst).Continue?
    ensures response.Page? || response == PageFailed(TooManyRequests)
    ensures response.Page? ==> TruthyOpt(NextLink(response.link))
    ensures response.Page? ==>
      TargetOf(TurnOf(fold, acc, next, response, retryFirst).next) == NextPage(NextLink(response.link).value)
    ensures response.PageFailed? ==> TargetOf(TurnOf(fold, acc, next, response, retryFirst).next) == TargetOf(next)
  {
  }

  /** The loop asks again for a page only after a 429 and otherwise follows
      the `rel="next"` link of the page it just read. */
  lemma {:induction false} PaginateFollowsLinks<A>(fold: (A, Option<seq<Order>>) -> Option<A>, acc: A, next: Option<string>,
                                                   pages: seq<PageResponse>, retryFirst: bool, k: nat)
    requires k + 1 < |Paginate(fold, acc, next, pages, retryFirst).requests|
    ensures pages[k].Page? || pages[k] == PageFailed(TooManyRequests)
    ensures pages[k].Page? ==> TruthyOpt(NextLink(pages[k].link))
    ensures pages[k].Page? ==>
      Paginate(fold, acc, next, pages, retryFirst).requests[k + 1] == NextPage(NextLink(pages[k].link).value)
    ensures pages[k].PageFailed? ==>
      Paginate(fold, acc, next, pages, retryFirst).requests[k + 1] == Paginate(fold, acc, next, pages, retryFirst).requests[k]
    decreases |pages|
  {
    var turn := TurnOf(fold, acc, next, pages[0], retryFirst);
    assert turn.Continue?;
    TurnContinues(fold, acc, next, pages[0], retryFirst);
    var u := Paginate(fold, turn.acc, turn.next, pages[1..], retryFirst);
    assert Paginate(fold, acc, next, pages, retryFirst).requests == [TargetOf(next)] + u.requests;
    if k > 0 {
      PaginateFollowsLinks(fold, turn.acc, turn.next, pages[1..], retryFirst, k - 1);
    }
  }

  /** The fold over the pages that were read successfully: `Page` answers
      in order, the rest skipped. */
  function FoldPages<A>(fold: (A, Option<seq<Order>>) -> Option<A>, acc: A, pages: seq<PageResponse>): Option<A>
    decreases |pages|
  {
    if pages == [] then Some(acc)
    else if pages[0].Page? then
      match fold(acc, pages[0].orders)
        case None => None
        case Some(acc') => FoldPages(fold, acc', pages[1..])
    else FoldPages(fold, acc, pages[1..])
  }

  /** A fetch that completes returns the fold of exactly the pages it
      requested; the last of them is a page without a next link or, while no
      page has been read yet, a 429. */
  lemma {:induction false} PaginateDone<A>(fold: (A, Option<seq<Order>>) -> Option<A>, acc: A, next: Option<string>,
                                           pages: seq<PageResponse>, retryFirst: bool)
    requires Paginate(fold, acc, next, pages, retryFirst).outcome.Done?
    ensures var n := |Paginate(fold, acc, next, pages, retryFirst).requests|;
      FoldPages(fold, acc, pages[..n]) == Some(Paginate(fold, acc, next, pages, retryFirst).outcome.value)
    ensures var n := |Paginate(fold, acc, next, pages, retryFirst).requests|;
      (pages[n - 1].Page? && !TruthyOpt(NextLink(pages[n - 1].link)))
      || (pages[n - 1] == PageFailed(TooManyRequests) && !TruthyOpt(next) && !retryFirst && n == 1)
    decreases |pages|
  {
    var t := Paginate(fold, acc, next, pages, retryFirst);
    var n := |t.requests|;
    var turn := TurnOf(fold, acc, next, pages[0], retryFirst);
    if turn.Continue? {
      PaginateDone(fold, turn.acc, turn.next, pages[1..], retryFirst);
      var u := Paginate(fold, turn.acc, turn.next, pages[1..], retryFirst);
      assert t.requests == [TargetOf(next)] + u.requests;
      assert pages[..n][1..] == pages[1..][..n - 1];
      assert pages[..n][0] == pages[0];
      assert pages[n - 1] == pages[1..][n - 2];
      if u.requests[0] == FirstPage {
        assert pages[1..][n - 2].Page?;
      }
    } else {
      assert pages[..n] == [pages[0]];
    }
  }

  /** A fetch that returns null stopped at an exception, a failure other than
      429, or a page the fold could not take. */
  lemma {:induction false} PaginateAborted<A>(fold: (A, Option<seq<Order>>) -> Option<A>, acc: A, next: Option<string>,
                                              pages: seq<PageResponse>, retryFirst: bool)
    requires Paginate(fold, acc, next, pages, retryFirst).outcome.Aborted?
    ensures var n := |Paginate(fold, acc, next, pages, retryFirst).requests|;
      pages[n - 1].PageThrew? || (pages[n - 1].PageFailed? && pages[n - 1].status != TooManyRequests)
      || (pages[n - 1].Page? && FoldPages(fold, acc, pages[..n]).None?)
    decreases |pages|
  {
    var t := Paginate(fold, acc, next, pages, retryFirst);
    var n := |t.requests|;
    var turn := TurnOf(fold, acc, next, pages[0], retryFirst);
    if turn.Continue? {
      PaginateAborted(fold, turn.acc, turn.next, pages[1..], retryFirst);
      var u := Paginate(fold, turn.acc, turn.next, pages[1..], retryFirst);
      assert t.requests == [TargetOf(next)] + u.requests;
      assert pages[..n][1..] == pages[1..][..n - 1];
      assert pages[..n][0] == pages[0];
      assert pages[n - 1] == pages[1..][n - 2];
    } else {
      assert pages[..n] == [pages[0]];
    }
  }

  /** A 429 while `$nextPageUrl` is still null reaches `while ($nextPageUrl)`
      with a falsy URL: the loop ends after that one request and the running
      value is returned as the result. */
  lemma PaginateFirstRateLimit<A>(fold: (A, Option<seq<Order>>) -> Option<A>, acc: A, next: Option<string>,
                                  pages: seq<PageResponse>)
    requires pages != [] && pages[0] == PageFailed(TooManyRequests) && !TruthyOpt(next)
    ensures Paginate(fold, acc, next, pages, false) == PagedTrace(Done(acc), [FirstPage])
  {
  }

  /** A 429 on a later page asks for the same URL again, with no cap. */
  lemma PaginateRefetch<A>(fold: (A, Option<seq<Order>>) -> Option<A>, acc: A, next: Option<string>,
                           pages: seq<PageResponse>, retryFirst: bool)
    requires pages != [] && pages[0] == PageFailed(TooManyRequests) && (TruthyOpt(next) || retryFirst)
    ensures Paginate(fold, acc, next, pages, retryFirst) == Then([TargetOf(next)], Paginate(fold, acc, next, pages[1..], retryFirst))
  {
  }

  // ---------------------------------------------------------------- Total sales

  /** An order's contribution: its `total_price` when that is numeric. */
  function PriceOf(o: Order): real {
    if o.totalPrice.Some? && o.totalPrice.value.Numeric? then o.totalPrice.value.value else 0.0
  }

  /** The numeric `total_price`s of a page's orders, summed. */
  function PageSum(orders: seq<Order>): real
    decreases |orders|
  {
    if orders == [] then 0.0 else PageSum(orders[..|orders| - 1]) + PriceOf(orders[|orders| - 1])
  }

  /** All numeric `total_price`s of the pages read, summed. */
  function PagesTotal(pages: seq<PageResponse>): real
    decreases |pages|
  {
    if pages == [] then 0.0
    else (if pages[0].Page? && pages[0].orders.Some? then PageSum(pages[0].orders.value) else 0.0) + PagesTotal(pages[1..])
  }

  /** The `foreach ($orders as $order)` of `getTotalSales` (a non-array
      `orders` adds nothing). */
  function SalesFold(total: real, orders: Option<seq<Order>>): Option<real> {
    Some(if orders.Some? then total + PageSum(orders.value) else total)
  }

  /** `getTotalSales` as written. */
  function TotalSales(shop: ShopRow, pages: seq<PageResponse>): PagedTrace<real> {
    if !HasCredentials(shop) then PagedTrace(Aborted, []) else Paginate(SalesFold, 0.0, None, pages, false)
  }

  lemma {:induction false} SalesFoldPages(total: real, pages: seq<PageResponse>)
    ensures FoldPages(SalesFold, total, pages) == Some(total + PagesTotal(pages))
    decreases |pages|
  {
    if pages != [] {
      var total' := SalesFold(total, if pages[0].Page? then pages[0].orders else None).value;
      SalesFoldPages(if pages[0].Page? then total' else total, pages[1..]);
    }
  }

  /** Without credentials nothing is requested and the result is null;
      otherwise a completed fetch returns the numeric `total_price`s of
      exactly the pages it requested, summed. */
  lemma TotalSalesDone(shop: ShopRow, pages: seq<PageResponse>)
    ensures !HasCredentials(shop) ==> TotalSales(shop, pages) == PagedTrace(Aborted, [])
    ensures TotalSales(shop, pages).outcome.Done? ==>
      TotalSales(shop, pages).outcome.value == PagesTotal(pages[..|TotalSales(shop, pages).requests|])
  {
    if HasCredentials(shop) && TotalSales(shop, pages).outcome.Done? {
      PaginateDone(SalesFold, 0.0, None, pages, false);
      SalesFoldPages(0.0, pages[..|TotalSales(shop, pages).requests|]);
    }
  }

  /** The inner `foreach` adding one page's numeric totals. */
  method AddPageSales(total: real, orders: seq<Order>) returns (sum: real)
    ensures sum == total + PageSum(orders)
  {
    sum := total;
    var k := 0;
    while k < |orders|
      invariant 0 <= k <= |orders|
      invariant sum == total + PageSum(orders[..k])
    {
      assert orders[..k + 1][..k] == orders[..k];
      var price := orders[k].totalPrice;
      if price.Some? && price.value.Numeric? {
        sum := sum + price.value.value;
      }
      k := k + 1;
    }
    assert orders[..k] == orders;
  }

  /** The body of the loop for a page read: its orders' totals added and
      the next link taken from the header. */
  method ReadSalesPage(total: real, orders: Option<seq<Order>>, link: string) returns (total': real, next: Option<string>)
    ensures SalesFold(total, orders) == Some(total') && next == NextLink(link)
  {
    total' := total;
    if orders.Some? {
      total' := AddPageSales(total, orders.value);
    }
    next := ParseNextLink(link);
  }

  /** `getTotalSales`: the `do ... while ($nextPageUrl)` loop over the
      responses `pages`, returning the outcome and the requests made. */
  method GetTotalSales(shop: ShopRow, pages: seq<PageResponse>) returns (outcome: Paged<real>, ghost requests: seq<Target>)
    ensures PagedTrace(outcome, requests) == TotalSales(shop, pages)
  {
    requests := [];
    if !HasCredentials(shop) {
      return Aborted, requests;
    }
    var total := 0.0;
    var next: Option<string> := None;
    var i := 0;
    ghost var whole := Paginate(SalesFold, total, next, pages, false);
    assert pages[0..] == pages;
    while true
      invariant 0 <= i <= |pages|
      invariant whole == Then(requests, Paginate(SalesFold, total, next, pages[i..], false))
      decreases |pages| - i
    {
      if i == |pages| {
        return Incomplete, requests;
      }
      PaginateStep(SalesFold, total, next, pages, false, i, requests);
      ghost var turn := TurnOf(SalesFold, total, next, pages[i], false);
      requests := requests + [TargetOf(next)];
      var response := pages[i];
      i := i + 1;
      match response {
        case PageThrew =>
          return Aborted, requests;
        case PageFailed(status) =>
          if status != TooManyRequests {
            return Aborted, requests;
          }
        case Page(orders, link) =>
          total, next := ReadSalesPage(total, orders, link);
      }
      if !TruthyOpt(next) {
        return Done(total), requests;
      }
      assert turn == Continue(total, next);
    }
  }

  // ---------------------------------------------------------------- Sales trend

  /** One element of the trend: `['date' => 'Y-m-d', 'sales' => ...]`. */
  datatype DailySales = DailySales(date: string, sales: real)

  /** An order that makes `Carbon::parse` throw: it has a date the parser
      rejects and passes the other two tests. */
  predicate Unreadable(o: Order) {
    o.createdAt == Some(Unparsable) && o.totalPrice.Some? && o.totalPrice.value.Numeric?
  }

  /** What an order adds to day `d`: its numeric total when it is dated `d`. */
  function DayPrice(o: Order, d: Date): real {
    if o.createdAt.Some? && o.createdAt.value.ParsedAt? && o.createdAt.value.date == d && o.totalPrice.Some? && o.totalPrice.value.Numeric? then o.totalPrice.value.value
    else 0.0
  }

  function DaySum(orders: seq<Order>, d: Date): real
    decreases |orders|
  {
    if orders == [] then 0.0 else DayPrice(orders[0], d) + DaySum(orders[1..], d)
  }

  /** Day `d`'s sales over all the pages read. */
  function PagesDaySum(pages: seq<PageResponse>, d: Date): real
    decreases |pages|
  {
    if pages == [] then 0.0
    else (if pages[0].Page? && pages[0].orders.Some? then DaySum(pages[0].orders.value, d) else 0.0) + PagesDaySum(pages[1..], d)
  }

  /** The body of the inner `foreach`: an order with a date, a numeric total
      and a bucket for its day is added to that bucket. */
  function AddOrder(buckets: map<Date, real>, o: Order): Option<map<Date, real>> {
    if o.createdAt.Some? && o.totalPrice.Some? && o.totalPrice.value.Numeric? then
      match o.createdAt.value
      case Unparsable => None
      case ParsedAt(d) => Some(if d in buckets then buckets[d := buckets[d] + o.totalPrice.value.value] else buckets)
    else Some(buckets)
  }

  function AddOrders(buckets: map<Date, real>, orders: seq<Order>): Option<map<Date, real>>
    decreases |orders|
  {
    if orders == [] then Some(buckets)
    else match AddOrder(buckets, orders[0])
      case None => None
      case Some(b) => AddOrders(b, orders[1..])
  }

  /** The page fold of `getSalesTrend` (a non-array `orders` adds nothing). */
  function TrendFold(buckets: map<Date, real>, orders: Option<seq<Order>>): Option<map<Date, real>> {
    if orders.Some? then AddOrders(buckets, orders.value) else Some(buckets)
  }

  /** The zero-initialised buckets, one per day of the period. */
  function ZeroBuckets(days: seq<Date>): (b: map<Date, real>)
    ensures b.Keys == set d | d in days
    ensures forall d :: d in b ==> b[d] == 0.0
  {
    map d | d in days :: 0.0
  }

  /** `array_values($dailySales)`: the buckets in the order the days were inserted. */
  function TrendOf(days: seq<Date>, buckets: map<Date, real>): (rows: seq<DailySales>)
    requires forall k :: 0 <= k < |days| ==> Valid(days[k])
    ensures |rows| == |days|
  {
    if days == [] then []
    else [DailySales(DateString(days[0]), if days[0] in buckets then buckets[days[0]] else 0.0)] + TrendOf(days[1..], buckets)
  }

  /** `getSalesTrend` as written. The daily period runs from `start`'s day to
      `end`'s day: `startOfDay()` and `endOfDay()` do not change the day. */
  function SalesTrend(shop: ShopRow, start: ValidDate, end: ValidDate, pages: seq<PageResponse>): PagedTrace<seq<DailySales>> {
    if !HasCredentials(shop) then PagedTrace(Aborted, [])
    else
      var days := DaysFromTo(start, end);
      var t := Paginate(TrendFold, ZeroBuckets(days), None, pages, false);
      PagedTrace(if t.outcome.Done? then Done(TrendOf(days, t.outcome.value)) else if t.outcome.Aborted? then Aborted else Incomplete,
                 t.requests)
  }

  /** Adding orders keeps the set of days and adds each day's own orders to
      its bucket; it fails exactly when some order is unreadable. */
  lemma {:induction false} AddOrdersBuckets(buckets: map<Date, real>, orders: seq<Order>)
    ensures AddOrders(buckets, orders).None? <==> exists k :: 0 <= k < |orders| && Unreadable(orders[k])
    ensures AddOrders(buckets, orders).Some? ==> AddOrders(buckets, orders).value.Keys == buckets.Keys
    ensures AddOrders(buckets, orders).Some? ==>
      forall d :: d in buckets ==> AddOrders(buckets, orders).value[d] == buckets[d] + DaySum(orders, d)
    decreases |orders|
  {
    if orders != [] {
      var o := orders[0];
      if AddOrder(buckets, o).Some? {
        var b := AddOrder(buckets, o).value;
        AddOrdersBuckets(b, orders[1..]);
        assert !Unreadable(o);
        assert (exists k :: 0 <= k < |orders| && Unreadable(orders[k])) <==> (exists k :: 0 <= k < |orders[1..]| && Unreadable(orders[1..][k])) by {
          forall k | 0 < k < |orders| ensures orders[k] == orders[1..][k - 1] { }
        }
        forall d | d in buckets
          ensures b[d] == buckets[d] + DayPrice(o, d)
        {
        }
      } else {
        assert Unreadable(orders[0]);
      }
    }
  }

  lemma {:induction false} TrendFoldPages(buckets: map<Date, real>, pages: seq<PageResponse>)
    requires FoldPages(TrendFold, buckets, pages).Some?
    ensures FoldPages(TrendFold, buckets, pages).value.Keys == buckets.Keys
    ensures forall d :: d in buckets ==> FoldPages(TrendFold, buckets, pages).value[d] == buckets[d] + PagesDaySum(pages, d)
    decreases |pages|
  {
    if pages != [] {
      if pages[0].Page? && pages[0].orders.Some? {
        AddOrdersBuckets(buckets, pages[0].orders.value);
        var b := AddOrders(buckets, pages[0].orders.value).value;
        TrendFoldPages(b, pages[1..]);
      } else {
        TrendFoldPages(buckets, pages[1..]);
      }
    }
  }

  lemma {:induction false} TrendOfRows(days: seq<Date>, buckets: map<Date, real>, k: nat)
    requires forall j :: 0 <= j < |days| ==> Valid(days[j])
    requires k < |days| && days[k] in buckets
    ensures TrendOf(days, buckets)[k] == DailySales(DateString(days[k]), buckets[days[k]])
  {
    if k > 0 {
      TrendOfRows(days[1..], buckets, k - 1);
    }
  }

  /** A completed trend has one row per day from start to end, in date
      order, whose sales are the numeric totals of exactly the orders dated
      that day among the pages requested; orders of other days are ignored. */
  lemma SalesTrendDone(shop: ShopRow, start: ValidDate, end: ValidDate, pages: seq<PageResponse>)
    requires SalesTrend(shop, start, end, pages).outcome.Done?
    ensures |SalesTrend(shop, start, end, pages).outcome.value| == |DaysFromTo(start, end)|
    ensures forall k :: 0 <= k < |DaysFromTo(start, end)| ==>
      SalesTrend(shop, start, end, pages).outcome.value[k]
      == DailySales(DateString(DaysFromTo(start, end)[k]),
                    PagesDaySum(pages[..|SalesTrend(shop, start, end, pages).requests|], DaysFromTo(start, end)[k]))
  {
    var days := DaysFromTo(start, end);
    var z := ZeroBuckets(days);
    var t := Paginate(TrendFold, z, None, pages, false);
    PaginateDone(TrendFold, z, None, pages, false);
    var n := |t.requests|;
    TrendFoldPages(z, pages[..n]);
    forall k | 0 <= k < |days|
      ensures SalesTrend(shop, start, end, pages).outcome.value[k] == DailySales(DateString(days[k]), PagesDaySum(pages[..n], days[k]))
    {
      assert days[k] in z;
      TrendOfRows(days, t.outcome.value, k);
    }
  }

  /** A page with an unreadable order ends the trend with null. */
  lemma SalesTrendUnreadable(shop: ShopRow, start: ValidDate, end: ValidDate, orders: seq<Order>, link: string, k: nat)
    requires HasCredentials(shop) && k < |orders| && Unreadable(orders[k])
    ensures SalesTrend(shop, start, end, [Page(Some(orders), link)]) == PagedTrace(Aborted, [FirstPage])
  {
    AddOrdersBuckets(ZeroBuckets(DaysFromTo(start, end)), orders);
  }

  /** The inner `foreach` of `getSalesTrend` over one page's orders; None
      when `Carbon::parse` throws. */
  method AddPageOrders(buckets: map<Date, real>, orders: seq<Order>) returns (r: Option<map<Date, real>>)
    ensures r == AddOrders(buckets, orders)
  {
    var current := buckets;
    var k := 0;
    while k < |orders|
      invariant 0 <= k <= |orders|
      invariant AddOrders(buckets, orders) == AddOrders(current, orders[k..])
    {
      assert orders[k..][0] == orders[k] && orders[k..][1..] == orders[k + 1..];
      var o := orders[k];
      if o.createdAt.Some? && o.totalPrice.Some? && o.totalPrice.value.Numeric? {
        match o.createdAt.value {
          case Unparsable =>
            return None;
          case ParsedAt(d) =>
            if d in current {
              current := current[d := current[d] + o.totalPrice.value.value];
            }
        }
      }
      k := k + 1;
    }
    return Some(current);
  }

  /** The body of the loop for a page read by `getSalesTrend`. */
  method ReadTrendPage(buckets: map<Date, real>, orders: Option<seq<Order>>, link: string)
    returns (r: Option<map<Date, real>>, next: Option<string>)
    ensures r == TrendFold(buckets, orders) && next == NextLink(link)
  {
    r := Some(buckets);
    if orders.Some? {
      r := AddPageOrders(buckets, orders.value);
    }
    next := ParseNextLink(link);
  }

  /** Step 1 of `getSalesTrend`: a zero bucket for every day of the period. */
  method InitBuckets(days: seq<Date>) returns (buckets: map<Date, real>)
    ensures buckets == ZeroBuckets(days)
  {
    buckets := map[];
    var k := 0;
    while k < |days|
      invariant 0 <= k <= |days|
      invariant buckets == ZeroBuckets(days[..k])
    {
      assert days[..k + 1] == days[..k] + [days[k]];
      buckets := buckets[days[k] := 0.0];
      k := k + 1;
    }
    assert days[..k] == days;
  }

  /** `getSalesTrend`: the buckets, the pagination loop and
      `array_values($dailySales)`. */
  method GetSalesTrend(shop: ShopRow, start: ValidDate, end: ValidDate, pages: seq<PageResponse>)
    returns (outcome: Paged<seq<DailySales>>, ghost requests: seq<Target>)
    ensures PagedTrace(outcome, requests) == SalesTrend(shop, start, end, pages)
  {
    requests := [];
    if !HasCredentials(shop) {
      return Aborted, requests;
    }
    var days := DaysFromTo(start, end);
    var buckets := InitBuckets(days);
    var next: Option<string> := None;
    var i := 0;
    ghost var whole := Paginate(TrendFold, buckets, next, pages, false);
    assert pages[0..] == pages;
    while true
      invariant 0 <= i <= |pages|
      invariant whole == Then(requests, Paginate(TrendFold, buckets, next, pages[i..], false))
      decreases |pages| - i
    {
      if i == |pages| {
        return Incomplete, requests;
      }
      PaginateStep(TrendFold, buckets, next, pages, false, i, requests);
      ghost var turn := TurnOf(TrendFold, buckets, next, pages[i], false);
      requests := requests + [TargetOf(next)];
      var response := pages[i];
      i := i + 1;
      match response {
        case PageThrew =>
          return Aborted, requests;
        case PageFailed(status) =>
          if status != TooManyRequests {
            return Aborted, requests;
          }
        case Page(orders, link) =>
          var added;
          added, next := ReadTrendPage(buckets, orders, link);
          if added.None? {
            return Aborted, requests;
          }
          buckets := added.value;
      }
      if !TruthyOpt(next) {
        return Done(TrendOf(days, buckets)), requests;
      }
      assert turn == Continue(buckets, next);
    }
  }

  // ---------------------------------------------------------------- Inventory

  /** The most ids one `products.json` request may name. */
  const ChunkSize: nat := 250

  function Flatten(chunks: seq<seq<string>>): seq<string>
    decreases |chunks|
  {
    if chunks == [] then [] else chunks[0] + Flatten(chunks[1..])
  }

  /** `array_chunk($ids, 250)`. */
  function Chunks(ids: seq<string>): (chunks: seq<seq<string>>)
    ensures Flatten(chunks) == ids
    ensures forall k :: 0 <= k < |chunks| ==> 0 < |chunks[k]| <= ChunkSize
    ensures forall k :: 0 <= k < |chunks| - 1 ==> |chunks[k]| == ChunkSize
    ensures |chunks| == (|ids| + ChunkSize - 1) / ChunkSize
    decreases |ids|
  {
    if ids == [] then []
    else if |ids| <= ChunkSize then [ids]
    else
      var rest := Chunks(ids[ChunkSize..]);
      assert ids == ids[..ChunkSize] + ids[ChunkSize..];
      [ids[..ChunkSize]] + rest
  }

  /** `array_filter($productIds, 'is_numeric')`, order kept. */
  function NumericIds(ids: seq<string>): (r: seq<string>)
    ensures |r| <= |ids|
    ensures forall x :: x in r <==> x in ids && IsNumericString(x)
    decreases |ids|
  {
    if ids == [] then []
    else (if IsNumericString(ids[0]) then [ids[0]] else []) + NumericIds(ids[1..])
  }

  /** `array_filter` keeps order and duplicates: it distributes over concatenation. */
  lemma {:induction false} NumericIdsAppend(a: seq<string>, b: seq<string>)
    ensures NumericIds(a + b) == NumericIds(a) + NumericIds(b)
    decreases |a|
  {
    if a == [] {
      assert a + b == b;
    } else {
      assert (a + b)[0] == a[0] && (a + b)[1..] == a[1..] + b;
      NumericIdsAppend(a[1..], b);
    }
  }

  /** One id is kept exactly when it is numeric. */
  lemma NumericIdsSingle(x: string)
    ensures NumericIds([x]) == if IsNumericString(x) then [x] else []
  {
    assert [x][1..] == [];
  }

  /** A variant's `inventory_quantity` (None when absent). */
  datatype Variant = Variant(quantity: Option<Scalar>)

  /** A product of the response: its `id` (None when absent) and its
      `variants` (None when not an array). */
  datatype Product = Product(id: Option<int>, variants: Option<seq<Variant>>)

  /** One chunk request's answer: its `products` field (None when not an
      array), a failed response, or an exception. */
  datatype ChunkResponse = Products(products: Option<seq<Product>>) | ChunkFailed(status: int) | ChunkThrew

  /** `(int)` of each numeric `inventory_quantity`, summed. */
  function VariantSum(variants: seq<Variant>): int
    decreases |variants|
  {
    if variants == [] then 0
    else
      var v := variants[|variants| - 1];
      VariantSum(variants[..|variants| - 1]) + (if v.quantity.Some? && v.quantity.value.Numeric? then IntCast(v.quantity.value.value) else 0)
  }

  /** A product's total stock; 0 without variants. */
  function StockOf(p: Product): int {
    if p.variants.Some? then VariantSum(p.variants.value) else 0
  }

  /** `if (!$productId) continue;`: products without a truthy id are skipped. */
  predicate Keyed(p: Product) {
    p.id.Some? && p.id.value != 0
  }

  /** `$inventoryData[$productId]`: PHP keys the map by the integer, which is
      the key its decimal string also denotes. */
  function KeyOf(p: Product): string
    requires Keyed(p)
  {
    IntToString(p.id.value)
  }

  function StoreProduct(levels: map<string, int>, p: Product): map<string, int> {
    if Keyed(p) then levels[KeyOf(p) := StockOf(p)] else levels
  }

  /** The `foreach ($products as $product)` loop. */
  function StoreProducts(levels: map<string, int>, products: seq<Product>): map<string, int>
    decreases |products|
  {
    if products == [] then levels else StoreProducts(StoreProduct(levels, products[0]), products[1..])
  }

  /** The result of a lookup and the chunks requested, in order. */
  datatype InventoryTrace = InventoryTrace(result: Fetch<map<string, int>>, requests: seq<seq<string>>)

  /** The chunk loop with `Arr::get` resolving. Every failure is caught and
      ends the lookup with null. */
  function ScanChunks(chunks: seq<seq<string>>, respond: seq<string> -> ChunkResponse,
                      levels: map<string, int>): InventoryTrace
    decreases |chunks|
  {
    if chunks == [] then InventoryTrace(Fetched(levels), [])
    else
      var rest := match respond(chunks[0])
        case ChunkFailed(_) => InventoryTrace(FetchFailed, [])
        case ChunkThrew => InventoryTrace(FetchFailed, [])
        case Products(None) => ScanChunks(chunks[1..], respond, levels)
        case Products(Some(ps)) => ScanChunks(chunks[1..], respond, StoreProducts(levels, ps));
      InventoryTrace(rest.result, [chunks[0]] + rest.requests)
  }

  /** A trace whose requests come after `before`. */
  function ChunksThen(before: seq<seq<string>>, t: InventoryTrace): InventoryTrace {
    InventoryTrace(t.result, before + t.requests)
  }

  /** The map after one chunk's response: its products stored, if it had any. */
  function NextLevels(levels: map<string, int>, response: ChunkResponse): map<string, int> {
    if response.Products? && response.products.Some? then StoreProducts(levels, response.products.value) else levels
  }

  /** One turn of the chunk loop: a failed chunk ends the scan as a failure
      after its request; an answered one moves on to the next chunk. */
  lemma ScanChunksStep(chunks: seq<seq<string>>, i: nat, respond: seq<string> -> ChunkResponse,
                       levels: map<string, int>, before: seq<seq<string>>)
    requires i < |chunks|
    ensures respond(chunks[i]).Products? ==>
      ChunksThen(before, ScanChunks(chunks[i..], respond, levels))
      == ChunksThen(before + [chunks[i]], ScanChunks(chunks[i + 1..], respond, NextLevels(levels, respond(chunks[i]))))
    ensures !respond(chunks[i]).Products? ==>
      ChunksThen(before, ScanChunks(chunks[i..], respond, levels)) == InventoryTrace(FetchFailed, before + [chunks[i]])
  {
    assert chunks[i..][0] == chunks[i] && chunks[i..][1..] == chunks[i + 1..];
    var u := ScanChunks(chunks[i + 1..], respond, NextLevels(levels, respond(chunks[i])));
    assert before + ([chunks[i]] + u.requests) == before + [chunks[i]] + u.requests;
  }

  /** `getInventoryLevels` with `Arr::get` a keyed lookup with a default:
      the requests go to `respond`, which answers each chunk. */
  function InventoryLevels(shop: ShopRow, ids: seq<string>, respond: seq<string> -> ChunkResponse): InventoryTrace {
    if !HasCredentials(shop) then InventoryTrace(FetchFailed, [])
    else if ids == [] then InventoryTrace(Fetched(map[]), [])
    else if NumericIds(ids) == [] then InventoryTrace(Fetched(map[]), [])
    else ScanChunks(Chunks(NumericIds(ids)), respond, map[])
  }

  /** The chunk loop as written: `Arr` is not imported, so the first product
      of a response raises an `Error`, which `catch (\Exception $e)` does not
      catch; it leaves the method. */
  function ScanChunksAsWritten(chunks: seq<seq<string>>, respond: seq<string> -> ChunkResponse,
                               levels: map<string, int>): InventoryTrace
    decreases |chunks|
  {
    if chunks == [] then InventoryTrace(Fetched(levels), [])
    else
      var rest := match respond(chunks[0])
        case ChunkFailed(_) => InventoryTrace(FetchFailed, [])
        case ChunkThrew => InventoryTrace(FetchFailed, [])
        case Products(None) => ScanChunksAsWritten(chunks[1..], respond, levels)
        case Products(Some(ps)) =>
          if ps != [] then InventoryTrace(Threw, []) else ScanChunksAsWritten(chunks[1..], respond, levels);
      InventoryTrace(rest.result, [chunks[0]] + rest.requests)
  }

  function InventoryLevelsAsWritten(shop: ShopRow, ids: seq<string>, respond: seq<string> -> ChunkResponse): InventoryTrace {
    if !HasCredentials(shop) then InventoryTrace(FetchFailed, [])
    else if ids == [] then InventoryTrace(Fetched(map[]), [])
    else if NumericIds(ids) == [] then InventoryTrace(Fetched(map[]), [])
    else ScanChunksAsWritten(Chunks(NumericIds(ids)), respond, map[])
  }

  /** Some product of `products` has the key `key`. */
  predicate HasKey(products: seq<Product>, key: string) {
    exists j | 0 <= j < |products| :: Keyed(products[j]) && KeyOf(products[j]) == key
  }

  /** `products[j]` is the last product with the key `key`. */
  predicate LastWithKey(products: seq<Product>, j: int, key: string) {
    0 <= j < |products| && Keyed(products[j]) && KeyOf(products[j]) == key
    && forall l | j < l < |products| :: !(Keyed(products[l]) && KeyOf(products[l]) == key)
  }

  /** Storing products adds exactly the keyed products, each with the stock
      of the last product of that id, and keeps every other entry. */
  lemma {:induction false} StoreProductsValues(levels: map<string, int>, products: seq<Product>)
    ensures forall key :: key in StoreProducts(levels, products) <==> key in levels || HasKey(products, key)
    ensures forall key :: key in levels && !HasKey(products, key) ==> StoreProducts(levels, products)[key] == levels[key]
    ensures forall j, key :: LastWithKey(products, j, key) ==>
      key in StoreProducts(levels, products) && StoreProducts(levels, products)[key] == StockOf(products[j])
    decreases |products|
  {
    if products != [] {
      var p := products[0];
      var rest := products[1..];
      var l1 := StoreProduct(levels, p);
      StoreProductsValues(l1, rest);
      forall key
        ensures HasKey(products, key) <==> (Keyed(p) && KeyOf(p) == key) || HasKey(rest, key)
      {
        if HasKey(products, key) {
          var j :| 0 <= j < |products| && Keyed(products[j]) && KeyOf(products[j]) == key;
          if j > 0 {
            assert rest[j - 1] == products[j];
          }
        }
        if HasKey(rest, key) {
          var j :| 0 <= j < |rest| && Keyed(rest[j]) && KeyOf(rest[j]) == key;
          assert products[j + 1] == rest[j];
        }
      }
      forall j, key | LastWithKey(products, j, key)
        ensures key in StoreProducts(levels, products) && StoreProducts(levels, products)[key] == StockOf(products[j])
      {
        if j > 0 {
          assert rest[j - 1] == products[j];
          forall l | j - 1 < l < |rest|
            ensures !(Keyed(rest[l]) && KeyOf(rest[l]) == key)
          {
            assert rest[l] == products[l + 1];
          }
          assert LastWithKey(rest, j - 1, key);
        }
      }
    }
  }

  lemma {:induction false} StoreProductsAppend(levels: map<string, int>, a: seq<Product>, b: seq<Product>)
    ensures StoreProducts(levels, a + b) == StoreProducts(StoreProducts(levels, a), b)
    decreases |a|
  {
    if a == [] {
      assert a + b == b;
    } else {
      assert (a + b)[1..] == a[1..] + b;
      StoreProductsAppend(StoreProduct(levels, a[0]), a[1..], b);
    }
  }

  /** The products of the answers to `chunks`, in order. */
  function ReturnedProducts(chunks: seq<seq<string>>, respond: seq<string> -> ChunkResponse): seq<Product>
    decreases |chunks|
  {
    if chunks == [] then []
    else
      var r := respond(chunks[0]);
      (if r.Products? && r.products.Some? then r.products.value else []) + ReturnedProducts(chunks[1..], respond)
  }

  /** The chunks are asked for in order, and nothing escapes. */
  lemma {:induction false} ScanChunksRequests(chunks: seq<seq<string>>, respond: seq<string> -> ChunkResponse, levels: map<string, int>)
    ensures !ScanChunks(chunks, respond, levels).result.Threw?
    ensures |ScanChunks(chunks, respond, levels).requests| <= |chunks|
    ensures ScanChunks(chunks, respond, levels).requests == chunks[..|ScanChunks(chunks, respond, levels).requests|]
    decreases |chunks|
  {
    if chunks != [] {
      var r := respond(chunks[0]);
      if r.Products? {
        var l1 := if r.products.Some? then StoreProducts(levels, r.products.value) else levels;
        ScanChunksRequests(chunks[1..], respond, l1);
        var u := ScanChunks(chunks[1..], respond, l1);
        assert chunks[..|u.requests| + 1] == [chunks[0]] + chunks[1..][..|u.requests|];
      } else {
        assert chunks[..1] == [chunks[0]];
      }
    }
  }

  /** All or nothing: the lookup succeeds exactly when every chunk is
      answered, and then it has asked for all of them and stored the
      products of all of them. */
  lemma {:induction false} ScanChunksFetched(chunks: seq<seq<string>>, respond: seq<string> -> ChunkResponse, levels: map<string, int>)
    ensures ScanChunks(chunks, respond, levels).result.Fetched? <==>
      forall k :: 0 <= k < |chunks| ==> respond(chunks[k]).Products?
    ensures ScanChunks(chunks, respond, levels).result.Fetched? ==>
      ScanChunks(chunks, respond, levels).requests == chunks
    ensures ScanChunks(chunks, respond, levels).result.Fetched? ==>
      ScanChunks(chunks, respond, levels).result.value == StoreProducts(levels, ReturnedProducts(chunks, respond))
    decreases |chunks|
  {
    if chunks != [] {
      var r := respond(chunks[0]);
      if r.Products? {
        var ps := if r.products.Some? then r.products.value else [];
        var l1 := StoreProducts(levels, ps);
        assert l1 == (if r.products.Some? then StoreProducts(levels, r.products.value) else levels);
        ScanChunksFetched(chunks[1..], respond, l1);
        StoreProductsAppend(levels, ps, ReturnedProducts(chunks[1..], respond));
        forall k | 1 <= k < |chunks| ensures chunks[k] == chunks[1..][k - 1] { }
        assert chunks == [chunks[0]] + chunks[1..];
      }
    }
  }

  /** A lookup that ends with null stopped at the first chunk whose request
      failed; every chunk before it was answered. */
  lemma {:induction false} ScanChunksFailed(chunks: seq<seq<string>>, respond: seq<string> -> ChunkResponse, levels: map<string, int>)
    requires ScanChunks(chunks, respond, levels).result.FetchFailed?
    ensures var n := |ScanChunks(chunks, respond, levels).requests|;
      1 <= n <= |chunks| && !respond(chunks[n - 1]).Products? && forall k :: 0 <= k < n - 1 ==> respond(chunks[k]).Products?
    decreases |chunks|
  {
    var r := respond(chunks[0]);
    if r.Products? {
      var l1 := if r.products.Some? then StoreProducts(levels, r.products.value) else levels;
      ScanChunksFailed(chunks[1..], respond, l1);
      forall k | 1 <= k < |chunks| ensures chunks[k] == chunks[1..][k - 1] { }
    }
  }

  /** Without credentials the lookup is null; with no numeric id it is the
      empty map; neither makes a request. */
  lemma InventoryLevelsGuards(shop: ShopRow, ids: seq<string>, respond: seq<string> -> ChunkResponse)
    ensures !HasCredentials(shop) ==> InventoryLevels(shop, ids, respond) == InventoryTrace(FetchFailed, [])
    ensures HasCredentials(shop) && (forall k :: 0 <= k < |ids| ==> !IsNumericString(ids[k])) ==>
      InventoryLevels(shop, ids, respond) == InventoryTrace(Fetched(map[]), [])
  {
    if HasCredentials(shop) && ids != [] && (forall k :: 0 <= k < |ids| ==> !IsNumericString(ids[k])) {
      if NumericIds(ids) != [] {
        assert NumericIds(ids)[0] in ids;
      }
    }
  }

  /** A completed lookup asked for the numeric ids in consecutive chunks of at
      most 250, and maps exactly the keyed products returned, each to the
      stock of the last product of that id. */
  lemma InventoryLevelsDone(shop: ShopRow, ids: seq<string>, respond: seq<string> -> ChunkResponse)
    requires HasCredentials(shop) && InventoryLevels(shop, ids, respond).result.Fetched?
    ensures var t := InventoryLevels(shop, ids, respond);
      Flatten(t.requests) == NumericIds(ids) && forall k :: 0 <= k < |t.requests| ==> 0 < |t.requests[k]| <= ChunkSize
    ensures var t := InventoryLevels(shop, ids, respond);
      forall key :: key in t.result.value <==> HasKey(ReturnedProducts(t.requests, respond), key)
    ensures var t := InventoryLevels(shop, ids, respond);
      forall j, key :: LastWithKey(ReturnedProducts(t.requests, respond), j, key) ==>
        key in t.result.value && t.result.value[key] == StockOf(ReturnedProducts(t.requests, respond)[j])
  {
    if NumericIds(ids) != [] {
      var chunks := Chunks(NumericIds(ids));
      ScanChunksFetched(chunks, respond, map[]);
      StoreProductsValues(map[], ReturnedProducts(chunks, respond));
    }
  }

  /** Stock is the plain sum of the truncated numeric quantities: a negative
      quantity lowers it, non-numeric and missing ones add nothing. */
  lemma StockExample()
    ensures StockOf(Product(Some(7), Some([Variant(Some(Numeric(-3.0))), Variant(Some(NonNumeric)),
                                           Variant(None), Variant(Some(Numeric(2.5)))]))) == -1
    ensures StockOf(Product(Some(7), None)) == 0
  {
    var vs := [Variant(Some(Numeric(-3.0))), Variant(Some(NonNumeric)), Variant(None), Variant(Some(Numeric(2.5)))];
    assert IntCast(-3.0) == -3 && IntCast(2.5) == 2;
    assert vs[..1][..0] == [];
    assert VariantSum(vs[..1]) == -3;
    assert vs[..2][..1] == vs[..1];
    assert VariantSum(vs[..2]) == -3;
    assert vs[..3][..2] == vs[..2];
    assert VariantSum(vs[..3]) == -3;
    assert vs[..3] == vs[..|vs| - 1];
  }

  /** 251 ids make two requests, of 250 and 1. */
  lemma ChunksOfTwoHundredFiftyOne(ids: seq<string>)
    requires |ids| == 251
    ensures |Chunks(ids)| == 2 && |Chunks(ids)[0]| == 250 && Chunks(ids)[1] == [ids[250]]
  {
  }

  /** `(int)` of each numeric quantity of one product, summed (the innermost loop). */
  method SumVariants(variants: seq<Variant>) returns (total: int)
    ensures total == VariantSum(variants)
  {
    total := 0;
    var k := 0;
    while k < |variants|
      invariant 0 <= k <= |variants|
      invariant total == VariantSum(variants[..k])
    {
      assert variants[..k + 1][..k] == variants[..k];
      var qty := variants[k].quantity;
      if qty.Some? && qty.value.Numeric? {
        total := total + IntCast(qty.value.value);
      }
      k := k + 1;
    }
    assert variants[..k] == variants;
  }

  /** The product loop of one chunk. */
  method StoreChunk(levels: map<string, int>, products: seq<Product>) returns (stored: map<string, int>)
    ensures stored == StoreProducts(levels, products)
  {
    stored := levels;
    var k := 0;
    while k < |products|
      invariant 0 <= k <= |products|
      invariant StoreProducts(levels, products) == StoreProducts(stored, products[k..])
    {
      assert products[k..][0] == products[k] && products[k..][1..] == products[k + 1..];
      var product := products[k];
      if product.id.Some? && product.id.value != 0 {
        var total := 0;
        if product.variants.Some? {
          total := SumVariants(product.variants.value);
        }
        stored := stored[IntToString(product.id.value) := total];
      }
      k := k + 1;
    }
  }

  /** `getInventoryLevels` with `Arr::get` resolving: the chunk loop, each
      chunk answered by `respond`. */
  method GetInventoryLevels(shop: ShopRow, ids: seq<string>, respond: seq<string> -> ChunkResponse)
    returns (result: Fetch<map<string, int>>, ghost requests: seq<seq<string>>)
    ensures InventoryTrace(result, requests) == InventoryLevels(shop, ids, respond)
  {
    requests := [];
    if !HasCredentials(shop) {
      return FetchFailed, requests;
    }
    if ids == [] {
      return Fetched(map[]), requests;
    }
    var numeric := NumericIds(ids);
    if numeric == [] {
      return Fetched(map[]), requests;
    }
    var chunks := Chunks(numeric);
    var levels: map<string, int> := map[];
    var i := 0;
    ghost var whole := InventoryLevels(shop, ids, respond);
    assert chunks[0..] == chunks;
    assert whole == ChunksThen(requests, ScanChunks(chunks[0..], respond, levels));
    while i < |chunks|
      invariant 0 <= i <= |chunks|
      invariant whole == ChunksThen(requests, ScanChunks(chunks[i..], respond, levels))
    {
      ScanChunksStep(chunks, i, respond, levels, requests);
      requests := requests + [chunks[i]];
      var response := respond(chunks[i]);
      match response {
        case ChunkFailed(_) =>
          return FetchFailed, requests;
        case ChunkThrew =>
          return FetchFailed, requests;
        case Products(products) =>
          if products.Some? {
            levels := StoreChunk(levels, products.value);
          }
      }
      i := i + 1;
    }
    assert chunks[i..] == [];
    return Fetched(levels), requests;
  }

  /** As written, the first product of a response ends the lookup with an
      escaping `Error`, after that one request. */
  lemma {:induction false} AsWrittenThrowsOnFirstProduct(shop: ShopRow, ids: seq<string>, respond: seq<string> -> ChunkResponse)
    requires HasCredentials(shop) && NumericIds(ids) != []
    requires var r := respond(Chunks(NumericIds(ids))[0]); r.Products? && r.products.Some? && r.products.value != []
    ensures InventoryLevelsAsWritten(shop, ids, respond) == InventoryTrace(Threw, [Chunks(NumericIds(ids))[0]])
  {
  }

  /** As written, a lookup ends normally only if no response held a product,
      and then its result is the empty map. */
  lemma {:induction false} AsWrittenNeverStores(chunks: seq<seq<string>>, respond: seq<string> -> ChunkResponse, levels: map<string, int>)
    ensures ScanChunksAsWritten(chunks, respond, levels).result.Fetched? ==>
      ScanChunksAsWritten(chunks, respond, levels).result.value == levels && ReturnedProducts(chunks, respond) == []
    decreases |chunks|
  {
    if chunks != [] {
      AsWrittenNeverStores(chunks[1..], respond, levels);
    }
  }

  /** The shop answering product 1 with stock 5. */
  function ProductOneHasFive(chunk: seq<string>): ChunkResponse {
    Products(Some([Product(Some(1), Some([Variant(Some(Numeric(5.0)))]))]))
  }

  /** Asking for product "1": as written, the lookup throws; with `Arr`
      imported, it maps "1" to 5. */
  lemma InventoryArrExample(shop: ShopRow)
    requires HasCredentials(shop)
    ensures InventoryLevelsAsWritten(shop, ["1"], ProductOneHasFive).result == Threw
    ensures InventoryLevels(shop, ["1"], ProductOneHasFive).result == Fetched(map["1" := 5])
  {
    DigitsAreNumeric("1");
    assert NumericIds(["1"]) == ["1"];
    assert Chunks(["1"]) == [["1"]];
    assert IntToString(1) == "1";
    var p := Product(Some(1), Some([Variant(Some(Numeric(5.0)))]));
    assert [Variant(Some(Numeric(5.0)))][..0] == [];
    assert StockOf(p) == 5;
    assert StoreProducts(map[], [p]) == map["1" := 5] by {
      assert NatToString(1) == "1";
      assert [p][1..] == [];
    }
    assert [["1"]][1..] == [];
    assert ScanChunks([["1"]], ProductOneHasFive, map[]).result == Fetched(StoreProducts(map[], [p]));
  }

  // ---------------------------------------------------------------- First-page 429

  /** `getTotalSales` as evidently intended: a 429 on the first page asks
      for it again, like on any other page. */
  function TotalSalesRetrying(shop: ShopRow, pages: seq<PageResponse>): PagedTrace<real> {
    if !HasCredentials(shop) then PagedTrace(Aborted, []) else Paginate(SalesFold, 0.0, None, pages, true)
  }

  /** The first page rate-limited, then a page with one order of 10. */
  function RateLimitedThenTen(): seq<PageResponse> {
    [PageFailed(TooManyRequests), Page(Some([Order(None, Some(Numeric(10.0)))]), "")]
  }

  /** As written, a rate-limited first page reports a total of 0 as a
      success; retrying it reads the order. */
  lemma FirstPageRateLimitReportsZero(shop: ShopRow)
    requires HasCredentials(shop)
    ensures TotalSales(shop, RateLimitedThenTen()) == PagedTrace(Done(0.0), [FirstPage])
    ensures TotalSalesRetrying(shop, RateLimitedThenTen()) == PagedTrace(Done(10.0), [FirstPage, FirstPage])
  {
    var pages := RateLimitedThenTen();
    PaginateFirstRateLimit(SalesFold, 0.0, None, pages);
    assert pages[1..][1..] == [];
    assert PageSum([Order(None, Some(Numeric(10.0)))]) == 10.0;
  }

  /** With the retry, a total is only ever returned after reading a page
      that has no next link, and it sums exactly the pages requested. */
  lemma TotalSalesRetryingDone(shop: ShopRow, pages: seq<PageResponse>)
    requires TotalSalesRetrying(shop, pages).outcome.Done?
    ensures var n := |TotalSalesRetrying(shop, pages).requests|;
      pages[n - 1].Page? && !TruthyOpt(NextLink(pages[n - 1].link))
      && TotalSalesRetrying(shop, pages).outcome.value == PagesTotal(pages[..n])
  {
    PaginateDone(SalesFold, 0.0, None, pages, true);
    SalesFoldPages(0.0, pages[..|TotalSalesRetrying(shop, pages).requests|]);
  }

  /** Every method returns null without a request when the token or the
      domain is missing. */
  lemma GuardsBlockRequests<J>(shop: ShopRow, reply: Reply<J>, countReply: Reply<Scalar>, status: string, createdAtMin: string,
                               createdAtMax: string, financialStatus: Option<string>, start: ValidDate, end: ValidDate,
                               pages: seq<PageResponse>, ids: seq<string>, respond: seq<string> -> ChunkResponse)
    requires !HasCredentials(shop)
    ensures ShopInfo(shop, reply) == CallTrace(None, false)
    ensures OrdersCount(shop, status, createdAtMin, createdAtMax, financialStatus, countReply) == (None, None)
    ensures TotalSales(shop, pages) == PagedTrace(Aborted, [])
    ensures SalesTrend(shop, start, end, pages) == PagedTrace(Aborted, [])
    ensures InventoryLevels(shop, ids, respond) == InventoryTrace(FetchFailed, [])
  {
  }
}
