/**
 * The requests the spider yields: `_build_search_url`, `_build_api_payload`,
 * `_api_request` and `start_requests`. In API mode each keyword and page
 * produce four deliberately redundant probes (POST and GET, for the page
 * index and the page index plus one), all exempt from Scrapy's duplicate
 * filter; in rendered-page mode each keyword gets one request for page 0.
 */
module Planner {
  import opened Wrappers
  import opened Text
  import opened JsonValue
  import opened Jobs

  const SearchBase: string := "https://www.mycareersfuture.gov.sg/search"
  const ApiBase: string := "https://api.mycareersfuture.gov.sg/v2/search"
  const SortBy: string := "new_posting_date"

  /** `_build_search_url(query, page)`: the search page, asked for `query`
      on page `page`, newest postings first, with no other parameter. */
  function SearchUrl(query: string, page: int): Url
  {
    Url(SearchBase, [("search", query), ("sortBy", SortBy), ("page", Decimal(page))])
  }

  /** `_build_api_payload(query, page_index)`: the JSON body of a POST, an
      object with exactly the search, sort order, an empty filter, the page
      and the page size. */
  function ApiPayload(sp: Spider, query: string, page: int): Json
  {
    Obj(map[
      "search" := Str(query),
      "sortBy" := Str(SortBy),
      "filters" := Obj(map[]),
      "page" := Num(page),
      "limit" := Num(sp.perPage)])
  }

  /** `_api_request(query, page_index, source_url, method)`: a GET carries the
      search in its query string, a POST in its JSON body. */
  function ApiRequest(sp: Spider, query: string, page: int, source: Url, verb: Method): Request
  {
    var params := [("limit", Decimal(sp.perPage)), ("page", Decimal(page)),
                   ("search", query), ("sortBy", SortBy)];
    match verb
    case Get => Request(Get, Url(ApiBase, params), Null, Some(source), query, page, source,
                        ApiJsonCallback, true, false)
    case Post => Request(Post, Url(ApiBase, []), ApiPayload(sp, query, page), Some(source), query, page,
                         source, ApiJsonCallback, true, false)
  }

  /** The search page URL asks for `query` on page `page`, newest postings
      first, and carries no other parameter. */
  lemma SearchUrlParams(query: string, page: int)
    ensures var u := SearchUrl(query, page);
      && u.base == SearchBase
      && Lookup(u.params, "search") == Some(query)
      && Lookup(u.params, "sortBy") == Some(SortBy)
      && Lookup(u.params, "page") == Some(Decimal(page))
      && forall kv :: kv in u.params ==> kv.0 in {"search", "sortBy", "page"}
  {
    var ps := SearchUrl(query, page).params;
    assert |"search"| != |"page"| && |"sortBy"| != |"page"| && "search"[1] != "sortBy"[1];
    assert ps[1..] == [("sortBy", SortBy), ("page", Decimal(page))];
    assert ps[1..][1..] == [("page", Decimal(page))];
    assert Lookup(ps, "sortBy") == Lookup(ps[1..], "sortBy");
    assert Lookup(ps, "page") == Lookup(ps[1..], "page") == Lookup(ps[1..][1..], "page");
  }

  /** The POST body is an object with exactly the search text, the sort
      order, an empty filter, the page and the page size. */
  lemma ApiPayloadFields(sp: Spider, query: string, page: int)
    ensures var b := ApiPayload(sp, query, page);
      && b.Obj? && b.fields.Keys == {"search", "sortBy", "filters", "page", "limit"}
      && Field(b.fields, "search") == Str(query) && Field(b.fields, "sortBy") == Str(SortBy)
      && Field(b.fields, "filters") == Obj(map[])
      && Field(b.fields, "page") == Num(page) && Field(b.fields, "limit") == Num(sp.perPage)
  {
  }

  /** Both shapes of `_api_request` go to the API endpoint with the page URL
      as referer, carry the keyword, page and source to `parse_api_json`,
      and are exempt from the duplicate filter; a GET asks through its
      query string, a POST through the JSON body of `_build_api_payload`. */
  lemma ApiRequestShape(sp: Spider, query: string, page: int, source: Url, verb: Method)
    ensures var r := ApiRequest(sp, query, page, source, verb);
      && r.verb == verb && r.url.base == ApiBase && r.referer == Some(source)
      && r.query == query && r.pageIndex == page && r.sourceUrl == source
      && r.callback == ApiJsonCallback && r.dontFilter && !r.playwright
      && (verb == Get ==>
            && r.body == Null
            && Lookup(r.url.params, "limit") == Some(Decimal(sp.perPage))
            && Lookup(r.url.params, "page") == Some(Decimal(page))
            && Lookup(r.url.params, "search") == Some(query)
            && Lookup(r.url.params, "sortBy") == Some(SortBy))
      && (verb == Post ==> r.url.params == [] && r.body == ApiPayload(sp, query, page))
  {
    var ps := ApiRequest(sp, query, page, source, Get).url.params;
    assert |"limit"| != |"page"| && |"limit"| != |"search"| && |"page"| != |"search"|;
    assert |"page"| != |"sortBy"| && "search"[1] != "sortBy"[1];
    var p1, p2, p3 := ps[1..], ps[1..][1..], ps[1..][1..][1..];
    assert p1 == [("page", Decimal(page)), ("search", query), ("sortBy", SortBy)];
    assert p2 == [("search", query), ("sortBy", SortBy)];
    assert p3 == [("sortBy", SortBy)];
    assert Lookup(ps, "page") == Lookup(p1, "page");
    assert Lookup(ps, "search") == Lookup(p1, "search") == Lookup(p2, "search");
    assert Lookup(ps, "sortBy") == Lookup(p1, "sortBy") == Lookup(p2, "sortBy") == Lookup(p3, "sortBy");
  }

  /** The two shapes of an API request ask for the same thing: every query
      parameter of the GET is a field of the POST body with the same value,
      the body's only other field is the empty `filters` object, and both
      go to the same endpoint with the same referer. */
  lemma GetAndPostAgree(sp: Spider, query: string, page: int, source: Url, repr: Json -> string)
    ensures var get, post := ApiRequest(sp, query, page, source, Get), ApiRequest(sp, query, page, source, Post);
      && get.url.base == ApiBase && post.url == Url(ApiBase, [])
      && post.body.Obj? && get.body == Null
      && post.body.fields.Keys == (set kv | kv in get.url.params :: kv.0) + {"filters"}
      && (forall kv :: kv in get.url.params ==> kv.0 in post.body.fields && Show(post.body.fields[kv.0], repr) == kv.1)
      && post.body.fields["filters"] == Obj(map[])
      && get.referer == Some(source) && post.referer == Some(source)
      && get.pageIndex == page && post.pageIndex == page
  {
    var get := ApiRequest(sp, query, page, source, Get);
    var params := get.url.params;
    assert params == [("limit", Decimal(sp.perPage)), ("page", Decimal(page)), ("search", query), ("sortBy", SortBy)];
    assert params[0] in params && params[1] in params && params[2] in params && params[3] in params;
    assert (set kv | kv in params :: kv.0) == {"limit", "page", "search", "sortBy"};
  }

  /** The four probes for one page, in the order they are yielded. */
  function PageProbes(sp: Spider, query: string, page: int): seq<Request> {
    var referer := SearchUrl(query, 0);
    [ ApiRequest(sp, query, page, referer, Post),
      ApiRequest(sp, query, page, referer, Get),
      ApiRequest(sp, query, page + 1, referer, Post),
      ApiRequest(sp, query, page + 1, referer, Get) ]
  }

  /** The probes for pages `0 .. n - 1` of one keyword. */
  function PagesPlan(sp: Spider, query: string, n: int): (r: seq<Request>)
    ensures |r| == if n <= 0 then 0 else 4 * n
    decreases n
  {
    if n <= 0 then [] else PagesPlan(sp, query, n - 1) + PageProbes(sp, query, n - 1)
  }

  /** The rendered-page request for one keyword, page 0. */
  function PageRequest(query: string): Request {
    var url := SearchUrl(query, 0);
    Request(Get, url, Null, None, query, 0, url, ListCallback, false, true)
  }

  /** Everything `start_requests` yields for one keyword. */
  function KeywordPlan(sp: Spider, query: string): (r: seq<Request>)
    ensures |r| == Width(sp)
  {
    if sp.useApiOnly then PagesPlan(sp, query, sp.maxPages) else [PageRequest(query)]
  }

  /** Everything `start_requests` yields for the keywords `qs`, in order:
      one block of `Width(sp)` requests per keyword. */
  function Plan(sp: Spider, qs: seq<string>): (r: seq<Request>)
    ensures |r| == |qs| * Width(sp)
  {
    if qs == [] then []
    else
      MulStep(|qs| - 1, Width(sp));
      Plan(sp, qs[..|qs| - 1]) + KeywordPlan(sp, qs[|qs| - 1])
  }

  /** How many requests one keyword produces. */
  function Width(sp: Spider): nat {
    if sp.useApiOnly then (if sp.maxPages <= 0 then 0 else 4 * sp.maxPages) else 1
  }

  /** `start_requests`: the keyword loop, and in API mode the page loop. */
  method StartRequests(sp: Spider) returns (reqs: seq<Request>)
    ensures reqs == Plan(sp, sp.queries)
  {
    reqs := [];
    for k := 0 to |sp.queries|
      invariant reqs == Plan(sp, sp.queries[..k])
    {
      var query := sp.queries[k];
      assert sp.queries[..k + 1][..k] == sp.queries[..k];
      if sp.useApiOnly {
        var referer := SearchUrl(query, 0);
        var page := 0;
        while page < sp.maxPages
          invariant 0 <= page && (sp.maxPages > 0 ==> page <= sp.maxPages) && (sp.maxPages <= 0 ==> page == 0)
          invariant reqs == Plan(sp, sp.queries[..k]) + PagesPlan(sp, query, page)
        {
          ghost var before := reqs;
          reqs := reqs + [ApiRequest(sp, query, page, referer, Post)];
          reqs := reqs + [ApiRequest(sp, query, page, referer, Get)];
          reqs := reqs + [ApiRequest(sp, query, page + 1, referer, Post)];
          reqs := reqs + [ApiRequest(sp, query, page + 1, referer, Get)];
          AppendFour(before, PageProbes(sp, query, page));
          Regroup(Plan(sp, sp.queries[..k]), PagesPlan(sp, query, page), PageProbes(sp, query, page));
          page := page + 1;
        }
        assert page == sp.maxPages || (page == 0 && sp.maxPages <= 0);
        assert PagesPlan(sp, query, page) == KeywordPlan(sp, query);
      } else {
        reqs := reqs + [PageRequest(query)];
      }
    }
    assert sp.queries[..|sp.queries|] == sp.queries;
  }

  lemma AppendFour(s: seq<Request>, four: seq<Request>)
    requires |four| == 4
    ensures s + [four[0]] + [four[1]] + [four[2]] + [four[3]] == s + four
  {
  }

  lemma Regroup(a: seq<Request>, b: seq<Request>, c: seq<Request>)
    ensures (a + b) + c == a + (b + c)
  {
  }

  /** What every probe of a page has in common. */
  lemma ProbesShare(sp: Spider, query: string, page: int)
    ensures forall r :: r in PageProbes(sp, query, page) ==>
      && r.dontFilter && r.callback == ApiJsonCallback && !r.playwright
      && r.query == query
      && r.referer == Some(SearchUrl(query, 0)) && r.sourceUrl == SearchUrl(query, 0)
      && page <= r.pageIndex <= page + 1
  {
  }

  /** The probes of page `p` sit at positions `4p .. 4p + 3` of a keyword's
      page plan. */
  lemma {:induction false} PagesPlanAt(sp: Spider, query: string, n: int, p: int, j: int)
    requires 0 <= p < n && 0 <= j < 4
    ensures PagesPlan(sp, query, n)[4 * p + j] == PageProbes(sp, query, p)[j]
    decreases n
  {
    if p < n - 1 {
      PagesPlanAt(sp, query, n - 1, p, j);
    }
  }

  /** Every probe of pages `0 .. n - 1` is exempt from duplicate filtering,
      goes to `parse_api_json`, names the keyword, carries the keyword's
      page-0 search URL as referer and source URL, and asks for a page in
      `0 .. n`. */
  lemma {:induction false} PagesPlanRequests(sp: Spider, query: string, n: int)
    ensures forall r :: r in PagesPlan(sp, query, n) ==>
      && r.dontFilter && r.callback == ApiJsonCallback && !r.playwright
      && r.query == query
      && r.referer == Some(SearchUrl(query, 0)) && r.sourceUrl == SearchUrl(query, 0)
      && 0 <= r.pageIndex <= n
    decreases n
  {
    if n > 0 {
      PagesPlanRequests(sp, query, n - 1);
      ProbesShare(sp, query, n - 1);
      var a, b := PagesPlan(sp, query, n - 1), PageProbes(sp, query, n - 1);
      assert PagesPlan(sp, query, n) == a + b;
      assert forall r :: r in a + b ==> r in a || r in b;
    }
  }

  lemma MulStep(a: int, w: int)
    ensures (a + 1) * w == a * w + w
  {
  }

  lemma MulMono(a: int, b: int, w: nat)
    requires a <= b
    ensures a * w <= b * w
  {
  }

  /** Keyword `k`'s requests occupy the `k`-th block of `Width(sp)` positions
      of the plan: keywords are served one after another, in list order. */
  lemma {:induction false} PlanAt(sp: Spider, qs: seq<string>, k: int, i: int)
    requires 0 <= k < |qs| && 0 <= i < Width(sp)
    ensures |Plan(sp, qs)| == |qs| * Width(sp)
    ensures k * Width(sp) + i < |Plan(sp, qs)|
    ensures Plan(sp, qs)[k * Width(sp) + i] == KeywordPlan(sp, qs[k])[i]
  {
    var w := Width(sp);
    var init := qs[..|qs| - 1];
    MulStep(k, w);
    MulMono(k + 1, |qs|, w);
    if k < |init| {
      PlanAt(sp, init, k, i);
      MulMono(k + 1, |init|, w);
      assert qs[k] == init[k];
    }
  }

  /** In API mode, for keyword `k` and page `p < max_pages` the plan holds
      POST p, GET p, POST p+1, GET p+1 at positions `4(k * max_pages + p)`
      onwards, all with the page-0 search URL as referer; there are
      `4 * max_pages` requests per keyword. */
  lemma ApiPlanOrder(sp: Spider, k: int, p: int)
    requires sp.useApiOnly && 0 <= k < |sp.queries| && 0 <= p < sp.maxPages
    ensures |Plan(sp, sp.queries)| == |sp.queries| * (4 * sp.maxPages)
    ensures var q, at := sp.queries[k], 4 * (k * sp.maxPages + p);
      var referer := SearchUrl(q, 0);
      && at + 3 < |Plan(sp, sp.queries)|
      && Plan(sp, sp.queries)[at] == ApiRequest(sp, q, p, referer, Post)
      && Plan(sp, sp.queries)[at + 1] == ApiRequest(sp, q, p, referer, Get)
      && Plan(sp, sp.queries)[at + 2] == ApiRequest(sp, q, p + 1, referer, Post)
      && Plan(sp, sp.queries)[at + 3] == ApiRequest(sp, q, p + 1, referer, Get)
  {
    var q := sp.queries[k];
    var probes := PageProbes(sp, q, p);
    ApiPlanSlot(sp, k, p, 0);
    ApiPlanSlot(sp, k, p, 1);
    ApiPlanSlot(sp, k, p, 2);
    ApiPlanSlot(sp, k, p, 3);
  }

  /** Slot `j` of page `p` of keyword `k` in an API-mode plan. */
  lemma ApiPlanSlot(sp: Spider, k: int, p: int, j: int)
    requires sp.useApiOnly && 0 <= k < |sp.queries| && 0 <= p < sp.maxPages && 0 <= j < 4
    ensures |Plan(sp, sp.queries)| == |sp.queries| * (4 * sp.maxPages)
    ensures 4 * (k * sp.maxPages + p) + j < |Plan(sp, sp.queries)|
    ensures Plan(sp, sp.queries)[4 * (k * sp.maxPages + p) + j] == PageProbes(sp, sp.queries[k], p)[j]
  {
    var w := Width(sp);
    assert w == 4 * sp.maxPages;
    assert 4 * (k * sp.maxPages + p) + j == k * w + (4 * p + j);
    PlanAt(sp, sp.queries, k, 4 * p + j);
    PagesPlanAt(sp, sp.queries[k], sp.maxPages, p, j);
  }

  /** Every request of an API-mode plan is exempt from duplicate filtering,
      is handled by `parse_api_json`, carries its keyword's page-0 search URL
      as referer and source URL, and asks for a page between 0 and
      max_pages. */
  lemma {:induction false} ApiPlanRequests(sp: Spider, qs: seq<string>)
    requires sp.useApiOnly
    ensures forall r :: r in Plan(sp, qs) ==>
      && r.dontFilter && r.callback == ApiJsonCallback && !r.playwright
      && r.query in qs
      && r.referer == Some(SearchUrl(r.query, 0)) && r.sourceUrl == SearchUrl(r.query, 0)
      && 0 <= r.pageIndex <= sp.maxPages
  {
    if qs != [] {
      var init := qs[..|qs| - 1];
      ApiPlanRequests(sp, init);
      PagesPlanRequests(sp, qs[|qs| - 1], sp.maxPages);
      assert forall q :: q in init ==> q in qs;
    }
  }

  /** In rendered-page mode the plan is one page-0 request per keyword, in
      keyword order, handled by `parse_list` and rendered by the browser. */
  lemma PagePlanRequests(sp: Spider, qs: seq<string>, k: int)
    requires !sp.useApiOnly && 0 <= k < |qs|
    ensures |Plan(sp, qs)| == |qs|
    ensures var r := Plan(sp, qs)[k];
      && r == PageRequest(qs[k]) && r.pageIndex == 0 && r.callback == ListCallback
      && r.playwright && !r.dontFilter && r.url == SearchUrl(qs[k], 0)
  {
    PlanAt(sp, qs, k, 0);
  }
}
