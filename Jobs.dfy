/**
 * The data the spider and the pipelines pass around: the job record, the
 * URLs and requests the spider builds, and the spider's configuration.
 */
module Jobs {
  import opened Wrappers
  import opened JsonValue

  /** A URL as the spider builds it: a base and an ordered list of query
      parameters (`urlencode` turns the list into the query string). */
  datatype Url = Url(base: string, params: seq<(string, string)>)

  /** The value a server reads for query parameter `key`: that of its first
      occurrence. */
  function Lookup(params: seq<(string, string)>, key: string): (r: Option<string>)
    ensures r.Some? <==> exists i :: 0 <= i < |params| && params[i].0 == key
  {
    if params == [] then None
    else if params[0].0 == key then Some(params[0].1)
    else Lookup(params[1..], key)
  }

  /**
   * One scraped posting, with the twelve fields the spider sets and the
   * pipelines read. Text fields hold whatever value the response carried
   * (`Null` for None), because the spider copies them without conversion.
   */
  datatype Job = Job(
    searchQuery: string,
    pageIndex: int,
    title: Json,
    company: Json,
    location: Json,
    salary: Json,
    posted: Json,
    employmentType: Json,
    seniority: Json,
    category: Json,
    jobUrl: Option<string>,
    sourceUrl: Url)

  datatype Method = Get | Post

  /** Which spider callback handles the response: `parse_api_json` or
      `parse_list`. */
  datatype Callback = ApiJsonCallback | ListCallback

  /**
   * A request the spider yields, sent with HTTP method `verb`. `body` is the JSON payload of a POST
   * (`Null` otherwise); `query`, `pageIndex` and `sourceUrl` are the callback
   * arguments (`cb_kwargs`, or `meta` for the rendered page request).
   */
  datatype Request = Request(
    verb: Method,
    url: Url,
    body: Json,
    referer: Option<Url>,
    query: string,
    pageIndex: int,
    sourceUrl: Url,
    callback: Callback,
    dontFilter: bool,
    playwright: bool)

  /** The spider's settings after `__init__`; `now` is the clock reading taken
      there, in microseconds. */
  datatype Spider = Spider(
    queries: seq<string>,
    withinDays: int,
    maxPages: int,
    useApiOnly: bool,
    perPage: int,
    now: int)
}
