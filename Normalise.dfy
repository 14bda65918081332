/**
 * The response callbacks of the spider: `parse_api_json`, which turns one
 * API response into job records, and `parse_list`, which reads the job
 * cards of a rendered search page or, when the page has none, falls back
 * to the API.
 *
 * A Python exception inside either generator (an entry that is not an
 * object, a link or posted value that is not a string, a date the recency
 * filter cannot compare) ends that response's stream: the records already
 * yielded stay yielded, the rest are lost. `Halt` stands for that.
 */
module Normalise {
  import opened Wrappers
  import opened Text
  import opened JsonValue
  import opened Jobs
  import opened Recency
  import opened Planner

  /** The functions the callbacks call out to: `response.urljoin`,
      `datetime.fromisoformat`, and `repr` of lists and objects. */
  datatype Env = Env(urljoin: (Url, string) -> string, fromIso: string -> IsoParse, repr: Json -> string)

  /** The callback arguments and the URL the response came from. */
  datatype Origin = Origin(query: string, pageIndex: int, sourceUrl: Url, responseUrl: Url)

  /** What the generator does with one entry or card. */
  datatype Step = Emit(job: Job) | Skip | Halt

  /** The records a generator yields for a sequence of steps: every `Emit`
      in order, up to the first `Halt`. */
  function Collect(steps: seq<Step>): (jobs: seq<Job>)
    ensures |jobs| <= |steps|
    ensures forall job :: job in jobs ==> Emit(job) in steps
  {
    if steps == [] then []
    else match steps[0]
      case Halt => []
      case Skip => Collect(steps[1..])
      case Emit(job) => [job] + Collect(steps[1..])
  }

  /** Collecting from position `i` on: the step at `i`, then the rest. */
  lemma CollectAt(steps: seq<Step>, i: nat)
    requires i < |steps|
    ensures steps[i].Halt? ==> Collect(steps[i..]) == []
    ensures steps[i].Skip? ==> Collect(steps[i..]) == Collect(steps[i + 1..])
    ensures steps[i].Emit? ==> Collect(steps[i..]) == [steps[i].job] + Collect(steps[i + 1..])
  {
    assert steps[i..][1..] == steps[i + 1..];
  }

  /** One turn of a generator loop that has yielded `jobs` so far. */
  lemma CollectStep(steps: seq<Step>, i: nat, jobs: seq<Job>)
    requires i < |steps| && Collect(steps) == jobs + Collect(steps[i..])
    ensures steps[i].Halt? ==> Collect(steps) == jobs
    ensures steps[i].Skip? ==> Collect(steps) == jobs + Collect(steps[i + 1..])
    ensures steps[i].Emit? ==> Collect(steps) == (jobs + [steps[i].job]) + Collect(steps[i + 1..])
  {
    CollectAt(steps, i);
    if steps[i].Emit? {
      var rest := Collect(steps[i + 1..]);
      assert jobs + ([steps[i].job] + rest) == (jobs + [steps[i].job]) + rest;
    }
  }

  /** When no step halts, the records are exactly the emitted ones. */
  lemma {:induction false} CollectWithoutHalt(steps: seq<Step>, job: Job)
    requires Halt !in steps
    ensures job in Collect(steps) <==> Emit(job) in steps
  {
    if steps != [] {
      assert Halt !in steps[1..];
      CollectWithoutHalt(steps[1..], job);
      assert steps == [steps[0]] + steps[1..];
    }
  }

  // ----- the results container -----

  /** Iterating the value chosen by `data.get("jobs") or data.get("items")
      or []`: a list gives its entries; any other truthy value raises before
      the first record (a dict or string yields strings, on which `.get`
      fails; a number is not iterable), so it gives no records either. */
  function Iterated(v: Json): seq<Json> {
    if v.Arr? then v.items else []
  }

  /** The entries `parse_api_json` iterates over; `None` is a body that
      `response.json()` could not decode. */
  function ResultsOf(body: Option<Json>): (r: seq<Json>)
    ensures r != [] ==> body.Some? && body.value.Obj?
  {
    match body
    case None => []
    case Some(data) =>
      if !data.Obj? then []
      else
        var m := data.fields;
        if Field(m, "results").Arr? then Field(m, "results").items
        else if Field(m, "data").Arr? then Field(m, "data").items
        else if Field(m, "payload").Arr? then Field(m, "payload").items
        else if Field(m, "result").Obj? && Field(Field(m, "result").fields, "results").Arr? then
          Field(Field(m, "result").fields, "results").items
        else if "jobs" in m || "items" in m then
          Iterated(Or(Or(Field(m, "jobs"), Field(m, "items")), Arr([])))
        else []
  }

  /** One way of finding the results in a decoded object. */
  datatype Probe =
    | ListAt(key: string)
    | NestedListAt(outer: string, inner: string)
    | AnyOf(first: string, second: string)

  predicate Applies(p: Probe, m: map<string, Json>) {
    match p
    case ListAt(k) => Field(m, k).Arr?
    case NestedListAt(o, i) => Field(m, o).Obj? && Field(Field(m, o).fields, i).Arr?
    case AnyOf(a, b) => a in m || b in m
  }

  function Take(p: Probe, m: map<string, Json>): seq<Json>
    requires Applies(p, m)
  {
    match p
    case ListAt(k) => Field(m, k).items
    case NestedListAt(o, i) => Field(Field(m, o).fields, i).items
    case AnyOf(a, b) => Iterated(Or(Or(Field(m, a), Field(m, b)), Arr([])))
  }

  /** The container keys in priority order, as a table. */
  const ContainerProbes: seq<Probe> := [
    ListAt("results"), ListAt("data"), ListAt("payload"),
    NestedListAt("result", "results"), AnyOf("jobs", "items")]

  /** The first probe of the table that applies wins; none gives nothing. */
  function Locate(probes: seq<Probe>, m: map<string, Json>): seq<Json> {
    if probes == [] then []
    else if Applies(probes[0], m) then Take(probes[0], m)
    else Locate(probes[1..], m)
  }

  /** The chain of conditionals in `parse_api_json` is the first-match lookup
      in the priority table; an undecodable body or a non-object gives no
      entries. */
  lemma ContainerIsFirstMatch(body: Option<Json>)
    ensures body.Some? && body.value.Obj? ==> ResultsOf(body) == Locate(ContainerProbes, body.value.fields)
    ensures body.None? || !body.value.Obj? ==> ResultsOf(body) == []
  {
    if body.Some? && body.value.Obj? {
      var m := body.value.fields;
      var p := ContainerProbes;
      assert p[1..][1..][1..][1..][1..] == [];
      assert Locate(p[1..][1..][1..][1..], m)
        == if "jobs" in m || "items" in m then Take(AnyOf("jobs", "items"), m) else [];
      assert Locate(p[1..][1..][1..], m)
        == if Applies(NestedListAt("result", "results"), m) then Take(NestedListAt("result", "results"), m)
           else Locate(p[1..][1..][1..][1..], m);
      assert Locate(p[1..][1..], m)
        == if Applies(ListAt("payload"), m) then Take(ListAt("payload"), m) else Locate(p[1..][1..][1..], m);
      assert Locate(p[1..], m)
        == if Applies(ListAt("data"), m) then Take(ListAt("data"), m) else Locate(p[1..][1..], m);
    }
  }

  // ----- field extraction -----

  /** `company["name"] or company["companyName"]` for an object, the string
      itself for a string, None otherwise. */
  function CompanyOf(raw: Json): Json {
    match raw
    case Obj(c) => Or(Field(c, "name"), Field(c, "companyName"))
    case Str(_) => raw
    case _ => Null
  }

  /** How a salary bound or currency enters the f-string: `v or ''`. */
  function Part(v: Json, repr: Json -> string): string {
    if Truthy(v) then Show(v, repr) else ""
  }

  /** `f"{min or ''}-{max or ''}".strip("-")`, a space and the currency. */
  function SalaryParts(low: Json, high: Json, currency: Json, repr: Json -> string): string {
    Trim(Part(low, repr) + "-" + Part(high, repr), {'-'}) + " " + Part(currency, repr)
  }

  /** The salary text, stripped: no whitespace at either end. */
  function SalaryText(low: Json, high: Json, currency: Json, repr: Json -> string): (t: string)
    ensures Stripped(t)
  {
    var s := SalaryParts(low, high, currency, repr);
    StripIsStripped(s);
    Strip(s)
  }

  /** The salary value: None when both bounds are falsy, otherwise the
      stripped salary text. */
  function SalaryOf(low: Json, high: Json, currency: Json, repr: Json -> string): (r: Json)
    ensures r == Null <==> !Truthy(low) && !Truthy(high)
    ensures r != Null ==> r.Str? && Stripped(r.s)
  {
    if Truthy(low) || Truthy(high) then Str(SalaryText(low, high, currency, repr)) else Null
  }

  /** The link of an entry: the first truthy of its four URL fields. */
  function LinkOf(m: map<string, Json>): Json {
    Or(Or(Or(Field(m, "jobDetailsUrl"), Field(m, "seoUrl")), Field(m, "urlPath")), Field(m, "jobUrl"))
  }

  /** The posting time of an entry: the first truthy of its four date fields. */
  function PostedOf(m: map<string, Json>): Json {
    Or(Or(Or(Field(m, "postingDate"), Field(m, "postedDate")), Field(m, "createDate")), Field(m, "lastUpdatedDate"))
  }

  /** The record `parse_api_json` builds from an entry object. */
  function EntryRecord(sp: Spider, env: Env, o: Origin, m: map<string, Json>): (job: Job)
    requires !Truthy(LinkOf(m)) || LinkOf(m).Str?
    ensures job.searchQuery == o.query && job.pageIndex == o.pageIndex && job.sourceUrl == o.sourceUrl
    ensures job.jobUrl.Some? <==> Truthy(LinkOf(m))
    ensures Truthy(job.title) <==> Truthy(Field(m, "title")) || Truthy(Field(m, "jobTitle"))
    ensures Truthy(job.category) <==> Truthy(Field(m, "category")) || Truthy(Field(m, "jobCategory"))
    ensures job.salary == Null <==> !Truthy(Field(m, "minSalary")) && !Truthy(Field(m, "maxSalary"))
    ensures Truthy(job.posted) <==>
      || Truthy(Field(m, "postingDate")) || Truthy(Field(m, "postedDate"))
      || Truthy(Field(m, "createDate")) || Truthy(Field(m, "lastUpdatedDate"))
  {
    var link := LinkOf(m);
    Job(
      o.query, o.pageIndex,
      Or(Field(m, "title"), Field(m, "jobTitle")),
      CompanyOf(Field(m, "company")),
      Or(Or(Or(Field(m, "location"), Field(m, "postal")), Field(m, "jobLocation")), Null),
      SalaryOf(Field(m, "minSalary"), Field(m, "maxSalary"), Field(m, "salaryCurrency"), env.repr),
      PostedOf(m),
      Field(m, "employmentType"),
      Field(m, "seniority"),
      Or(Field(m, "category"), Field(m, "jobCategory")),
      if Truthy(link) then Some(env.urljoin(o.responseUrl, link.s)) else None,
      o.sourceUrl)
  }

  /** The recency filter applied to a posted value `v` that may be anything:
      a falsy value is not checked, a truthy non-string makes `.strip()`
      raise. */
  function Screen(sp: Spider, env: Env, v: Json): Recency {
    if !Truthy(v) then Recent
    else if !v.Str? then Raises
    else PostedWithinDays(v.s, sp.withinDays, sp.now, env.fromIso)
  }

  /** One pass of the loop body of `parse_api_json`. */
  function ReadEntry(sp: Spider, env: Env, o: Origin, j: Json): (st: Step)
    ensures st.Emit? ==> && st.job.searchQuery == o.query && st.job.pageIndex == o.pageIndex
                         && st.job.sourceUrl == o.sourceUrl
    ensures st.Emit? ==>
      (!Truthy(st.job.posted)
       || (st.job.posted.Str? && PostedWithinDays(st.job.posted.s, sp.withinDays, sp.now, env.fromIso) == Recent))
  {
    if !j.Obj? then Halt
    else
      var m := j.fields;
      if Truthy(LinkOf(m)) && !LinkOf(m).Str? then Halt
      else match Screen(sp, env, PostedOf(m))
        case Raises => Halt
        case Stale => Skip
        case Recent => Emit(EntryRecord(sp, env, o, m))
  }

  function EntrySteps(sp: Spider, env: Env, o: Origin, entries: seq<Json>): (steps: seq<Step>)
    ensures |steps| == |entries|
    ensures forall i :: 0 <= i < |entries| ==> steps[i] == ReadEntry(sp, env, o, entries[i])
  {
    seq(|entries|, i requires 0 <= i < |entries| => ReadEntry(sp, env, o, entries[i]))
  }

  /** The records `parse_api_json` yields for a response body. */
  function ApiRecords(sp: Spider, env: Env, o: Origin, body: Option<Json>): seq<Job> {
    Collect(EntrySteps(sp, env, o, ResultsOf(body)))
  }

  /** `parse_api_json`: decode, pick the container, then walk the entries. */
  method ParseApiJson(sp: Spider, env: Env, o: Origin, body: Option<Json>) returns (jobs: seq<Job>)
    ensures jobs == ApiRecords(sp, env, o, body)
  {
    var results := ResultsOf(body);
    ghost var steps := EntrySteps(sp, env, o, results);
    jobs := [];
    if results == [] {
      return;
    }
    var i := 0;
    assert steps[0..] == steps;
    while i < |results|
      invariant 0 <= i <= |results|
      invariant Collect(steps) == jobs + Collect(steps[i..])
    {
      var st := ReadEntry(sp, env, o, results[i]);
      assert steps[i] == st;
      CollectStep(steps, i, jobs);
      if st.Halt? {
        return;
      }
      if st.Emit? {
        jobs := jobs + [st.job];
      }
      i := i + 1;
    }
  }

  /** Every record `parse_api_json` yields carries the request's keyword,
      page index and referer, and its posted value, when present, passed the
      recency filter. */
  lemma ApiRecordsProvenance(sp: Spider, env: Env, o: Origin, body: Option<Json>)
    ensures forall job :: job in ApiRecords(sp, env, o, body) ==>
      && job.searchQuery == o.query && job.pageIndex == o.pageIndex && job.sourceUrl == o.sourceUrl
      && (!Truthy(job.posted)
          || (job.posted.Str? && PostedWithinDays(job.posted.s, sp.withinDays, sp.now, env.fromIso) == Recent))
  {
    var steps := EntrySteps(sp, env, o, ResultsOf(body));
    forall job | job in Collect(steps)
      ensures job.searchQuery == o.query && job.pageIndex == o.pageIndex && job.sourceUrl == o.sourceUrl
      ensures !Truthy(job.posted)
          || (job.posted.Str? && PostedWithinDays(job.posted.s, sp.withinDays, sp.now, env.fromIso) == Recent)
    {
      var i :| 0 <= i < |steps| && steps[i] == Emit(job);
      assert ReadEntry(sp, env, o, ResultsOf(body)[i]) == Emit(job);
    }
  }

  /** An entry object without any link field is still emitted, with no job
      URL, when its posted value passes the filter. */
  lemma LinklessEntryKept(sp: Spider, env: Env, o: Origin, m: map<string, Json>)
    requires !Truthy(LinkOf(m)) && Screen(sp, env, PostedOf(m)) == Recent
    ensures ReadEntry(sp, env, o, Obj(m)).Emit?
    ensures ReadEntry(sp, env, o, Obj(m)).job.jobUrl == None
  {
  }

  /** An entry whose posted text the filter rejects yields nothing and does
      not stop the loop. */
  lemma StaleEntrySkipped(sp: Spider, env: Env, o: Origin, m: map<string, Json>)
    requires !Truthy(LinkOf(m)) || LinkOf(m).Str?
    requires PostedOf(m).Str? && PostedOf(m).s != ""
    requires PostedWithinDays(PostedOf(m).s, sp.withinDays, sp.now, env.fromIso) == Stale
    ensures ReadEntry(sp, env, o, Obj(m)) == Skip
  {
  }

  /** When no entry raises, the records are exactly the entries that were
      not filtered out. */
  lemma ApiRecordsWithoutErrors(sp: Spider, env: Env, o: Origin, body: Option<Json>, job: Job)
    requires forall j :: j in ResultsOf(body) ==> !ReadEntry(sp, env, o, j).Halt?
    ensures job in ApiRecords(sp, env, o, body) <==>
      exists j :: j in ResultsOf(body) && ReadEntry(sp, env, o, j) == Emit(job)
  {
    var entries := ResultsOf(body);
    var steps := EntrySteps(sp, env, o, entries);
    assert Halt !in steps by {
      forall i | 0 <= i < |steps| ensures steps[i] != Halt {
        assert entries[i] in entries;
      }
    }
    CollectWithoutHalt(steps, job);
    if Emit(job) in steps {
      var i :| 0 <= i < |steps| && steps[i] == Emit(job);
      assert entries[i] in entries;
    }
    if exists j :: j in entries && ReadEntry(sp, env, o, j) == Emit(job) {
      var j :| j in entries && ReadEntry(sp, env, o, j) == Emit(job);
      var i :| 0 <= i < |entries| && entries[i] == j;
      assert steps[i] == Emit(job);
    }
  }

  // ----- salary -----

  lemma NaturalEnds(n: nat)
    ensures Natural(n)[0] != '-' && Natural(n)[0] !in Whitespace
    ensures Natural(n)[|Natural(n)| - 1] != '-' && Natural(n)[|Natural(n)| - 1] !in Whitespace
  {
    var r := Natural(n);
    assert IsDigit(r[0]) && IsDigit(r[|r| - 1]);
  }

  /** Two positive bounds and a currency code give "min-max CUR". */
  lemma SalaryRange(low: nat, high: nat, currency: string, repr: Json -> string)
    requires low > 0 && high > 0
    requires currency != [] && currency[0] !in Whitespace && currency[|currency| - 1] !in Whitespace
    ensures SalaryOf(Num(low), Num(high), Str(currency), repr)
      == Str(Decimal(low) + "-" + Decimal(high) + " " + currency)
  {
    var a, b := Decimal(low), Decimal(high);
    assert Part(Num(low), repr) == a && Part(Num(high), repr) == b;
    assert Part(Str(currency), repr) == currency;
    NaturalEnds(low);
    NaturalEnds(high);
    var range := a + "-" + b;
    assert range[0] == a[0] && range[|range| - 1] == b[|b| - 1];
    TrimKeeps(range, {'-'});
    var full := range + " " + currency;
    assert full[0] == a[0] && full[|full| - 1] == currency[|currency| - 1];
    TrimKeeps(full, Whitespace);
    assert SalaryOf(Num(low), Num(high), Str(currency), repr) == Str(Strip(full));
  }

  /** A lower bound alone, with no currency, gives just that number. */
  lemma SalaryLowOnly(low: nat, high: Json, currency: Json, repr: Json -> string)
    requires low > 0 && !Truthy(high) && !Truthy(currency)
    ensures SalaryOf(Num(low), high, currency, repr) == Str(Decimal(low))
  {
    var a := Decimal(low);
    NaturalEnds(low);
    var raw := Part(Num(low), repr) + "-" + Part(high, repr);
    assert raw == a + ['-'];
    TrimTrailing(a, '-', {'-'});
    var full := Trim(raw, {'-'}) + " " + Part(currency, repr);
    assert full == a + [' '];
    TrimTrailing(a, ' ', Whitespace);
  }

  /** An upper bound alone, with no currency, gives just that number: the
      dash in front of it is stripped. */
  lemma SalaryHighOnly(low: Json, high: nat, currency: Json, repr: Json -> string)
    requires !Truthy(low) && high > 0 && !Truthy(currency)
    ensures SalaryOf(low, Num(high), currency, repr) == Str(Decimal(high))
  {
    var b := Decimal(high);
    NaturalEnds(high);
    var raw := Part(low, repr) + "-" + Part(Num(high), repr);
    assert raw == ['-'] + b;
    TrimLeading('-', b, {'-'});
    var full := Trim(raw, {'-'}) + " " + Part(currency, repr);
    assert full == b + [' '];
    TrimTrailing(b, ' ', Whitespace);
  }

  // ----- rendered search pages -----

  /** What the CSS selectors found on one job card, before stripping: the
      text of the title, company, location and date elements ("" when
      absent), the card's own `href` attribute and that of a link inside it. */
  datatype Card = Card(title: string, company: string, location: string, posted: string,
                       href: Option<string>, innerHref: Option<string>)

  /** What `parse_list` yields: a record, or a request to follow. */
  datatype Yield = Item(job: Job) | Follow(request: Request)

  /** `(text or "").strip() or None`. */
  function CardText(raw: string): Json {
    var t := Strip(raw);
    if t == "" then Null else Str(t)
  }

  /** One pass of the card loop of `parse_list`. */
  function ReadCard(sp: Spider, env: Env, query: string, page: int, at: Url, c: Card): (st: Step)
    ensures st.Emit? ==> st.job.searchQuery == query && st.job.pageIndex == page && st.job.sourceUrl == at
    ensures st.Emit? ==> st.job.salary == Null && st.job.category == Null
    ensures st.Emit? ==>
      (st.job.posted == Null
       || (st.job.posted.Str? && PostedWithinDays(st.job.posted.s, sp.withinDays, sp.now, env.fromIso) == Recent))
  {
    var posted := CardText(c.posted);
    var href := if c.href.Some? && c.href.value != "" then c.href else c.innerHref;
    var jobUrl := if href.Some? && href.value != "" then Some(env.urljoin(at, href.value)) else None;
    // `posted` is None or a non-empty string here, so only the filter itself can raise
    var verdict := if posted == Null then Recent else PostedWithinDays(posted.s, sp.withinDays, sp.now, env.fromIso);
    match verdict
    case Raises => Halt
    case Stale => Skip
    case Recent =>
      Emit(Job(query, page, CardText(c.title), CardText(c.company), CardText(c.location), Null,
               posted, Null, Null, Null, jobUrl, at))
  }

  /** A card whose posted text the filter rejects yields nothing and does
      not stop the loop. */
  lemma StaleCardSkipped(sp: Spider, env: Env, query: string, page: int, at: Url, c: Card)
    requires Strip(c.posted) != ""
    requires PostedWithinDays(Strip(c.posted), sp.withinDays, sp.now, env.fromIso) == Stale
    ensures ReadCard(sp, env, query, page, at, c) == Skip
  {
  }

  /** A card stops the loop exactly when its non-empty posted text makes
      the filter raise: nothing else in the card loop can raise. */
  lemma CardRaises(sp: Spider, env: Env, query: string, page: int, at: Url, c: Card)
    ensures ReadCard(sp, env, query, page, at, c) == Halt <==>
      Strip(c.posted) != "" && PostedWithinDays(Strip(c.posted), sp.withinDays, sp.now, env.fromIso) == Raises
  {
  }

  /** Every record `parse_list` yields from cards carries the keyword, the
      page index and the page's URL, has no salary and no category, and its
      posted text, when present, passed the recency filter. */
  lemma CardRecordsProvenance(sp: Spider, env: Env, query: string, page: int, at: Url, cards: seq<Card>)
    ensures forall job :: job in Collect(CardSteps(sp, env, query, page, at, cards)) ==>
      && job.searchQuery == query && job.pageIndex == page && job.sourceUrl == at
      && job.salary == Null && job.category == Null
      && (job.posted == Null
          || (job.posted.Str? && PostedWithinDays(job.posted.s, sp.withinDays, sp.now, env.fromIso) == Recent))
  {
    var steps := CardSteps(sp, env, query, page, at, cards);
    forall job | job in Collect(steps)
      ensures job.searchQuery == query && job.pageIndex == page && job.sourceUrl == at
      ensures job.salary == Null && job.category == Null
      ensures job.posted == Null
          || (job.posted.Str? && PostedWithinDays(job.posted.s, sp.withinDays, sp.now, env.fromIso) == Recent)
    {
      var i :| 0 <= i < |steps| && steps[i] == Emit(job);
      assert ReadCard(sp, env, query, page, at, cards[i]) == Emit(job);
    }
  }

  function CardSteps(sp: Spider, env: Env, query: string, page: int, at: Url, cards: seq<Card>): (steps: seq<Step>)
    ensures |steps| == |cards|
    ensures forall i :: 0 <= i < |cards| ==> steps[i] == ReadCard(sp, env, query, page, at, cards[i])
  {
    seq(|cards|, i requires 0 <= i < |cards| => ReadCard(sp, env, query, page, at, cards[i]))
  }

  function Items(jobs: seq<Job>): (ys: seq<Yield>)
    ensures |ys| == |jobs| && forall i :: 0 <= i < |jobs| ==> ys[i] == Item(jobs[i])
  {
    if jobs == [] then [] else Items(jobs[..|jobs| - 1]) + [Item(jobs[|jobs| - 1])]
  }

  lemma ItemsSnoc(jobs: seq<Job>, job: Job)
    ensures Items(jobs + [job]) == Items(jobs) + [Item(job)]
  {
    assert (jobs + [job])[..|jobs|] == jobs;
  }

  /**
   * `parse_list` for a rendered page fetched from `at`: with no cards it
   * yields a POST and then a GET API request for the same page and nothing
   * else; otherwise the records of its cards, in card order.
   */
  method ParseList(sp: Spider, env: Env, query: string, page: int, at: Url, cards: seq<Card>)
    returns (out: seq<Yield>)
    ensures cards == [] ==>
      out == [Follow(ApiRequest(sp, query, page, at, Post)), Follow(ApiRequest(sp, query, page, at, Get))]
    ensures cards != [] ==> out == Items(Collect(CardSteps(sp, env, query, page, at, cards)))
  {
    if cards == [] {
      out := [Follow(ApiRequest(sp, query, page, at, Post))];
      out := out + [Follow(ApiRequest(sp, query, page, at, Get))];
      return;
    }
    ghost var steps := CardSteps(sp, env, query, page, at, cards);
    ghost var jobs: seq<Job> := [];
    out := [];
    assert steps[0..] == steps;
    assert Collect(steps) == jobs + Collect(steps[0..]);
    var i := 0;
    while i < |cards|
      invariant 0 <= i <= |cards|
      invariant Collect(steps) == jobs + Collect(steps[i..])
      invariant out == Items(jobs)
    {
      var st := ReadCard(sp, env, query, page, at, cards[i]);
      assert steps[i] == st;
      CollectStep(steps, i, jobs);
      if st.Halt? {
        return;
      }
      if st.Emit? {
        ItemsSnoc(jobs, st.job);
        out := out + [Item(st.job)];
        jobs := jobs + [st.job];
      }
      i := i + 1;
    }
  }

  /** The fallback requests of a card-less page ask the API for the same
      keyword and page, are exempt from duplicate filtering, and use the
      page's URL as referer. */
  lemma FallbackRequests(sp: Spider, query: string, page: int, at: Url)
    ensures var post, get := ApiRequest(sp, query, page, at, Post), ApiRequest(sp, query, page, at, Get);
      && post.verb == Post && get.verb == Get
      && post.pageIndex == page && get.pageIndex == page
      && post.query == query && get.query == query
      && post.dontFilter && get.dontFilter
      && post.referer == Some(at) && get.referer == Some(at)
      && post.callback == ApiJsonCallback && get.callback == ApiJsonCallback
  {
  }
}
