# mycf job scraper — a Dafny model

This project models the core of the `mycf` Scrapy project, which collects job
postings from the MyCareersFuture search API. The model covers three parts:

- **The spider `mycf_jobs`** (`MyCareersFutureSpider`). It builds its keyword
  list from a keyword file and the `q` argument. For each keyword it plans
  either four redundant API probes per page (POST and GET, for page `p` and
  page `p + 1`) or one browser-rendered search page. It turns API responses
  and rendered job cards into job records, and it drops records whose
  posting time falls outside the last `within_days` days.
- **`DedupePipeline`**. It keeps a persistent table keyed by job URL. It
  passes on the first record seen for each URL and drops records that have
  no URL or whose URL has been seen before.
- **`SplitExportPipeline`**. It appends each record as one CSV row to
  `base/by_keyword|by_category/<key>/<today>.csv`. The key is the record's
  keyword or category, sanitised into a safe directory name. The header line
  is written only into files that did not exist when the run first opened
  them.

Modules, one per file:

- `Wrappers`: `Option`.
- `Text`: `str.strip`, ASCII lower-casing, substring search, and decimal
  rendering of integers.
- `JsonValue`: decoded JSON values, Python truthiness and `a or b`.
- `Jobs`: the job record, URLs, requests and the spider configuration.
- `Item`: the declared fields of the item class.
- `Keywords`: `__init__`.
- `Recency`: `_posted_within_days`.
- `Planner`: `_build_search_url`, `_build_api_payload`, `_api_request` and
  `start_requests`.
- `Normalise`: `parse_api_json` and `parse_list`.
- `Dedup`: `DedupePipeline`.
- `Export`: `SplitExportPipeline`.

The model is shaped like the code:

- The pure parts (payloads, field fallback chains, sanitising, the recency
  filter) are functions.
- The loops (reading the keyword file, `sorted`, the keyword and page loops
  of `start_requests`, the entry and card loops of the callbacks, the loop
  of `close_spider`) are methods. Each is proved to meet its
  specification: `BuildQueries` and `SortedList` return the ascending list
  of the keyword set; `StartRequests`, `ParseApiJson` and `ParseList` return
  exactly the value of a specification function (`Plan`, `ApiRecords`, and
  `Items` of the collected card steps); `CloseSpider` leaves every cached
  exporter closed, and finished exactly when its finish did not raise.
- The two pipelines are classes whose methods update their fields: the
  database rows, the exporter table and the files on disk.

The model uses these conventions:

- JSON `null` and Python `None` are both `Null`.
- Record fields hold whatever value the response carried, because the
  spider copies values without converting them.
- Instants are integer microseconds. The spider's zone is UTC+8.
- A Python exception inside a callback generator ends that response's
  record stream. The records yielded before it stay yielded. This is the
  step `Halt`.

Behaviour of the code that the model keeps and states as lemmas:

- **Date-only posting texts raise.** `datetime.fromisoformat` reads a
  date-only text such as `2025-10-10` as a naive datetime
  (`mycf/mycf/spiders/mycf_jobs.py:141`). Subtracting it from the
  zone-aware clock reading at `:144` raises `TypeError`. The `strptime`
  fallback at `:143` is reached only for texts that `fromisoformat`
  rejects. The model keeps this behaviour: the recency filter answers
  `Raises` (`Recency.NaiveDateRaises`), which ends the response's stream.
- **`replace("Z", "+00:00")` never fires.** It runs on text that was already
  lower-cased (`:135`, `:141`). See `Recency.ZuluRewriteIsInert`.
- **A whitespace-only `q` becomes a keyword.** Such a `q` is truthy, so its
  stripped form, the empty string, is added as a keyword
  (`Keywords.BlankQueryIsKeyword`).
- **Links resolve against the response URL.** One might expect job links to
  resolve against `source_url`, the page that led to the request. The code
  passes the response to `_to_abs_url` (`:156-159`), so `response.urljoin`
  resolves against the URL of the API response itself. The model follows the
  code: links are joined with `Origin.responseUrl`.
- **The item class is missing three fields.** See Findings.

## Model

| member | source | states |
|---|---|---|
| Keywords.BuildQueries | mycf/mycf/spiders/mycf_jobs.py:54-66 | the keyword list is strictly ascending (so it has no duplicates) and holds exactly the stripped, non-empty, non-comment file lines plus the stripped `q`, or "quant" when there are none; it is never empty |
| Keywords.SortedList | mycf/mycf/spiders/mycf_jobs.py:66 | `sorted` of a set is strictly ascending with exactly the set's elements |
| Keywords.AscendingUnique | mycf/mycf/spiders/mycf_jobs.py:66 | two strictly ascending lists with the same elements are equal, so the sorted order is unique |
| Keywords.BelowIrreflexive | mycf/mycf/spiders/mycf_jobs.py:66 | no string is below itself under Python's string order |
| Keywords.BelowTransitive | mycf/mycf/spiders/mycf_jobs.py:66 | Python's string order is transitive |
| Keywords.BelowTotal | mycf/mycf/spiders/mycf_jobs.py:66 | of two different strings one is below the other |
| Keywords.BelowAsymmetric | mycf/mycf/spiders/mycf_jobs.py:66 | two strings are never below each other |
| Keywords.BlankQueryIsKeyword | mycf/mycf/spiders/mycf_jobs.py:62-65 | a whitespace-only `q` adds the empty keyword, and "quant" is then present only if the file lists it |
| Keywords.NewSpider | mycf/mycf/spiders/mycf_jobs.py:40-75 | the spider's queries are the sorted keyword set; API mode is on exactly for "1", "true", "yes" or "y" in any ASCII case; the numeric settings and the clock are kept |
| JsonValue.Or | mycf/mycf/spiders/mycf_jobs.py:255 | Python `a or b`: truthy iff either operand is; the first operand when it is truthy, otherwise the second, even when that is falsy |
| Recency.DayCountIsSearch | mycf/mycf/spiders/mycf_jobs.py:147 | the day count is the digit group of the leftmost match of `(\d+)\s*day`, taken greedily, and none is found exactly when there is no match |
| Recency.DayCountContainsDay | mycf/mycf/spiders/mycf_jobs.py:146-147 | a day-count match implies the text contains "day" |
| Recency.FailsOpen | mycf/mycf/spiders/mycf_jobs.py:133-134 | an empty text, or one with no leading date, no day count and no "yesterday", is kept |
| Recency.DropsOnlyOnEvidence | mycf/mycf/spiders/mycf_jobs.py:131-154 | the filter raises only for a text that starts with a date, and drops a text only for a leading date, a day count or "yesterday" |
| Recency.DaysPhraseBound | mycf/mycf/spiders/mycf_jobs.py:146-149 | a text with a day count n and no leading date is kept exactly when n <= within_days |
| Recency.YesterdayBound | mycf/mycf/spiders/mycf_jobs.py:150-151 | "yesterday" without a day count is kept exactly when within_days >= 1 |
| Recency.DateBound | mycf/mycf/spiders/mycf_jobs.py:137-144 | a zone-aware ISO time is kept exactly when it lies within `within_days` days of the clock; the boundary itself is kept and one day more is dropped |
| Recency.NaiveDateRaises | mycf/mycf/spiders/mycf_jobs.py:141-144 | a leading date that `fromisoformat` reads as a naive datetime makes the filter raise |
| Recency.FallbackDate | mycf/mycf/spiders/mycf_jobs.py:140-144 | a leading date that `fromisoformat` rejects is compared as midnight UTC+8 of that date, or raises when it is not a calendar date |
| Recency.ZuluRewriteIsInert | mycf/mycf/spiders/mycf_jobs.py:135-141 | the `Z` rewrite leaves the lower-cased text unchanged |
| Planner.SearchUrlParams | mycf/mycf/spiders/mycf_jobs.py:78-81 | the search-page URL is the search base with exactly the parameters `search` (the keyword), `sortBy` and `page` (the page number as decimal text) |
| Planner.ApiPayloadFields | mycf/mycf/spiders/mycf_jobs.py:83-90 | the API body is an object with exactly the fields search, sortBy, filters (an empty object), page and limit (`per_page`) |
| Planner.ApiRequestShape | mycf/mycf/spiders/mycf_jobs.py:92-129 | an API request goes to the API endpoint with the given verb, referer, keyword, page and source URL, skips the duplicate filter, is not browser-rendered and goes to `parse_api_json`; a GET carries limit, page, search and sortBy as query parameters and no body; a POST carries no query parameters and the payload as its body |
| Planner.GetAndPostAgree | mycf/mycf/spiders/mycf_jobs.py:83-129 | the GET query parameters and the POST body ask for the same search, sort, page and limit; the body's only other field is an empty `filters`; both go to the API endpoint with the given referer and page |
| Planner.StartRequests | mycf/mycf/spiders/mycf_jobs.py:161-187 | the requests yielded are the plan: for each keyword in list order, its page probes or its rendered-page request |
| Planner.PagesPlanAt | mycf/mycf/spiders/mycf_jobs.py:164-170 | the probes of page p are at positions 4p to 4p+3 of a keyword's page plan |
| Planner.PagesPlanRequests | mycf/mycf/spiders/mycf_jobs.py:164-170 | every page probe skips the duplicate filter, goes to `parse_api_json`, carries its keyword, uses the keyword's page-0 search URL as referer and source, and asks for a page between 0 and max_pages |
| Planner.Plan | mycf/mycf/spiders/mycf_jobs.py:161-187 | the plan has one block of equal width per keyword: in API mode four probes for each of the max_pages pages (none when max_pages is not positive), otherwise one rendered-page request |
| Planner.PlanAt | mycf/mycf/spiders/mycf_jobs.py:161-162 | the k-th keyword's requests fill the k-th block of the plan |
| Planner.ApiPlanOrder | mycf/mycf/spiders/mycf_jobs.py:162-170 | in API mode, positions 4(k·max_pages + p) to +3 hold POST p, GET p, POST p+1, GET p+1 for keyword k |
| Planner.ApiPlanRequests | mycf/mycf/spiders/mycf_jobs.py:162-170 | in API mode every request skips the duplicate filter, goes to `parse_api_json`, names one of the keywords, uses that keyword's page-0 search URL as referer and source, and asks for a page between 0 and max_pages |
| Planner.PagePlanRequests | mycf/mycf/spiders/mycf_jobs.py:171-187 | in rendered-page mode the plan holds one page-0 request per keyword, in keyword order, rendered by the browser and handled by `parse_list` |
| Normalise.ResultsOf | mycf/mycf/spiders/mycf_jobs.py:231-252 | entries are found only in a body that decoded to a JSON object |
| Normalise.ContainerIsFirstMatch | mycf/mycf/spiders/mycf_jobs.py:231-252 | the entries are taken from the first applicable container in the priority table results, data, payload, result.results, jobs/items; a body that is not a JSON object gives none |
| Normalise.CollectWithoutHalt | mycf/mycf/spiders/mycf_jobs.py:254-291 | when no step raises, a record is yielded exactly when some step emits it |
| Normalise.EntryRecord | mycf/mycf/spiders/mycf_jobs.py:254-291 | a record built from an entry carries the request's keyword, page and referer; it has a job URL exactly when one of the four link fields is truthy; its title, category and posted value are truthy exactly when one of their fallback fields is; its salary is absent exactly when both bounds are falsy |
| Normalise.ReadEntry | mycf/mycf/spiders/mycf_jobs.py:254-291 | an emitted record carries the request's keyword, page and referer, and its posted value is falsy or passed the recency filter |
| Normalise.ParseApiJson | mycf/mycf/spiders/mycf_jobs.py:229-291 | the records yielded are those of the entries in order, skipping filtered entries and stopping at the first entry that raises |
| Normalise.ApiRecordsProvenance | mycf/mycf/spiders/mycf_jobs.py:275-291 | every record of a response carries the request's keyword, page and referer, and a posted value that is falsy or recent |
| Normalise.ApiRecordsWithoutErrors | mycf/mycf/spiders/mycf_jobs.py:254-291 | when no entry raises, the records are exactly the emitted entries |
| Normalise.LinklessEntryKept | mycf/mycf/spiders/mycf_jobs.py:255-256 | an entry without any link field is still yielded, with no job URL |
| Normalise.StaleEntrySkipped | mycf/mycf/spiders/mycf_jobs.py:275-277 | an entry whose posting text is filtered out is skipped without stopping the loop |
| Normalise.SalaryOf | mycf/mycf/spiders/mycf_jobs.py:267-273 | the salary is absent exactly when both bounds are falsy; otherwise it is a text with no whitespace at either end |
| Normalise.SalaryRange | mycf/mycf/spiders/mycf_jobs.py:270-273 | two positive bounds and a currency give "min-max CUR" |
| Normalise.SalaryLowOnly | mycf/mycf/spiders/mycf_jobs.py:270-273 | a lone lower bound without currency gives just that number |
| Normalise.SalaryHighOnly | mycf/mycf/spiders/mycf_jobs.py:270-273 | a lone upper bound without currency gives just that number, its leading dash stripped |
| Normalise.ReadCard | mycf/mycf/spiders/mycf_jobs.py:202-226 | a record from a card carries the keyword, page and page URL, and has no salary and no category; its posted text is absent or passed the recency filter |
| Normalise.CardRaises | mycf/mycf/spiders/mycf_jobs.py:207-211 | a card stops the loop exactly when its non-empty stripped posted text makes the recency filter raise |
| Normalise.StaleCardSkipped | mycf/mycf/spiders/mycf_jobs.py:210-211 | a card whose posted text the filter rejects is skipped without stopping the loop |
| Normalise.CardRecordsProvenance | mycf/mycf/spiders/mycf_jobs.py:202-226 | every record yielded from cards carries the keyword, page and page URL, has no salary and no category, and its posted text is absent or passed the filter |
| Normalise.ParseList | mycf/mycf/spiders/mycf_jobs.py:190-226 | a page without cards yields exactly a POST and then a GET API request for the same keyword and page; otherwise it yields the cards' records in order, up to the first that raises |
| Normalise.FallbackRequests | mycf/mycf/spiders/mycf_jobs.py:195-200 | the fallback requests ask the API for the page's keyword and page index, skip the duplicate filter, and use the page URL as referer |
| Dedup.Admit | mycf/mycf/pipelines.py:47-73 | a record passes exactly when it has a URL, its values can be bound (no list, no object, no integer outside the signed 64-bit range) and the URL is not yet a key; only then is a row inserted; existing rows never change |
| Dedup.SecondSightIsDuplicate | mycf/mycf/pipelines.py:54-73 | once a record has passed, a later record with the same URL is dropped as a duplicate |
| Dedup.Run | mycf/mycf/pipelines.py:47-73 | over a stream of records, every passed record's URL was new and is now a key, and every new key comes from a passed record |
| Dedup.AtMostOnce | mycf/mycf/pipelines.py:10-11 | over any stream of records, no two passed records share a URL |
| Dedup.DedupePipeline.constructor | mycf/mycf/pipelines.py:12-14 | a new pipeline is not connected |
| Dedup.DedupePipeline.OpenSpider | mycf/mycf/pipelines.py:21-41 | opening connects and makes sure the table exists; existing rows are kept, so opening twice equals opening once |
| Dedup.DedupePipeline.ProcessItem | mycf/mycf/pipelines.py:47-73 | the verdict and the new table are those of `Admit` on the old table |
| Dedup.DedupePipeline.CloseSpider | mycf/mycf/pipelines.py:43-45 | closing disconnects and leaves the table as it is |
| Export.Collapse | mycf/mycf/pipelines.py:97 | the substitution leaves no forbidden character, never lengthens the text and never empties it |
| Export.CollapseSplit | mycf/mycf/pipelines.py:97 | the substitution acts separately on either side of an allowed character, so each run of forbidden characters is replaced on its own and allowed characters stay where they are |
| Export.CollapseKeepsClean | mycf/mycf/pipelines.py:97 | a text without forbidden characters is unchanged |
| Export.Sanitize | mycf/mycf/pipelines.py:95-97 | `_sanitize` raises exactly on a truthy non-string; otherwise its result is non-empty, at most 80 characters and free of forbidden characters |
| Export.Tidy | mycf/mycf/pipelines.py:96-97 | the string part of `_sanitize` always gives a non-empty, clean name of at most 80 characters |
| Export.BlankIsUnknown | mycf/mycf/pipelines.py:96-97 | a missing, empty or blank name becomes "Unknown" |
| Export.CleanNameKept | mycf/mycf/pipelines.py:95-97 | a clean, stripped name of at most 80 characters is its own key |
| Export.ForbiddenRunIsOneUnderscore | mycf/mycf/pipelines.py:97 | a name made only of forbidden characters becomes a single underscore |
| Export.KeyFor | mycf/mycf/pipelines.py:99-102 | keyword mode always has a key; category mode has none exactly for a truthy non-string category (whose `strip` raises), and uses "Unknown" for a missing one; every key is a non-empty valid directory name of at most 80 characters |
| Export.RowRoundTrip | mycf/mycf/pipelines.py:116-121 | reading a row back gives the record, so the row loses no field |
| Export.Appended | mycf/mycf/pipelines.py:130 | one export keeps the file's earlier lines, adds the header when it is owed, and ends with the record's row |
| Export.SplitExportPipeline.constructor | mycf/mycf/pipelines.py:83-87 | a new pipeline has no exporters |
| Export.SplitExportPipeline.GetOrCreateExporter | mycf/mycf/pipelines.py:104-125 | a cached key returns its exporter and changes nothing; a new key gets an exporter on `base/subdir/key/today.csv`, with a header exactly when that file did not exist, and the file is created; no other cached exporter changes |
| Export.SplitExportPipeline.ProcessItem | mycf/mycf/pipelines.py:127-131 | a record without a key raises and changes nothing; otherwise exactly its partition's file grows by the owed header, if any, and one row, and every other file is unchanged; the exporter cache gains or keeps that key's exporter (a new one owing a header exactly when the file did not exist), now with no header owed, and every other cached exporter is unchanged; a file created this run always holds its header once, first |
| Export.SplitExportPipeline.WriteUnder | mycf/mycf/pipelines.py:128-130 | after the key is known: the partition's file grows by the owed header and one row; the cache maps the key to the exporter `_get_or_create_exporter` returned, now with no header owed, and every other cached exporter is unchanged |
| Export.SplitExportPipeline.ExportItem | mycf/mycf/pipelines.py:130 | an export appends to the exporter's own file, writes the header at most once, and keeps every file created this run headed once |
| Export.SplitExportPipeline.CloseSpider | mycf/mycf/pipelines.py:133-144 | every exporter is closed, even when finishing an earlier one raised; an exporter is finished exactly when its `finish_exporting` did not raise |
| Item.FirstRejected | mycf/mycf/items.py:9-20 | building an item fails exactly when a keyword is not a declared field, and the failure names such a keyword |
| Item.DeclaredFieldsRejectRecords | mycf/mycf/items.py:9-20 | with the fields as declared, building any record of the spider fails at `employment_type` |
| Item.CompleteFieldsAcceptRecords | mycf/mycf/items.py:9-20 | with the three missing fields declared, every record is accepted and every key the pipelines read is a field |

## Left out

- Reading the keyword file: it is modelled as its list of lines. A missing
  file or no `keywords_file` is the empty list.
- Argument conversion: `int(x or default)` is not modelled.
  `within_days`, `max_pages` and `per_page` arrive as integers.
- The clock: `datetime.now` is a parameter of the spider (`now`). The
  pipeline's `today` string is a constructor argument.
- `datetime.fromisoformat`: it is an uninterpreted parameter. It answers
  "rejected", "naive local time" or "aware instant".
- Date formats: the leap-year and month-length rules used by the `strptime`
  fallback are modelled. Other date formats are not.
- Unicode:
  - `\d` and `\s` in the two regular expressions are taken as ASCII digits
    and the Python whitespace set.
  - Lower-casing is ASCII only.
  - Unicode digits and non-ASCII case mappings are not modelled.
- URLs:
  - They are kept structured: a base plus an ordered parameter list.
  - `urlencode` percent-encoding is not modelled.
  - `response.urljoin` is an uninterpreted parameter.
- Paths: they are kept as four components. `os.path.join` aliasing is not
  modelled: a key "." or ".." names a different directory on a real disk,
  but a distinct path here.
- HTTP transport and headers: request headers other than the referer are
  not modelled, nor are JsonRequest serialisation, Playwright page methods,
  throttling, concurrency and retries.
- CSS selectors: a rendered page is modelled as its list of cards, each
  holding the texts and attributes the selectors would find.
- Logging: it is left out.
- Floating-point values: JSON numbers are integers. A float salary bound
  renders differently in Python.
- `repr` of lists and objects in the salary text: it is an uninterpreted
  parameter.
- sqlite:
  - It is modelled as a table of rows keyed by URL.
  - The connection, transactions and file creation are not modelled.
  - A binding error is the verdict `BindFailure`. It covers a list or
    object value, and an integer outside the signed 64-bit range, for which
    Python's sqlite3 raises `OverflowError`. The model drops the record
    without a row, as for the other binding errors.
  - A call to `process_item` before `open_spider` (which would fail on the
    missing connection) is excluded by a precondition.
- CSV encoding: rows are lists of cells. Quoting, UTF-8 encoding and the
  conversion of values to text are not modelled. The CSV writer's behaviour
  of writing the header with the first row is modelled.
- Failure to close a file: `close_spider` swallows these errors, and the
  model marks every file closed.
- Pipeline configuration: `settings.py` enables no item pipeline (it has no
  `ITEM_PIPELINES`) and sets none of `MYCF_SQLITE_PATH` (only present as a
  comment), `MYCF_OUTPUT_DIR` or `MYCF_SPLIT_MODE`; its only export setting
  is `FEED_EXPORT_ENCODING`. As shipped, neither pipeline runs. The model
  describes each pipeline as it behaves when enabled, built by its
  `from_crawler` with the defaults (`mycf_jobs.sqlite`, `output`,
  `keyword`); the base directory and split mode are constructor parameters
  of `Export.SplitExportPipeline`, and the database is given to
  `Dedup.DedupePipeline`. The docstring at `mycf/mycf/pipelines.py:81`
  says the settings select `keyword`; the mode is `keyword` only through
  that default.
- Files outside the project: `settings.py` (beyond the point above) and
  `read_jobs.py` are not part of this model.

## Findings

| source | as written | input that shows it | evidently intended | confidence | as-written member | corrected member |
|---|---|---|---|---|---|---|
| mycf/mycf/items.py:9-20 | the item class declares nine fields; both callbacks also pass `employment_type`, `seniority` and `category` (mycf/mycf/spiders/mycf_jobs.py:221-223, 287-289), which a Scrapy item rejects with `KeyError` | any entry or card that reaches the `yield`: its construction fails at `employment_type`, so no record is ever yielded | the item declares all twelve fields that the spider sets and the pipelines read (mycf/mycf/pipelines.py:65-67, 102, 119) | high, not executed | Item.DeclaredFieldsRejectRecords | Item.CompleteFieldsAcceptRecords |

The record datatype `Jobs.Job` carries all twelve fields, as the corrected
item class would.
