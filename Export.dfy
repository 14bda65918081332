/**
 * `SplitExportPipeline`: appends every record as one CSV row to a file
 * chosen by the record's keyword (or category), under
 * `base/by_keyword|by_category/<key>/<today>.csv`, writing the header line
 * only into files that did not exist when the run first touched them.
 */
module Export {
  import opened Wrappers
  import opened Text
  import opened JsonValue
  import opened Jobs

  // ----- partition keys -----

  /** The characters that cannot appear in a directory name on common file
      systems. */
  const Forbidden: set<char> := {'\\', '/', ':', '*', '?', '"', '<', '>', '|'}

  predicate Clean(s: string) {
    forall i :: 0 <= i < |s| ==> s[i] !in Forbidden
  }

  /** `re.sub(r'[\\/:*?"<>|]+', "_", s)`: each maximal run of forbidden
      characters becomes one underscore. */
  function Collapse(s: string): (r: string)
    ensures Clean(r)
    ensures |r| <= |s|
    ensures s != [] ==> r != []
    decreases |s|
  {
    if s == [] then []
    else if s[0] in Forbidden then "_" + Collapse(TrimLeft(s, Forbidden))
    else [s[0]] + Collapse(s[1..])
  }

  /** A name without forbidden characters is left as it is. */
  lemma {:induction false} CollapseKeepsClean(s: string)
    requires Clean(s)
    ensures Collapse(s) == s
  {
    if s != [] {
      assert Clean(s[1..]);
      CollapseKeepsClean(s[1..]);
    }
  }

  lemma CollapseForbiddenHead(s: string)
    requires s != [] && s[0] in Forbidden
    ensures Collapse(s) == "_" + Collapse(TrimLeft(s, Forbidden))
  {
  }

  lemma CollapseKeptHead(s: string)
    requires s != [] && s[0] !in Forbidden
    ensures Collapse(s) == [s[0]] + Collapse(s[1..])
  {
  }

  /** Stripping leading forbidden characters stops at the first kept one. */
  lemma {:induction false} TrimLeftAppend(a: string, rest: string)
    requires rest != [] && rest[0] !in Forbidden
    ensures TrimLeft(a + rest, Forbidden) == TrimLeft(a, Forbidden) + rest
  {
    if a == [] {
      assert a + rest == rest;
    } else if a[0] in Forbidden {
      assert (a + rest)[1..] == a[1..] + rest;
      TrimLeftAppend(a[1..], rest);
    }
  }

  lemma SpliceAt(a: string, c: char, b: string)
    ensures a + [c] + b == a + ([c] + b)
    ensures a != [] ==> (a + [c] + b)[0] == a[0] && (a + [c] + b)[1..] == a[1..] + [c] + b
  {
  }

  lemma RegroupAround(h: string, x: string, c: char, y: string)
    ensures h + (x + [c] + y) == (h + x) + [c] + y
  {
  }

  lemma SplitAtKeptHead(a: string, c: char, b: string)
    requires a != [] && a[0] !in Forbidden
    requires Collapse(a[1..] + [c] + b) == Collapse(a[1..]) + [c] + Collapse(b)
    ensures Collapse(a + [c] + b) == Collapse(a) + [c] + Collapse(b)
  {
    SpliceAt(a, c, b);
    CollapseKeptHead(a + [c] + b);
    CollapseKeptHead(a);
    RegroupAround([a[0]], Collapse(a[1..]), c, Collapse(b));
  }

  lemma SplitAtForbiddenHead(a: string, c: char, b: string)
    requires c !in Forbidden && a != [] && a[0] in Forbidden
    requires var t := TrimLeft(a, Forbidden);
      Collapse(t + [c] + b) == Collapse(t) + [c] + Collapse(b)
    ensures Collapse(a + [c] + b) == Collapse(a) + [c] + Collapse(b)
  {
    var t := TrimLeft(a, Forbidden);
    SpliceAt(a, c, b);
    SpliceAt(t, c, b);
    TrimLeftAppend(a, [c] + b);
    CollapseForbiddenHead(a + [c] + b);
    CollapseForbiddenHead(a);
    RegroupAround("_", Collapse(t), c, Collapse(b));
  }

  /** The substitution works around every kept character: the text on each
      side of it is rewritten on its own, and the kept character stays where
      it was. With `CollapseKeepsClean` and `ForbiddenRunIsOneUnderscore`
      this pins `Collapse` down: each maximal run of forbidden characters
      becomes exactly one `_`. */
  lemma {:induction false} CollapseSplit(a: string, c: char, b: string)
    requires c !in Forbidden
    ensures Collapse(a + [c] + b) == Collapse(a) + [c] + Collapse(b)
    decreases |a|
  {
    if a == [] {
      assert a + [c] + b == [c] + b;
      CollapseKeptHead([c] + b);
      assert ([c] + b)[1..] == b;
    } else if a[0] !in Forbidden {
      CollapseSplit(a[1..], c, b);
      SplitAtKeptHead(a, c, b);
    } else {
      CollapseSplit(TrimLeft(a, Forbidden), c, b);
      SplitAtForbiddenHead(a, c, b);
    }
  }

  /** `s[:n]`. */
  function Prefix(s: string, n: nat): (r: string)
    ensures |r| <= n && |r| <= |s|
  {
    if |s| <= n then s else s[..n]
  }

  /**
   * `_sanitize(name)`: `None` when the method raises, which it does for a
   * truthy value that is not a string (it has no `strip`). A falsy value
   * stands for "Unknown"; the text is stripped, runs of forbidden
   * characters collapse to `_`, it is cut to 80 characters, and an empty
   * result becomes "Unknown".
   */
  function Sanitize(name: Json): (r: Option<string>)
    ensures r.None? <==> Truthy(name) && !name.Str?
    ensures r.Some? ==> r.value != [] && |r.value| <= 80 && Clean(r.value)
  {
    if Truthy(name) && !name.Str? then None
    else Some(Tidy(if Truthy(name) then name.s else "Unknown"))
  }

  /** The string part of `_sanitize`. */
  function Tidy(text: string): (r: string)
    ensures r != [] && |r| <= 80 && Clean(r)
  {
    var cut := Prefix(Collapse(Strip(text)), 80);
    if cut == [] then "Unknown" else cut
  }

  /** A missing, empty or blank name gives "Unknown". */
  lemma BlankIsUnknown(name: Json)
    requires !Truthy(name) || (name.Str? && forall i :: 0 <= i < |name.s| ==> name.s[i] in Whitespace)
    ensures Sanitize(name) == Some("Unknown")
  {
    if Truthy(name) {
      assert Strip(name.s) == [];
      assert Collapse([]) == [];
      assert Tidy(name.s) == "Unknown";
    } else {
      TidyKeeps("Unknown");
    }
  }

  /** A name that is already a valid key is its own key. */
  lemma CleanNameKept(name: string)
    requires name != [] && |name| <= 80 && Clean(name)
    requires name[0] !in Whitespace && name[|name| - 1] !in Whitespace
    ensures Sanitize(Str(name)) == Some(name)
  {
    TidyKeeps(name);
  }

  lemma TidyKeeps(name: string)
    requires name != [] && |name| <= 80 && Clean(name)
    requires name[0] !in Whitespace && name[|name| - 1] !in Whitespace
    ensures Tidy(name) == name
  {
    TrimKeeps(name, Whitespace);
    CollapseKeepsClean(name);
  }

  /** Every forbidden character is replaced: a name made of nothing else
      becomes a single underscore. */
  lemma ForbiddenRunIsOneUnderscore(name: string)
    requires name != [] && forall i :: 0 <= i < |name| ==> name[i] in Forbidden
    ensures Sanitize(Str(name)) == Some("_")
  {
    assert name[0] !in Whitespace && name[|name| - 1] !in Whitespace;
    TrimKeeps(name, Whitespace);
    var rest := TrimLeft(name, Forbidden);
    assert rest == [];
    assert Collapse(name) == "_";
    assert Prefix("_", 80) == "_";
  }

  /** The split mode a pipeline was configured with. Any mode other than
      "keyword" partitions by category. */
  predicate ByKeyword(mode: string) {
    mode == "keyword"
  }

  /**
   * `_key_from_item`: `None` when `_sanitize` raises. In keyword mode a key
   * always exists; in category mode a record whose category is a truthy
   * non-string has none, and one with no category goes to "Unknown". A key
   * is always a valid directory name.
   */
  function KeyFor(mode: string, job: Job): (r: Option<string>)
    ensures ByKeyword(mode) ==> r.Some?
    ensures !ByKeyword(mode) ==> (r.None? <==> Truthy(job.category) && !job.category.Str?)
    ensures !ByKeyword(mode) && !Truthy(job.category) ==> r == Some("Unknown")
    ensures r.Some? ==> r.value != [] && |r.value| <= 80 && Clean(r.value)
  {
    if ByKeyword(mode) then Sanitize(Str(job.searchQuery))
    else if !Truthy(job.category) then
      BlankIsUnknown(job.category);
      Sanitize(job.category)
    else Sanitize(job.category)
  }

  // ----- files and rows -----

  /** `base/subdir/key/name`, kept as its four components. */
  datatype Path = Path(base: string, subdir: string, key: string, name: string)

  function Subdir(mode: string): string {
    if ByKeyword(mode) then "by_keyword" else "by_category"
  }

  /** One CSV cell: a JSON-valued field, or a URL. */
  datatype Cell = Text(v: Json) | Link(u: Url)

  datatype Line = Header(columns: seq<string>) | Data(cells: seq<Cell>)

  /** The exported fields, in file order. */
  const Columns: seq<string> := [
    "search_query", "page_index",
    "title", "company", "location", "salary", "posted",
    "employment_type", "seniority", "category",
    "job_url", "source_url"]

  /** The cell of column `name` for a record. */
  function CellOf(job: Job, name: string): Cell {
    match name
    case "search_query" => Text(Str(job.searchQuery))
    case "page_index" => Text(Num(job.pageIndex))
    case "title" => Text(job.title)
    case "company" => Text(job.company)
    case "location" => Text(job.location)
    case "salary" => Text(job.salary)
    case "posted" => Text(job.posted)
    case "employment_type" => Text(job.employmentType)
    case "seniority" => Text(job.seniority)
    case "category" => Text(job.category)
    case "job_url" => Text(if job.jobUrl.Some? then Str(job.jobUrl.value) else Null)
    case _ => Link(job.sourceUrl)
  }

  /** Reading a record back from its row. */
  function RecordOfRow(cells: seq<Cell>): Option<Job> {
    if |cells| != 12 then None
    else if !(cells[0].Text? && cells[0].v.Str?) then None
    else if !(cells[1].Text? && cells[1].v.Num?) then None
    else if !(forall i :: 2 <= i < 11 ==> cells[i].Text?) then None
    else if !(cells[10].v.Null? || cells[10].v.Str?) then None
    else if !cells[11].Link? then None
    else Some(Job(
      cells[0].v.s, cells[1].v.n,
      cells[2].v, cells[3].v, cells[4].v, cells[5].v, cells[6].v,
      cells[7].v, cells[8].v, cells[9].v,
      if cells[10].v.Str? then Some(cells[10].v.s) else None,
      cells[11].u))
  }

  /** The data row written for a record: one cell per column, in order. */
  function RowCells(job: Job): (r: seq<Cell>)
    ensures |r| == |Columns|
    ensures forall i :: 0 <= i < |Columns| ==> r[i] == CellOf(job, Columns[i])
  {
    seq(|Columns|, i requires 0 <= i < |Columns| => CellOf(job, Columns[i]))
  }

  /** A row carries every field of its record: reading it back gives the
      record, so the fixed column order loses nothing. */
  lemma RowRoundTrip(job: Job)
    ensures RecordOfRow(RowCells(job)) == Some(job)
  {
    var r := RowCells(job);
    assert r[0] == Text(Str(job.searchQuery)) && r[1] == Text(Num(job.pageIndex));
    assert r[2] == Text(job.title) && r[3] == Text(job.company) && r[4] == Text(job.location);
    assert r[5] == Text(job.salary) && r[6] == Text(job.posted) && r[7] == Text(job.employmentType);
    assert r[8] == Text(job.seniority) && r[9] == Text(job.category);
    assert r[10] == Text(if job.jobUrl.Some? then Str(job.jobUrl.value) else Null);
    assert r[11] == Link(job.sourceUrl);
  }

  /** A file this run created: its header, then data rows only. */
  ghost predicate HeadedOnce(lines: seq<Line>) {
    && |lines| > 0 && lines[0] == Header(Columns)
    && forall i :: 1 <= i < |lines| ==> lines[i].Data?
  }

  /** A file after one `export_item`: the owed header, if any, then the
      record's row. */
  function Appended(before: seq<Line>, header: bool, job: Job): (r: seq<Line>)
    ensures |r| == |before| + (if header then 2 else 1)
    ensures r[..|before|] == before && r[|r| - 1] == Data(RowCells(job))
    ensures header ==> r[|before|] == Header(Columns)
  {
    before + (if header then [Header(Columns)] else []) + [Data(RowCells(job))]
  }

  /** Appending a data row keeps a file headed once. */
  lemma HeadedAppend(lines: seq<Line>, row: Line)
    requires HeadedOnce(lines) && row.Data?
    ensures HeadedOnce(lines + [row])
  {
  }

  /** The files on disk, by path. */
  class Disk {
    var files: map<Path, seq<Line>>

    constructor(files: map<Path, seq<Line>>)
      ensures this.files == files
    {
      this.files := files;
    }
  }

  /**
   * An open CSV exporter: its file; whether it was told to write a header
   * (the file did not exist when it was opened); whether that header is
   * still to come (Scrapy writes it with the first row); whether
   * `finish_exporting` succeeded; whether its file was closed.
   */
  datatype Exporter = Exporter(path: Path, includeHeader: bool, headerPending: bool,
                               finished: bool, closed: bool)

  class SplitExportPipeline {
    const baseDir: string
    const splitMode: string
    const today: string
    const disk: Disk
    var exporters: map<string, Exporter>

    function PathFor(key: string): Path
      reads this
    {
      Path(baseDir, Subdir(splitMode), key, today + ".csv")
    }

    /**
     * Each exporter writes the file of its own key, which exists; a pending
     * header means the file is still empty; a file this run created with a
     * header written holds that header once, first.
     */
    ghost predicate Valid()
      reads this, disk
    {
      forall k :: k in exporters ==>
        && exporters[k].path == PathFor(k)
        && exporters[k].path in disk.files
        && (exporters[k].headerPending ==> exporters[k].includeHeader && disk.files[exporters[k].path] == [])
        && (exporters[k].includeHeader && !exporters[k].headerPending ==> HeadedOnce(disk.files[exporters[k].path]))
    }

    /** `today` is the date the pipeline was built on, as `YYYY-MM-DD`. */
    constructor(baseDir: string, splitMode: string, today: string, disk: Disk)
      ensures this.baseDir == baseDir && this.splitMode == splitMode && this.today == today
      ensures this.disk == disk && exporters == map[] && Valid()
    {
      this.baseDir := baseDir;
      this.splitMode := splitMode;
      this.today := today;
      this.disk := disk;
      exporters := map[];
    }

    /** The exporter `_get_or_create_exporter` returns for `key` in the
        current state: the cached one, or a fresh one on the key's file that
        owes a header exactly when that file does not exist yet. */
    function CachedOrNew(key: string): Exporter
      reads this, disk
    {
      if key in exporters then exporters[key]
      else
        var p := PathFor(key);
        Exporter(p, p !in disk.files, p !in disk.files, false, false)
    }

    /** `_get_or_create_exporter`: the cached exporter of `key`, or a new one
        on a file opened for appending, with a header exactly when the file
        did not exist. */
    method GetOrCreateExporter(key: string) returns (e: Exporter)
      requires Valid()
      modifies this, disk
      ensures Valid()
      ensures e == old(CachedOrNew(key)) && e.path == PathFor(key)
      ensures exporters == old(exporters)[key := e]
      ensures disk.files == (if e.path in old(disk.files) then old(disk.files) else old(disk.files)[e.path := []])
    {
      if key in exporters {
        return exporters[key];
      }
      var p := PathFor(key);
      var existed := p in disk.files;
      if !existed {
        disk.files := disk.files[p := []];
      }
      e := Exporter(p, !existed, !existed, false, false);
      exporters := exporters[key := e];
    }

    /**
     * `process_item`: a record whose key cannot be computed raises and
     * changes nothing. Otherwise its row is appended to its partition's
     * file, preceded by the header when the exporter still owes one, and
     * every other file is left as it was.
     */
    method ProcessItem(job: Job) returns (raised: bool)
      requires Valid()
      modifies this, disk
      ensures Valid()
      ensures raised <==> KeyFor(splitMode, job).None?
      ensures raised ==> exporters == old(exporters) && disk.files == old(disk.files)
      ensures !raised ==>
        var key := KeyFor(splitMode, job).value;
        var p := PathFor(key);
        var before := if p in old(disk.files) then old(disk.files)[p] else [];
        var e := old(CachedOrNew(key));
        && e.path == p
        && exporters == old(exporters)[key := e.(headerPending := false)]
        && disk.files == old(disk.files)[p := Appended(before, e.headerPending, job)]
      ensures forall q :: q in old(disk.files) && (raised || q != PathFor(KeyFor(splitMode, job).value)) ==>
        q in disk.files && disk.files[q] == old(disk.files)[q]
    {
      var key := KeyFor(splitMode, job);
      if key.None? {
        return true;
      }
      raised := false;
      WriteUnder(key.value, job);
    }

    /** The part of `process_item` after the key is known. */
    method WriteUnder(key: string, job: Job)
      requires Valid()
      modifies this, disk
      ensures Valid()
      ensures var p := PathFor(key);
        var before := if p in old(disk.files) then old(disk.files)[p] else [];
        var e := old(CachedOrNew(key));
        && e.path == p
        && exporters == old(exporters)[key := e.(headerPending := false)]
        && disk.files == old(disk.files)[p := Appended(before, e.headerPending, job)]
    {
      ghost var files0 := disk.files;
      ghost var p := PathFor(key);
      ghost var before := if p in files0 then files0[p] else [];
      var e := GetOrCreateExporter(key);
      assert disk.files[p] == before;
      assert disk.files[p := []] == files0[p := []];
      ExportItem(key, job);
    }

    /** `exporter.export_item(item)`: the header first if it is still owed,
        then the record's row, appended to the exporter's file. */
    method ExportItem(key: string, job: Job)
      requires Valid() && key in exporters
      modifies this, disk
      ensures Valid()
      ensures exporters == old(exporters)[key := old(exporters)[key].(headerPending := false)]
      ensures var p := old(exporters)[key].path;
        disk.files == old(disk.files)[p := Appended(old(disk.files)[p], old(exporters)[key].headerPending, job)]
    {
      var e := exporters[key];
      var row := Data(RowCells(job));
      var lines := disk.files[e.path];
      if e.headerPending {
        lines := lines + [Header(Columns)];
      } else {
        assert lines == lines + [];
      }
      lines := lines + [row];
      assert lines == Appended(disk.files[e.path], e.headerPending, job);
      disk.files := disk.files[e.path := lines];
      exporters := exporters[key := e.(headerPending := false)];
      forall k | k in exporters && k != key
        ensures exporters[k].path != e.path
      {
        assert PathFor(k) != PathFor(key);
      }
      if e.includeHeader && !e.headerPending {
        HeadedAppend(old(disk.files)[e.path], row);
      }
    }

    /**
     * `close_spider`: every exporter is finished and its file closed, even
     * when finishing an earlier one raised (the exceptions are swallowed).
     * `finishFails` holds the keys whose `finish_exporting` raises.
     */
    method CloseSpider(finishFails: set<string>)
      requires Valid()
      modifies this
      ensures exporters.Keys == old(exporters).Keys
      ensures forall k :: k in exporters ==>
        && exporters[k].closed
        && exporters[k].finished == (k !in finishFails)
        && exporters[k] == old(exporters)[k].(finished := k !in finishFails, closed := true)
      ensures Valid()
    {
      var pending := exporters.Keys;
      while pending != {}
        invariant pending <= exporters.Keys && exporters.Keys == old(exporters).Keys
        invariant forall k :: k in exporters && k !in pending ==>
          exporters[k] == old(exporters)[k].(finished := k !in finishFails, closed := true)
        invariant forall k :: k in pending ==> exporters[k] == old(exporters)[k]
        decreases pending
      {
        var k :| k in pending;
        var e := exporters[k];
        var finished := k !in finishFails;
        exporters := exporters[k := e.(finished := finished, closed := true)];
        pending := pending - {k};
      }
    }
  }
}
