/**
 * `DedupePipeline`: a persistent table keyed by job URL. The first record
 * with a given URL is inserted and passed on; every later one is dropped.
 */
module Dedup {
  import opened Wrappers
  import opened JsonValue
  import opened Jobs

  /** The columns of the `jobs` table besides its primary key `job_url`. */
  datatype Row = Row(
    searchQuery: string,
    title: Json,
    company: Json,
    location: Json,
    posted: Json,
    employmentType: Json,
    seniority: Json,
    category: Json)

  /** What `process_item` does with a record: pass it on, or drop it because
      it has no URL, because its URL is already in the table, or because
      sqlite cannot bind one of its values (a list, an object, or an integer
      outside 64 bits, which raises `OverflowError`). */
  datatype Verdict = Passed | MissingUrl | Duplicate | BindFailure

  function RowOf(job: Job): Row {
    Row(job.searchQuery, job.title, job.company, job.location, job.posted,
        job.employmentType, job.seniority, job.category)
  }

  /** sqlite binds None, booleans, strings and integers that fit in a signed
      64-bit column value; not lists, dicts or wider integers. */
  predicate Bindable(v: Json) {
    && !v.Arr? && !v.Obj?
    && (v.Num? ==> -0x8000_0000_0000_0000 <= v.n <= 0x7FFF_FFFF_FFFF_FFFF)
  }

  predicate RowBindable(r: Row) {
    && Bindable(r.title) && Bindable(r.company) && Bindable(r.location) && Bindable(r.posted)
    && Bindable(r.employmentType) && Bindable(r.seniority) && Bindable(r.category)
  }

  /** The truthy URL of a record, if it has one. */
  predicate HasUrl(job: Job) {
    job.jobUrl.Some? && job.jobUrl.value != ""
  }

  /**
   * One call of `process_item` on the table `table`: the verdict and the
   * table afterwards. A row is inserted exactly when the verdict is
   * `Passed`, which happens exactly when the record has a URL that is not
   * yet a key; no existing row is ever changed.
   */
  function Admit(table: map<string, Row>, job: Job): (r: (Verdict, map<string, Row>))
    ensures r.0 == Passed <==> HasUrl(job) && RowBindable(RowOf(job)) && job.jobUrl.value !in table
    ensures r.0 == MissingUrl <==> !HasUrl(job)
    ensures r.0 == Duplicate ==> job.jobUrl.value in table
    ensures r.0 == Passed ==> r.1 == table[job.jobUrl.value := RowOf(job)]
    ensures r.0 != Passed ==> r.1 == table
    ensures forall k :: k in table ==> k in r.1 && r.1[k] == table[k]
  {
    if !HasUrl(job) then (MissingUrl, table)
    else if !RowBindable(RowOf(job)) then (BindFailure, table)
    else if job.jobUrl.value in table then (Duplicate, table)
    else (Passed, table[job.jobUrl.value := RowOf(job)])
  }

  /** A record passed once makes any later record with the same URL a
      duplicate: the POST and GET probes of one page cannot both get
      through. */
  lemma SecondSightIsDuplicate(table: map<string, Row>, first: Job, again: Job)
    requires Admit(table, first).0 == Passed
    requires again.jobUrl == first.jobUrl && RowBindable(RowOf(again))
    ensures Admit(Admit(table, first).1, again).0 == Duplicate
  {
  }

  /** `process_item` over a stream of records, from the table `table`: the
      table afterwards and the verdict for each record. */
  function Run(table: map<string, Row>, jobs: seq<Job>): (r: (map<string, Row>, seq<Verdict>))
    ensures |r.1| == |jobs|
    ensures table.Keys <= r.0.Keys
    ensures forall i :: 0 <= i < |jobs| && r.1[i] == Passed ==>
      HasUrl(jobs[i]) && jobs[i].jobUrl.value in r.0 && jobs[i].jobUrl.value !in table
    ensures forall k :: k in r.0 && k !in table ==>
      exists i :: 0 <= i < |jobs| && r.1[i] == Passed && jobs[i].jobUrl == Some(k)
  {
    if jobs == [] then (table, [])
    else
      var (before, verdicts) := Run(table, jobs[..|jobs| - 1]);
      var last := jobs[|jobs| - 1];
      var (v, after) := Admit(before, last);
      assert forall i :: 0 <= i < |jobs| - 1 ==> jobs[..|jobs| - 1][i] == jobs[i];
      (after, verdicts + [v])
  }

  /** No two records passed in a stream share a URL. */
  ghost predicate PassedOnce(jobs: seq<Job>, verdicts: seq<Verdict>)
    requires |verdicts| == |jobs|
  {
    forall i, j :: 0 <= i < j < |jobs| && verdicts[i] == Passed && verdicts[j] == Passed ==>
      jobs[i].jobUrl != jobs[j].jobUrl
  }

  /** At most once: over any stream of records, no two passed records share
      a URL (and, by `Run`'s contract, none that passed was already in the
      table). */
  lemma {:induction false} AtMostOnce(table: map<string, Row>, jobs: seq<Job>)
    ensures PassedOnce(jobs, Run(table, jobs).1)
  {
    if jobs != [] {
      var n := |jobs| - 1;
      var init := jobs[..n];
      AtMostOnce(table, init);
      var prev := Run(table, init);
      var r := Run(table, jobs);
      assert r.1[..n] == prev.1;
      assert r.0 == Admit(prev.0, jobs[n]).1;
      assert r.1[n] == Admit(prev.0, jobs[n]).0;
      forall i, j | 0 <= i < j < |jobs| && r.1[i] == Passed && r.1[j] == Passed
        ensures jobs[i].jobUrl != jobs[j].jobUrl
      {
        assert init[i] == jobs[i] && prev.1[i] == Passed;
        if j < n {
          assert init[j] == jobs[j] && prev.1[j] == Passed;
        } else {
          assert HasUrl(init[i]) && init[i].jobUrl.value in prev.0;
          assert j == n && Admit(prev.0, jobs[n]).0 == Passed;
          assert jobs[j].jobUrl.value !in prev.0;
        }
      }
    }
  }

  /** The database file: whether the `jobs` table exists, and its rows. */
  class Database {
    var hasTable: bool
    var rows: map<string, Row>

    /** A database file with no table yet. */
    constructor()
      ensures !hasTable && rows == map[]
    {
      hasTable := false;
      rows := map[];
    }
  }

  class DedupePipeline {
    const db: Database
    var connected: bool

    ghost predicate Valid()
      reads this, db
    {
      connected ==> db.hasTable
    }

    constructor(db: Database)
      ensures this.db == db && !connected && Valid()
    {
      this.db := db;
      connected := false;
    }

    /** `open_spider`: connect and create the table if it does not exist.
        Existing rows are kept, so opening twice is the same as once. */
    method OpenSpider()
      modifies this, db
      ensures connected && db.hasTable && db.rows == old(db.rows) && Valid()
    {
      connected := true;
      if !db.hasTable {
        db.hasTable := true;
      }
    }

    /** `process_item`: the verdict and the new table are those of `Admit`. */
    method ProcessItem(job: Job) returns (v: Verdict)
      requires Valid() && connected
      modifies db
      ensures Valid() && db.hasTable
      ensures (v, db.rows) == Admit(old(db.rows), job)
    {
      if job.jobUrl.None? || job.jobUrl.value == "" {
        return MissingUrl;
      }
      var url := job.jobUrl.value;
      var row := RowOf(job);
      if !RowBindable(row) {
        return BindFailure;
      }
      if url in db.rows {
        return Duplicate;
      }
      db.rows := db.rows[url := row];
      v := Passed;
    }

    /** `close_spider`: close the connection; the table stays on disk. */
    method CloseSpider()
      modifies this
      ensures !connected && Valid()
    {
      connected := false;
    }
  }
}
