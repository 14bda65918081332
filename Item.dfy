/**
 * `JobSummaryItem`, the Scrapy item class the spider builds its records
 * from. A Scrapy item accepts only the field names its class declares:
 * setting any other key raises `KeyError`.
 */
module Item {
  import opened Wrappers
  import Export

  /** The names the item class declares. */
  const Declared: set<string> := {
    "search_query", "page_index",
    "title", "company", "location", "salary", "posted",
    "job_url", "source_url"}

  /** The keyword arguments, in order, that both callbacks pass when they
      build a record. */
  const SpiderKeys: seq<string> := [
    "search_query", "page_index",
    "title", "company", "location", "salary", "posted",
    "employment_type", "seniority", "category",
    "job_url", "source_url"]

  /** The item keys the dedup pipeline reads for its insert. */
  const DedupKeys: seq<string> := [
    "job_url", "search_query", "title", "company", "location", "posted",
    "employment_type", "seniority", "category"]

  /** Building an item from keyword arguments sets them one by one; the
      first key outside `fields` raises. `None` means the item was built. */
  function FirstRejected(fields: set<string>, keys: seq<string>): (r: Option<string>)
    ensures r.None? <==> forall i :: 0 <= i < |keys| ==> keys[i] in fields
    ensures r.Some? ==> r.value !in fields && exists i :: 0 <= i < |keys| && keys[i] == r.value
  {
    if keys == [] then None
    else if keys[0] !in fields then Some(keys[0])
    else
      var rest := FirstRejected(fields, keys[1..]);
      assert forall i :: 1 <= i < |keys| ==> keys[i] == keys[1..][i - 1];
      rest
  }

  /** As declared, the item class rejects every record the spider builds:
      the eighth keyword, `employment_type`, is not a declared field. */
  lemma DeclaredFieldsRejectRecords()
    ensures FirstRejected(Declared, SpiderKeys) == Some("employment_type")
  {
    var ks := SpiderKeys;
    assert ks[0] in Declared && ks[1] in Declared && ks[2] in Declared && ks[3] in Declared;
    assert ks[4] in Declared && ks[5] in Declared && ks[6] in Declared && ks[7] !in Declared;
    assert ks[1..][1..][1..][1..][1..][1..][1..] == ks[7..];
  }

  /** The fields a record needs: the declared ones and the three the spider
      sets and the pipelines read. */
  const Fields: set<string> := Declared + {"employment_type", "seniority", "category"}

  /** With the three missing fields declared, the spider's records are
      accepted, and every key either pipeline reads (the dedup insert, the
      export columns, the category of the split key) is a field. */
  lemma CompleteFieldsAcceptRecords()
    ensures FirstRejected(Fields, SpiderKeys).None?
    ensures forall i :: 0 <= i < |DedupKeys| ==> DedupKeys[i] in Fields
    ensures forall i :: 0 <= i < |Export.Columns| ==> Export.Columns[i] in Fields
    ensures "category" in Fields
  {
    assert forall i :: 0 <= i < |SpiderKeys| ==> SpiderKeys[i] in Fields;
  }
}
