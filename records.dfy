/** The DNS record list of the API and the map keyed by record name that both clients build from it. */
module Records {

  /** What is left of a record once `name` and `type` are deleted from it. */
  datatype ARecord = ARecord(recordId: string, content: string, ttl: string, priority: string)

  /** One entry of the `records` list of a `/api/dns/list/<domain>` reply. */
  datatype Entry = Entry(name: string, rtype: string, fields: ARecord)

  /** The names of the type-`A` entries of a record list. */
  function ANames(entries: seq<Entry>): set<string>
  {
    set e | e in entries && e.rtype == "A" :: e.name
  }

  /** Entry `i` is the last type-`A` entry called `name`. */
  predicate IsLastA(entries: seq<Entry>, i: int, name: string)
  {
    0 <= i < |entries| && entries[i].rtype == "A" && entries[i].name == name &&
    forall j :: i < j < |entries| ==> entries[j].rtype != "A" || entries[j].name != name
  }

  /** The map the restructuring loop builds: entries are visited in order, non-`A` entries are
      skipped and a later entry with the same name overwrites an earlier one. */
  function AMap(entries: seq<Entry>): map<string, ARecord>
  {
    if entries == [] then map[]
    else
      var last := entries[|entries| - 1];
      var before := AMap(entries[..|entries| - 1]);
      if last.rtype == "A" then before[last.name := last.fields] else before
  }

  /** The keys of the map are exactly the names of the type-`A` entries. */
  lemma {:induction false} AMapKeys(entries: seq<Entry>)
    ensures AMap(entries).Keys == ANames(entries)
  {
    if entries != [] {
      var init, last := entries[..|entries| - 1], entries[|entries| - 1];
      assert entries == init + [last];
      AMapKeys(init);
      assert ANames(entries) == ANames(init) + (if last.rtype == "A" then {last.name} else {});
    }
  }

  /** The value under a name is the record of the last type-`A` entry with that name,
      without its `name` and `type`. */
  lemma {:induction false} AMapLastWins(entries: seq<Entry>, i: int)
    requires 0 <= i < |entries| && IsLastA(entries, i, entries[i].name)
    ensures entries[i].name in AMap(entries)
    ensures AMap(entries)[entries[i].name] == entries[i].fields
  {
    var init := entries[..|entries| - 1];
    if i < |entries| - 1 {
      assert IsLastA(init, i, init[i].name);
      AMapLastWins(init, i);
    }
  }

  /** The loop of `get_dns_A_records`: keeps the type-`A` entries, keyed by their name. */
  method Restructure(records: seq<Entry>) returns (result: map<string, ARecord>)
    ensures result == AMap(records)
    ensures result.Keys == ANames(records)
  {
    result := map[];
    for i := 0 to |records|
      invariant result == AMap(records[..i])
    {
      var record := records[i];
      assert records[..i + 1][..i] == records[..i];
      if record.rtype == "A" {
        result := result[record.name := record.fields];
      }
    }
    assert records[..|records|] == records;
    AMapKeys(records);
  }
}
