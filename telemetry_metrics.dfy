/**
 * The Telemetry plugin's metrics store: records of named metrics merged
 * under a record id, and published (filtered, merged with a related
 * record, then removed) as one T2 event.
 *
 * The store is keyed by record id; each record is a JSON object.
 * Serialisation of the published object is not modelled.
 */
module TelemetryMetrics {
  import opened Core
  import opened Text
  import opened JsonTree

  type Record = map<string, Json>

  /**
   * The items `std::getline(ss, item, ',')` extracts: the comma-separated
   * fields, where an empty field after the last comma is not produced.
   */
  function GetlineItems(s: string): (r: seq<string>)
    ensures s == [] <==> r == []
    ensures forall i :: 0 <= i < |r| ==> ',' !in r[i]
    decreases |s|
  {
    if s == [] then []
    else
      var i := Find(s, ',', 0);
      FindFirstFrom(s, ',', 0);
      if i == |s| then [s] else [s[..i]] + GetlineItems(s[i + 1..])
  }

  /** Fields joined with commas, as a configuration writes a filter list. */
  function JoinCommas(items: seq<string>): string
  {
    if items == [] then [] else if |items| == 1 then items[0] else items[0] + "," + JoinCommas(items[1..])
  }

  /** Splitting a comma-joined list gives the fields back, when none holds a comma and the last is not empty. */
  lemma {:induction false} GetlineItemsJoin(items: seq<string>)
    requires forall i :: 0 <= i < |items| ==> ',' !in items[i]
    requires items != [] ==> items[|items| - 1] != ""
    ensures GetlineItems(JoinCommas(items)) == items
    decreases |items|
  {
    if |items| == 1 {
      FindAbsent(items[0], ',', 0);
    } else if |items| > 1 {
      var s := JoinCommas(items);
      var rest := JoinCommas(items[1..]);
      assert s == items[0] + "," + rest;
      assert s[|items[0]|] == ',';
      assert forall k :: 0 <= k < |items[0]| ==> s[k] == items[0][k];
      FindFirstFrom(s, ',', 0);
      assert Find(s, ',', 0) == |items[0]|;
      assert s[..|items[0]|] == items[0];
      assert s[|items[0]| + 1..] == rest;
      GetlineItemsJoin(items[1..]);
    }
  }

  /** `generateFilterSet`. */
  function GenerateFilterSet(s: string): (r: set<string>)
    ensures forall x :: x in r ==> ',' !in x
    ensures s == "" <==> r == {}
  {
    var items := GetlineItems(s);
    var r := set i | i in items;
    assert items != [] ==> items[0] in r;
    r
  }

  /** The keys of `source` a filter lets through (None: no filter). */
  function Allowed(source: Record, filter: Option<set<string>>): (r: Record)
    ensures forall k :: k in r <==> k in source && (filter.None? || k in filter.value)
    ensures forall k :: k in r ==> r[k] == source[k]
  {
    map k | k in source && (filter.None? || k in filter.value) :: source[k]
  }

  /** Taking one more allowed key out of the remaining ones adds it to what the filter lets through. */
  lemma AllowedStepIn(source: Record, filter: Option<set<string>>, remaining: set<string>, key: string)
    requires key in remaining && remaining <= source.Keys
    requires filter.None? || key in filter.value
    ensures Allowed(source - (remaining - {key}), filter) == Allowed(source - remaining, filter)[key := source[key]]
  {
  }

  /** Taking one more filtered-out key out of the remaining ones lets nothing more through. */
  lemma AllowedStepOut(source: Record, filter: Option<set<string>>, remaining: set<string>, key: string)
    requires key in remaining
    requires !(filter.None? || key in filter.value)
    ensures Allowed(source - (remaining - {key}), filter) == Allowed(source - remaining, filter)
  {
  }

  /** The loop `for key in source: if allowed: target[key] = source[key]`. */
  method CopyAllowed(target: Record, source: Record, filter: Option<set<string>>) returns (r: Record)
    ensures r == target + Allowed(source, filter)
  {
    r := target;
    var remaining := source.Keys;
    while remaining != {}
      invariant remaining <= source.Keys
      invariant r == target + Allowed(source - remaining, filter)
      decreases remaining
    {
      var key :| key in remaining;
      ghost var before := Allowed(source - remaining, filter);
      ghost var after := Allowed(source - (remaining - {key}), filter);
      if filter.None? || key in filter.value {
        assert r[key := source[key]] == target + after by {
          AllowedStepIn(source, filter, remaining, key);
          UnionUpdate(target, before, key, source[key]);
        }
        r := r[key := source[key]];
      } else {
        assert after == before by {
          AllowedStepOut(source, filter, remaining, key);
        }
      }
      remaining := remaining - {key};
    }
    assert source - {} == source;
  }

  /** What `PublishMetrics` does to the store, and the event it sends. */
  datatype Publication = Publication(status: HResult, event: Option<(string, Record)>, records: map<string, Record>)

  /** The filter of a record: its "markerFilters" list, None when empty. */
  function FilterOf(current: Record): (r: Option<set<string>>)
    ensures r.Some? ==> r.value != {}
  {
    var markerFilters := AsString(Get(JObj(current), "markerFilters"));
    if markerFilters == "" then None else Some(GenerateFilterSet(markerFilters))
  }

  /** The id of the related record: the secondary-id field's value, with ":<markerName>" when the published object has one. */
  function AlternateId(current: Record, filtered: Record): string
  {
    var secondaryIdField := AsString(Get(JObj(current), "secondaryId"));
    var cleaned := current - {"secondaryId", "markerFilters"};
    var alternateId := if secondaryIdField != "" && secondaryIdField in cleaned then AsString(cleaned[secondaryIdField]) else "";
    if alternateId != "" && "markerName" in filtered then alternateId + ":" + AsString(filtered["markerName"]) else alternateId
  }

  /** `PublishMetrics(id, markerName)` on the store `records`. */
  function Publish(id: string, markerName: string, records: map<string, Record>): (r: Publication)
    ensures id !in records ==> r == Publication(ERROR_GENERAL, None, records)
    ensures id in records ==> r.status == ERROR_NONE && r.event.Some? && r.event.value.0 == markerName
    ensures id !in r.records
  {
    if id !in records then Publication(ERROR_GENERAL, None, records)
    else
      var current := records[id];
      var filter := FilterOf(current);
      var cleaned := current - {"secondaryId", "markerFilters"};
      var filtered := Allowed(cleaned, filter);
      var alternateId := AlternateId(current, filtered);
      var records1 := records[id := cleaned];
      if alternateId != "" && alternateId in records1 then
        Publication(ERROR_NONE, Some((markerName, filtered + Allowed(records1[alternateId], filter))),
                    records1 - {id} - {alternateId})
      else
        Publication(ERROR_NONE, Some((markerName, filtered)), records1 - {id})
  }

  /** Publishing removes the record and the merged related record, and touches no other record. */
  lemma PublishRemovesPublished(id: string, markerName: string, records: map<string, Record>, other: string)
    requires id in records && other != id && other in records
    ensures var r := Publish(id, markerName, records);
      var filtered := Allowed(records[id] - {"secondaryId", "markerFilters"}, FilterOf(records[id]));
      var alt := AlternateId(records[id], filtered);
      (other in r.records <==> alt == "" || other != alt)
      && (other in r.records ==> r.records[other] == records[other])
  {
  }

  /** With a filter, only listed keys are published, from either record. */
  lemma PublishHonoursFilter(id: string, markerName: string, records: map<string, Record>)
    requires id in records && FilterOf(records[id]).Some?
    ensures forall k :: k in Publish(id, markerName, records).event.value.1 ==> k in FilterOf(records[id]).value
  {
  }

  /** The record's own secondaryId and markerFilters are never published unless the merged record carries them. */
  lemma PublishDropsControlKeys(id: string, markerName: string, records: map<string, Record>)
    requires id in records
    ensures var e := Publish(id, markerName, records).event.value.1;
      var filtered := Allowed(records[id] - {"secondaryId", "markerFilters"}, FilterOf(records[id]));
      var alt := AlternateId(records[id], filtered);
      alt == "" || alt !in records[id := records[id] - {"secondaryId", "markerFilters"}] ==>
        "secondaryId" !in e && "markerFilters" !in e
  {
  }

  /** A non-empty filter string always yields a non-empty filter set, so the "filter list error" branch cannot be taken. */
  lemma FilterNeverEmpty(s: string)
    requires s != ""
    ensures GenerateFilterSet(s) != {}
  {
  }

  /** The record after `RecordMetrics` merges `newMetrics` into it. */
  function Recorded(existing: Option<Record>, newMetrics: Record): (r: Record)
    ensures existing.None? ==> "markerName" in r && r["markerName"] == Get(JObj(newMetrics), "markerName")
    ensures existing.Some? ==> ("markerName" in r <==> "markerName" in existing.value)
    ensures existing.Some? && "markerName" in existing.value ==> r["markerName"] == existing.value["markerName"]
    ensures forall k :: k in newMetrics && k != "markerName" ==> k in r && r[k] == newMetrics[k]
    ensures existing.Some? ==> forall k :: k in existing.value && k !in newMetrics ==> k in r && r[k] == existing.value[k]
  {
    var base := if existing.None? then map["markerName" := Get(JObj(newMetrics), "markerName")] else existing.value;
    base + (newMetrics - {"markerName"})
  }

  /** A second record never changes the stored marker name. */
  lemma MarkerNameStoredOnce(first: Record, second: Record)
    ensures Recorded(Some(Recorded(None, first)), second)["markerName"] == Get(JObj(first), "markerName")
  {
  }

  class MetricsRecord {
    var records: map<string, Record>
    /** T2 events sent: marker name and published object. */
    var events: seq<(string, Record)>

    constructor()
      ensures records == map[] && events == []
    {
      records, events := map[], [];
    }

    /** `RecordMetrics(id, metrics)`: `metrics` is the parse of the text, None when it does not parse. */
    method RecordMetrics(id: string, metrics: Option<Json>) returns (status: HResult)
      modifies this
      ensures events == old(events)
      ensures metrics.None? || !metrics.value.JObj? || id == "" ==>
        status == ERROR_GENERAL && records == old(records)
      ensures metrics.Some? && metrics.value.JObj? && id != "" ==>
        status == ERROR_NONE
        && records == old(records)[id := Recorded(if id in old(records) then Some(old(records)[id]) else None,
                                                   metrics.value.fields)]
    {
      if metrics.None? || !metrics.value.JObj? || id == "" {
        return ERROR_GENERAL;
      }
      var newMetrics := metrics.value.fields;
      var isNewRecord := id !in records;
      var existing: Record := if isNewRecord then map[] else records[id];
      if isNewRecord {
        existing := existing["markerName" := Get(JObj(newMetrics), "markerName")];
      }
      newMetrics := newMetrics - {"markerName"};
      existing := CopyAllowed(existing, newMetrics, None);
      assert Allowed(newMetrics, None) == newMetrics;
      records := records[id := existing];
      return ERROR_NONE;
    }

    /** `PublishMetrics(id, markerName)`. */
    method PublishMetrics(id: string, markerName: string) returns (status: HResult)
      modifies this
      ensures var p := Publish(id, markerName, old(records));
        status == p.status && records == p.records
        && events == old(events) + (if p.event.Some? then [p.event.value] else [])
    {
      if id !in records {
        return ERROR_GENERAL;
      }
      var current := records[id];
      var filter := FilterOf(current);
      var currentMetrics := current - {"secondaryId", "markerFilters"};
      records := records[id := currentMetrics];
      var filteredMetrics := CopyAllowed(map[], currentMetrics, filter);
      assert filteredMetrics == Allowed(currentMetrics, filter);
      var alternateId := AlternateId(current, filteredMetrics);
      var matched := "";
      if alternateId != "" && alternateId in records {
        filteredMetrics := CopyAllowed(filteredMetrics, records[alternateId], filter);
        matched := alternateId;
      }
      events := events + [(markerName, filteredMetrics)];
      records := records - {id};
      if matched != "" {
        records := records - {matched};
      }
      return ERROR_NONE;
    }
  }
}
