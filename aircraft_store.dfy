/** The process-wide aircraft store that the position and stream routes share
    (`activeAircraft`, imported from `~/lib/aircraft-store`). Its source is not part of this
    model, so the store is modelled only by what its callers rely on: a map from key to the
    latest record with JavaScript `Map` iteration order (first insertion of a key fixes its
    place), and a registry of subscriber handles whose removal may be requested any number
    of times. */
module AircraftStore {
  import opened Wrappers
  import opened JsValues

  /** A store key: `body.id` when truthy, else the derived `callsign:playerId` text. */
  type Key = JsValue

  /** The record the position route builds for a report (`positionData`). Fields the route
      copies through `x || default` keep the JSON value they were given. */
  datatype PositionRecord = PositionRecord(
    id: JsValue,
    callsign: JsValue,
    aircraftType: JsValue,
    lat: int,
    lon: int,
    alt: int,
    altMSL: int,
    heading: Num,
    speed: Num,
    flightNo: JsValue,
    departure: JsValue,
    arrival: JsValue,
    takeoffTime: JsValue,
    squawk: JsValue,
    flightPlan: JsValue,
    nextWaypoint: JsValue,
    vspeed: JsValue,
    ts: int,
    lastSeen: int)

  predicate Distinct<T(==)>(s: seq<T>) {
    forall i, j :: 0 <= i < j < |s| ==> s[i] != s[j]
  }

  /** The store's contents as a value: keys in iteration order and the record of each. */
  ghost predicate WellFormed(order: seq<Key>, records: map<Key, PositionRecord>) {
    Distinct(order) && (forall k :: k in order <==> k in records)
  }

  /** `Array.from(map.values())`. */
  function ValuesOf(order: seq<Key>, records: map<Key, PositionRecord>): (vs: seq<PositionRecord>)
    requires forall k :: k in order ==> k in records
    ensures |vs| == |order|
    ensures forall i :: 0 <= i < |order| ==> vs[i] == records[order[i]]
  {
    seq(|order|, i requires 0 <= i < |order| => records[order[i]])
  }

  /** The iteration order after `map.set(k, _)`: a new key goes last, a known key stays. */
  function OrderAfterSet(order: seq<Key>, k: Key): seq<Key> {
    if k in order then order else order + [k]
  }

  lemma {:induction false} DistinctSetSize<T>(s: seq<T>)
    requires Distinct(s)
    ensures |set x | x in s| == |s|
    decreases |s|
  {
    if |s| > 0 {
      var last := s[|s| - 1];
      var init := s[..|s| - 1];
      DistinctSetSize(init);
      assert (set x | x in s) == (set x | x in init) + {last};
      assert last !in (set x | x in init);
    }
  }

  /** The number of values listed is the map's size. */
  lemma ValuesCount(order: seq<Key>, records: map<Key, PositionRecord>)
    requires WellFormed(order, records)
    ensures |ValuesOf(order, records)| == |records|
  {
    DistinctSetSize(order);
    assert (set x | x in order) == records.Keys;
  }

  lemma SetKeepsWellFormed(order: seq<Key>, records: map<Key, PositionRecord>, k: Key, r: PositionRecord)
    requires WellFormed(order, records)
    ensures WellFormed(OrderAfterSet(order, k), records[k := r])
  {
  }

  class Store {
    var order: seq<Key>
    var records: map<Key, PositionRecord>
    var subscribers: set<nat>
    var nextHandle: nat
    /** Every `set` call the store has received, in order. */
    ghost var writes: seq<(Key, PositionRecord)>

    ghost predicate Valid()
      reads this
    {
      WellFormed(order, records) && (forall h :: h in subscribers ==> h < nextHandle)
    }

    constructor ()
      ensures Valid()
      ensures order == [] && records == map[] && subscribers == {} && writes == []
    {
      order, records := [], map[];
      subscribers, nextHandle := {}, 0;
      writes := [];
    }

    /** The records in iteration order (`values()`, and `getAll()`). */
    function Values(): (vs: seq<PositionRecord>)
      reads this
      requires Valid()
      ensures |vs| == |records|
    {
      ValuesCount(order, records);
      ValuesOf(order, records)
    }

    /** `set(k, r)`: replaces the record of `k` wholesale. */
    method Set(k: Key, r: PositionRecord)
      requires Valid()
      modifies this
      ensures Valid()
      ensures records == old(records)[k := r]
      ensures order == OrderAfterSet(old(order), k)
      ensures subscribers == old(subscribers) && nextHandle == old(nextHandle)
      ensures writes == old(writes) + [(k, r)]
    {
      SetKeepsWellFormed(order, records, k, r);
      order := OrderAfterSet(order, k);
      records := records[k := r];
      writes := writes + [(k, r)];
    }

    /** `get(k)`. */
    method Get(k: Key) returns (r: Option<PositionRecord>)
      requires Valid()
      ensures r.Some? <==> k in records
      ensures r.Some? ==> r.value == records[k]
    {
      r := if k in records then Some(records[k]) else None;
    }

    /** `subscribe(callback)`: registers a fresh handle; the callback is the caller's. */
    method Subscribe() returns (h: nat)
      requires Valid()
      modifies this
      ensures Valid()
      ensures h !in old(subscribers) && subscribers == old(subscribers) + {h}
      ensures order == old(order) && records == old(records) && writes == old(writes)
    {
      h := nextHandle;
      nextHandle := nextHandle + 1;
      subscribers := subscribers + {h};
    }

    /** The `unsubscribe` function `subscribe` returns; calling it again does nothing. */
    method Unsubscribe(h: nat)
      requires Valid()
      modifies this
      ensures Valid()
      ensures subscribers == old(subscribers) - {h}
      ensures order == old(order) && records == old(records) && writes == old(writes)
      ensures nextHandle == old(nextHandle)
    {
      subscribers := subscribers - {h};
    }
  }
}
