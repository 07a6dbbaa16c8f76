/** The per-airport chart lookup of the browser (`useAirportChart` in
    `src/hooks/useAirportCharts.ts`): first the module's in-memory cache, then the copy in
    local storage, then a request to the charts endpoint. The request completes later, as
    a separate event; several requests can be in flight at once. */
module AirportChartsHook {
  import opened Wrappers
  import opened Text
  import opened AirportChartsService

  /** The local-storage slot: nothing written yet, text that does not parse, or a stored
      map from ICAO code to chart. */
  datatype StorageSlot = Missing | Unparsable | Holds(charts: map<string, AirportChart>)

  /** `loadFromStorage()`: a missing or unparsable slot reads as the empty map. */
  function LoadFromStorage(slot: StorageSlot): (m: map<string, AirportChart>)
    ensures slot.Holds? ==> m == slot.charts
    ensures !slot.Holds? ==> m == map[]
  {
    if slot.Holds? then slot.charts else map[]
  }

  /** A request in flight: the key it asked for and the map the effect read from storage. */
  datatype PendingFetch = PendingFetch(key: string, stored: map<string, AirportChart>)

  /** What the request gives: the `chart` of its JSON body (`None` for a nullish one), or a
      failure, after which only `loading` is reset. */
  datatype ChartResponse = Answered(chart: Option<AirportChart>) | RequestFailed

  /** Local storage after a response: the map read before the request plus the new chart,
      written only for a chart that is not null. */
  function StorageAfter(slot: StorageSlot, p: PendingFetch, r: ChartResponse): (s: StorageSlot)
    ensures r.Answered? && r.chart.Some? ==> s == Holds(p.stored[p.key := r.chart.value])
    ensures !(r.Answered? && r.chart.Some?) ==> s == slot
  {
    if r.Answered? && r.chart.Some? then Holds(p.stored[p.key := r.chart.value]) else slot
  }

  class ChartLookup {
    /** The module-level `memoryCache`; a cached `None` is a remembered miss. */
    var memoryCache: map<string, Option<AirportChart>>
    var storage: StorageSlot
    var chart: Option<AirportChart>
    var loading: bool
    var pending: seq<PendingFetch>
    /** Storage reads and requests made, for stating what a lookup touches. */
    var storageReads: nat
    var requested: seq<string>

    constructor (storage: StorageSlot)
      ensures this.storage == storage && memoryCache == map[]
      ensures chart == None && !loading && pending == [] && storageReads == 0 && requested == []
    {
      this.storage := storage;
      memoryCache := map[];
      chart, loading := None, false;
      pending, storageReads, requested := [], 0, [];
    }

    /** The effect for the `icao` prop. No code, or an empty one, does nothing; otherwise
        the upper-cased code is looked up in memory, then in storage, and only on two
        misses is a request started. */
    method Effect(icao: Option<string>)
      modifies this
      ensures storage == old(storage)
      ensures icao.None? || icao.value == "" ==>
        memoryCache == old(memoryCache) && chart == old(chart) && loading == old(loading)
        && pending == old(pending) && storageReads == old(storageReads) && requested == old(requested)
      ensures icao.Some? && icao.value != "" && Upper(icao.value) in old(memoryCache) ==>
        chart == old(memoryCache)[Upper(icao.value)]
        && memoryCache == old(memoryCache) && loading == old(loading) && pending == old(pending)
        && storageReads == old(storageReads) && requested == old(requested)
      ensures icao.Some? && icao.value != "" && Upper(icao.value) !in old(memoryCache) ==>
        storageReads == old(storageReads) + 1
      ensures (icao.Some? && icao.value != "" && Upper(icao.value) !in old(memoryCache)
        && Upper(icao.value) in LoadFromStorage(storage)) ==>
        chart == Some(LoadFromStorage(storage)[Upper(icao.value)])
        && memoryCache == old(memoryCache)[Upper(icao.value) := chart]
        && loading == old(loading) && pending == old(pending) && requested == old(requested)
      ensures (icao.Some? && icao.value != "" && Upper(icao.value) !in old(memoryCache)
        && Upper(icao.value) !in LoadFromStorage(storage)) ==>
        loading && chart == old(chart) && memoryCache == old(memoryCache)
        && pending == old(pending) + [PendingFetch(Upper(icao.value), LoadFromStorage(storage))]
        && requested == old(requested) + [Upper(icao.value)]
    {
      if icao.None? || icao.value == "" {
        return;
      }
      var key := Upper(icao.value);
      if key in memoryCache {
        chart := memoryCache[key];
        return;
      }
      var stored := LoadFromStorage(storage);
      storageReads := storageReads + 1;
      if key in stored {
        memoryCache := memoryCache[key := Some(stored[key])];
        chart := Some(stored[key]);
        return;
      }
      loading := true;
      requested := requested + [key];
      pending := pending + [PendingFetch(key, stored)];
    }

    /** The request `pending[i]` completes. An answer, null included, goes into the memory
        cache and is shown; a non-null chart is also saved to storage, on top of the map
        read when the request started. `loading` is reset either way. */
    method Complete(i: nat, response: ChartResponse)
      requires i < |pending|
      modifies this
      ensures pending == old(pending)[..i] + old(pending)[i + 1..]
      ensures !loading
      ensures storage == StorageAfter(old(storage), old(pending)[i], response)
      ensures response.Answered? ==>
        memoryCache == old(memoryCache)[old(pending)[i].key := response.chart]
        && chart == response.chart
      ensures response.RequestFailed? ==> memoryCache == old(memoryCache) && chart == old(chart)
      ensures storageReads == old(storageReads) && requested == old(requested)
    {
      var p := pending[i];
      pending := pending[..i] + pending[i + 1..];
      if response.Answered? {
        memoryCache := memoryCache[p.key := response.chart];
        chart := response.chart;
        if response.chart.Some? {
          storage := Holds(p.stored[p.key := response.chart.value]);
        }
      }
      loading := false;
    }
  }

  /** A remembered miss is served from memory: after a request for an airport without
      charts answers null, asking again reads no storage and makes no request. */
  method RememberedMiss(icao: string) returns (requests: nat, storageLoads: nat, shown: Option<AirportChart>)
    requires icao != ""
    ensures requests == 1 && storageLoads == 1 && shown == None
  {
    var h := new ChartLookup(Missing);
    h.Effect(Some(icao));
    h.Complete(0, Answered(None));
    h.Effect(Some(icao));
    requests, storageLoads, shown := |h.requested|, h.storageReads, h.chart;
  }

  /** Two lookups in flight at once both start from the empty storage map, so the second
      answer to arrive overwrites the first one's saved chart: only one of the two airports
      stays in local storage, while both stay in the memory cache. */
  method OverlappingRequestsKeepOneStoredChart(a: AirportChart, b: AirportChart)
    returns (stored: StorageSlot, inMemory: set<string>)
    ensures stored == Holds(map["EGLL" := b])
    ensures inMemory == {"KJFK", "EGLL"}
  {
    assert Upper("kjfk") == "KJFK" by {
      assert forall i :: 0 <= i < 4 ==> Upper("kjfk")[i] == "KJFK"[i];
    }
    assert Upper("egll") == "EGLL" by {
      assert forall i :: 0 <= i < 4 ==> Upper("egll")[i] == "EGLL"[i];
    }
    var h := new ChartLookup(Missing);
    h.Effect(Some("kjfk"));
    h.Effect(Some("egll"));
    assert h.pending == [PendingFetch("KJFK", map[]), PendingFetch("EGLL", map[])];
    h.Complete(0, Answered(Some(a)));
    h.Complete(0, Answered(Some(b)));
    stored, inMemory := h.storage, h.memoryCache.Keys;
  }
}
