/** The chart index cache (`src/services/airportChartsService.ts`): the whole index is
    kept in module state and answers for an hour after the clock reading of the request
    that stored it. A failed fetch leaves the cache as it was, so the next call fetches
    again; calls that overlap on a stale cache each fetch. The clock reading and the fetch
    outcome are inputs, and a call is split at its `await`s into a start and a completion
    so that overlapping calls can be modelled. */
module AirportChartsService {
  import opened Wrappers
  import opened Text

  datatype AirportChart = AirportChart(name: string, taxiChartUrl: string, infoUrl: Option<string>)

  /** Charts by upper-case ICAO code. */
  type ChartIndex = map<string, AirportChart>

  /** One hour, in milliseconds. */
  const CacheTtlMs: int := 1000 * 60 * 60

  /** What the request for the index would give: the parsed body of an ok response, or a
      failure (a non-ok status or a rejected request). */
  datatype FetchOutcome = FetchOk(data: ChartIndex) | FetchFailed

  /** The result of an `async` call: a value, or the error it throws. */
  datatype Load<T> = Loaded(value: T) | Threw

  /** The cache may answer at time `now`. */
  predicate Fresh(cache: Option<ChartIndex>, lastFetch: int, now: int) {
    cache.Some? && now - lastFetch < CacheTtlMs
  }

  /** `charts[icao.toUpperCase()] ?? null`. */
  function ChartFor(index: ChartIndex, icao: string): (r: Option<AirportChart>)
    ensures r.Some? <==> Upper(icao) in index
    ensures r.Some? ==> r.value == index[Upper(icao)]
  {
    var key := Upper(icao);
    if key in index then Some(index[key]) else None
  }

  /** The lookup ignores letter case. */
  lemma ChartForIgnoresCase(index: ChartIndex, icao: string)
    ensures ChartFor(index, icao) == ChartFor(index, Upper(icao))
  {
    UpperIdempotent(icao);
  }

  /** How a call to `loadAirportCharts` begins: answered from the cache, or a request for
      the index now in flight, identified by its number. */
  datatype Started = FromCache(index: ChartIndex) | Sent(id: nat)

  class ChartsService {
    var cache: Option<ChartIndex>
    var lastFetch: int
    /** Requests for the index made so far; the next request gets this number. */
    var fetches: nat
    /** The requests still awaiting their response, each with the clock reading taken
        before it was sent. */
    var inFlight: map<nat, int>

    ghost predicate Valid()
      reads this
    {
      forall id :: id in inFlight ==> id < fetches
    }

    constructor ()
      ensures Valid()
      ensures cache == None && lastFetch == 0 && fetches == 0 && inFlight == map[]
    {
      cache, lastFetch, fetches, inFlight := None, 0, 0, map[];
    }

    /** The part of `loadAirportCharts()` before its first `await`: read the clock, answer
        from a fresh cache, or send the request. */
    method StartLoad(now: int) returns (r: Started)
      requires Valid()
      modifies this
      ensures Valid()
      ensures cache == old(cache) && lastFetch == old(lastFetch)
      ensures Fresh(old(cache), old(lastFetch), now) ==>
        r == FromCache(old(cache).value) && fetches == old(fetches) && inFlight == old(inFlight)
      ensures !Fresh(old(cache), old(lastFetch), now) ==>
        r == Sent(old(fetches)) && old(fetches) !in old(inFlight)
        && fetches == old(fetches) + 1 && inFlight == old(inFlight)[old(fetches) := now]
    {
      if cache.Some? && now - lastFetch < CacheTtlMs {
        return FromCache(cache.value);
      }
      r := Sent(fetches);
      inFlight := inFlight[fetches := now];
      fetches := fetches + 1;
    }

    /** The rest of `loadAirportCharts()` once request `id` settles: throw on a failure,
        otherwise store the data with the clock reading that request took. */
    method CompleteLoad(id: nat, fetch: FetchOutcome) returns (r: Load<ChartIndex>)
      requires Valid() && id in inFlight
      modifies this
      ensures Valid()
      ensures fetches == old(fetches) && inFlight == old(inFlight) - {id}
      ensures fetch.FetchFailed? ==>
        r == Threw && cache == old(cache) && lastFetch == old(lastFetch)
      ensures fetch.FetchOk? ==>
        r == Loaded(fetch.data) && cache == Some(fetch.data) && lastFetch == old(inFlight)[id]
    {
      var sentAt := inFlight[id];
      inFlight := inFlight - {id};
      if fetch.FetchFailed? {
        return Threw;
      }
      var data := fetch.data;
      cache := Some(data);
      lastFetch := sentAt;
      return Loaded(data);
    }

    /** `loadAirportCharts()` run to completion with no other call in between; `fetch` is
        consulted only when the cache cannot answer. */
    method LoadAirportCharts(now: int, fetch: FetchOutcome) returns (r: Load<ChartIndex>)
      requires Valid()
      modifies this
      ensures Valid() && inFlight == old(inFlight)
      ensures Fresh(old(cache), old(lastFetch), now) ==>
        r == Loaded(old(cache).value)
        && cache == old(cache) && lastFetch == old(lastFetch) && fetches == old(fetches)
      ensures !Fresh(old(cache), old(lastFetch), now) ==> fetches == old(fetches) + 1
      ensures !Fresh(old(cache), old(lastFetch), now) && fetch.FetchFailed? ==>
        r == Threw && cache == old(cache) && lastFetch == old(lastFetch)
      ensures !Fresh(old(cache), old(lastFetch), now) && fetch.FetchOk? ==>
        r == Loaded(fetch.data) && cache == Some(fetch.data) && lastFetch == now
    {
      var started := StartLoad(now);
      if started.FromCache? {
        return Loaded(started.index);
      }
      ghost var before := inFlight;
      r := CompleteLoad(started.id, fetch);
      assert inFlight == before - {started.id};
    }

    /** `getAirportChart(icao)` run to completion: the chart of the upper-cased code, or
        `null`. */
    method GetAirportChart(now: int, fetch: FetchOutcome, icao: string)
      returns (r: Load<Option<AirportChart>>)
      requires Valid()
      modifies this
      ensures Valid() && inFlight == old(inFlight)
      ensures Fresh(old(cache), old(lastFetch), now) ==>
        r == Loaded(ChartFor(old(cache).value, icao))
        && cache == old(cache) && lastFetch == old(lastFetch) && fetches == old(fetches)
      ensures !Fresh(old(cache), old(lastFetch), now) && fetch.FetchOk? ==>
        r == Loaded(ChartFor(fetch.data, icao)) && cache == Some(fetch.data) && lastFetch == now
        && fetches == old(fetches) + 1
      ensures !Fresh(old(cache), old(lastFetch), now) && fetch.FetchFailed? ==>
        r == Threw && cache == old(cache) && lastFetch == old(lastFetch)
        && fetches == old(fetches) + 1
    {
      var charts := LoadAirportCharts(now, fetch);
      if charts.Threw? {
        return Threw;
      }
      return Loaded(ChartFor(charts.value, icao));
    }
  }

  /** The first call always fetches, even at time 0; a second call within the hour is
      answered from the cache without fetching, even when a fetch would now fail; once the
      hour is over the next call fetches again. */
  method CacheLifetime(index: ChartIndex, t: int) returns (first: Load<ChartIndex>, second: Load<ChartIndex>, fetchesWithinHour: nat, fetchesAfter: nat)
    ensures first == Loaded(index) && second == Loaded(index)
    ensures fetchesWithinHour == 1 && fetchesAfter == 2
  {
    var s := new ChartsService();
    first := s.LoadAirportCharts(t, FetchOk(index));
    second := s.LoadAirportCharts(t + CacheTtlMs - 1, FetchFailed);
    fetchesWithinHour := s.fetches;
    var third := s.LoadAirportCharts(t + CacheTtlMs, FetchFailed);
    fetchesAfter := s.fetches;
  }

  /** A failed fetch is not cached: the next call, even at the same instant, fetches
      again. */
  method FailureIsNotCached(index: ChartIndex, t: int) returns (first: Load<ChartIndex>, second: Load<ChartIndex>, fetchCount: nat)
    ensures first == Threw && second == Loaded(index) && fetchCount == 2
  {
    var s := new ChartsService();
    first := s.LoadAirportCharts(t, FetchFailed);
    second := s.LoadAirportCharts(t, FetchOk(index));
    fetchCount := s.fetches;
  }

  /** Two calls overlap on an empty cache: both fetch. The later-started one settles first
      and stores its index at its own clock reading; the earlier one then overwrites the
      cache and moves `lastFetch` back to its older reading. */
  method OverlappingLoads(older: ChartIndex, newer: ChartIndex, t: int) returns (fetchCount: nat, midLastFetch: int, finalCache: Option<ChartIndex>, finalLastFetch: int)
    ensures fetchCount == 2
    ensures midLastFetch == t + 1 && finalLastFetch == t && finalLastFetch < midLastFetch
    ensures finalCache == Some(older)
  {
    var s := new ChartsService();
    var a := s.StartLoad(t);
    var b := s.StartLoad(t + 1);
    fetchCount := s.fetches;
    var rb := s.CompleteLoad(b.id, FetchOk(newer));
    midLastFetch := s.lastFetch;
    var ra := s.CompleteLoad(a.id, FetchOk(older));
    finalCache, finalLastFetch := s.cache, s.lastFetch;
  }
}
