/** The search box's filter (`performSearch` in `src/hooks/useAircraftSearch.ts`): a
    case-insensitive substring match over five aircraft fields and two airport fields, with
    the matching aircraft first and the matching airports after them, each in input order. */
module AircraftSearch {
  import opened Wrappers
  import opened Text

  datatype Airport = Airport(name: string, lat: int, lon: int, icao: string)

  /** The fields of a `PositionUpdate` the search reads; `None` is a nullish field, which
      `?.` skips. */
  datatype Aircraft = Aircraft(
    id: string,
    callsign: Option<string>,
    flightNo: Option<string>,
    departure: Option<string>,
    arrival: Option<string>,
    squawk: Option<string>)

  datatype SearchHit = AircraftHit(aircraft: Aircraft) | AirportHit(airport: Airport)

  /** `field?.toLowerCase().includes(term)`, `term` already lower case. */
  predicate FieldMatches(field: Option<string>, lowerTerm: string) {
    field.Some? && Includes(Lower(field.value), lowerTerm)
  }

  predicate AircraftMatches(ac: Aircraft, lowerTerm: string) {
    FieldMatches(ac.callsign, lowerTerm) || FieldMatches(ac.flightNo, lowerTerm)
    || FieldMatches(ac.departure, lowerTerm) || FieldMatches(ac.arrival, lowerTerm)
    || FieldMatches(ac.squawk, lowerTerm)
  }

  predicate AirportMatches(ap: Airport, lowerTerm: string) {
    Includes(Lower(ap.icao), lowerTerm) || Includes(Lower(ap.name), lowerTerm)
  }

  /** The aircraft hits, in input order. */
  function AircraftHits(acs: seq<Aircraft>, lowerTerm: string): seq<SearchHit>
    decreases |acs|
  {
    if |acs| == 0 then []
    else
      var last := acs[|acs| - 1];
      AircraftHits(acs[..|acs| - 1], lowerTerm)
        + (if AircraftMatches(last, lowerTerm) then [AircraftHit(last)] else [])
  }

  /** The airport hits, in input order. */
  function AirportHits(aps: seq<Airport>, lowerTerm: string): seq<SearchHit>
    decreases |aps|
  {
    if |aps| == 0 then []
    else
      var last := aps[|aps| - 1];
      AirportHits(aps[..|aps| - 1], lowerTerm)
        + (if AirportMatches(last, lowerTerm) then [AirportHit(last)] else [])
  }

  /** What `performSearch` leaves in `searchResults`. */
  function SearchResults(term: string, acs: seq<Aircraft>, aps: seq<Airport>): seq<SearchHit> {
    if term == "" then []
    else AircraftHits(acs, Lower(term)) + AirportHits(aps, Lower(term))
  }

  /** `performSearch`: two passes that push hits onto `results`. */
  method PerformSearch(term: string, aircrafts: seq<Aircraft>, airports: seq<Airport>)
    returns (results: seq<SearchHit>)
    ensures results == SearchResults(term, aircrafts, airports)
    ensures term == "" ==> results == []
  {
    if term == "" {
      return [];
    }
    var lowerCaseSearchTerm := Lower(term);
    results := [];
    var i := 0;
    while i < |aircrafts|
      invariant 0 <= i <= |aircrafts|
      invariant results == AircraftHits(aircrafts[..i], lowerCaseSearchTerm)
    {
      var ac := aircrafts[i];
      assert aircrafts[..i + 1][..i] == aircrafts[..i];
      if AircraftMatches(ac, lowerCaseSearchTerm) {
        results := results + [AircraftHit(ac)];
      }
      i := i + 1;
    }
    assert aircrafts[..i] == aircrafts;
    var aircraftResults := results;
    var j := 0;
    while j < |airports|
      invariant 0 <= j <= |airports|
      invariant results == aircraftResults + AirportHits(airports[..j], lowerCaseSearchTerm)
    {
      var airport := airports[j];
      assert airports[..j + 1][..j] == airports[..j];
      if AirportMatches(airport, lowerCaseSearchTerm) {
        results := results + [AirportHit(airport)];
      }
      j := j + 1;
    }
    assert airports[..j] == airports;
  }

  // ---------------------------------------------------------------- properties

  /** An aircraft is listed iff it is an input whose five fields, lowered, contain the
      lowered term; airports are never among the aircraft hits. */
  lemma {:induction false} AircraftHitsMembers(acs: seq<Aircraft>, lowerTerm: string)
    ensures forall h :: h in AircraftHits(acs, lowerTerm) ==> h.AircraftHit?
    ensures forall a ::
      (AircraftHit(a) in AircraftHits(acs, lowerTerm) <==> a in acs && AircraftMatches(a, lowerTerm))
    decreases |acs|
  {
    if |acs| > 0 {
      var init := acs[..|acs| - 1];
      AircraftHitsMembers(init, lowerTerm);
      assert acs == init + [acs[|acs| - 1]];
    }
  }

  /** An airport is listed iff it is an input whose ICAO code or name, lowered, contains
      the lowered term. */
  lemma {:induction false} AirportHitsMembers(aps: seq<Airport>, lowerTerm: string)
    ensures forall h :: h in AirportHits(aps, lowerTerm) ==> h.AirportHit?
    ensures forall p ::
      (AirportHit(p) in AirportHits(aps, lowerTerm) <==> p in aps && AirportMatches(p, lowerTerm))
    decreases |aps|
  {
    if |aps| > 0 {
      var init := aps[..|aps| - 1];
      AirportHitsMembers(init, lowerTerm);
      assert aps == init + [aps[|aps| - 1]];
    }
  }

  /** Membership in the results, both directions, for a non-empty term. */
  lemma SearchMembers(term: string, acs: seq<Aircraft>, aps: seq<Airport>)
    requires term != ""
    ensures forall a ::
      (AircraftHit(a) in SearchResults(term, acs, aps) <==> a in acs && AircraftMatches(a, Lower(term)))
    ensures forall p ::
      (AirportHit(p) in SearchResults(term, acs, aps) <==> p in aps && AirportMatches(p, Lower(term)))
  {
    AircraftHitsMembers(acs, Lower(term));
    AirportHitsMembers(aps, Lower(term));
  }

  /** Every aircraft hit comes before every airport hit. */
  lemma AircraftBeforeAirports(term: string, acs: seq<Aircraft>, aps: seq<Airport>)
    ensures forall i, j :: 0 <= i < j < |SearchResults(term, acs, aps)| ==>
      (SearchResults(term, acs, aps)[j].AircraftHit? ==> SearchResults(term, acs, aps)[i].AircraftHit?)
  {
    if term != "" {
      var lt := Lower(term);
      AircraftHitsMembers(acs, lt);
      AirportHitsMembers(aps, lt);
      var a := AircraftHits(acs, lt);
      var r := SearchResults(term, acs, aps);
      forall j | |a| <= j < |r|
        ensures r[j].AirportHit?
      {
        assert r[j] == AirportHits(aps, lt)[j - |a|];
      }
      forall i | 0 <= i < |a|
        ensures r[i].AircraftHit?
      {
        assert r[i] in a;
      }
    }
  }

  // ---------------------------------------------------------------- subsequence

  /** The positions the hits were taken from. */
  predicate StrictlyIncreasing(idx: seq<nat>) {
    forall i, j :: 0 <= i < j < |idx| ==> idx[i] < idx[j]
  }

  function AircraftHitIndices(acs: seq<Aircraft>, lowerTerm: string): (idx: seq<nat>)
    ensures forall k :: 0 <= k < |idx| ==> idx[k] < |acs|
    decreases |acs|
  {
    if |acs| == 0 then []
    else
      AircraftHitIndices(acs[..|acs| - 1], lowerTerm)
        + (if AircraftMatches(acs[|acs| - 1], lowerTerm) then [|acs| - 1] else [])
  }

  function AirportHitIndices(aps: seq<Airport>, lowerTerm: string): (idx: seq<nat>)
    ensures forall k :: 0 <= k < |idx| ==> idx[k] < |aps|
    decreases |aps|
  {
    if |aps| == 0 then []
    else
      AirportHitIndices(aps[..|aps| - 1], lowerTerm)
        + (if AirportMatches(aps[|aps| - 1], lowerTerm) then [|aps| - 1] else [])
  }

  lemma {:induction false} AircraftHitsAreSubsequence(acs: seq<Aircraft>, lowerTerm: string)
    ensures StrictlyIncreasing(AircraftHitIndices(acs, lowerTerm))
    ensures |AircraftHitIndices(acs, lowerTerm)| == |AircraftHits(acs, lowerTerm)|
    ensures forall k :: 0 <= k < |AircraftHits(acs, lowerTerm)| ==>
      AircraftHits(acs, lowerTerm)[k] == AircraftHit(acs[AircraftHitIndices(acs, lowerTerm)[k]])
    decreases |acs|
  {
    if |acs| > 0 {
      var init := acs[..|acs| - 1];
      AircraftHitsAreSubsequence(init, lowerTerm);
      var idx := AircraftHitIndices(acs, lowerTerm);
      var h := AircraftHits(acs, lowerTerm);
      forall k | 0 <= k < |h|
        ensures h[k] == AircraftHit(acs[idx[k]])
      {
        if k < |AircraftHits(init, lowerTerm)| {
          assert acs[idx[k]] == init[idx[k]];
        }
      }
    }
  }

  lemma {:induction false} AirportHitsAreSubsequence(aps: seq<Airport>, lowerTerm: string)
    ensures StrictlyIncreasing(AirportHitIndices(aps, lowerTerm))
    ensures |AirportHitIndices(aps, lowerTerm)| == |AirportHits(aps, lowerTerm)|
    ensures forall k :: 0 <= k < |AirportHits(aps, lowerTerm)| ==>
      AirportHits(aps, lowerTerm)[k] == AirportHit(aps[AirportHitIndices(aps, lowerTerm)[k]])
    decreases |aps|
  {
    if |aps| > 0 {
      var init := aps[..|aps| - 1];
      AirportHitsAreSubsequence(init, lowerTerm);
      var idx := AirportHitIndices(aps, lowerTerm);
      var h := AirportHits(aps, lowerTerm);
      forall k | 0 <= k < |h|
        ensures h[k] == AirportHit(aps[idx[k]])
      {
        if k < |AirportHits(init, lowerTerm)| {
          assert aps[idx[k]] == init[idx[k]];
        }
      }
    }
  }

  /** Every input as a candidate hit: the aircraft, then the airports. */
  function Candidates(acs: seq<Aircraft>, aps: seq<Airport>): (c: seq<SearchHit>)
    ensures |c| == |acs| + |aps|
    ensures forall i :: 0 <= i < |acs| ==> c[i] == AircraftHit(acs[i])
    ensures forall i :: 0 <= i < |aps| ==> c[|acs| + i] == AirportHit(aps[i])
  {
    seq(|acs|, i requires 0 <= i < |acs| => AircraftHit(acs[i]))
      + seq(|aps|, i requires 0 <= i < |aps| => AirportHit(aps[i]))
  }

  /** `idx` picks `r` out of `c`, at strictly increasing positions. */
  predicate SubsequenceAt(r: seq<SearchHit>, c: seq<SearchHit>, idx: seq<nat>) {
    && |idx| == |r|
    && StrictlyIncreasing(idx)
    && (forall k :: 0 <= k < |idx| ==> idx[k] < |c| && r[k] == c[idx[k]])
  }

  /** The results are a subsequence of the aircraft followed by the airports: there are
      strictly increasing positions in that list holding exactly the results, so every input
      appears at most once and each group keeps its input order. */
  lemma SearchIsSubsequence(term: string, acs: seq<Aircraft>, aps: seq<Airport>)
    ensures exists idx :: SubsequenceAt(SearchResults(term, acs, aps), Candidates(acs, aps), idx)
  {
    var r := SearchResults(term, acs, aps);
    var c := Candidates(acs, aps);
    if term == "" {
      assert SubsequenceAt(r, c, []);
    } else {
      var lt := Lower(term);
      AircraftHitsAreSubsequence(acs, lt);
      AirportHitsAreSubsequence(aps, lt);
      var ia := AircraftHitIndices(acs, lt);
      var ip := AirportHitIndices(aps, lt);
      var idx := ia + Shifted(ip, |acs|);
      ShiftedAppendIncreasing(ia, ip, |acs|);
      var ha := AircraftHits(acs, lt);
      forall k | 0 <= k < |idx|
        ensures idx[k] < |c| && r[k] == c[idx[k]]
      {
        if k < |ia| {
          assert r[k] == ha[k];
        } else {
          assert r[k] == AirportHits(aps, lt)[k - |ia|];
          assert idx[k] == |acs| + ip[k - |ia|];
        }
      }
      assert SubsequenceAt(r, c, idx);
    }
  }

  /** Positions into the second of two concatenated lists, as positions into the whole. */
  function Shifted(idx: seq<nat>, offset: nat): (r: seq<nat>)
    ensures |r| == |idx|
    ensures forall k :: 0 <= k < |idx| ==> r[k] == offset + idx[k]
  {
    seq(|idx|, k requires 0 <= k < |idx| => offset + idx[k])
  }

  /** Increasing positions into the first list followed by shifted increasing positions
      into the second are increasing. */
  lemma ShiftedAppendIncreasing(ia: seq<nat>, ip: seq<nat>, offset: nat)
    requires StrictlyIncreasing(ia) && StrictlyIncreasing(ip)
    requires forall k :: 0 <= k < |ia| ==> ia[k] < offset
    ensures StrictlyIncreasing(ia + Shifted(ip, offset))
  {
    var idx := ia + Shifted(ip, offset);
    forall i, j | 0 <= i < j < |idx|
      ensures idx[i] < idx[j]
    {
      if j < |ia| {
        assert idx[i] == ia[i] && idx[j] == ia[j];
      } else if i < |ia| {
        assert idx[i] == ia[i] < offset <= idx[j];
      } else {
        assert idx[i] == offset + ip[i - |ia|] && idx[j] == offset + ip[j - |ia|];
      }
    }
  }

  /** Terms that differ only in ASCII letter case give identical results; in particular
      searching for a term and for its lower-case form agree. */
  lemma CaseInsensitive(t1: string, t2: string, acs: seq<Aircraft>, aps: seq<Airport>)
    requires Lower(t1) == Lower(t2)
    ensures SearchResults(t1, acs, aps) == SearchResults(t2, acs, aps)
    ensures SearchResults(t1, acs, aps) == SearchResults(Lower(t1), acs, aps)
  {
    LowerIdempotent(t1);
    assert |t1| == |Lower(t1)| == |t2|;
  }
}
