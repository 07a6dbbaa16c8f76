/** The position endpoint (`src/app/api/atc/position/route.ts`): POST validates a report,
    fills every field with its default and writes one record to the store; GET reads one
    record by key, the first record with a callsign, or all of them. */
module PositionRoute {
  import opened Wrappers
  import opened Text
  import opened JsValues
  import opened AircraftStore

  // ---------------------------------------------------------------- POST

  datatype PostResponse =
    | Accepted(timestamp: int)   // 200 {success: true, timestamp}
    | MissingFields              // 400 {error: "Missing required fields"}
    | InternalError              // 500 {error: "Internal server error"}

  /** The three readings of the server clock one POST makes: `Date.now()` for `ts`, again
      for `lastSeen`, and `new Date()` for the response timestamp. */
  datatype ClockReadings = ClockReadings(ts: int, lastSeen: int, response: int)

  /** The guard of the POST handler: a truthy `callsign` and numeric `lat` and `lon`. */
  predicate HasRequiredFields(body: JsValue)
    requires !IsNullish(body)
  {
    Truthy(Get(body, "callsign")) && Get(body, "lat").Number? && Get(body, "lon").Number?
  }

  /** The store key: `body.id` when truthy, else `${callsign}:${playerId || "p"}`; `None`
      when the template literal throws. */
  function DeriveKey(body: JsValue): (k: Option<Key>)
    requires !IsNullish(body)
    ensures Truthy(Get(body, "id")) ==> k == Some(Get(body, "id"))
    ensures !Truthy(Get(body, "id")) ==>
      (k.None? <==> ConversionThrows(Get(body, "callsign"))
                    || ConversionThrows(Or(Get(body, "playerId"), Str("p"))))
    ensures !Truthy(Get(body, "id")) && k.Some? ==>
      k.value == Str(ToStr(Get(body, "callsign")).value + ":"
                     + ToStr(Or(Get(body, "playerId"), Str("p"))).value)
  {
    if Truthy(Get(body, "id")) then Some(Get(body, "id"))
    else
      var callsign := ToStr(Get(body, "callsign"));
      var player := ToStr(Or(Get(body, "playerId"), Str("p")));
      if callsign.None? || player.None? then None
      else Some(Str(callsign.value + ":" + player.value))
  }

  /** `typeof x !== "undefined" ? Number(x) : 0`: the coercion used for heading and speed. */
  function NumberUnlessUndefined(v: JsValue): (n: Option<Num>)
    ensures v == Undefined ==> n == Some(Fin(0))
    ensures v != Undefined ==> n == ToNumber(v)
  {
    if v == Undefined then Some(Fin(0)) else ToNumber(v)
  }

  /** Building `positionData` throws: the key's template literal throws, or `Number` does on
      one of the six numeric fields. */
  predicate ThrowsWhileBuilding(body: JsValue)
    requires !IsNullish(body)
  {
    (!Truthy(Get(body, "id"))
     && (ConversionThrows(Get(body, "callsign"))
         || ConversionThrows(Or(Get(body, "playerId"), Str("p")))))
    || ConversionThrows(Get(body, "lat")) || ConversionThrows(Get(body, "lon"))
    || ConversionThrows(Get(body, "alt")) || ConversionThrows(Get(body, "altMSL"))
    || ConversionThrows(Get(body, "heading")) || ConversionThrows(Get(body, "speed"))
  }

  /** `positionData`: every field of the report with its default, or `None` when one of
      the coercions throws. */
  function BuildRecord(body: JsValue, clock: ClockReadings): (r: Option<PositionRecord>)
    requires !IsNullish(body)
    ensures r.None? <==> ThrowsWhileBuilding(body)
    ensures r.Some? ==> Some(r.value.id) == DeriveKey(body)
    ensures r.Some? ==> r.value.ts == clock.ts && r.value.lastSeen == clock.lastSeen
  {
    var id := DeriveKey(body);
    var lat := NumberOrZero(Get(body, "lat"));
    var lon := NumberOrZero(Get(body, "lon"));
    var alt := NumberOrZero(Get(body, "alt"));
    var altMSL := NumberOrZero(Get(body, "altMSL"));
    var heading := NumberUnlessUndefined(Get(body, "heading"));
    var speed := NumberUnlessUndefined(Get(body, "speed"));
    if id.None? || lat.None? || lon.None? || alt.None? || altMSL.None?
       || heading.None? || speed.None?
    then None
    else
      Some(PositionRecord(
        id := id.value,
        callsign := Or(Get(body, "callsign"), Str("")),
        aircraftType := Or(Get(body, "type"), Str("")),
        lat := lat.value,
        lon := lon.value,
        alt := alt.value,
        altMSL := altMSL.value,
        heading := heading.value,
        speed := speed.value,
        flightNo := Or(Get(body, "flightNo"), Str("")),
        departure := Or(Get(body, "departure"), Str("")),
        arrival := Or(Get(body, "arrival"), Str("")),
        takeoffTime := Or(Get(body, "takeoffTime"), Str("")),
        squawk := Or(Get(body, "squawk"), Str("")),
        flightPlan := Or(Get(body, "flightPlan"), Arr([])),
        nextWaypoint := Or(Get(body, "nextWaypoint"), Str("")),
        vspeed := Or(Get(body, "vspeed"), Str("")),
        ts := clock.ts,
        lastSeen := clock.lastSeen))
  }

  /** What one POST decides: a response without a write, or a single write. */
  datatype Ingestion =
    | Reject(response: PostResponse)
    | Write(key: Key, record: PositionRecord)

  /** The POST handler's decision. `parsed` is the outcome of `req.json()` (`None` when the
      body is not JSON); reading a field of `null` throws, and so does a coercion of a
      member that is an object with its own `toString`; the handler answers every throw
      with 500. */
  function Ingest(parsed: Option<JsValue>, clock: ClockReadings): (d: Ingestion)
    ensures parsed.None? ==> d == Reject(InternalError)
    ensures parsed.Some? && IsNullish(parsed.value) ==> d == Reject(InternalError)
    ensures parsed.Some? && !IsNullish(parsed.value) ==>
      (d == Reject(MissingFields) <==> !HasRequiredFields(parsed.value))
    ensures parsed.Some? && !IsNullish(parsed.value) && HasRequiredFields(parsed.value) ==>
      (d == Reject(InternalError) <==> ThrowsWhileBuilding(parsed.value))
    ensures d.Reject? ==> d.response != Accepted(clock.response)
    ensures d.Write? ==>
      (parsed.Some? && !IsNullish(parsed.value)
       && Some(d.key) == DeriveKey(parsed.value) && Some(d.record) == BuildRecord(parsed.value, clock)
       && d.record.id == d.key)
  {
    if parsed.None? || IsNullish(parsed.value) then Reject(InternalError)
    else if !HasRequiredFields(parsed.value) then Reject(MissingFields)
    else
      match BuildRecord(parsed.value, clock)
      case None => Reject(InternalError)
      case Some(r) => Write(r.id, r)
  }

  /** `POST`: one `set` for an accepted report, no store change otherwise. */
  method HandlePost(store: Store, parsed: Option<JsValue>, clock: ClockReadings) returns (resp: PostResponse)
    requires store.Valid()
    modifies store
    ensures store.Valid()
    ensures store.subscribers == old(store.subscribers)
    ensures Ingest(parsed, clock).Reject? ==>
      resp == Ingest(parsed, clock).response
      && store.records == old(store.records) && store.order == old(store.order)
      && store.writes == old(store.writes)
    ensures Ingest(parsed, clock).Write? ==>
      var w := Ingest(parsed, clock);
      resp == Accepted(clock.response)
      && store.records == old(store.records)[w.key := w.record]
      && store.order == OrderAfterSet(old(store.order), w.key)
      && store.writes == old(store.writes) + [(w.key, w.record)]
  {
    var d := Ingest(parsed, clock);
    match d
    case Reject(r) =>
      resp := r;
    case Write(k, rec) =>
      store.Set(k, rec);
      resp := Accepted(clock.response);
  }

  // ---------------------------------------------------------------- GET

  datatype GetResponse =
    | Found(aircraft: PositionRecord)   // 200 {aircraft: record without lastSeen, lastSeen}
    | NotFound                             // 404 {error: "Aircraft not found"}
    | Listing(count: nat, all: seq<PositionRecord>, timestamp: int)   // 200 {count, aircraft, timestamp}

  /** `Array.from(values()).find(a => a.callsign === callsign)`. */
  function FindByCallsign(vs: seq<PositionRecord>, callsign: string): (r: Option<PositionRecord>)
    ensures r.None? <==> forall i :: 0 <= i < |vs| ==> vs[i].callsign != Str(callsign)
    ensures r.Some? ==> r.value.callsign == Str(callsign)
    ensures r.Some? ==> exists i :: (0 <= i < |vs| && vs[i] == r.value
      && forall j :: 0 <= j < i ==> vs[j].callsign != Str(callsign))
    decreases |vs|
  {
    if |vs| == 0 then None
    else if vs[0].callsign == Str(callsign) then Some(vs[0])
    else
      var r := FindByCallsign(vs[1..], callsign);
      if r.Some? then
        var i :| 0 <= i < |vs| - 1 && vs[1..][i] == r.value
          && forall j :: 0 <= j < i ==> vs[1..][j].callsign != Str(callsign);
        assert vs[i + 1] == r.value;
        assert forall j :: 0 <= j < i + 1 ==> vs[j].callsign != Str(callsign) by {
          forall j | 0 <= j < i + 1 ensures vs[j].callsign != Str(callsign) {
            if j > 0 { assert vs[j] == vs[1..][j - 1]; }
          }
        }
        r
      else r
  }

  /** `searchParams.get(name)` is truthy: present and non-empty. */
  predicate Given(p: Option<string>) {
    p.Some? && p.value != ""
  }

  /** `GET`: `id` first, then `callsign`, then the whole listing. */
  function HandleGet(order: seq<Key>, records: map<Key, PositionRecord>,
                     id: Option<string>, callsign: Option<string>, now: int): (r: GetResponse)
    requires WellFormed(order, records)
    ensures Given(id) ==>
      !r.Listing?
      && (r.NotFound? <==> Str(id.value) !in records)
      && (r.Found? ==> r.aircraft == records[Str(id.value)])
    ensures !Given(id) && Given(callsign) ==>
      !r.Listing?
      && (r.NotFound? <==> forall k :: k in records ==> records[k].callsign != Str(callsign.value))
      && (r.Found? ==> r.aircraft in records.Values && r.aircraft.callsign == Str(callsign.value))
      && (r.Found? ==> Some(r.aircraft) == FindByCallsign(ValuesOf(order, records), callsign.value))
    ensures !Given(id) && !Given(callsign) ==>
      r.Listing? && r.count == |r.all| == |records| && r.timestamp == now
      && r.all == ValuesOf(order, records)
      && forall a :: a in r.all <==> a in records.Values
  {
    var vs := ValuesOf(order, records);
    ValuesCount(order, records);
    if Given(id) then
      if Str(id.value) in records then Found(records[Str(id.value)]) else NotFound
    else if Given(callsign) then
      match FindByCallsign(vs, callsign.value)
      case Some(a) => Found(a)
      case None =>
        assert forall k :: k in records ==> records[k] in vs by {
          forall k | k in records ensures records[k] in vs {
            var i :| 0 <= i < |order| && order[i] == k;
            assert vs[i] == records[k];
          }
        }
        NotFound
    else Listing(|vs|, vs, now)
  }

  // ---------------------------------------------------------------- lemmas

  /** A report is refused with 400 exactly when its callsign is falsy or its latitude or
      longitude is not a number; a refused report never reaches the store. */
  lemma RejectsIffMissingFields(body: JsValue, clock: ClockReadings)
    requires !IsNullish(body)
    ensures Ingest(Some(body), clock) == Reject(MissingFields) <==>
      (!Truthy(Get(body, "callsign")) || !Get(body, "lat").Number? || !Get(body, "lon").Number?)
  {
  }

  /** Numeric defaults: the four positional fields are 0 exactly when `Number(x)` is 0 or
      NaN; heading and speed are 0 only when absent, and otherwise the unguarded
      `Number(x)`, NaN included. */
  lemma NumericDefaults(body: JsValue, clock: ClockReadings)
    requires !IsNullish(body)
    ensures var b := BuildRecord(body, clock);
      b.Some? ==>
        var r := b.value;
        (r.alt == 0 <==> ToNumber(Get(body, "alt")) in {Some(Fin(0)), Some(NaN)})
        && (r.altMSL == 0 <==> ToNumber(Get(body, "altMSL")) in {Some(Fin(0)), Some(NaN)})
        && (r.lat == 0 <==> ToNumber(Get(body, "lat")) in {Some(Fin(0)), Some(NaN)})
        && (r.lon == 0 <==> ToNumber(Get(body, "lon")) in {Some(Fin(0)), Some(NaN)})
        && (r.heading == Fin(0) <==>
              Get(body, "heading") == Undefined || ToNumber(Get(body, "heading")) == Some(Fin(0)))
        && (r.speed == Fin(0) <==>
              Get(body, "speed") == Undefined || ToNumber(Get(body, "speed")) == Some(Fin(0)))
  {
    var b := BuildRecord(body, clock);
    if b.Some? {
      assert b.value.alt == NumberOrZero(Get(body, "alt")).value;
      assert b.value.altMSL == NumberOrZero(Get(body, "altMSL")).value;
      assert b.value.lat == NumberOrZero(Get(body, "lat")).value;
      assert b.value.lon == NumberOrZero(Get(body, "lon")).value;
      assert b.value.heading == NumberUnlessUndefined(Get(body, "heading")).value;
      assert b.value.speed == NumberUnlessUndefined(Get(body, "speed")).value;
      ZeroDefault(Get(body, "alt"));
      ZeroDefault(Get(body, "altMSL"));
      ZeroDefault(Get(body, "lat"));
      ZeroDefault(Get(body, "lon"));
    }
  }

  /** `Number(x) || 0` is 0 exactly when `Number(x)` is 0 or NaN. */
  lemma ZeroDefault(v: JsValue)
    requires NumberOrZero(v).Some?
    ensures NumberOrZero(v).value == 0 <==> ToNumber(v) in {Some(Fin(0)), Some(NaN)}
  {
  }

  /** A present heading that is not numeric is stored as NaN, not replaced by 0. */
  lemma HeadingIsNotGuarded(clock: ClockReadings)
    ensures var b := BuildRecord(Obj([("heading", Str("north"))]), clock);
      b.Some? && b.value.heading == NaN
  {
    var body := Obj([("heading", Str("north"))]);
    assert Get(body, "heading") == Str("north");
    assert forall n :: n != "heading" ==> Get(body, n) == Undefined;
    assert ToNumber(Str("north")) == Some(NaN);
    assert !ThrowsWhileBuilding(body);
  }

  /** A stored text field is the member given when that is truthy, and "" otherwise. */
  predicate TextOrEmpty(field: JsValue, given: JsValue) {
    field == if Truthy(given) then given else Str("")
  }

  /** Text defaults: each falsy text field becomes "", a falsy flight plan `[]`, and a falsy
      vertical speed "" (not 0); truthy values are kept as given. */
  lemma TextDefaults(body: JsValue, clock: ClockReadings)
    requires !IsNullish(body)
    ensures var b := BuildRecord(body, clock);
      b.Some? ==>
      var r := b.value;
      TextOrEmpty(r.callsign, Get(body, "callsign"))
      && TextOrEmpty(r.aircraftType, Get(body, "type"))
      && TextOrEmpty(r.flightNo, Get(body, "flightNo"))
      && TextOrEmpty(r.departure, Get(body, "departure"))
      && TextOrEmpty(r.arrival, Get(body, "arrival"))
      && TextOrEmpty(r.takeoffTime, Get(body, "takeoffTime"))
      && TextOrEmpty(r.squawk, Get(body, "squawk"))
      && TextOrEmpty(r.nextWaypoint, Get(body, "nextWaypoint"))
      && TextOrEmpty(r.vspeed, Get(body, "vspeed"))
      && (r.flightPlan == if Truthy(Get(body, "flightPlan")) then Get(body, "flightPlan") else Arr([]))
      && r.vspeed != Number(Fin(0))
  {
  }

  /** Reading a member of an object none of whose members throws on conversion yields a
      value that does not throw either. */
  lemma {:induction false} ReadNeverThrows(members: seq<(string, JsValue)>, name: string)
    requires forall j :: 0 <= j < |members| ==> !ConversionThrows(members[j].1)
    ensures !ConversionThrows(Lookup(members, name))
    decreases |members|
  {
    if |members| > 0 && members[0].0 != name {
      ReadNeverThrows(members[1..], name);
    }
  }

  /** A report that passes the guard and whose members do not throw is written under its
      derived key. */
  lemma AcceptedReport(body: JsValue, clock: ClockReadings)
    requires body.Obj? && HasRequiredFields(body)
    requires forall j :: 0 <= j < |body.members| ==> !ConversionThrows(body.members[j].1)
    ensures Ingest(Some(body), clock).Write?
    ensures Some(Ingest(Some(body), clock).key) == DeriveKey(body)
    ensures Some(Ingest(Some(body), clock).record) == BuildRecord(body, clock)
  {
    var ms := body.members;
    ReadNeverThrows(ms, "callsign");
    ReadNeverThrows(ms, "playerId");
    ReadNeverThrows(ms, "lat");
    ReadNeverThrows(ms, "lon");
    ReadNeverThrows(ms, "alt");
    ReadNeverThrows(ms, "altMSL");
    ReadNeverThrows(ms, "heading");
    ReadNeverThrows(ms, "speed");
    assert !ConversionThrows(Or(Get(body, "playerId"), Str("p")));
    assert !ThrowsWhileBuilding(body);
  }

  /** A report that passes the guard but whose record cannot be built is answered with 500
      and never stored. */
  lemma ThrowIsInternalError(body: JsValue, clock: ClockReadings)
    requires !IsNullish(body) && HasRequiredFields(body) && ThrowsWhileBuilding(body)
    ensures Ingest(Some(body), clock) == Reject(InternalError)
  {
  }

  /** A callsign that is an object with its own `toString` makes the key's template
      literal throw: the report is answered with 500 and never stored. */
  lemma OwnToStringCallsignIsInternalError(clock: ClockReadings)
    ensures var body := Obj([("callsign", Obj([("toString", Number(Fin(0)))])),
                             ("lat", Number(Fin(1))), ("lon", Number(Fin(1)))]);
      Ingest(Some(body), clock) == Reject(InternalError)
  {
    var inner := Obj([("toString", Number(Fin(0)))]);
    assert inner.members[0].0 == "toString";
    var body := Obj([("callsign", inner), ("lat", Number(Fin(1))), ("lon", Number(Fin(1)))]);
    assert Get(body, "callsign") == inner;
    LookupAt(body.members, "lat", 1);
    LookupAt(body.members, "lon", 2);
    assert HasRequiredFields(body);
    assert Get(body, "id") == Undefined;
    assert ThrowsWhileBuilding(body);
    ThrowIsInternalError(body, clock);
  }

  /** An altitude whose array holds such an object makes `Number` throw, with the same
      answer. */
  lemma OwnToStringAltitudeIsInternalError(clock: ClockReadings)
    ensures var body := Obj([("callsign", Str("UAL1")), ("lat", Number(Fin(1))),
                             ("lon", Number(Fin(1))), ("alt", Arr([Obj([("toString", Null)])]))]);
      Ingest(Some(body), clock) == Reject(InternalError)
  {
    var body := Obj([("callsign", Str("UAL1")), ("lat", Number(Fin(1))),
                     ("lon", Number(Fin(1))), ("alt", Arr([Obj([("toString", Null)])]))]);
    OwnToStringAltitudeThrows(body);
    ThrowIsInternalError(body, clock);
  }

  lemma OwnToStringAltitudeThrows(body: JsValue)
    requires body == Obj([("callsign", Str("UAL1")), ("lat", Number(Fin(1))),
                          ("lon", Number(Fin(1))), ("alt", Arr([Obj([("toString", Null)])]))])
    ensures !IsNullish(body) && HasRequiredFields(body) && ThrowsWhileBuilding(body)
  {
    OwnToStringAltitudeGuard(body);
    OwnToStringAltitudeRead(body);
  }

  lemma OwnToStringAltitudeGuard(body: JsValue)
    requires body == Obj([("callsign", Str("UAL1")), ("lat", Number(Fin(1))),
                          ("lon", Number(Fin(1))), ("alt", Arr([Obj([("toString", Null)])]))])
    ensures !IsNullish(body) && HasRequiredFields(body)
  {
    var ms := body.members;
    assert Get(body, "callsign") == Str("UAL1");
    LookupAt(ms, "lat", 1);
    LookupAt(ms, "lon", 2);
  }

  lemma OwnToStringAltitudeRead(body: JsValue)
    requires body == Obj([("callsign", Str("UAL1")), ("lat", Number(Fin(1))),
                          ("lon", Number(Fin(1))), ("alt", Arr([Obj([("toString", Null)])]))])
    ensures ConversionThrows(Get(body, "alt"))
  {
    var element := Obj([("toString", Null)]);
    var alt := Arr([element]);
    assert element.members[0].0 == "toString";
    assert ConversionThrows(element);
    assert alt.items[0] == element && !IsNullish(alt.items[0]);
    assert ConversionThrows(alt);
    var ms := body.members;
    assert ms[3] == ("alt", alt);
    assert ms[0].0 != "alt" && ms[1].0 != "alt" && ms[2].0 != "alt";
    LookupAt(ms, "alt", 3);
  }

  /** A callsign object without its own `toString` converts to "[object Object]", which then
      names its key. */
  lemma PlainObjectCallsignKey(clock: ClockReadings)
    ensures var body := Obj([("callsign", Obj([])), ("lat", Number(Fin(1))), ("lon", Number(Fin(1)))]);
      Ingest(Some(body), clock).Write?
      && Ingest(Some(body), clock).key == Str("[object Object]" + ":" + "p")
  {
    var body := Obj([("callsign", Obj([])), ("lat", Number(Fin(1))), ("lon", Number(Fin(1)))]);
    PlainObjectCallsignBody(body);
    AcceptedReport(body, clock);
    assert ToStr(Get(body, "callsign")) == Some("[object Object]");
    assert ToStr(Or(Get(body, "playerId"), Str("p"))) == Some("p");
  }

  lemma PlainObjectCallsignBody(body: JsValue)
    requires body == Obj([("callsign", Obj([])), ("lat", Number(Fin(1))), ("lon", Number(Fin(1)))])
    ensures HasRequiredFields(body)
    ensures forall j :: 0 <= j < |body.members| ==> !ConversionThrows(body.members[j].1)
    ensures Get(body, "callsign") == Obj([])
    ensures Get(body, "id") == Undefined && Get(body, "playerId") == Undefined
  {
    var ms := body.members;
    LookupAt(ms, "lat", 1);
    LookupAt(ms, "lon", 2);
    assert !HasOwnToString([]);
    LookupAbsent(ms, "id");
    LookupAbsent(ms, "playerId");
  }

  /** Two reports with the same text callsign and neither an `id` nor a `playerId` share
      the key `callsign:p`, so the later one overwrites the earlier. */
  lemma SameCallsignSameKey(a: JsValue, b: JsValue, callsign: string)
    requires a.Obj? && b.Obj?
    requires Get(a, "callsign") == Get(b, "callsign") == Str(callsign)
    requires !Truthy(Get(a, "id")) && !Truthy(Get(b, "id"))
    requires !Truthy(Get(a, "playerId")) && !Truthy(Get(b, "playerId"))
    ensures DeriveKey(a) == DeriveKey(b) == Some(Str(callsign + ":p"))
  {
    assert Or(Get(a, "playerId"), Str("p")) == Or(Get(b, "playerId"), Str("p")) == Str("p");
    assert ToStr(Str(callsign)) == Some(callsign) && ToStr(Str("p")) == Some("p");
    assert callsign + ":" + "p" == callsign + ":p";
    assert DeriveKey(a) == Some(Str(callsign + ":p"));
    assert DeriveKey(b) == Some(Str(callsign + ":p"));
  }

  /** Different player ids keep two sessions with one callsign apart. */
  lemma PlayerIdSeparatesSessions(a: JsValue, b: JsValue, callsign: string, pa: string, pb: string)
    requires a.Obj? && b.Obj?
    requires Get(a, "callsign") == Get(b, "callsign") == Str(callsign)
    requires !Truthy(Get(a, "id")) && !Truthy(Get(b, "id"))
    requires Get(a, "playerId") == Str(pa) && Get(b, "playerId") == Str(pb)
    requires pa != "" && pb != "" && pa != pb
    ensures DeriveKey(a).Some? && DeriveKey(b).Some? && DeriveKey(a) != DeriveKey(b)
  {
    var ka := callsign + ":" + pa;
    var kb := callsign + ":" + pb;
    assert ka[|callsign| + 1..] == pa && kb[|callsign| + 1..] == pb;
  }

  /** An accepted report read back by its key is exactly the stored record. */
  lemma PostThenGetById(order: seq<Key>, records: map<Key, PositionRecord>,
                        body: JsValue, clock: ClockReadings, id: string, now: int)
    requires WellFormed(order, records)
    requires Ingest(Some(body), clock).Write?
    requires Ingest(Some(body), clock).key == Str(id) && id != ""
    ensures var w := Ingest(Some(body), clock);
      HandleGet(OrderAfterSet(order, w.key), records[w.key := w.record], Some(id), None, now)
        == Found(w.record)
  {
    var w := Ingest(Some(body), clock);
    SetKeepsWellFormed(order, records, w.key, w.record);
  }

  /** Of two reports to one key, a read sees only the second: records are replaced, never
      merged. */
  lemma LastReportWins(order: seq<Key>, records: map<Key, PositionRecord>,
                       first: PositionRecord, second: PositionRecord, id: string, now: int)
    requires WellFormed(order, records)
    requires id != ""
    ensures var k := Str(id);
      var o1 := OrderAfterSet(order, k);
      var o2 := OrderAfterSet(o1, k);
      HandleGet(o2, records[k := first][k := second], Some(id), None, now) == Found(second)
  {
    var k := Str(id);
    SetKeepsWellFormed(order, records, k, first);
    SetKeepsWellFormed(OrderAfterSet(order, k), records[k := first], k, second);
  }

  /** A report with only a callsign and a position, read back by callsign from an otherwise
      empty store, carries the given position and zero altitude, heading and speed. */
  lemma MinimalReportReadBack(clock: ClockReadings, now: int)
    ensures var body := Obj([("callsign", Str("UAL123")), ("lat", Number(Fin(40))), ("lon", Number(Fin(-73)))]);
      var w := Ingest(Some(body), clock);
      w.Write?
      && var r := HandleGet([w.key], map[w.key := w.record], None, Some("UAL123"), now);
      r.Found? && r.aircraft.lat == 40 && r.aircraft.lon == -73 && r.aircraft.alt == 0
      && r.aircraft.heading == Fin(0) && r.aircraft.speed == Fin(0)
      && r.aircraft.id == Str("UAL123" + ":" + "p")
  {
    var body := Obj([("callsign", Str("UAL123")), ("lat", Number(Fin(40))), ("lon", Number(Fin(-73)))]);
    MinimalReportIngested(body, clock);
    var w := Ingest(Some(body), clock);
    SingleRecordByCallsign(w.key, w.record, "UAL123", now);
  }

  /** The only record of a store is the one a read by its callsign finds. */
  lemma SingleRecordByCallsign(k: Key, rec: PositionRecord, callsign: string, now: int)
    requires rec.callsign == Str(callsign) && callsign != ""
    ensures WellFormed([k], map[k := rec])
    ensures HandleGet([k], map[k := rec], None, Some(callsign), now) == Found(rec)
  {
    var vs := ValuesOf([k], map[k := rec]);
    assert vs == [rec];
    assert FindByCallsign(vs, callsign) == Some(rec);
  }

  lemma MinimalReportIngested(body: JsValue, clock: ClockReadings)
    requires body == Obj([("callsign", Str("UAL123")), ("lat", Number(Fin(40))), ("lon", Number(Fin(-73)))])
    ensures var w := Ingest(Some(body), clock);
      w.Write? && w.record.id == w.key && w.key == Str("UAL123" + ":" + "p")
      && w.record.callsign == Str("UAL123")
      && w.record.lat == 40 && w.record.lon == -73 && w.record.alt == 0
      && w.record.heading == Fin(0) && w.record.speed == Fin(0)
  {
    MinimalReportBody(body);
    AcceptedReport(body, clock);
    assert ToStr(Str("UAL123")) == Some("UAL123") && ToStr(Str("p")) == Some("p");
  }

  lemma MinimalReportBody(body: JsValue)
    requires body == Obj([("callsign", Str("UAL123")), ("lat", Number(Fin(40))), ("lon", Number(Fin(-73)))])
    ensures HasRequiredFields(body)
    ensures forall j :: 0 <= j < |body.members| ==> !ConversionThrows(body.members[j].1)
    ensures Get(body, "callsign") == Str("UAL123")
    ensures Get(body, "lat") == Number(Fin(40)) && Get(body, "lon") == Number(Fin(-73))
    ensures Get(body, "id") == Undefined && Get(body, "playerId") == Undefined
    ensures Get(body, "alt") == Undefined
    ensures Get(body, "heading") == Undefined && Get(body, "speed") == Undefined
  {
    var ms := body.members;
    LookupAt(ms, "lat", 1);
    LookupAt(ms, "lon", 2);
    LookupAbsent(ms, "id");
    LookupAbsent(ms, "playerId");
    LookupAbsent(ms, "alt");
    LookupAbsent(ms, "heading");
    LookupAbsent(ms, "speed");
  }
}
