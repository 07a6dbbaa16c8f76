/** The client side of the live feed (`src/hooks/useAircraftStream.ts`): one event source at
    a time; each message replaces the whole aircraft list; each error closes the source and
    schedules one reconnect after a capped exponential backoff, whose attempt counter only
    a successful open resets. EventSource callbacks, the reconnect timer and unmounting are
    explicit events; a closed source delivers no events. */
module AircraftStream {
  import opened Wrappers
  import opened Text
  import opened JsValues
  import opened JsonText
  import opened AircraftStore
  import PositionRoute
  import StreamRoute

  datatype Status = Connecting | Connected | Disconnected

  const BaseDelayMs: nat := 1000
  const MaxDelayMs: nat := 30000

  function Pow2(n: nat): (p: nat)
    ensures p >= 1
  {
    if n == 0 then 1 else 2 * Pow2(n - 1)
  }

  /** `Math.min(1000 * Math.pow(2, attempts), 30000)`. */
  function Backoff(attempts: nat): nat {
    var d := BaseDelayMs * Pow2(attempts);
    if d < MaxDelayMs then d else MaxDelayMs
  }

  /** Every delay lies between the base and the cap and is a whole number of seconds. */
  lemma BackoffBounds(attempts: nat)
    ensures BaseDelayMs <= Backoff(attempts) <= MaxDelayMs
    ensures Backoff(attempts) % 1000 == 0
  {
  }

  lemma {:induction false} Pow2Monotone(n: nat, m: nat)
    requires n <= m
    ensures Pow2(n) <= Pow2(m)
    decreases m
  {
    if n < m {
      Pow2Monotone(n, m - 1);
    }
  }

  /** More failures never mean a shorter wait. */
  lemma BackoffMonotone(n: nat, m: nat)
    requires n <= m
    ensures Backoff(n) <= Backoff(m)
  {
    Pow2Monotone(n, m);
  }

  /** The delays are 1, 2, 4, 8 and 16 seconds, then 30 seconds from the sixth failure on. */
  lemma BackoffSchedule(attempts: nat)
    ensures attempts < 5 ==> Backoff(attempts) == 1000 * Pow2(attempts)
    ensures attempts >= 5 ==> Backoff(attempts) == MaxDelayMs
  {
    assert Pow2(5) == 32;
    if attempts >= 5 {
      Pow2Monotone(5, attempts);
    } else {
      assert Pow2(4) == 16;
      Pow2Monotone(attempts, 4);
    }
  }

  /** The error text shown while waiting; the delay is a whole number of seconds. */
  function ReconnectMessage(delayMs: nat): string {
    "Connection lost. Reconnecting in " + IntToString(delayMs / 1000) + "s..."
  }

  // ---------------------------------------------------------------- messages

  /** The own enumerable members of a value, as object spread copies them: an object's
      members, an array's or a string's indexed elements, nothing for other primitives. */
  function SpreadMembers(v: JsValue): seq<(string, JsValue)> {
    match v
    case Obj(ms) => ms
    case Arr(items) => seq(|items|, i requires 0 <= i < |items| => (IntToString(i), items[i]))
    case Str(s) => seq(|s|, i requires 0 <= i < |s| => (IntToString(i), Str([s[i]])))
    case _ => []
  }

  /** `({...ac, ts: ac.ts || now})`; `None` is the TypeError of reading `ts` of `null`. */
  function WithTimestamp(ac: JsValue, now: int): (r: Option<JsValue>)
    ensures r.None? <==> IsNullish(ac)
    ensures r.Some? ==> r.value.Obj?
    ensures r.Some? ==>
      (Truthy(Lookup(r.value.members, "ts")) <==> Truthy(Get(ac, "ts")) || now != 0)
    ensures r.Some? && Truthy(Get(ac, "ts")) ==> Lookup(r.value.members, "ts") == Get(ac, "ts")
    ensures r.Some? && !Truthy(Get(ac, "ts")) ==> Lookup(r.value.members, "ts") == Number(Fin(now))
    ensures r.Some? ==>
      forall n :: n != "ts" ==> Lookup(r.value.members, n) == Lookup(SpreadMembers(ac), n)
  {
    if IsNullish(ac) then None
    else Some(Obj(SetMember(SpreadMembers(ac), "ts", Or(Get(ac, "ts"), Number(Fin(now))))))
  }

  function MapWithTimestamp(items: seq<JsValue>, now: int): (r: Option<seq<JsValue>>)
    ensures r.None? <==> exists i :: 0 <= i < |items| && IsNullish(items[i])
    ensures r.Some? ==> |r.value| == |items|
    ensures r.Some? ==>
      forall i :: 0 <= i < |items| ==> Some(r.value[i]) == WithTimestamp(items[i], now)
  {
    if exists i :: 0 <= i < |items| && IsNullish(items[i]) then None
    else Some(seq(|items|, i requires 0 <= i < |items| => WithTimestamp(items[i], now).value))
  }

  /** The list `onmessage` installs for a parsed message, or `None` when the handler throws
      (reading `aircraft` of `null`, mapping a non-array, reading `ts` of a `null` entry):
      `data.aircraft?.map(...) || []`. */
  function ProcessMessage(data: JsValue, now: int): (r: Option<seq<JsValue>>)
    ensures !IsNullish(data) && IsNullish(Get(data, "aircraft")) ==> r == Some([])
    ensures !IsNullish(data) && Get(data, "aircraft").Arr? ==>
      r == MapWithTimestamp(Get(data, "aircraft").items, now)
    ensures r.Some? ==> !IsNullish(data)
    ensures r.Some? ==> IsNullish(Get(data, "aircraft")) || Get(data, "aircraft").Arr?
  {
    if IsNullish(data) then None
    else
      var a := Get(data, "aircraft");
      if IsNullish(a) then Some([])
      else if a.Arr? then MapWithTimestamp(a.items, now)
      else None
  }

  lemma {:induction false} SetMemberExisting(ms: seq<(string, JsValue)>, name: string)
    requires exists i :: 0 <= i < |ms| && ms[i].0 == name
    ensures SetMember(ms, name, Lookup(ms, name)) == ms
    decreases |ms|
  {
    if ms[0].0 != name {
      var i :| 0 <= i < |ms| && ms[i].0 == name;
      assert ms[1..][i - 1].0 == name;
      SetMemberExisting(ms[1..], name);
    }
  }

  /** An object whose `ts` member is truthy comes through `onmessage` unchanged. */
  lemma TruthyTimestampKept(ms: seq<(string, JsValue)>, now: int)
    requires Truthy(Lookup(ms, "ts"))
    ensures WithTimestamp(Obj(ms), now) == Some(Obj(ms))
  {
    assert Lookup(ms, "ts") != Undefined;
    SetMemberExisting(ms, "ts");
  }

  /** A record the server sends, parsed back from its frame, keeps its own nonzero `ts` on
      the client. */
  lemma RecordKeptByClient(rec: PositionRecord, iso: int -> string, now: int)
    requires rec.ts != 0
    ensures var back := Reparse(StreamRoute.RecordJson(rec, iso));
      WithTimestamp(back, now) == Some(back)
  {
    var back := Reparse(StreamRoute.RecordJson(rec, iso));
    ReparsedTimestamp(rec, iso);
    TruthyTimestampKept(back.members, now);
  }

  /** The `ts` a record's frame carries back is the record's own. */
  lemma ReparsedTimestamp(rec: PositionRecord, iso: int -> string)
    ensures Reparse(StreamRoute.RecordJson(rec, iso)).Obj?
    ensures Lookup(Reparse(StreamRoute.RecordJson(rec, iso)).members, "ts") == Number(Fin(rec.ts))
  {
    var ms := StreamRoute.RecordJson(rec, iso).members;
    assert ms[17] == ("ts", Number(Fin(rec.ts)));
    assert forall j :: 0 <= j < 17 ==> ms[j].0 != "ts";
    LookupAt(ms, "ts", 17);
    LookupReparsed(ms, "ts");
  }

  /** The records of a snapshot as the frame carries them back to a reader. */
  function Received(recs: seq<PositionRecord>, iso: int -> string): (back: seq<JsValue>)
    ensures |back| == |recs|
    ensures forall i :: 0 <= i < |recs| ==> back[i] == Reparse(StreamRoute.RecordJson(recs[i], iso))
  {
    seq(|recs|, i requires 0 <= i < |recs| => Reparse(StreamRoute.RecordJson(recs[i], iso)))
  }

  /** The records of a snapshot as the server sends them. */
  function Sent(recs: seq<PositionRecord>, iso: int -> string): (sent: seq<JsValue>)
    ensures |sent| == |recs|
    ensures forall i :: 0 <= i < |recs| ==> sent[i] == StreamRoute.RecordJson(recs[i], iso)
  {
    seq(|recs|, i requires 0 <= i < |recs| => StreamRoute.RecordJson(recs[i], iso))
  }

  /** The parsed snapshot is an object whose `aircraft` is the list of records carried back. */
  lemma ReparsedSnapshot(recs: seq<PositionRecord>, sent: int, iso: int -> string)
    ensures Reparse(StreamRoute.SnapshotJson(recs, sent, iso)).Obj?
    ensures Get(Reparse(StreamRoute.SnapshotJson(recs, sent, iso)), "aircraft") == Arr(Received(recs, iso))
  {
    var m := StreamRoute.SnapshotJson(recs, sent, iso);
    LookupReparsed(m.members, "aircraft");
    var sentItems := Lookup(m.members, "aircraft").items;
    assert Reparse(Arr(sentItems)).items == Received(recs, iso);
  }

  /** Entries the timestamp step keeps are kept by the whole map. */
  lemma MapKeepsEntries(items: seq<JsValue>, now: int)
    requires forall i :: 0 <= i < |items| ==> WithTimestamp(items[i], now) == Some(items[i])
    ensures MapWithTimestamp(items, now) == Some(items)
  {
    var r := MapWithTimestamp(items, now);
    assert r.Some? && |r.value| == |items|;
    forall i | 0 <= i < |items| ensures r.value[i] == items[i] {
      assert Some(r.value[i]) == WithTimestamp(items[i], now);
    }
    assert r.value == items;
  }

  /** A snapshot frame's message, as `JSON.parse` gives it back, becomes exactly the list of
      records as the frame carries them: every record carries a nonzero `ts`, so the client
      keeps each as it arrived. */
  lemma SnapshotReachesClient(recs: seq<PositionRecord>, sent: int, iso: int -> string, now: int)
    requires forall i :: 0 <= i < |recs| ==> recs[i].ts != 0
    ensures ProcessMessage(Reparse(StreamRoute.SnapshotJson(recs, sent, iso)), now)
      == Some(Received(recs, iso))
  {
    ReparsedSnapshot(recs, sent, iso);
    var items := Received(recs, iso);
    forall i | 0 <= i < |items| ensures WithTimestamp(items[i], now) == Some(items[i]) {
      RecordKeptByClient(recs[i], iso, now);
    }
    MapKeepsEntries(items, now);
  }

  /** When every record is carried intact, the client installs exactly the records the
      server sent. */
  lemma SnapshotReachesClientIntact(recs: seq<PositionRecord>, sent: int, iso: int -> string, now: int)
    requires forall i :: 0 <= i < |recs| ==> recs[i].ts != 0 && StreamRoute.CarriedIntact(recs[i])
    ensures ProcessMessage(Reparse(StreamRoute.SnapshotJson(recs, sent, iso)), now)
      == Some(Sent(recs, iso))
  {
    SnapshotReachesClient(recs, sent, iso, now);
    var back := Received(recs, iso);
    var out := Sent(recs, iso);
    forall i | 0 <= i < |recs| ensures back[i] == out[i] {
      StreamRoute.RecordSurvivesTransport(recs[i], iso);
    }
    assert back == out;
  }

  lemma MemberIsJsonData(body: JsValue, n: string)
    requires IsJsonData(body) && !IsNullish(body)
    ensures Get(body, n) == Undefined || IsJsonData(Get(body, n))
  {
    if body.Obj? && Get(body, n) != Undefined {
      var i :| 0 <= i < |body.members| && body.members[i] == (n, Get(body, n));
    }
  }

  lemma DefaultIsJsonData(body: JsValue, n: string, d: JsValue)
    requires IsJsonData(body) && !IsNullish(body) && IsJsonData(d)
    ensures IsJsonData(Or(Get(body, n), d))
  {
    MemberIsJsonData(body, n);
  }

  /** A record the position endpoint builds from a parsed body is carried intact exactly
      when its heading and speed are numbers; a non-numeric heading reaches the browser as
      `null`. */
  lemma BuiltRecordCarriedIntact(body: JsValue, clock: PositionRoute.ClockReadings)
    requires IsJsonData(body) && !IsNullish(body)
    requires PositionRoute.BuildRecord(body, clock).Some?
    ensures var r := PositionRoute.BuildRecord(body, clock).value;
      StreamRoute.CarriedIntact(r) <==> r.heading.Fin? && r.speed.Fin?
  {
    var r := PositionRoute.BuildRecord(body, clock).value;
    MemberIsJsonData(body, "id");
    assert IsJsonData(r.id);
    DefaultIsJsonData(body, "callsign", Str(""));
    DefaultIsJsonData(body, "type", Str(""));
    DefaultIsJsonData(body, "flightNo", Str(""));
    DefaultIsJsonData(body, "departure", Str(""));
    DefaultIsJsonData(body, "arrival", Str(""));
    DefaultIsJsonData(body, "takeoffTime", Str(""));
    DefaultIsJsonData(body, "squawk", Str(""));
    DefaultIsJsonData(body, "flightPlan", Arr([]));
    DefaultIsJsonData(body, "nextWaypoint", Str(""));
    DefaultIsJsonData(body, "vspeed", Str(""));
  }

  // ---------------------------------------------------------------- the hook's state

  class StreamClient {
    var status: Status
    var aircrafts: seq<JsValue>
    var isLoading: bool
    var error: Option<string>
    var reconnectAttempts: nat
    /** `eventSourceRef.current` is set. */
    var hasSource: bool
    /** The current source is open (not yet closed). */
    var sourceOpen: bool
    /** Event sources created so far. */
    var sourcesCreated: nat
    /** The delay of the reconnect timer that is set and has not fired or been cleared. */
    var pendingReconnect: Option<nat>
    /** The delays scheduled since the last successful open, in order. */
    ghost var delays: seq<nat>
    /** The sources, numbered from 1 in creation order, that are open: created and not
        yet closed. */
    ghost var openSources: set<nat>

    ghost predicate Valid()
      reads this
    {
      && |delays| == reconnectAttempts
      && (forall i :: 0 <= i < |delays| ==> delays[i] == Backoff(i))
      && (sourceOpen ==> hasSource)
      && (pendingReconnect.Some? ==> !sourceOpen)
      && openSources <= {sourcesCreated}
      && (sourceOpen <==> sourcesCreated in openSources)
    }

    /** The hook's first render, before its effect runs. */
    constructor ()
      ensures Valid()
      ensures status == Connecting && aircrafts == [] && isLoading && error == None
      ensures reconnectAttempts == 0 && !hasSource && !sourceOpen && sourcesCreated == 0
      ensures pendingReconnect == None && openSources == {}
    {
      status, aircrafts, isLoading, error := Connecting, [], true, None;
      reconnectAttempts := 0;
      hasSource, sourceOpen, sourcesCreated := false, false, 0;
      pendingReconnect := None;
      delays := [];
      openSources := {};
    }

    /** `connectToStream`: close the previous source, report connecting, open a new one. */
    method ConnectToStream()
      requires Valid() && pendingReconnect == None
      modifies this
      ensures Valid()
      ensures status == Connecting && hasSource && sourceOpen
      ensures sourcesCreated == old(sourcesCreated) + 1
      ensures aircrafts == old(aircrafts) && isLoading == old(isLoading) && error == old(error)
      ensures reconnectAttempts == old(reconnectAttempts) && delays == old(delays)
      ensures pendingReconnect == None
      ensures openSources == {sourcesCreated}
    {
      if hasSource {
        sourceOpen := false;
        openSources := openSources - {sourcesCreated};
      }
      status := Connecting;
      sourcesCreated := sourcesCreated + 1;
      hasSource := true;
      sourceOpen := true;
      openSources := openSources + {sourcesCreated};
    }

    /** `onopen`. */
    method OnOpen()
      requires Valid()
      modifies this
      ensures Valid()
      ensures old(sourceOpen) ==>
        status == Connected && error == None && reconnectAttempts == 0 && delays == []
      ensures !old(sourceOpen) ==>
        status == old(status) && error == old(error) && reconnectAttempts == old(reconnectAttempts)
      ensures aircrafts == old(aircrafts) && isLoading == old(isLoading)
      ensures sourceOpen == old(sourceOpen) && hasSource == old(hasSource)
      ensures sourcesCreated == old(sourcesCreated) && pendingReconnect == old(pendingReconnect)
      ensures openSources == old(openSources)
    {
      if !sourceOpen {
        return;
      }
      status := Connected;
      error := None;
      reconnectAttempts := 0;
      delays := [];
    }

    /** `onmessage`; `parsed` is the outcome of `JSON.parse(event.data)`. A message that does
        not parse, or whose handling throws, changes nothing. */
    method OnMessage(parsed: Option<JsValue>, now: int)
      requires Valid()
      modifies this
      ensures Valid()
      ensures var list := if parsed.Some? then ProcessMessage(parsed.value, now) else None;
        if old(sourceOpen) && list.Some? then
          aircrafts == list.value && !isLoading && error == None
        else
          aircrafts == old(aircrafts) && isLoading == old(isLoading) && error == old(error)
      ensures status == old(status) && reconnectAttempts == old(reconnectAttempts)
      ensures sourceOpen == old(sourceOpen) && hasSource == old(hasSource)
      ensures sourcesCreated == old(sourcesCreated) && pendingReconnect == old(pendingReconnect)
      ensures delays == old(delays) && openSources == old(openSources)
    {
      if !sourceOpen || parsed.None? {
        return;
      }
      var list := ProcessMessage(parsed.value, now);
      if list.Some? {
        aircrafts := list.value;
        isLoading := false;
        error := None;
      }
    }

    /** `onerror`: report disconnected, close the source, and schedule exactly one
        reconnect after `Backoff(reconnectAttempts)`, counting the attempt. */
    method OnError()
      requires Valid()
      modifies this
      ensures Valid()
      ensures old(sourceOpen) ==>
        status == Disconnected && !sourceOpen
        && pendingReconnect == Some(Backoff(old(reconnectAttempts)))
        && reconnectAttempts == old(reconnectAttempts) + 1
        && delays == old(delays) + [Backoff(old(reconnectAttempts))]
        && error == Some(ReconnectMessage(Backoff(old(reconnectAttempts))))
      ensures !old(sourceOpen) ==>
        status == old(status) && sourceOpen == old(sourceOpen)
        && pendingReconnect == old(pendingReconnect)
        && reconnectAttempts == old(reconnectAttempts) && error == old(error)
      ensures aircrafts == old(aircrafts) && isLoading == old(isLoading)
      ensures hasSource == old(hasSource) && sourcesCreated == old(sourcesCreated)
      ensures openSources == {}
    {
      if !sourceOpen {
        return;
      }
      status := Disconnected;
      sourceOpen := false;
      openSources := openSources - {sourcesCreated};
      var backoffTime := Backoff(reconnectAttempts);
      delays := delays + [backoffTime];
      reconnectAttempts := reconnectAttempts + 1;
      error := Some(ReconnectMessage(backoffTime));
      pendingReconnect := Some(backoffTime);
    }

    /** The reconnect timer fires and calls `connectToStream`. */
    method OnReconnectTimer()
      requires Valid()
      modifies this
      ensures Valid()
      ensures old(pendingReconnect).Some? ==>
        status == Connecting && hasSource && sourceOpen
        && sourcesCreated == old(sourcesCreated) + 1 && openSources == {sourcesCreated}
      ensures old(pendingReconnect).None? ==>
        status == old(status) && hasSource == old(hasSource) && sourceOpen == old(sourceOpen)
        && sourcesCreated == old(sourcesCreated) && openSources == old(openSources)
      ensures pendingReconnect == None
      ensures reconnectAttempts == old(reconnectAttempts) && delays == old(delays)
      ensures aircrafts == old(aircrafts) && isLoading == old(isLoading) && error == old(error)
    {
      if pendingReconnect.None? {
        return;
      }
      pendingReconnect := None;
      ConnectToStream();
    }

    /** The effect's cleanup: close the source and clear the reconnect timer. */
    method Unmount()
      requires Valid()
      modifies this
      ensures Valid()
      ensures !sourceOpen && openSources == {} && pendingReconnect == None
      ensures status == old(status) && aircrafts == old(aircrafts) && error == old(error)
      ensures isLoading == old(isLoading) && reconnectAttempts == old(reconnectAttempts)
      ensures hasSource == old(hasSource) && sourcesCreated == old(sourcesCreated)
      ensures delays == old(delays)
    {
      sourceOpen := false;
      openSources := openSources - {sourcesCreated};
      pendingReconnect := None;
    }
  }

  /** Between two successful opens the scheduled delays never decrease and never pass the
      cap. */
  lemma DelaysNonDecreasing(delays: seq<nat>)
    requires forall i :: 0 <= i < |delays| ==> delays[i] == Backoff(i)
    ensures forall i, j :: 0 <= i <= j < |delays| ==> delays[i] <= delays[j] <= MaxDelayMs
  {
    forall i, j | 0 <= i <= j < |delays|
      ensures delays[i] <= delays[j] <= MaxDelayMs
    {
      BackoffMonotone(i, j);
      BackoffBounds(j);
    }
  }

  /** A mount followed by three failed connections waits 1, 2 and then 4 seconds, and a
      successful open starts the schedule over. */
  method ThreeFailuresThenOpen() returns (c: StreamClient)
    ensures c.status == Connected && c.reconnectAttempts == 0 && c.error == None
  {
    c := new StreamClient();
    c.ConnectToStream();
    c.OnError();
    assert c.pendingReconnect == Some(1000);
    c.OnReconnectTimer();
    c.OnError();
    assert c.pendingReconnect == Some(2000);
    c.OnReconnectTimer();
    c.OnError();
    assert c.pendingReconnect == Some(4000);
    c.OnReconnectTimer();
    c.OnOpen();
  }
}
