/** The broadcast endpoint (`src/app/api/atc/stream/route.ts`). Each GET numbers the
    connection, sends a snapshot frame, and — if that succeeded — subscribes to the store,
    starts a 30-second heartbeat and listens for the abort signal. Timer ticks, store
    notifications and the abort signal are explicit events, applied one at a time; a send
    succeeds when the stream is still open and the transport accepts it. */
module StreamRoute {
  import opened Wrappers
  import opened Text
  import opened JsValues
  import opened JsonText
  import opened AircraftStore

  /** The keep-alive: an event-stream comment, which dispatches no message. */
  const HeartbeatFrame: string := ": heartbeat\n\n"

  /** A stored record as sent: every field, with `lastSeen` replaced by its ISO text. */
  function RecordJson(r: PositionRecord, iso: int -> string): JsValue {
    Obj([("id", r.id), ("callsign", r.callsign), ("type", r.aircraftType),
         ("lat", Number(Fin(r.lat))), ("lon", Number(Fin(r.lon))),
         ("alt", Number(Fin(r.alt))), ("altMSL", Number(Fin(r.altMSL))),
         ("heading", Number(r.heading)), ("speed", Number(r.speed)),
         ("flightNo", r.flightNo), ("departure", r.departure), ("arrival", r.arrival),
         ("takeoffTime", r.takeoffTime), ("squawk", r.squawk), ("flightPlan", r.flightPlan),
         ("nextWaypoint", r.nextWaypoint), ("vspeed", r.vspeed),
         ("ts", Number(Fin(r.ts))), ("lastSeen", Str(iso(r.lastSeen)))])
  }

  /** The message of every data frame: `{count, aircraft, timestamp}`. */
  function SnapshotJson(recs: seq<PositionRecord>, now: int, iso: int -> string): (m: JsValue)
    ensures m.Obj?
  {
    Obj([("count", Number(Fin(|recs|))),
         ("aircraft", Arr(seq(|recs|, i requires 0 <= i < |recs| => RecordJson(recs[i], iso)))),
         ("timestamp", Str(iso(now)))])
  }

  /** The message's `count` is the number of records and its `aircraft` are the records'
      JSON, in order. */
  lemma SnapshotJsonMembers(recs: seq<PositionRecord>, now: int, iso: int -> string)
    ensures var m := SnapshotJson(recs, now, iso);
      && Lookup(m.members, "count") == Number(Fin(|recs|))
      && Lookup(m.members, "aircraft").Arr?
      && |Lookup(m.members, "aircraft").items| == |recs|
      && forall i :: 0 <= i < |recs| ==>
           Lookup(m.members, "aircraft").items[i] == RecordJson(recs[i], iso)
  {
  }

  function DataFrame(recs: seq<PositionRecord>, now: int, iso: int -> string): string {
    "data: " + Stringify(SnapshotJson(recs, now, iso)) + "\n\n"
  }

  /** The `data` of a frame as an event-stream reader sees it, for the single-line frames
      this endpoint writes: a `data: ` line ended by a blank line yields its text; a
      comment line yields no message. */
  function EventData(frame: string): Option<string> {
    if |frame| >= 8 && frame[..6] == "data: " && frame[|frame| - 2..] == "\n\n"
       && NoLineBreak(frame[6..|frame| - 2])
    then Some(frame[6..|frame| - 2])
    else None
  }

  /** A data frame is one event whose data is exactly the JSON text of the snapshot. */
  lemma DataFrameCarriesSnapshot(recs: seq<PositionRecord>, now: int, iso: int -> string)
    ensures EventData(DataFrame(recs, now, iso)) == Some(Stringify(SnapshotJson(recs, now, iso)))
  {
    var payload := Stringify(SnapshotJson(recs, now, iso));
    var f := DataFrame(recs, now, iso);
    StringifyNoLineBreak(SnapshotJson(recs, now, iso));
    assert f[..6] == "data: ";
    assert f[6..|f| - 2] == payload;
    assert f[|f| - 2..] == "\n\n";
  }

  /** A heartbeat reaches no `onmessage` handler. */
  lemma HeartbeatCarriesNoData()
    ensures EventData(HeartbeatFrame) == None
  {
    assert HeartbeatFrame[..6] != "data: " by {
      assert HeartbeatFrame[0] == ':';
    }
  }

  /** The per-connection state of one stream. */
  class Connection {
    const connectionId: nat
    const store: Store
    /** The handle `subscribe` returned, once the stream has subscribed. */
    var subscription: Option<nat>
    /** The `unsubscribe` handle has not been called yet. */
    var subscribed: bool
    /** The heartbeat interval is set and not cleared. */
    var heartbeatActive: bool
    /** The abort listener is registered and the signal has not fired. */
    var abortListening: bool
    /** `controller.close()` has been called. */
    var closed: bool
    /** Every frame enqueued, in order. */
    var frames: seq<string>
    ghost var unsubscribeCalls: nat

    ghost predicate Valid()
      reads this
    {
      && (subscribed ==> subscription.Some?)
      && (heartbeatActive ==> subscription.Some?)
      && (abortListening ==> subscription.Some?)
    }

    /** The state before `start` runs. */
    ghost predicate Unstarted()
      reads this
    {
      subscription.None? && !subscribed && !heartbeatActive && !abortListening && !closed
      && frames == [] && unsubscribeCalls == 0
    }

    constructor (connectionId: nat, store: Store)
      ensures Valid() && Unstarted()
      ensures this.connectionId == connectionId && this.store == store
    {
      this.connectionId := connectionId;
      this.store := store;
      subscription, subscribed := None, false;
      heartbeatActive, abortListening, closed := false, false, false;
      frames, unsubscribeCalls := [], 0;
    }

    /** `controller.enqueue`: fails once the stream is closed or the transport is gone. */
    method Enqueue(frame: string, transportOk: bool) returns (sent: bool)
      modifies this`frames
      ensures sent == (!closed && transportOk)
      ensures frames == if sent then old(frames) + [frame] else old(frames)
    {
      sent := !closed && transportOk;
      if sent {
        frames := frames + [frame];
      }
    }

    /** Calls the `unsubscribe` handle. */
    method Release()
      requires Valid() && store.Valid() && subscription.Some?
      modifies this`subscribed, this`unsubscribeCalls, store
      ensures Valid() && store.Valid()
      ensures !subscribed && unsubscribeCalls == old(unsubscribeCalls) + 1
      ensures store.subscribers == old(store.subscribers) - {subscription.value}
      ensures store.records == old(store.records) && store.order == old(store.order)
      ensures store.writes == old(store.writes) && store.nextHandle == old(store.nextHandle)
    {
      store.Unsubscribe(subscription.value);
      subscribed := false;
      unsubscribeCalls := unsubscribeCalls + 1;
    }

    /** `start(controller)`: the snapshot frame first; when it cannot be sent the stream is
        closed and nothing else is set up. */
    method Start(now: int, transportOk: bool, iso: int -> string)
      requires Valid() && Unstarted() && store.Valid()
      modifies this, store
      ensures Valid() && store.Valid()
      ensures store.records == old(store.records) && store.order == old(store.order)
      ensures store.writes == old(store.writes)
      ensures transportOk ==>
        frames == [DataFrame(old(store.Values()), now, iso)]
        && subscription.Some? && subscription.value !in old(store.subscribers)
        && store.subscribers == old(store.subscribers) + {subscription.value}
        && subscribed && heartbeatActive && abortListening && !closed
      ensures !transportOk ==>
        frames == [] && closed && subscription.None? && !subscribed
        && !heartbeatActive && !abortListening
        && store.subscribers == old(store.subscribers)
      ensures unsubscribeCalls == 0
    {
      var frame := DataFrame(store.Values(), now, iso);
      assert frame == DataFrame(old(store.Values()), now, iso);
      var sent := Enqueue(frame, transportOk);
      if !sent {
        closed := true;
        return;
      }
      var h := store.Subscribe();
      subscription := Some(h);
      subscribed := true;
      heartbeatActive := true;
      abortListening := true;
      assert frames == [frame];
    }

    /** A store notification. The store calls only registered callbacks; the callback
        sends the store's current records and, when the send fails, unsubscribes and
        closes the stream — leaving the heartbeat interval running. */
    method OnStoreUpdate(now: int, transportOk: bool, iso: int -> string)
      requires Valid() && store.Valid()
      modifies this, store
      ensures Valid() && store.Valid()
      ensures store.records == old(store.records) && store.order == old(store.order)
      ensures store.writes == old(store.writes)
      ensures heartbeatActive == old(heartbeatActive) && abortListening == old(abortListening)
      ensures subscription == old(subscription)
      ensures old(subscription).Some? && old(subscription).value in old(store.subscribers)
                && !old(closed) && transportOk ==>
        frames == old(frames) + [DataFrame(old(store.Values()), now, iso)]
        && closed == old(closed) && subscribed == old(subscribed)
        && store.subscribers == old(store.subscribers)
      ensures old(subscription).Some? && old(subscription).value in old(store.subscribers)
                && (old(closed) || !transportOk) ==>
        frames == old(frames) && closed && !subscribed
        && store.subscribers == old(store.subscribers) - {subscription.value}
        && unsubscribeCalls == old(unsubscribeCalls) + 1
      ensures !(old(subscription).Some? && old(subscription).value in old(store.subscribers)) ==>
        frames == old(frames) && closed == old(closed) && subscribed == old(subscribed)
        && store.subscribers == old(store.subscribers) && unsubscribeCalls == old(unsubscribeCalls)
    {
      if subscription.None? || subscription.value !in store.subscribers {
        return;
      }
      var sent := Enqueue(DataFrame(store.Values(), now, iso), transportOk);
      if !sent {
        Release();
        closed := true;
      }
    }

    /** A tick of the heartbeat interval: a comment frame, or — when it cannot be sent —
        clear the interval, unsubscribe and close. */
    method OnHeartbeat(transportOk: bool)
      requires Valid() && store.Valid()
      modifies this, store
      ensures Valid() && store.Valid()
      ensures store.records == old(store.records) && store.order == old(store.order)
      ensures store.writes == old(store.writes)
      ensures abortListening == old(abortListening) && subscription == old(subscription)
      ensures old(heartbeatActive) && !old(closed) && transportOk ==>
        frames == old(frames) + [HeartbeatFrame] && heartbeatActive
        && closed == old(closed) && subscribed == old(subscribed)
        && store.subscribers == old(store.subscribers)
      ensures old(heartbeatActive) && (old(closed) || !transportOk) ==>
        frames == old(frames) && !heartbeatActive && closed && !subscribed
        && store.subscribers == old(store.subscribers) - {subscription.value}
        && unsubscribeCalls == old(unsubscribeCalls) + 1
      ensures !old(heartbeatActive) ==>
        frames == old(frames) && !heartbeatActive && closed == old(closed)
        && subscribed == old(subscribed) && store.subscribers == old(store.subscribers)
        && unsubscribeCalls == old(unsubscribeCalls)
    {
      if !heartbeatActive {
        return;
      }
      var sent := Enqueue(HeartbeatFrame, transportOk);
      if !sent {
        heartbeatActive := false;
        Release();
        closed := true;
      }
    }

    /** The abort signal (it fires at most once): clear the interval, unsubscribe and close,
        whatever teardown has already happened. */
    method OnAbort()
      requires Valid() && store.Valid()
      modifies this, store
      ensures Valid() && store.Valid()
      ensures store.records == old(store.records) && store.order == old(store.order)
      ensures store.writes == old(store.writes)
      ensures frames == old(frames) && subscription == old(subscription) && !abortListening
      ensures old(abortListening) ==>
        !heartbeatActive && !subscribed && closed
        && store.subscribers == old(store.subscribers) - {subscription.value}
        && unsubscribeCalls == old(unsubscribeCalls) + 1
      ensures !old(abortListening) ==>
        heartbeatActive == old(heartbeatActive) && subscribed == old(subscribed)
        && closed == old(closed) && store.subscribers == old(store.subscribers)
        && unsubscribeCalls == old(unsubscribeCalls)
    {
      if !abortListening {
        return;
      }
      abortListening := false;
      heartbeatActive := false;
      Release();
      closed := true;
    }
  }

  /** The module-level `clientConnectionCounter` and the `GET` handler that uses it. */
  class StreamEndpoint {
    var clientConnectionCounter: nat

    constructor ()
      ensures clientConnectionCounter == 0
    {
      clientConnectionCounter := 0;
    }

    /** `GET`: number the connection `++clientConnectionCounter`, then run `start`. */
    method Connect(store: Store, now: int, transportOk: bool, iso: int -> string) returns (c: Connection)
      requires store.Valid()
      modifies this, store
      ensures fresh(c) && c.Valid() && store.Valid() && c.store == store
      ensures c.connectionId == old(clientConnectionCounter) + 1 == clientConnectionCounter
      ensures c.frames == if transportOk then [DataFrame(old(store.Values()), now, iso)] else []
      ensures c.subscribed == transportOk && c.heartbeatActive == transportOk && c.closed == !transportOk
      ensures store.records == old(store.records) && store.order == old(store.order)
    {
      clientConnectionCounter := clientConnectionCounter + 1;
      c := new Connection(clientConnectionCounter, store);
      c.Start(now, transportOk, iso);
    }
  }

  /** Connection numbers strictly increase: two GETs in a row get ids n+1 and n+2. */
  method TwoConnections(endpoint: StreamEndpoint, store: Store, now: int, iso: int -> string)
      returns (first: Connection, second: Connection)
    requires store.Valid()
    modifies endpoint, store
    ensures first.connectionId < second.connectionId
    ensures second.connectionId == old(endpoint.clientConnectionCounter) + 2
  {
    first := endpoint.Connect(store, now, true, iso);
    second := endpoint.Connect(store, now, true, iso);
  }

  /** A connection to an empty store first receives a frame with `count` 0 and no aircraft. */
  lemma EmptyStoreFirstFrame(now: int, iso: int -> string)
    ensures var m := SnapshotJson([], now, iso);
      Lookup(m.members, "count") == Number(Fin(0)) && Lookup(m.members, "aircraft") == Arr([])
  {
  }

  /** The count announced in a notification frame is the size of the store's map. */
  lemma UpdateFrameCountIsStoreSize(order: seq<Key>, records: map<Key, PositionRecord>, now: int, iso: int -> string)
    requires WellFormed(order, records)
    ensures Lookup(SnapshotJson(ValuesOf(order, records), now, iso).members, "count")
      == Number(Fin(|records|))
  {
    ValuesCount(order, records);
  }

  /** A record whose JSON members are JSON data and whose heading and speed are numbers:
      every member of its message survives the JSON text as it is. */
  predicate CarriedIntact(r: PositionRecord) {
    IsJsonData(r.id) && IsJsonData(r.callsign) && IsJsonData(r.aircraftType)
    && IsJsonData(r.flightNo) && IsJsonData(r.departure) && IsJsonData(r.arrival)
    && IsJsonData(r.takeoffTime) && IsJsonData(r.squawk) && IsJsonData(r.flightPlan)
    && IsJsonData(r.nextWaypoint) && IsJsonData(r.vspeed)
    && r.heading.Fin? && r.speed.Fin?
  }

  /** Such a record is parsed back from its frame exactly as it was sent. */
  lemma RecordSurvivesTransport(r: PositionRecord, iso: int -> string)
    requires CarriedIntact(r)
    ensures Reparse(RecordJson(r, iso)) == RecordJson(r, iso)
  {
    var m := RecordJson(r, iso);
    assert forall i :: 0 <= i < |m.members| ==> IsJsonData(m.members[i].1);
    ReparseOfJsonData(m);
  }

  /** A NaN heading (a report's non-numeric heading, stored unguarded) is written `null`,
      so the reader gets `heading: null`. */
  lemma NaNHeadingArrivesAsNull(r: PositionRecord, iso: int -> string)
    requires r.heading.NaN?
    ensures Lookup(Reparse(RecordJson(r, iso)).members, "heading") == Null
  {
    var ms := RecordJson(r, iso).members;
    LookupAt(ms, "heading", 7);
    LookupReparsed(ms, "heading");
  }
}
