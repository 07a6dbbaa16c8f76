# RadarThing: a verified model of the live-position pipeline

RadarThing is a live radar for a flight simulator. Game clients POST position reports. The
server keeps the latest report per aircraft in a shared in-memory store. Browsers follow
the store over an event stream and search, classify and display what they receive. Two
webhooks keep a user table in step with the account and payment providers.

This project models that core in Dafny and proves what each part promises:

- **Position endpoint** (`PositionRoute`). POST validates a report. It derives the store
  key (`id`, else `callsign:playerId`, else `callsign:p`) and fills every field with its
  default through JavaScript's `Number(x) || 0`, `x || ""` and `typeof` coercions. It then
  makes exactly one store write. A coercion that throws (a member that is an object with
  its own `toString`) is answered with 500 and nothing is stored. GET reads by `id`, else by `callsign` (the first match in
  store order), else lists everything.
- **Event stream** (`StreamRoute`). This is one connection's state as a class. The snapshot
  frame goes first. If it cannot be sent, the stream closes and nothing else is set up.
  - Then come the subscription, the 30-second heartbeat and the abort listener.
  - There are three teardown paths. Teardown can run more than once, and a failed update
    send leaves the heartbeat running.
  - Frames are `data: <JSON>\n\n`. The JSON text has no line break in it, so every frame
    is exactly one event.
- **Client stream driver** (`AircraftStream`). This covers the browser's connection
  states and the backoff `min(1000·2^n, 30000)` ms. Only a successful open resets the
  attempt counter. Each message replaces the whole aircraft list, filling a missing `ts`.
  Lemmas link both ends through the JSON text. The client installs each record as the
  frame carries it back. That is exactly the record sent when its heading and speed are
  numbers. A NaN heading arrives as `null`.
- **Search** (`AircraftSearch`). The same two loops as the source, proved against a
  filter specification. It matches case-insensitive substrings in five aircraft fields
  and two airport fields. Aircraft hits come first, then airport hits. The results are a
  subsequence of the inputs.
- **Sidebar** (`Sidebar`). The flight-phase decision table, fully characterised, and its
  label text. Also the drag-to-expand touch rules and the feet / flight-level altitude
  label.
- **Capabilities** (`Capabilities`). Only the "PREMIUM" role counts as premium.
- **Chart caches**.
  - `AirportChartsService` caches the whole chart index for an hour after the request
    that stored it. A failed request is not cached. A call is split at its `await`s, so
    overlapping calls are modelled too.
  - `AirportChartsHook` looks up one airport: memory first, then local storage, then a
    request. It remembers a null answer and saves only non-null charts.
- **Webhooks** (`StripeWebhook`, `ClerkWebhook`, over `Users`). Signature and header
  guards are followed by one table update per event type. Each handler method is proved
  equal to an outcome function. Lemmas about that function state which rows change.

Helper modules model the JavaScript semantics the core relies on:

- `Text`: ASCII case mapping, `includes`, and integer text.
- `JsValues`: a JSON value type, truthiness, `||`, `Number()` and template-literal text,
  including when the last two throw.
- `JsonText`: `JSON.stringify`, and the value a reader parses back from its text.
- `AircraftStore`: the store, which is seen only through its callers.

Numbers are `Num = Fin(int) | NaN`, where `Fin` holds an exact, unbounded integer. Clocks, `toISOString`, `JSON.parse`, transports,
signature checks and database faults are inputs of the operations that use them.

Four behaviours of the code are proved as they are:

- The Stripe webhook grants "PRO" while `hasPremium` accepts only "PREMIUM"
  (`StripeWebhook.UpgradeDoesNotGrantPremium`).
- A present but non-numeric heading is stored as NaN (`PositionRoute.HeadingIsNotGuarded`).
- The default flight plan `[]` is truthy, so a descending aircraft with no filed plan below
  5000 ft is shown as landing (`Sidebar.EmptyPlanCountsAsFiled`).
- Two chart requests in flight at once keep only one chart in local storage
  (`AirportChartsHook.OverlappingRequestsKeepOneStoredChart`).

## Model

| member | source | states |
|---|---|---|
| Text.Lower | src/hooks/useAircraftSearch.ts:27 | `toLowerCase` keeps the length and leaves no upper-case ASCII letter |
| Text.Upper | src/hooks/useAirportCharts.ts:26 | `toUpperCase` keeps the length and leaves no lower-case ASCII letter |
| Text.IncludesIff | src/hooks/useAircraftSearch.ts:32-36 | `s.includes(t)` holds exactly when `t` occurs in `s` at some position |
| Text.NatToString | src/hooks/useAircraftStream.ts:63 | the decimal text of a natural number is non-empty and all digits |
| Text.IntToString | src/components/atc/sidebar.tsx:257-258 | the text of an integer is non-empty digits with an optional minus sign |
| JsValues.Lookup | src/app/api/atc/position/route.ts:15-17 | a defined property value is the value of a member of that name |
| JsValues.LookupAt | src/app/api/atc/position/route.ts:15-17 | a property read finds the first member carrying the name |
| JsValues.LookupAbsent | src/app/api/atc/position/route.ts:25-44 | reading a name no member carries gives `undefined` |
| JsValues.Truthy | src/app/api/atc/position/route.ts:25-44 | the falsy values are `false`, 0, NaN, `""`, `null` and `undefined`; arrays and objects are truthy; `NumberOrZero` and `Or` rest on it |
| JsValues.Or | src/app/api/atc/position/route.ts:25-44 | `a \|\| b` is `a` when `a` is truthy and `b` otherwise |
| JsValues.StringToNumber | src/app/api/atc/position/route.ts:31-36 | `Number(s)` trims white space, reads "" as 0 and a signed decimal integer as its value, else NaN; `StringToNumberOfIntToString` is its round trip |
| JsValues.ToStr | src/app/api/atc/position/route.ts:25 | `${v}` throws exactly when `ConversionThrows(v)`: an object with its own `toString`, or an array holding one; otherwise arrays join with commas and objects read "[object Object]" |
| JsValues.ToNumber | src/app/api/atc/position/route.ts:31-36 | `Number(v)` throws exactly when `ConversionThrows(v)`; arrays convert through their text, plain objects give NaN |
| JsValues.SetMember | src/hooks/useAircraftStream.ts:42-45 | after `{...o, name: x}`, reading `name` gives `x` and every other name reads as in `o` |
| JsValues.NumberOrZero | src/app/api/atc/position/route.ts:31-34 | `Number(x) \|\| 0` throws iff `Number(x)` does; otherwise it is 0 iff `Number(x)` is 0 or NaN, else `Number(x)` |
| JsValues.StringToNumberOfIntToString | src/app/api/atc/position/route.ts:31-34 | `Number` of an integer's text is that integer |
| JsValues.ToNumberOfNumberText | src/app/api/atc/position/route.ts:31-36 | `Number` of a string holding an integer's decimal text is that integer |
| JsValues.ToNumberOfSingletonArray | src/app/api/atc/position/route.ts:31-36 | `Number([n])` is `n` for an integral number `n` |
| JsonText.Defined | src/app/api/atc/stream/route.ts:40 | `JSON.stringify` writes only members whose value is not `undefined` |
| JsonText.Stringify | src/app/api/atc/stream/route.ts:40 | the JSON text of a value; its partners are `StringifyNoLineBreak` and `StringifyOfReparse` |
| JsonText.StringifyNoLineBreak | src/app/api/atc/stream/route.ts:40 | the JSON text of any value contains no `\n` and no `\r` |
| JsonText.EscapeNoLineBreak | src/app/api/atc/stream/route.ts:40 | an escaped string literal has no raw line break |
| JsonText.JoinNoLineBreak | src/app/api/atc/stream/route.ts:40 | joining single-line parts with a single-line separator gives a single line |
| JsonText.Reparse | src/hooks/useAircraftStream.ts:39 | what `JSON.parse` of the text gives back: NaN and `undefined` elements become `null`, `undefined` members vanish |
| JsonText.ReparseIsJsonData | src/hooks/useAircraftStream.ts:39 | what comes back holds no `undefined` and no NaN |
| JsonText.ReparseOfJsonData | src/hooks/useAircraftStream.ts:39 | a value with no `undefined` and no NaN comes back unchanged |
| JsonText.DefinedOfJsonData | src/app/api/atc/stream/route.ts:40 | `JSON.stringify` drops no member of such a value |
| JsonText.StringifyOfReparse | src/app/api/atc/stream/route.ts:40 | what comes back has the same JSON text as what was sent |
| JsonText.LookupReparsed | src/hooks/useAircraftStream.ts:42-44 | a defined member read after the trip is its own value after the trip |
| JsonText.ReparsedMembersSkip | src/hooks/useAircraftStream.ts:39 | an `undefined` member does not come back from the JSON text |
| JsonText.ReparsedMembersKeep | src/hooks/useAircraftStream.ts:39 | any other member comes back, reparsed and in place, in front of the rest |
| AircraftStore.ValuesOf | src/app/api/atc/position/route.ts:96 | `values()` lists the record of each key in iteration order |
| AircraftStore.OrderAfterSet | src/app/api/atc/position/route.ts:49 | `Map.set` appends a new key and keeps a known key in place; `SetKeepsWellFormed` is its invariant |
| AircraftStore.ValuesCount | src/app/api/atc/position/route.ts:119-128 | the number of values listed is the map's size |
| AircraftStore.DistinctSetSize | src/app/api/atc/position/route.ts:119-128 | a sequence of distinct keys has as many elements as its key set |
| AircraftStore.SetKeepsWellFormed | src/app/api/atc/position/route.ts:49 | after `set`, the iteration order still lists each key of the map exactly once |
| AircraftStore.Store.Values | src/app/api/atc/stream/route.ts:25 | `getAll()` has one record per stored key |
| AircraftStore.Store.Set | src/app/api/atc/position/route.ts:49 | `set(k, r)` replaces the record of `k`, appends a new key to the order, keeps subscribers, logs exactly one write |
| AircraftStore.Store.Get | src/app/api/atc/position/route.ts:75 | `get(k)` returns the record iff `k` is stored |
| AircraftStore.Store.Subscribe | src/app/api/atc/stream/route.ts:50 | `subscribe` registers a fresh handle and changes no record |
| AircraftStore.Store.Unsubscribe | src/app/api/atc/stream/route.ts:75 | unsubscribing removes the handle; calling it again changes nothing |
| PositionRoute.HasRequiredFields | src/app/api/atc/position/route.ts:14-18 | the guard: truthy `callsign`, numeric `lat` and `lon` |
| PositionRoute.DeriveKey | src/app/api/atc/position/route.ts:25 | the key is a truthy `id`, else `${callsign}:${playerId \|\| "p"}`, which throws iff either part's conversion does |
| PositionRoute.NumberUnlessUndefined | src/app/api/atc/position/route.ts:35-36 | heading and speed are 0 only when absent, else the unguarded `Number(x)`, throwing included |
| PositionRoute.BuildRecord | src/app/api/atc/position/route.ts:27-47 | building throws iff the key or one of the six `Number` calls does; otherwise the record's `id` is the key and `ts`, `lastSeen` come from the server clock |
| PositionRoute.Ingest | src/app/api/atc/position/route.ts:10-47 | an unparsable or null body gives 500; 400 iff the guard fails; then 500 iff a coercion throws; otherwise one write of the built record under its key |
| PositionRoute.ThrowIsInternalError | src/app/api/atc/position/route.ts:25-65 | a report that passes the guard but whose record throws while being built gets 500 and no write |
| PositionRoute.ReadNeverThrows | src/app/api/atc/position/route.ts:25-44 | a read from an object none of whose members throws on conversion does not throw either |
| PositionRoute.AcceptedReport | src/app/api/atc/position/route.ts:14-49 | a report that passes the guard and whose members do not throw is written under its derived key with the built record |
| PositionRoute.HandlePost | src/app/api/atc/position/route.ts:10-66 | a refused report leaves the store unchanged; an accepted one makes exactly one `set(key, record)` and answers success with the response timestamp |
| PositionRoute.RejectsIffMissingFields | src/app/api/atc/position/route.ts:14-23 | 400 "Missing required fields" exactly when `callsign` is falsy or `lat`/`lon` is not a number |
| PositionRoute.NumericDefaults | src/app/api/atc/position/route.ts:31-36 | `lat`, `lon`, `alt`, `altMSL` are 0 iff `Number(x)` is 0 or NaN; `heading`, `speed` are 0 iff absent or `Number(x)` is 0 |
| PositionRoute.ZeroDefault | src/app/api/atc/position/route.ts:31-34 | `Number(x) \|\| 0` is 0 exactly when `Number(x)` is 0 or NaN |
| PositionRoute.HeadingIsNotGuarded | src/app/api/atc/position/route.ts:35 | a non-numeric heading is stored as NaN |
| PositionRoute.TextDefaults | src/app/api/atc/position/route.ts:29-44 | each of the eight text fields (`callsign`, `type`, `flightNo`, `departure`, `arrival`, `takeoffTime`, `squawk`, `nextWaypoint`) keeps a truthy value and is "" otherwise; `flightPlan` becomes `[]`; `vspeed` becomes "" and never 0 |
| PositionRoute.SameCallsignSameKey | src/app/api/atc/position/route.ts:25 | without `id` and `playerId`, equal callsigns share the key `callsign:p` |
| PositionRoute.PlayerIdSeparatesSessions | src/app/api/atc/position/route.ts:25 | distinct player ids give distinct keys for one callsign |
| PositionRoute.FindByCallsign | src/app/api/atc/position/route.ts:96-98 | `find` returns nothing iff no record's callsign equals the parameter, else the first that does |
| PositionRoute.HandleGet | src/app/api/atc/position/route.ts:68-135 | `id` takes precedence: 404 iff the key is absent; then `callsign`: 404 iff no record matches, else the first match in store order; else every record in store order, `count` their number; only the last path lists |
| PositionRoute.PostThenGetById | src/app/api/atc/position/route.ts:49-93 | an accepted report read back by its key is exactly the stored record |
| PositionRoute.LastReportWins | src/app/api/atc/position/route.ts:49-93 | a second report to a key replaces the first; records are not merged |
| PositionRoute.MinimalReportReadBack | src/app/api/atc/position/route.ts:25-117 | a callsign-and-position report reads back with zero altitude, heading and speed under key `callsign:p` |
| PositionRoute.SingleRecordByCallsign | src/app/api/atc/position/route.ts:95-117 | a read by callsign from a store holding one record with that callsign finds that record |
| PositionRoute.OwnToStringCallsignIsInternalError | src/app/api/atc/position/route.ts:25-65 | a callsign object with its own `toString` makes the key throw: 500, nothing stored |
| PositionRoute.OwnToStringAltitudeIsInternalError | src/app/api/atc/position/route.ts:33-65 | an altitude array holding such an object makes `Number` throw: 500, nothing stored |
| PositionRoute.PlainObjectCallsignKey | src/app/api/atc/position/route.ts:25 | a callsign object without one is stored under "[object Object]:p" |
| StreamRoute.SnapshotJsonMembers | src/app/api/atc/stream/route.ts:25-36 | the message's `count` is the number of aircraft and each aircraft is its record's JSON |
| StreamRoute.RecordJson | src/app/api/atc/stream/route.ts:25-30 | a stored record as sent, every field in order with `lastSeen` as ISO text; its partners are `RecordSurvivesTransport` and `NaNHeadingArrivesAsNull` |
| StreamRoute.DataFrame | src/app/api/atc/stream/route.ts:39-41 | `data: <JSON>\n\n`; `DataFrameCarriesSnapshot` proves it is one event |
| StreamRoute.DataFrameCarriesSnapshot | src/app/api/atc/stream/route.ts:40-66 | a data frame is one event whose data is the snapshot's JSON text |
| StreamRoute.HeartbeatCarriesNoData | src/app/api/atc/stream/route.ts:83 | the heartbeat `: heartbeat\n\n` is a comment that carries no message |
| StreamRoute.Connection.Enqueue | src/app/api/atc/stream/route.ts:39-41 | a frame is appended iff the stream is open and the transport accepts it |
| StreamRoute.Connection.Release | src/app/api/atc/stream/route.ts:75-100 | `unsubscribe()` removes this stream's handle from the store |
| StreamRoute.Connection.Start | src/app/api/atc/stream/route.ts:23-102 | the first frame is the snapshot of `getAll()`; if it fails, the stream is closed with no subscription, heartbeat or abort listener |
| StreamRoute.Connection.OnStoreUpdate | src/app/api/atc/stream/route.ts:50-78 | each notification appends one data frame of the current map; a failed send unsubscribes and closes but keeps the heartbeat |
| StreamRoute.Connection.OnHeartbeat | src/app/api/atc/stream/route.ts:81-93 | each tick appends the heartbeat frame; a failure clears the interval, unsubscribes and closes |
| StreamRoute.Connection.OnAbort | src/app/api/atc/stream/route.ts:97-102 | abort clears the heartbeat, unsubscribes and closes, even after an earlier teardown |
| StreamRoute.StreamEndpoint.Connect | src/app/api/atc/stream/route.ts:14-17 | each connection is numbered with the incremented counter, then started |
| StreamRoute.TwoConnections | src/app/api/atc/stream/route.ts:14-17 | connection ids strictly increase |
| StreamRoute.EmptyStoreFirstFrame | src/app/api/atc/stream/route.ts:25-36 | an empty store's first frame has `count` 0 and no aircraft |
| StreamRoute.UpdateFrameCountIsStoreSize | src/app/api/atc/stream/route.ts:51-62 | the `count` of an update frame is the size of the store's map |
| StreamRoute.RecordSurvivesTransport | src/app/api/atc/stream/route.ts:25-40 | a record with JSON-data members and numeric heading and speed is parsed back exactly as sent |
| StreamRoute.NaNHeadingArrivesAsNull | src/app/api/atc/stream/route.ts:25-40 | a NaN heading is parsed back as `null` |
| AircraftStream.BackoffBounds | src/hooks/useAircraftStream.ts:57-60 | every delay is between 1000 and 30000 ms and a whole number of seconds |
| AircraftStream.Backoff | src/hooks/useAircraftStream.ts:57-60 | `min(1000·2^n, 30000)`; `BackoffBounds`, `BackoffMonotone` and `BackoffSchedule` characterise it |
| AircraftStream.ReconnectMessage | src/hooks/useAircraftStream.ts:63 | the error text with the delay in whole seconds (`OnError` shows it) |
| AircraftStream.SpreadMembers | src/hooks/useAircraftStream.ts:43 | `{...ac}` copies an object's members, the indexed elements of an array or string, nothing else |
| AircraftStream.Pow2Monotone | src/hooks/useAircraftStream.ts:58 | `2^n` does not decrease as `n` grows |
| AircraftStream.BackoffMonotone | src/hooks/useAircraftStream.ts:57-60 | more attempts never give a shorter delay |
| AircraftStream.BackoffSchedule | src/hooks/useAircraftStream.ts:57-60 | the delay is `1000·2^n` for `n < 5` and 30000 from then on |
| AircraftStream.DelaysNonDecreasing | src/hooks/useAircraftStream.ts:57-61 | successive delays between opens never decrease and never exceed 30000 |
| AircraftStream.WithTimestamp | src/hooks/useAircraftStream.ts:42-45 | a nullish entry throws; otherwise a truthy `ts` is kept, a falsy one becomes `now`, and every other member is copied |
| AircraftStream.MapWithTimestamp | src/hooks/useAircraftStream.ts:42-45 | the map throws iff some entry is nullish, else maps every entry in order |
| AircraftStream.ProcessMessage | src/hooks/useAircraftStream.ts:39-47 | a missing `aircraft` gives `[]`, an array is mapped, anything else throws |
| AircraftStream.SetMemberExisting | src/hooks/useAircraftStream.ts:43-44 | re-setting a member to its own value leaves an object unchanged |
| AircraftStream.TruthyTimestampKept | src/hooks/useAircraftStream.ts:44 | an entry with a truthy `ts` comes through unchanged |
| AircraftStream.Received | src/hooks/useAircraftStream.ts:39 | the records of a snapshot as the frame carries them back, one per record |
| AircraftStream.Sent | src/app/api/atc/stream/route.ts:25-34 | the records of a snapshot as the server puts them in the frame, one per record, in order |
| AircraftStream.ReparsedSnapshot | src/hooks/useAircraftStream.ts:39-42 | the parsed snapshot is an object whose `aircraft` lists the records carried back |
| AircraftStream.MapKeepsEntries | src/hooks/useAircraftStream.ts:42-45 | entries the timestamp step keeps are kept by the whole map |
| AircraftStream.RecordKeptByClient | src/hooks/useAircraftStream.ts:42-45 | a server record with a non-zero `ts`, parsed back from its frame, passes the timestamp step unchanged |
| AircraftStream.ReparsedTimestamp | src/hooks/useAircraftStream.ts:42-44 | the `ts` a record's frame carries back is the record's own `ts` |
| AircraftStream.SnapshotReachesClient | src/hooks/useAircraftStream.ts:39-47 | the list a parsed snapshot installs is exactly the records as the frame carries them |
| AircraftStream.SnapshotReachesClientIntact | src/hooks/useAircraftStream.ts:39-47 | when every record is carried intact, the list a parsed snapshot installs is exactly the records the server sent (`Sent`) |
| AircraftStream.BuiltRecordCarriedIntact | src/app/api/atc/position/route.ts:27-47 | a record built from a parsed body is carried intact exactly when its heading and speed are numbers |
| AircraftStream.StreamClient.ConnectToStream | src/hooks/useAircraftStream.ts:16-29 | closes the previous source, sets status connecting, opens one new source, which is then the only open one |
| AircraftStream.StreamClient.OnOpen | src/hooks/useAircraftStream.ts:31-35 | status connected, error cleared, attempts reset to 0 |
| AircraftStream.StreamClient.OnMessage | src/hooks/useAircraftStream.ts:37-51 | a handled message replaces the whole list and clears loading and error; an unparsable or throwing one changes nothing |
| AircraftStream.StreamClient.OnError | src/hooks/useAircraftStream.ts:53-68 | status disconnected, source closed, exactly one reconnect scheduled after `Backoff(attempts)`, attempts increased by one, the delay shown in seconds |
| AircraftStream.StreamClient.OnReconnectTimer | src/hooks/useAircraftStream.ts:65-67 | the timer reconnects once, without touching the attempt counter, the list, loading or the error |
| AircraftStream.StreamClient.Unmount | src/hooks/useAircraftStream.ts:74-81 | cleanup closes the source, so no source is open, and clears the pending reconnect; everything else stays |
| AircraftStream.ThreeFailuresThenOpen | src/hooks/useAircraftStream.ts:31-68 | three failures wait 1, 2 and 4 s; an open resets the schedule |
| AircraftSearch.PerformSearch | src/hooks/useAircraftSearch.ts:21-52 | the two push loops produce exactly the specified hits; an empty term gives `[]` |
| AircraftSearch.AircraftHits | src/hooks/useAircraftSearch.ts:30-40 | the matching aircraft in input order; `AircraftHitsMembers` and `AircraftHitsAreSubsequence` characterise it |
| AircraftSearch.AirportHits | src/hooks/useAircraftSearch.ts:42-49 | the matching airports in input order; `AirportHitsMembers` and `AirportHitsAreSubsequence` characterise it |
| AircraftSearch.SearchResults | src/hooks/useAircraftSearch.ts:21-52 | `[]` for an empty term, else aircraft hits then airport hits; `SearchMembers`, `AircraftBeforeAirports` and `SearchIsSubsequence` characterise it |
| AircraftSearch.AircraftHitsMembers | src/hooks/useAircraftSearch.ts:30-40 | an aircraft is listed iff one of its five lowered fields contains the lowered term |
| AircraftSearch.AirportHitsMembers | src/hooks/useAircraftSearch.ts:42-49 | an airport is listed iff its lowered ICAO code or name contains the lowered term |
| AircraftSearch.SearchMembers | src/hooks/useAircraftSearch.ts:27-49 | membership in the results, both directions, for aircraft and airports |
| AircraftSearch.AircraftBeforeAirports | src/hooks/useAircraftSearch.ts:28-51 | every aircraft hit precedes every airport hit |
| AircraftSearch.AircraftHitIndices | src/hooks/useAircraftSearch.ts:30-40 | the positions of aircraft hits lie within the input |
| AircraftSearch.AirportHitIndices | src/hooks/useAircraftSearch.ts:42-49 | the positions of airport hits lie within the input |
| AircraftSearch.AircraftHitsAreSubsequence | src/hooks/useAircraftSearch.ts:30-40 | aircraft hits are the inputs at strictly increasing positions |
| AircraftSearch.AirportHitsAreSubsequence | src/hooks/useAircraftSearch.ts:42-49 | airport hits are the inputs at strictly increasing positions |
| AircraftSearch.Candidates | src/hooks/useAircraftSearch.ts:30-49 | the aircraft then the airports, as candidate hits |
| AircraftSearch.SearchIsSubsequence | src/hooks/useAircraftSearch.ts:28-51 | the results are a subsequence of aircraft followed by airports: input order kept, nothing twice |
| AircraftSearch.ShiftedAppendIncreasing | src/hooks/useAircraftSearch.ts:28-51 | increasing positions into the aircraft, followed by increasing airport positions offset by the number of aircraft, stay increasing |
| AircraftSearch.CaseInsensitive | src/hooks/useAircraftSearch.ts:27 | terms equal up to ASCII case give identical results |
| Sidebar.GetFlightPhase | src/components/atc/sidebar.tsx:25-44 | each of the six phases holds exactly under its threshold conditions, tested ground, climb, descent in that order |
| Sidebar.PhaseIsOneOfSix | src/components/atc/sidebar.tsx:34-43 | the phase is always one of the six names |
| Sidebar.NaNVerticalSpeedIsLevel | src/components/atc/sidebar.tsx:31-33 | a vertical speed that is not a number never counts as climbing or descending |
| Sidebar.EmptyPlanCountsAsFiled | src/components/atc/sidebar.tsx:37 | an empty-array flight plan is truthy (landing); an empty string is not (descending) |
| Sidebar.GetPhaseText | src/components/atc/sidebar.tsx:89-104 | the five phases map to their labels, anything else to "In Flight" |
| Sidebar.InFlightIsTheUnknownPhase | src/components/atc/sidebar.tsx:42-102 | "In Flight" is shown exactly for the "unknown" phase |
| Sidebar.MslAltitude | src/components/atc/sidebar.tsx:61 | `altMSL ?? alt`: falls back to `alt` only when `altMSL` is absent |
| Sidebar.FlightLevel | src/components/atc/sidebar.tsx:257 | `Math.round(v / 100)` is the nearest hundred, halves rounded up |
| Sidebar.AltitudeLabel | src/components/atc/sidebar.tsx:255-258 | the label starts with "FL" iff the altitude is at least 18000; below that it is feet |
| Sidebar.FlightLevelsFromTransition | src/components/atc/sidebar.tsx:256-257 | displayed flight levels start at FL180 |
| Sidebar.DragState.TouchStart | src/components/atc/sidebar.tsx:106-109 | on mobile with a touch, the drag starts at its position; otherwise nothing |
| Sidebar.DragState.TouchMove | src/components/atc/sidebar.tsx:111-116 | during a drag, the offset is the distance from its start |
| Sidebar.DragState.TouchEnd | src/components/atc/sidebar.tsx:118-129 | over 100 collapses, under -100 expands, otherwise unchanged; the drag is reset; no-op off mobile or without a drag |
| Sidebar.SwipeSequence | src/components/atc/sidebar.tsx:106-129 | long swipes toggle the panel, a short one does not, a desktop ignores them |
| Capabilities.HasPremium | src/lib/capabilities.ts:3-5 | premium iff the role is "PREMIUM"; a null role is not |
| Capabilities.OnlyPremiumPasses | src/lib/capabilities.ts:1-5 | "FREE", "ADMIN", null and "PRO" are all refused |
| AirportChartsService.ChartFor | src/services/airportChartsService.ts:31-36 | the chart of the upper-cased code, or null when it is absent |
| AirportChartsService.ChartForIgnoresCase | src/services/airportChartsService.ts:35 | lookups ignore the code's letter case |
| AirportChartsService.ChartsService.constructor | src/services/airportChartsService.ts:9-10 | the cache starts empty with `lastFetch` 0 and no request in flight |
| AirportChartsService.ChartsService.StartLoad | src/services/airportChartsService.ts:14-20 | a cache younger than an hour answers and nothing changes; otherwise a new request is sent and remembers the clock reading taken before it; the cache is untouched either way |
| AirportChartsService.ChartsService.CompleteLoad | src/services/airportChartsService.ts:20-28 | a settled request leaves the in-flight set; a failure throws and keeps the cache; a success stores the data at that request's own clock reading |
| AirportChartsService.ChartsService.LoadAirportCharts | src/services/airportChartsService.ts:13-29 | a call with nothing in between: a cache younger than an hour answers with no fetch; a failed fetch throws and keeps the cache; a success stores the data at the time read before the fetch |
| AirportChartsService.ChartsService.GetAirportChart | src/services/airportChartsService.ts:31-36 | the chart comes from the index `loadAirportCharts` gives, keyed by the upper-cased code, with the same cache, clock and fetch-count effects |
| AirportChartsService.CacheLifetime | src/services/airportChartsService.ts:9-29 | the first call fetches, a call within the hour does not, a call after the hour fetches again |
| AirportChartsService.FailureIsNotCached | src/services/airportChartsService.ts:20-27 | after a failed fetch the next call, even at the same instant, fetches again |
| AirportChartsService.OverlappingLoads | src/services/airportChartsService.ts:14-27 | two calls on an empty cache both fetch; when the later one settles first, the earlier one overwrites the cache and moves `lastFetch` back |
| AirportChartsHook.LoadFromStorage | src/hooks/useAirportCharts.ts:7-13 | a missing or unparsable slot reads as `{}` |
| AirportChartsHook.StorageAfter | src/hooks/useAirportCharts.ts:48-50 | storage is rewritten only for a non-null chart, as the map read earlier plus the new key |
| AirportChartsHook.ChartLookup.Effect | src/hooks/useAirportCharts.ts:23-53 | no code does nothing; a memory hit (null included) reads nothing; a storage hit fills memory without a request; otherwise one request starts |
| AirportChartsHook.ChartLookup.Complete | src/hooks/useAirportCharts.ts:42-52 | an answer, null included, is cached in memory and shown; a non-null one is saved; loading ends either way |
| AirportChartsHook.RememberedMiss | src/hooks/useAirportCharts.ts:28-45 | a null answer is remembered: asking again reads no storage and makes no request |
| AirportChartsHook.OverlappingRequestsKeepOneStoredChart | src/hooks/useAirportCharts.ts:33-50 | two overlapping requests both save onto the map read before them, so storage keeps only the later chart |
| Users.UpdateBilling | src/app/api/webhooks/stripe/route.ts:49-56 | the update by Clerk id succeeds iff that user exists, no other user holds the customer id, and the database does not fail |
| Users.UpdateRoleByCustomer | src/app/api/webhooks/stripe/route.ts:73-93 | the update by customer id succeeds iff some user holds it and the database does not fail |
| Users.Upsert | src/app/api/webhooks/clerk/route.ts:54-66 | the upsert fails only on a database fault and leaves the Clerk id present |
| Users.Delete | src/app/api/webhooks/clerk/route.ts:74-76 | the delete succeeds iff the row exists and the database does not fail, and removes only that id |
| Users.UpdateBillingChangesOneRow | src/app/api/webhooks/stripe/route.ts:49-56 | exactly the role, customer and subscription of the one user change; the table stays valid |
| Users.UpdateRoleByCustomerChangesOneRow | src/app/api/webhooks/stripe/route.ts:73-93 | with unique customer ids, exactly one user's role changes |
| Users.UpsertEffect | src/app/api/webhooks/clerk/route.ts:54-66 | an update changes only email and username; a creation sets id, Google id, email and username |
| Users.DeleteEffect | src/app/api/webhooks/clerk/route.ts:74-76 | the deleted id is gone and every other row is kept |
| Users.UserDb.Update | src/app/api/webhooks/stripe/route.ts:49-56 | the table becomes the update's result, or stays unchanged when it throws |
| Users.UserDb.UpdateByCustomer | src/app/api/webhooks/stripe/route.ts:73-93 | the table becomes the update's result, or stays unchanged when it throws |
| Users.UserDb.UpsertUser | src/app/api/webhooks/clerk/route.ts:54-66 | the table becomes the upsert's result, or stays unchanged when it throws |
| Users.UserDb.DeleteUser | src/app/api/webhooks/clerk/route.ts:74-76 | the table becomes the delete's result, or stays unchanged when it throws |
| StripeWebhook.HttpStatus | src/app/api/webhooks/stripe/route.ts:14-105 | 400 for the signature guards, 500 for handler failure, 200 otherwise |
| StripeWebhook.SubscriptionRole | src/app/api/webhooks/stripe/route.ts:69-76 | "PRO" iff the status is "active" and not cancelling at period end, else "FREE" |
| StripeWebhook.StripeOutcome | src/app/api/webhooks/stripe/route.ts:10-108 | the handler's answer and table; the lemmas below characterise it per event type |
| StripeWebhook.HandleStripePost | src/app/api/webhooks/stripe/route.ts:10-108 | the answer and the new table are those of the outcome function, and the table stays valid |
| StripeWebhook.GuardsChangeNothing | src/app/api/webhooks/stripe/route.ts:14-29 | a missing signature or failed verification gives 400 and no change |
| StripeWebhook.OnlySuccessWrites | src/app/api/webhooks/stripe/route.ts:31-107 | every non-success answer leaves the table unchanged; the table stays valid |
| StripeWebhook.CheckoutWithoutUserIsSkipped | src/app/api/webhooks/stripe/route.ts:42-45 | a checkout without `metadata.userId` is skipped with no change |
| StripeWebhook.CheckoutUpgrades | src/app/api/webhooks/stripe/route.ts:49-56 | a checkout makes that user "PRO" with its customer and subscription; other rows unchanged |
| StripeWebhook.SubscriptionUpdateSetsRole | src/app/api/webhooks/stripe/route.ts:69-78 | the customer's role becomes "PRO" iff active and not cancelling, else "FREE"; an unknown customer gives 500 |
| StripeWebhook.SubscriptionDeletionDowngrades | src/app/api/webhooks/stripe/route.ts:90-93 | a deleted subscription sets the customer's role to "FREE" |
| StripeWebhook.OtherEventsAcknowledged | src/app/api/webhooks/stripe/route.ts:32-100 | other event types answer received with no change |
| StripeWebhook.UpgradeDoesNotGrantPremium | src/app/api/webhooks/stripe/route.ts:52 | an upgraded user's "PRO" role fails `hasPremium` |
| ClerkWebhook.HttpStatus | src/app/api/webhooks/clerk/route.ts:19-84 | 200 only for success; 400 for the header, verification and email guards |
| ClerkWebhook.ClerkOutcome | src/app/api/webhooks/clerk/route.ts:8-85 | the handler's answer and table; the lemmas below characterise it per event type |
| ClerkWebhook.HandleClerkPost | src/app/api/webhooks/clerk/route.ts:8-85 | the answer and the new table are those of the outcome function, and the table stays valid |
| ClerkWebhook.GuardsChangeNothing | src/app/api/webhooks/clerk/route.ts:18-41 | a missing or empty svix header, or a failed verification, gives 400 and no change |
| ClerkWebhook.NoEmailNoWrite | src/app/api/webhooks/clerk/route.ts:47-52 | a created or updated user without an email gives 400 and no write |
| ClerkWebhook.SyncUpserts | src/app/api/webhooks/clerk/route.ts:54-66 | upsert by Clerk id: update email and username only, or create with Google id; other rows unchanged |
| ClerkWebhook.DeletionRemoves | src/app/api/webhooks/clerk/route.ts:72-84 | the user's row is removed; a failed delete still answers ok with no change |
| ClerkWebhook.OtherEventsAcknowledged | src/app/api/webhooks/clerk/route.ts:84 | other event types answer ok with no change |
| ClerkWebhook.SyncIsIdempotent | src/app/api/webhooks/clerk/route.ts:54-66 | a repeated user event leaves the same table as a single one |

## Left out

- The store module `~/lib/aircraft-store` is not part of this model.
  - The store is modelled only by what its callers use: an ordered map with JavaScript
    `Map` iteration order, plus a set of subscriber handles.
  - Staleness, sweeping and any other behaviour of its own are not modelled.
  - Notifications are delivered one at a time, as explicit events.
- Keys that are JSON objects or arrays are compared structurally here. A JavaScript `Map`
  compares them by identity.
- JsValues.StringToNumber: only an optional sign followed by decimal digits is read as a
  number. Fractions, exponents, hexadecimal, `Infinity` and other numeral forms are read as
  NaN, because numbers are integers or NaN throughout the model.
- Floating-point values are not modelled: non-integer coordinates, headings, speeds and
  altitudes, `toFixed`, and fractional backoff text.
- Numbers are exact integers of any size, while JavaScript numbers are doubles. Two
  effects of that are not modelled:
  - rounding above 2^53, where `Number("9007199254740993")` is 9007199254740992, so
    `JsValues.StringToNumberOfIntToString` holds for the model's integers only;
  - exponent text from 10^21 up, where `JSON.stringify`, template literals and `toFixed`
    write `1e+21` while `Text.IntToString` writes every digit. This affects
    `JsonText.Stringify`, `JsValues.ToStr`, `PositionRoute.DeriveKey` and
    `Sidebar.AltitudeLabel`.
  - No coordinate, altitude, speed or clock value the core handles comes near either
    range.
- Text.Lower and Text.Upper: they map ASCII letters only. Other Unicode case mappings are
  not modelled.
- JsonText.Stringify: lone surrogate code units are not escaped as `\uXXXX`, and `toJSON`
  hooks are not modelled, because no value the core builds has either.
- PositionRoute.HandleGet: a found record, and every record in the listing, is returned as
  stored. The response body turns `lastSeen` into ISO text, and that is not modelled.
  - A found record is sent without `lastSeen`, next to a top-level ISO `lastSeen`
    (src/app/api/atc/position/route.ts:107-113).
  - Each listed record has its `lastSeen` replaced by ISO text
    (src/app/api/atc/position/route.ts:119-124).
  - The `iso` parameter of the stream frames models that conversion where the model
    needs it.
- `JSON.parse`, `req.json()`, `Date.now()`, `new Date().toISOString()`, `TextEncoder`,
  transports, signature verification and database faults are not computed. They are
  explicit inputs, as parsed values, clock readings, an `iso` function, and success flags.
- StreamRoute.Connection.OnAbort: a teardown after an earlier one calls `controller.close()`
  a second time, which throws in the runtime. The model records the state changes only.
- StreamRoute.Connection.OnStoreUpdate: after a client disconnects, `enqueue` throws and
  the `controller.close()` in the catch throws as well (src/app/api/atc/stream/route.ts:76).
  That exception escapes into the store's notifier, which the model does not capture.
- StreamRoute.Connection.OnHeartbeat: the same second throw from `controller.close()`
  (src/app/api/atc/stream/route.ts:90) escapes into the interval timer. This includes a
  heartbeat after an update already closed the stream. Only the state changes are
  modelled.
- StreamRoute.Connection.Start: a `controller.close()` after a failed first send can
  throw out of `start` and error the stream. The model records a closed stream.
- The 30-second heartbeat period is not modelled. Ticks are explicit events.
- Parsed objects with duplicate member names are not modelled. `JSON.parse` keeps the
  last duplicate, while `JsValues.Lookup` reads the first.
- JavaScript lists integer-like member names of an object first. The model keeps every
  object's members in text order. No object the core builds has such names.
- JsonText.Reparse: it gives the value `JSON.parse` returns for the JSON text. It is not
  derived from text, since `JSON.parse` is not modelled. `StringifyOfReparse` proves that
  it has the same text as the value sent.
- Logging, CORS headers, `OPTIONS` handlers and the response headers of the event stream
  are not modelled.
- The debounce in `useAircraftSearch` (a 300 ms timer, src/hooks/useAircraftSearch.ts:54-62)
  is not modelled, since it involves timers only. The model starts at `performSearch`.
- AircraftSearch.PerformSearch: a searched field is assumed to be a string or nullish. A
  non-string value would make `toLowerCase` throw.
- AircraftStream.MapWithTimestamp: one clock reading `now` serves every entry. The source
  reads `Date.now()` separately for each entry with a falsy `ts`
  (src/hooks/useAircraftStream.ts:44), so the readings may differ across entries.
- AircraftStream.SpreadMembers: a string is split into Unicode scalar values, as `string`
  is a sequence of characters here. JavaScript's spread indexes UTF-16 code units, which
  differ for characters outside the Basic Multilingual Plane. The stream only sends
  objects, so strings reach this case only in malformed messages.
- AirportChartsService.ChartsService.GetAirportChart: it is modelled as one call with no
  other call in between. Overlapping `getAirportChart` calls behave as overlapping
  `loadAirportCharts` calls, which `StartLoad` and `CompleteLoad` model.
- The event-source URL choice by `NODE_ENV` (src/hooks/useAircraftStream.ts:23-26) is not
  modelled, because it is configuration only.
- The React rendering, icons and JSX of the sidebar and of every other component are not
  modelled.
- `useAirportChart`'s memory cache is shared by all components. It is modelled as one
  lookup object owning the cache and the storage slot.
- A storage slot whose JSON parses to something other than an object is not modelled. The
  hook only ever writes objects there.
- The user table's schema is not part of this model.
  - A role left unset is `None`, meaning the column default applies.
  - Constraint violations other than a duplicate customer id are covered by the `fault`
    input.
- StripeWebhook.HandleStripePost: `session.customer` and `session.subscription` are taken
  as ids or null. Expanded Stripe objects in those fields are not modelled.
- `user.js`, `geofs-radar.user.js`, the map overlays, the viewer counter, airport data
  loading, checkout and portal actions, uploads, easter eggs and user-capability hooks are
  not modelled. They are foreign-API wiring, floating-point geometry, or depend on modules
  that are not part of this model.
