# mediasoup-sfu session registry in Dafny

mediasoup-sfu is a small HTTP front end over the mediasoup media engine. Its
`MediaSoupServer` object (server.js) holds a pool of engine workers and a
dictionary of rooms. Each room has one router and three Maps, keyed by
engine id: transports, producers and consumers. The request handlers of
api.js look entities up in that registry, call the engine, and then add or
delete Map entries. Close listeners that the handlers register remove
entries again. config.js derives the worker count and the RTC port range
from environment variables with `parseInt(...) || default`.

This project models that registry and its handlers and proves what they
promise:

- the order in which each handler checks its request;
- that a refused request changes nothing;
- where an accepted request stores its entity, and that the close listeners
  undo the addition;
- that the global scans are sound and complete, and stop at the first room;
- that the registry invariants survive every handler: every entry is stored
  under its own id, and no id is held by two rooms;
- how `parseInt` and the `||` defaults of config.js behave.

Modules:

- `Wrappers` (wrappers.dfy) defines `Option`, the engine's answer
  `Engine<T>` (`Returns` or `Throws`), which stands for a promise that
  resolves or rejects, and `Completion` for an answer that carries no value.
- `OrderedMap` (ordered_map.dfy) defines `Dict<V>`, a string-keyed
  dictionary that remembers insertion order. It stands for both the JS `Map`
  and the plain room object.
- `Config` (config.dfy) models config.js: the ECMAScript `parseInt` with no radix, as
  section 19.2.5 of ECMA-262 defines it, plus the `||` defaults and the
  worker count.
- `Registry` (registry.dfy) holds the entities, the scans over the rooms, the additions and
  deletions the handlers perform, and the invariants.
- `Server` (server.dfy) models server.js: the class `MediaSoupServer`: the worker pool, the
  scans written as loops, and shutdown.
- `Api` (api.dfy) models api.js; it gives each handler twice: as a pure outcome function, and
  as a method of class `Routes` that is proved equal to it. It also holds
  the close listeners.
- `ApiLaws` (api_laws.dfy) holds the properties of the handlers.
- `Findings` (findings.dfy) holds the prototype-key discrepancy described below.

Engine calls are parameters of the handlers. The new entity's id and
`paused` flag come from `produce` or `consume`. `resume` and `connect`
either complete or fail. The verdict of `router.canConsume` is a `bool`.
The random worker pick is a nondeterministic choice of an index in range.

## Model

| member | source | states |
|---|---|---|
| OrderedMap.Set | api.js:108 | `Map.set`: the key then maps to the value, every other key keeps its value, and a new key is appended to the iteration order |
| OrderedMap.Delete | api.js:131 | `Map.delete`: the key is gone, every other key keeps its value and order, and deleting an absent key changes nothing |
| OrderedMap.DeleteIdempotent | api.js:131 | deleting a key twice is the same as deleting it once |
| OrderedMap.SetThenDelete | api.js:108 | adding a new key and deleting it again gives back the original dictionary |
| OrderedMap.SizeIsEntryCount | api.js:446-448 | `size` (and `Object.keys(...).length`) is the number of stored entries |
| Config.TrimStart | config.js:140 | `parseInt` first drops leading white space; the result is a suffix of the input |
| Config.DigitPrefix | config.js:140 | the longest prefix of digits in the radix: all of it digits, and the next character not a digit |
| Config.ParseMagnitude | config.js:140 | after sign and white space: a `0x`/`0X` prefix selects base 16, the longest digit run is read, no digit gives NaN; the number read is never negative, and `Config.MagnitudeShow` and `Config.ParseShow` tie it to decimal notation |
| Config.ParseInt | config.js:140 | `parseInt` with no radix: leading white space is skipped, then an optional sign, then the magnitude; `Config.ParseShow` and the examples state what it reads |
| Config.EnvNumber | config.js:10-11 | `parseInt(process.env[name])`, with an unset variable read as the text "undefined" (`Config.UndefinedIsNaN`) |
| Config.WorkerCount | config.js:138-140 | `auto` gives max(1, floor(cpus/2)); otherwise `parseInt(WORKER_COUNT) \|\| 1`; its properties are `Config.WorkerCountBounds`, `Config.WorkerCountDefault` and `Config.WorkerCountDecimal` |
| Config.RtcMinPort | config.js:10 | `parseInt(RTC_MIN_PORT) \|\| 40000`; its properties are in `Config.RtcPortDefaults` |
| Config.RtcMaxPort | config.js:11 | `parseInt(RTC_MAX_PORT) \|\| 49999`; its properties are in `Config.RtcPortDefaults` |
| Config.OrDefault | config.js:10-11 | `n \|\| d` is never 0, equals `d` exactly when `n` is NaN, 0 or `d`, and is the number itself when that is non-zero |
| Config.Load | config.js:138-142 | the worker count is never 0, at least 1 with `auto`, and a non-zero reading of WORKER_COUNT is kept; each RTC port is its default when unset, unparseable or 0 |
| Config.UndefinedIsNaN | config.js:10-11 | an unset variable is read by `parseInt` as NaN |
| Config.NegatedTrimmed | config.js:140 | a leading minus sign negates the number read after it |
| Config.ParseShow | config.js:140 | `parseInt` reads back the decimal notation of every natural number, with or without a minus sign, whatever non-digit text follows |
| Config.WorkerCountDecimal | config.js:140 | a WORKER_COUNT that starts with the decimal notation of n >= 1 gives n workers |
| Config.WorkerCountBounds | config.js:138-140 | `auto` gives max(1, floor(cpus/2)); otherwise any non-zero number `parseInt` reads ("007", " 7", "+7", "0x10") is the count; the count is never 0, and below 1 only when a negative number is read |
| Config.WorkerCountDefault | config.js:140 | an unset, unparseable or zero WORKER_COUNT gives 1 |
| Config.RtcPortDefaults | config.js:10-11 | the ports default to 40000 and 49999 when unset, unparseable or 0, and otherwise each keeps the number read |
| Config.ParseIntSpacesExample | config.js:140 | `"  42px"` reads as 42 |
| Config.ParseIntMinusExample | config.js:140 | `"-7"` reads as -7 |
| Config.ParseIntFractionExample | config.js:140 | `"2.5"` reads as 2 |
| Config.ParseIntNaNExample | config.js:140 | `"auto"` reads as NaN |
| Config.ParseIntHexExample | config.js:140 | `"0x1F"` reads as 31 |
| Registry.NewRoom | api.js:61-66 | a new room holds the given router, an empty transports Map, an empty producers Map and an empty consumers Map |
| Registry.FirstHolder | server.js:111-115 | the index of the first room whose Map holds the id, with no earlier room holding it; none exactly when no room holds it |
| Registry.LookupIn | server.js:110-118 | the scan result is null exactly when no Map holds the id, and is otherwise the value in the first Map that holds it |
| Registry.TransportLookup | server.js:110-118 | null exactly when no room's transports hold the id; otherwise the entry of some room holding it |
| Registry.ProducerLookup | server.js:120-128 | the same for producers |
| Registry.ConsumerLookup | server.js:130-138 | the same for consumers |
| Registry.RoomOfTransport | server.js:140-147 | the room found holds the id, the transport scan's result is that room's entry, and there is no room exactly when the transport scan finds nothing |
| Registry.RoomOfProducer | api.js:216-234 | the room the producer is stored in: it holds the id, and it agrees with the producer scan |
| Registry.RoomOfConsumer | api.js:272-318 | the room the consumer is stored in: it holds the id, and it agrees with the consumer scan |
| Registry.WellKeyedAfterUpdate | api.js:61-66 | replacing one room by a room whose entries sit under their own ids keeps that property for the whole dictionary |
| Registry.AddRoom | api.js:61-66 | storing a new room appends its id, and keeps both invariants |
| Registry.AddTransport | api.js:108 | `room.transports.set`: the room's transports map the id to the transport, its other transports, its router and its other Maps are unchanged, and every other room and the room order are unchanged |
| Registry.RemoveTransport | api.js:131 | `room.transports.delete`: the id is gone from that room, everything else is unchanged, and an absent room leaves the rooms as they are |
| Registry.AddProducer | api.js:218 | the same as `AddTransport`, for the producers Map |
| Registry.RemoveProducer | api.js:222-234 | the same as `RemoveTransport`, for the producers Map |
| Registry.AddConsumer | api.js:307 | the same as `AddTransport`, for the consumers Map |
| Registry.RemoveConsumer | api.js:310-318 | the same as `RemoveTransport`, for the consumers Map |
| Registry.RemoveTransportIdempotent | api.js:129-132 | running the transport close listener twice is the same as running it once |
| Registry.RemoveProducerIdempotent | api.js:222-234 | the same for the producer listeners |
| Registry.RemoveConsumerIdempotent | api.js:310-318 | the same for the consumer listeners |
| Registry.AddThenRemoveTransport | api.js:108-132 | the close listener undoes the addition of a transport with a new id |
| Registry.AddThenRemoveProducer | api.js:218-234 | the same for producers |
| Registry.AddThenRemoveConsumer | api.js:307-318 | the same for consumers |
| Registry.LookupsAfterAddTransport | api.js:107-108 | after a transport with a new id is added, the scan finds it in that room, and every other id scans as before |
| Registry.LookupsAfterAddProducer | api.js:216-219 | the same for producers |
| Registry.LookupsAfterAddConsumer | api.js:306-307 | the same for consumers |
| Registry.LookupsAfterRemoveTransport | api.js:129-132 | with ids unique, the holding room is the one scanned; after the deletion the scan finds nothing for that id, and every other id scans as before |
| Registry.LookupsAfterRemoveProducer | api.js:229-234 | the same for producers |
| Registry.LookupsAfterRemoveConsumer | api.js:315-318 | the same for consumers |
| Registry.AddTransportKeepsInvariants | api.js:107-108 | adding a transport keeps entries under their own ids, and, for a new id, keeps ids unique |
| Registry.AddProducerKeepsInvariants | api.js:216-219 | the same for producers |
| Registry.AddConsumerKeepsInvariants | api.js:306-307 | the same for consumers |
| Registry.AddTransportKeepsWellKeyed | api.js:107-108 | adding a transport keeps every entry under its own id |
| Registry.AddTransportKeepsUniqueIds | api.js:107-108 | adding a transport whose id no room holds keeps ids unique |
| Registry.AddProducerKeepsWellKeyed | api.js:216-219 | the same for producers |
| Registry.AddProducerKeepsUniqueIds | api.js:216-219 | the same for producers |
| Registry.AddConsumerKeepsWellKeyed | api.js:306-307 | the same for consumers |
| Registry.AddConsumerKeepsUniqueIds | api.js:306-307 | the same for consumers |
| Registry.RemoveTransportKeepsInvariants | api.js:129-132 | deleting a transport keeps both invariants |
| Registry.RemoveProducerKeepsInvariants | api.js:222-234 | the same for producers |
| Registry.RemoveConsumerKeepsInvariants | api.js:310-318 | the same for consumers |
| Server.FirstFailure | server.js:73-95 | the first of the first n worker creations that throws, with every earlier one succeeding; none exactly when all succeed |
| Server.Pool | server.js:73-89 | the workers the first n creations give: n of them, the i-th with `workerId` i and the i-th creation's pid |
| Server.MediaSoupServer.constructor | server.js:10-14 | a new server has no workers and no rooms |
| Server.MediaSoupServer.CreateWorkers | server.js:70-98 | when every attempt succeeds, `workerCount` workers are pushed with `workerId` 0, 1, ...; otherwise the workers before the first failure are pushed and the failure's error is passed on; the rooms are unchanged |
| Server.MediaSoupServer.GetLeastLoadedWorker | server.js:100-108 | null exactly when the pool is empty, otherwise a worker of the pool |
| Server.MediaSoupServer.FindTransport | server.js:110-118 | the loop's result is the first-room transport scan, so it is null exactly when no room holds the id, and the rooms are unchanged |
| Server.MediaSoupServer.FindProducer | server.js:120-128 | the same for producers |
| Server.MediaSoupServer.FindConsumer | server.js:130-138 | the same for consumers |
| Server.MediaSoupServer.FindRoomByTransport | server.js:140-147 | the loop's result is the first room whose transports hold the id |
| Server.MediaSoupServer.Shutdown | server.js:173-187 | afterwards no room and no worker is left |
| Api.CreateRoomOutcome | api.js:27-81 | create-room on values: an existing id is answered from the registry; otherwise no worker or an engine error is a 500, else a new room is stored; its properties are `ApiLaws.CreateRoomIdempotent`, `ApiLaws.CreateRoomAddsEmptyRoom` and `ApiLaws.CreateRoomRefusals` |
| Api.CreateTransportOutcome | api.js:84-149 | transport creation on values: 404 for an unknown room, 500 on an engine error, else the transport is stored in that room (`ApiLaws.CreateTransportRefusals`, `ApiLaws.CreateTransportRegisters`) |
| Api.ConnectOutcome | api.js:152-183 | connect on values: 404 for an unregistered transport, 500 on an engine error, else success (`ApiLaws.ConnectRefusals`) |
| Api.ProduceOutcome | api.js:186-253 | produce on values: 404 for an unregistered transport, then `ProduceOnTransport` (`ApiLaws.ProduceRefusals`, `ApiLaws.ProduceRegisters`) |
| Api.ProduceOnTransport | api.js:203-219 | after the transport is found: 500 on an engine error or a failed resume, else the unpaused producer is stored in the room `findRoomByTransport` gives |
| Api.StoreIn | api.js:216-219 | `if (room) room.producers.set(...)` |
| Api.ConsumeOutcome | api.js:256-339 | consume on values: 404 for an unregistered transport, 404 if it has no room, then `ConsumeInRoom` (`ApiLaws.ConsumeChecksInOrder`, `ApiLaws.ConsumeRegisters`) |
| Api.ConsumeInRoom | api.js:277-307 | in the transport's room: 404 for a producer the room lacks, 400 on the router's refusal, 500 on an engine error or a failed resume, else the unpaused consumer is stored |
| Api.ListProducersOutcome | api.js:342-371 | 404 for an unknown room, else the summaries of its producers (`ApiLaws.ListingMatchesStatus`) |
| Api.RoomStatusOutcome | api.js:430-466 | 404 for an unknown room, else its router id, the three Map sizes and the producer summaries (`ApiLaws.StatusCounts`) |
| Api.CloseProducerOutcome | api.js:374-399 | 404 when the producer scan fails, else the producer is deleted from its room (`ApiLaws.CloseProducerRemoves`) |
| Api.CloseConsumerOutcome | api.js:402-427 | the same for consumers (`ApiLaws.CloseConsumerRemoves`) |
| Api.Summaries | api.js:355-360 | one `{id, kind, userId, channelId}` summary per producer, in the same order |
| Api.ProduceOn | api.js:203-219 | after the transport is found: an engine error or a failed resume is a 500 that stores nothing; otherwise the unpaused producer is stored in the transport's room, exactly as `ProduceOnTransport` says |
| Api.ConsumeIn | api.js:277-307 | in the transport's room: a 404 for a producer the room lacks, a 400 on the router's refusal, a 500 on an engine error; otherwise the unpaused consumer is stored, exactly as `ConsumeInRoom` says |
| Api.OnTransportClose | api.js:129-132 | the transport's `@close` listener deletes it from the room that created it |
| Api.OnProducerClose | api.js:222-234 | the producer's `transportclose` and `@close` listeners delete it from its room |
| Api.OnConsumerClose | api.js:310-318 | the consumer's listeners delete it from its room |
| Api.Routes.constructor | api.js:8 | no server instance is set at first |
| Api.Routes.SetMediasoup | api.js:470-472 | installs the server instance |
| Api.Routes.Health | api.js:14-24 | 503 while unset; otherwise the number of workers and the number of rooms |
| Api.Routes.CreateRoom | api.js:27-81 | 503 while unset; otherwise the reply and the new rooms are those of `CreateRoomOutcome`, and the workers are unchanged |
| Api.Routes.CreateTransport | api.js:84-149 | 503 while unset; otherwise as in `CreateTransportOutcome` |
| Api.Routes.Connect | api.js:152-183 | 503 while unset; otherwise as in `ConnectOutcome`; nothing is changed |
| Api.Routes.Produce | api.js:186-253 | 503 while unset; otherwise as in `ProduceOutcome` |
| Api.Routes.Consume | api.js:256-339 | 503 while unset; otherwise as in `ConsumeOutcome` |
| Api.Routes.ListProducers | api.js:342-371 | 503 while unset; otherwise as in `ListProducersOutcome`; nothing is changed |
| Api.Routes.CloseProducer | api.js:374-399 | 503 while unset; otherwise as in `CloseProducerOutcome`: a registered producer is closed and its listener deletes it |
| Api.Routes.CloseConsumer | api.js:402-427 | 503 while unset; otherwise as in `CloseConsumerOutcome` |
| Api.Routes.Status | api.js:430-466 | 503 while unset; otherwise as in `RoomStatusOutcome`; nothing is changed |
| ApiLaws.CodesDistinct | api.js:256-337 | every status has its own HTTP code (200, 400, 404, 500, 503), only a successful reply is sent as 200, and an unset server is a 503 |
| ApiLaws.CreateRoomIdempotent | api.js:39-46 | once a room id is answered, asking again gives the same answer and leaves the rooms as they are, whatever the pool and the engine do |
| ApiLaws.CreateRoomAddsEmptyRoom | api.js:55-75 | a new id, with a worker and a router, appends exactly one empty room; every other room is unchanged, and both invariants are kept |
| ApiLaws.CreateRoomRefusals | api.js:49-52 | create-room fails exactly for a new id with no worker (500 "No workers available") or an engine error (500); on failure nothing is stored |
| ApiLaws.CreateTransportRefusals | api.js:95-98 | transport creation fails exactly for an unknown room (404) or an engine error; on failure nothing is stored |
| ApiLaws.CreateTransportRegisters | api.js:101-132 | a new transport is found by the global scan in its room only, every other id scans as before, both invariants are kept, and its close listener restores the rooms |
| ApiLaws.ConnectRefusals | api.js:163-177 | connect succeeds exactly for a registered transport the engine connects; an unknown transport is a 404 |
| ApiLaws.ProduceRefusals | api.js:197-213 | produce fails exactly for an unknown transport (404), an engine error, or a failed resume (500); on failure nothing is stored |
| ApiLaws.ProduceRegisters | api.js:203-234 | a new producer is stored unpaused, with the caller's userId and channelId, in the room that owns the transport; transports scan as before; both invariants are kept; closing it restores the rooms |
| ApiLaws.ConsumeChecksInOrder | api.js:267-285 | consume checks the transport (404), then the producer in the transport's own room (404), then `canConsume` (400); "Room not found" is never sent; a refusal stores nothing |
| ApiLaws.ConsumeStaysInRoom | api.js:277-280 | with ids unique, a producer held by another room than the transport's is a 404 |
| ApiLaws.ConsumeRegisters | api.js:293-318 | a new consumer is stored unpaused in the transport's room, both invariants are kept, and closing it restores the rooms |
| ApiLaws.ConsumerSharesProducerRoom | api.js:272-307 | with ids unique, the consumed producer's room is the transport's room, before and after the consumer is added |
| ApiLaws.StatusCounts | api.js:438-455 | the three counts are the sizes of the room's Maps; there is one summary per producer, in insertion order and under its own id |
| ApiLaws.ListingMatchesStatus | api.js:350-360 | the producer listing equals the status's producer list, and an unknown room is a 404 for both |
| ApiLaws.CloseProducerRemoves | api.js:384-393 | with ids unique: closing succeeds exactly for a registered producer; afterwards it is unregistered and every other producer is as before; both invariants are kept; a repeated close is a 404 |
| ApiLaws.CloseConsumerRemoves | api.js:412-421 | the same for consumers |
| Findings.PropertyOf | api.js:39 | `rooms[key]` is the own room if there is one, an inherited member for the `Object.prototype` names, and undefined otherwise |
| Findings.CreateRoomAsWritten | api.js:27-81 | create-room with the inherited-property lookup of `rooms[roomId]`: an inherited name reads `router.id` of undefined and is a 500 |
| Findings.CreateTransportAsWritten | api.js:95-104 | transport creation with that lookup: an inherited name is a 500 instead of a 404 |
| Findings.ListProducersAsWritten | api.js:350-360 | the producer listing with that lookup |
| Findings.RoomStatusAsWritten | api.js:438-455 | the room status with that lookup |
| Findings.AsWrittenAgreesElsewhere | api.js:39-46 | outside the inherited names, create-room, transport creation, listing and status as written agree with the own-key model |
| Findings.InheritedNameRoomIsUnusable | api.js:39-46 | for an inherited name, create-room as written is always a 500 that stores nothing, and status, listing and transport creation are 500 instead of 404 |
| Findings.ToStringRoomExample | api.js:39-46 | the room id `toString` on an empty registry: a TypeError 500 as written, a new room in the own-key model |

## Left out

- HTTP framing is not modelled: Express, CORS, body parsing, request logging and the catch-all 404/500 handlers (server.js:20-68). A reply is a status plus a body value.
- server.js:43-51 serves a second `/health`. It has no 503 check but gives the same two counts as `Api.Routes.Health` with the server set; its `version` field is left out.
- The media engine is a parameter of each handler: created ids, the `paused` flag, the answers of `resume` and `connect`, and the `canConsume` verdict. ICE, DTLS, SRTP and RTP parameters are not modelled. Neither are the `rtpCapabilities`, ICE, DTLS and SCTP fields of the replies.
- The logging-only listeners (`dtlsstatechange`, `icestatechange`, `score`) and all logging are left out. They do not touch the registry.
- `Math.random` in the worker pick is a nondeterministic choice of an index.
- Process control is left out: `start`, `listen`, the SIGTERM/SIGINT handlers, worker `died` with its `setTimeout`/`process.exit`, and the HTTP server close. These are I/O.
- Server.MediaSoupServer.Shutdown: the engine calls `router.close()` and `worker.close()` are not modelled. Only the clearing of the two fields is. The close listeners that the engine fires during those calls are not modelled either. A listener that runs after shutdown edits a room object the new dictionary no longer holds. In the model, a listener for a room id that is no longer present does nothing, which has the same effect on the visible registry.
- Concurrency is left out. Each handler runs atomically, so the check-then-await-then-store window of create-room (api.js:39-61) is not modelled.
- Timestamps and the package version in the health replies are left out.
- The static data of config.js is left out: codecs, transport options, log tags, producer and consumer templates. So are its string defaults (`PORT`, `ANNOUNCED_IP`, the log levels), which are plain `||` with a literal. config.example.js and ecosystem.config.js are not part of this model.
- Config.ParseInt reads digits into an unbounded integer. JavaScript's `parseInt` returns a double, so values above 2^53 are rounded in the source and are exact here.
- Registry.TransportLookup, Registry.ProducerLookup, Registry.ConsumerLookup and Registry.RoomOfTransport iterate the rooms in insertion order. JavaScript enumerates integer-like keys of a plain object first, in ascending order. The difference matters only when two rooms hold the same id.
- Api.CloseProducerOutcome and Api.CloseConsumerOutcome delete the entry within the handler. This assumes that the engine's `close()` emits `@close` synchronously, before the reply is sent, as mediasoup does; a listener that ran later would leave the entry registered for a moment after the reply.
- Api.CloseProducerOutcome deletes the producer from the first room that holds its id. The source deletes it from the room captured when it was produced. The two agree when ids are unique, which is why ApiLaws.CloseProducerRemoves assumes unique ids. The same holds for Api.CloseConsumerOutcome.
- Api.ConsumeOutcome replies with the requested producer id, where the source echoes the engine's `consumer.producerId`. The engine consumes the producer it was asked for, so the two are equal.
- ApiLaws.ProduceRegisters, ApiLaws.ConsumeRegisters and ApiLaws.CreateTransportRegisters assume that the engine's new id is not registered yet. The source relies on the engine handing out fresh ids and does not check this itself.
- The unique-ids invariant is kept by every handler only under that freshness assumption. The source never enforces it, so it is stated as preserved, not as guaranteed.

## Findings

| source | as written | input that shows it | evidently intended | confidence | as-written member | corrected member |
|---|---|---|---|---|---|---|
| api.js:39-46 | `mediasoup.rooms[roomId]` on a plain object also finds the members inherited from `Object.prototype`, so create-room reads `.router.id` of undefined, throws a TypeError and replies 500 | POST /rooms/toString/create with a worker available and no room `toString` | the room is created, as for any other id | high, not executed | Findings.CreateRoomAsWritten | Api.CreateRoomOutcome |
| api.js:95-98 | the same lookup makes transport creation (and listing and status, api.js:350-353 and 438-441) answer 500 instead of 404 for a room that does not exist | POST /rooms/constructor/transports/webrtc on any registry without a room `constructor` | 404 "Room not found" | high, not executed | Findings.CreateTransportAsWritten | Api.CreateTransportOutcome |
