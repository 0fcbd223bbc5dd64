/**
 * api.js: the request handlers.  Each handler checks that the server is set,
 * looks the request's ids up in the registry, calls the engine and then
 * changes the room Maps.  A handler is modelled twice: as a function giving
 * the reply and the new rooms from the old rooms and the engine's answers,
 * and as a method of `Routes` that performs the same steps on the server
 * object and is proved to agree with that function.
 */
module Api {
  import opened Wrappers
  import opened OrderedMap
  import opened Registry
  import opened Server

  datatype Status = Ok | BadRequest | NotFound | InternalError | ServiceUnavailable

  /** The HTTP status code sent for each status. */
  function Code(s: Status): int {
    match s
    case Ok => 200
    case BadRequest => 400
    case NotFound => 404
    case InternalError => 500
    case ServiceUnavailable => 503
  }

  /** `{id, kind, userId, channelId}` as the listing and status replies give it. */
  datatype ProducerSummary = ProducerSummary(id: string, kind: string, userId: string, channelId: string)

  /** The JSON body of a reply; every body but `Error` is sent with 200. */
  datatype Reply =
    | Healthy(workers: nat, rooms: nat)
    | RoomReady(roomId: string, routerId: string)
    | TransportReady(transportId: string)
    | Connected
    | Produced(producerId: string, kind: string)
    | Consumed(consumerId: string, producerId: string, kind: string)
    | ProducerList(producers: seq<ProducerSummary>)
    | Closed
    | RoomStatus(roomId: string, routerId: string, transportCount: nat, producerCount: nat,
                 consumerCount: nat, producers: seq<ProducerSummary>)
    | Error(status: Status, message: string)

  function StatusOf(r: Reply): Status {
    if r.Error? then r.status else Ok
  }

  const NotInitialized := "mediasoup server not initialized"
  const NoWorkers := "No workers available"
  const RoomNotFound := "Room not found"
  const TransportNotFound := "Transport not found"
  const ProducerNotFound := "Producer not found"
  const ConsumerNotFound := "Consumer not found"
  const CannotConsume := "Cannot consume this producer"

  /** What `transport.produce` and `transport.consume` return. */
  datatype NewProducer = NewProducer(id: string, kind: string, paused: bool)
  datatype NewConsumer = NewConsumer(id: string, kind: string, paused: bool)

  // ---------------------------------------------------------------------------
  // The handlers on values: old rooms and engine answers to reply and rooms.

  /** POST /rooms/:roomId/create; `hasWorker` is whether the pool is non-empty
      and `router` the answer of `worker.createRouter`. */
  function CreateRoomOutcome(rooms: Rooms, hasWorker: bool, roomId: string, router: Engine<Router>): (Reply, Rooms) {
    if roomId in rooms.entries then (RoomReady(roomId, rooms.entries[roomId].router.id), rooms)
    else if !hasWorker then (Error(InternalError, NoWorkers), rooms)
    else match router
      case Throws(m) => (Error(InternalError, m), rooms)
      case Returns(r) => (RoomReady(roomId, r.id), AddRoom(rooms, roomId, r))
  }

  /** POST /rooms/:roomId/transports/webrtc; `created` is the new transport's
      id as `router.createWebRtcTransport` answers. */
  function CreateTransportOutcome(rooms: Rooms, roomId: string, direction: string, userId: string,
                                  created: Engine<string>): (Reply, Rooms) {
    if roomId !in rooms.entries then (Error(NotFound, RoomNotFound), rooms)
    else match created
      case Throws(m) => (Error(InternalError, m), rooms)
      case Returns(id) => (TransportReady(id), AddTransport(rooms, roomId, Transport(id, userId, direction)))
  }

  /** POST /transports/:transportId/connect; it changes no Map. */
  function ConnectOutcome(rooms: Rooms, transportId: string, connected: Completion): Reply {
    if TransportLookup(rooms, transportId).None? then Error(NotFound, TransportNotFound)
    else match connected
      case Failed(m) => Error(InternalError, m)
      case Completed => Connected
  }

  /** POST /transports/:transportId/produce; a paused producer is resumed
      (`resumed` is that call's answer) before it is stored unpaused in the
      room that owns the transport. */
  function ProduceOutcome(rooms: Rooms, transportId: string, userId: string, channelId: string,
                          produced: Engine<NewProducer>, resumed: Completion): (Reply, Rooms) {
    if TransportLookup(rooms, transportId).None? then (Error(NotFound, TransportNotFound), rooms)
    else ProduceOnTransport(rooms, transportId, userId, channelId, produced, resumed)
  }

  /** The rest of produce, once the transport is found. */
  function ProduceOnTransport(rooms: Rooms, transportId: string, userId: string, channelId: string,
                              produced: Engine<NewProducer>, resumed: Completion): (Reply, Rooms) {
    match produced
    case Throws(m) => (Error(InternalError, m), rooms)
    case Returns(p) =>
      if p.paused && resumed.Failed? then (Error(InternalError, resumed.message), rooms)
      else (Produced(p.id, p.kind),
            StoreIn(rooms, RoomOfTransport(rooms, transportId), Producer(p.id, p.kind, false, userId, channelId)))
  }

  /** `if (room) room.producers.set(producer.id, producer)` */
  function StoreIn(rooms: Rooms, room: Option<string>, producer: Producer): Rooms
    requires room.Some? ==> room.value in rooms.entries
  {
    if room.Some? then AddProducer(rooms, room.value, producer) else rooms
  }

  /** POST /transports/:transportId/consume; `canConsume` is the router's
      answer to `canConsume({producerId, rtpCapabilities})`. */
  function ConsumeOutcome(rooms: Rooms, transportId: string, producerId: string, canConsume: bool,
                          consumed: Engine<NewConsumer>, resumed: Completion): (Reply, Rooms) {
    if TransportLookup(rooms, transportId).None? then (Error(NotFound, TransportNotFound), rooms)
    else match RoomOfTransport(rooms, transportId)
      case None => (Error(NotFound, RoomNotFound), rooms)
      case Some(key) => ConsumeInRoom(rooms, key, producerId, canConsume, consumed, resumed)
  }

  /** The rest of consume, once the transport's room `key` is known: the
      producer must be in that room and the router must accept it. */
  function ConsumeInRoom(rooms: Rooms, key: string, producerId: string, canConsume: bool,
                         consumed: Engine<NewConsumer>, resumed: Completion): (Reply, Rooms)
    requires key in rooms.entries
  {
    if !Has(rooms.entries[key].producers, producerId) then (Error(NotFound, ProducerNotFound), rooms)
    else if !canConsume then (Error(BadRequest, CannotConsume), rooms)
    else match consumed
      case Throws(m) => (Error(InternalError, m), rooms)
      case Returns(c) =>
        if c.paused && resumed.Failed? then (Error(InternalError, resumed.message), rooms)
        else (Consumed(c.id, producerId, c.kind),
              AddConsumer(rooms, key, Consumer(c.id, producerId, c.kind, false)))
  }

  function Summary(p: Producer): ProducerSummary {
    ProducerSummary(p.id, p.kind, p.userId, p.channelId)
  }

  /** `Array.from(room.producers.values()).map(...)` */
  function Summaries(ps: seq<Producer>): (r: seq<ProducerSummary>)
    ensures |r| == |ps|
    ensures forall i :: 0 <= i < |ps| ==> r[i] == Summary(ps[i])
  {
    seq(|ps|, i requires 0 <= i < |ps| => Summary(ps[i]))
  }

  /** GET /rooms/:roomId/producers */
  function ListProducersOutcome(rooms: Rooms, roomId: string): Reply {
    if roomId !in rooms.entries then Error(NotFound, RoomNotFound)
    else ProducerList(Summaries(Values(rooms.entries[roomId].producers)))
  }

  /** GET /rooms/:roomId/status */
  function RoomStatusOutcome(rooms: Rooms, roomId: string): Reply {
    if roomId !in rooms.entries then Error(NotFound, RoomNotFound)
    else
      var room := rooms.entries[roomId];
      RoomStatus(roomId, room.router.id, Size(room.transports), Size(room.producers),
                 Size(room.consumers), Summaries(Values(room.producers)))
  }

  /** DELETE /producers/:producerId: `producer.close()` emits `@close` at
      once, and the listener the produce handler registered deletes the
      producer from the room it was stored in. */
  function CloseProducerOutcome(rooms: Rooms, producerId: string): (Reply, Rooms) {
    if ProducerLookup(rooms, producerId).None? then (Error(NotFound, ProducerNotFound), rooms)
    else (Closed, RemoveProducer(rooms, RoomOfProducer(rooms, producerId).value, producerId))
  }

  /** DELETE /consumers/:consumerId, the same for consumers. */
  function CloseConsumerOutcome(rooms: Rooms, consumerId: string): (Reply, Rooms) {
    if ConsumerLookup(rooms, consumerId).None? then (Error(NotFound, ConsumerNotFound), rooms)
    else (Closed, RemoveConsumer(rooms, RoomOfConsumer(rooms, consumerId).value, consumerId))
  }

  // ---------------------------------------------------------------------------
  // The close listeners the handlers register; each captured its room, here
  // named by its id.

  /** The transport's `@close` listener. */
  method OnTransportClose(server: MediaSoupServer, roomId: string, transportId: string)
    modifies server
    ensures server.rooms == RemoveTransport(old(server.rooms), roomId, transportId)
    ensures server.workers == old(server.workers)
  {
    if roomId in server.rooms.entries {
      var room := server.rooms.entries[roomId];
      server.rooms := Set(server.rooms, roomId, room.(transports := Delete(room.transports, transportId)));
    }
  }

  /** The producer's `transportclose` and `@close` listeners, which do the same. */
  method OnProducerClose(server: MediaSoupServer, roomId: string, producerId: string)
    modifies server
    ensures server.rooms == RemoveProducer(old(server.rooms), roomId, producerId)
    ensures server.workers == old(server.workers)
  {
    if roomId in server.rooms.entries {
      var room := server.rooms.entries[roomId];
      server.rooms := Set(server.rooms, roomId, room.(producers := Delete(room.producers, producerId)));
    }
  }

  /** The consumer's `transportclose` and `@close` listeners, which do the same. */
  method OnConsumerClose(server: MediaSoupServer, roomId: string, consumerId: string)
    modifies server
    ensures server.rooms == RemoveConsumer(old(server.rooms), roomId, consumerId)
    ensures server.workers == old(server.workers)
  {
    if roomId in server.rooms.entries {
      var room := server.rooms.entries[roomId];
      server.rooms := Set(server.rooms, roomId, room.(consumers := Delete(room.consumers, consumerId)));
    }
  }

  /** The steps of produce after the transport is found. */
  method ProduceOn(server: MediaSoupServer, transportId: string, userId: string, channelId: string,
                   produced: Engine<NewProducer>, resumed: Completion) returns (res: Reply)
    modifies server
    ensures server.workers == old(server.workers)
    ensures (res, server.rooms) == ProduceOnTransport(old(server.rooms), transportId, userId, channelId, produced, resumed)
  {
    if produced.Throws? {
      return Error(InternalError, produced.message);
    }
    // A paused producer is resumed; once that completes it is unpaused.
    var p := produced.value;
    if p.paused && resumed.Failed? {
      return Error(InternalError, resumed.message);
    }
    var key := server.FindRoomByTransport(transportId);
    var producer := Producer(p.id, p.kind, false, userId, channelId);
    if key.Some? {
      server.rooms := AddProducer(server.rooms, key.value, producer);
    }
    return Produced(p.id, p.kind);
  }

  /** The steps of consume after the transport's room `key` is found. */
  method ConsumeIn(server: MediaSoupServer, key: string, producerId: string, canConsume: bool,
                   consumed: Engine<NewConsumer>, resumed: Completion) returns (res: Reply)
    requires key in server.rooms.entries
    modifies server
    ensures server.workers == old(server.workers)
    ensures (res, server.rooms) == ConsumeInRoom(old(server.rooms), key, producerId, canConsume, consumed, resumed)
  {
    var room := server.rooms.entries[key];
    if !Has(room.producers, producerId) {
      return Error(NotFound, ProducerNotFound);
    }
    if !canConsume {
      return Error(BadRequest, CannotConsume);
    }
    if consumed.Throws? {
      return Error(InternalError, consumed.message);
    }
    // A paused consumer is resumed; once that completes it is unpaused.
    var c := consumed.value;
    if c.paused && resumed.Failed? {
      return Error(InternalError, resumed.message);
    }
    server.rooms := AddConsumer(server.rooms, key, Consumer(c.id, producerId, c.kind, false));
    return Consumed(c.id, producerId, c.kind);
  }

  // ---------------------------------------------------------------------------
  // The router of api.js, with the server instance `setMediasoup` installs.

  class Routes {
    var mediasoup: MediaSoupServer?

    constructor()
      ensures mediasoup == null
    {
      mediasoup := null;
    }

    method SetMediasoup(instance: MediaSoupServer)
      modifies this
      ensures mediasoup == instance
    {
      mediasoup := instance;
    }

    /** GET /health */
    method Health() returns (res: Reply)
      ensures mediasoup == null ==> res == Error(ServiceUnavailable, NotInitialized)
      ensures mediasoup != null ==> res == Healthy(|mediasoup.workers|, |mediasoup.rooms.entries|)
    {
      if mediasoup == null {
        return Error(ServiceUnavailable, NotInitialized);
      }
      SizeIsEntryCount(mediasoup.rooms);
      return Healthy(|mediasoup.workers|, |mediasoup.rooms.keys|);
    }

    method CreateRoom(roomId: string, router: Engine<Router>) returns (res: Reply)
      modifies mediasoup
      ensures mediasoup == null ==> res == Error(ServiceUnavailable, NotInitialized)
      ensures mediasoup != null ==> mediasoup.workers == old(mediasoup.workers)
      ensures mediasoup != null ==>
        (res, mediasoup.rooms) == CreateRoomOutcome(old(mediasoup.rooms), old(mediasoup.workers) != [], roomId, router)
    {
      if mediasoup == null {
        return Error(ServiceUnavailable, NotInitialized);
      }
      var server := mediasoup;
      if roomId in server.rooms.entries {
        return RoomReady(roomId, server.rooms.entries[roomId].router.id);
      }
      var worker := server.GetLeastLoadedWorker();
      if worker.None? {
        return Error(InternalError, NoWorkers);
      }
      if router.Throws? {
        return Error(InternalError, router.message);
      }
      server.rooms := AddRoom(server.rooms, roomId, router.value);
      return RoomReady(roomId, router.value.id);
    }

    method CreateTransport(roomId: string, direction: string, userId: string, created: Engine<string>)
      returns (res: Reply)
      modifies mediasoup
      ensures mediasoup == null ==> res == Error(ServiceUnavailable, NotInitialized)
      ensures mediasoup != null ==> mediasoup.workers == old(mediasoup.workers)
      ensures mediasoup != null ==>
        (res, mediasoup.rooms) == CreateTransportOutcome(old(mediasoup.rooms), roomId, direction, userId, created)
    {
      if mediasoup == null {
        return Error(ServiceUnavailable, NotInitialized);
      }
      var server := mediasoup;
      if roomId !in server.rooms.entries {
        return Error(NotFound, RoomNotFound);
      }
      if created.Throws? {
        return Error(InternalError, created.message);
      }
      var transport := Transport(created.value, userId, direction);
      server.rooms := AddTransport(server.rooms, roomId, transport);
      return TransportReady(transport.id);
    }

    method Connect(transportId: string, connected: Completion) returns (res: Reply)
      ensures mediasoup == null ==> res == Error(ServiceUnavailable, NotInitialized)
      ensures mediasoup != null ==> res == ConnectOutcome(mediasoup.rooms, transportId, connected)
    {
      if mediasoup == null {
        return Error(ServiceUnavailable, NotInitialized);
      }
      var transport := mediasoup.FindTransport(transportId);
      if transport.None? {
        return Error(NotFound, TransportNotFound);
      }
      if connected.Failed? {
        return Error(InternalError, connected.message);
      }
      return Connected;
    }

    method Produce(transportId: string, userId: string, channelId: string,
                   produced: Engine<NewProducer>, resumed: Completion) returns (res: Reply)
      modifies mediasoup
      ensures mediasoup == null ==> res == Error(ServiceUnavailable, NotInitialized)
      ensures mediasoup != null ==> mediasoup.workers == old(mediasoup.workers)
      ensures mediasoup != null ==>
        (res, mediasoup.rooms) == ProduceOutcome(old(mediasoup.rooms), transportId, userId, channelId, produced, resumed)
    {
      if mediasoup == null {
        return Error(ServiceUnavailable, NotInitialized);
      }
      var transport := mediasoup.FindTransport(transportId);
      if transport.None? {
        return Error(NotFound, TransportNotFound);
      }
      res := ProduceOn(mediasoup, transportId, userId, channelId, produced, resumed);
    }

    method Consume(transportId: string, producerId: string, canConsume: bool,
                   consumed: Engine<NewConsumer>, resumed: Completion) returns (res: Reply)
      modifies mediasoup
      ensures mediasoup == null ==> res == Error(ServiceUnavailable, NotInitialized)
      ensures mediasoup != null ==> mediasoup.workers == old(mediasoup.workers)
      ensures mediasoup != null ==>
        (res, mediasoup.rooms) == ConsumeOutcome(old(mediasoup.rooms), transportId, producerId, canConsume, consumed, resumed)
    {
      if mediasoup == null {
        return Error(ServiceUnavailable, NotInitialized);
      }
      var server := mediasoup;
      ghost var before := server.rooms;
      ghost var out := ConsumeOutcome(before, transportId, producerId, canConsume, consumed, resumed);
      var transport := server.FindTransport(transportId);
      if transport.None? {
        return Error(NotFound, TransportNotFound);
      }
      var key := server.FindRoomByTransport(transportId);
      if key.None? {
        return Error(NotFound, RoomNotFound);
      }
      assert out == ConsumeInRoom(before, key.value, producerId, canConsume, consumed, resumed);
      res := ConsumeIn(server, key.value, producerId, canConsume, consumed, resumed);
    }

    method ListProducers(roomId: string) returns (res: Reply)
      ensures mediasoup == null ==> res == Error(ServiceUnavailable, NotInitialized)
      ensures mediasoup != null ==> res == ListProducersOutcome(mediasoup.rooms, roomId)
    {
      if mediasoup == null {
        return Error(ServiceUnavailable, NotInitialized);
      }
      if roomId !in mediasoup.rooms.entries {
        return Error(NotFound, RoomNotFound);
      }
      var room := mediasoup.rooms.entries[roomId];
      return ProducerList(Summaries(Values(room.producers)));
    }

    method CloseProducer(producerId: string) returns (res: Reply)
      modifies mediasoup
      ensures mediasoup == null ==> res == Error(ServiceUnavailable, NotInitialized)
      ensures mediasoup != null ==> mediasoup.workers == old(mediasoup.workers)
      ensures mediasoup != null ==>
        (res, mediasoup.rooms) == CloseProducerOutcome(old(mediasoup.rooms), producerId)
    {
      if mediasoup == null {
        return Error(ServiceUnavailable, NotInitialized);
      }
      var server := mediasoup;
      var producer := server.FindProducer(producerId);
      if producer.None? {
        return Error(NotFound, ProducerNotFound);
      }
      OnProducerClose(server, RoomOfProducer(server.rooms, producerId).value, producerId);
      return Closed;
    }

    method CloseConsumer(consumerId: string) returns (res: Reply)
      modifies mediasoup
      ensures mediasoup == null ==> res == Error(ServiceUnavailable, NotInitialized)
      ensures mediasoup != null ==> mediasoup.workers == old(mediasoup.workers)
      ensures mediasoup != null ==>
        (res, mediasoup.rooms) == CloseConsumerOutcome(old(mediasoup.rooms), consumerId)
    {
      if mediasoup == null {
        return Error(ServiceUnavailable, NotInitialized);
      }
      var server := mediasoup;
      var consumer := server.FindConsumer(consumerId);
      if consumer.None? {
        return Error(NotFound, ConsumerNotFound);
      }
      OnConsumerClose(server, RoomOfConsumer(server.rooms, consumerId).value, consumerId);
      return Closed;
    }

    method Status(roomId: string) returns (res: Reply)
      ensures mediasoup == null ==> res == Error(ServiceUnavailable, NotInitialized)
      ensures mediasoup != null ==> res == RoomStatusOutcome(mediasoup.rooms, roomId)
    {
      if mediasoup == null {
        return Error(ServiceUnavailable, NotInitialized);
      }
      if roomId !in mediasoup.rooms.entries {
        return Error(NotFound, RoomNotFound);
      }
      var room := mediasoup.rooms.entries[roomId];
      return RoomStatus(roomId, room.router.id, Size(room.transports), Size(room.producers),
                        Size(room.consumers), Summaries(Values(room.producers)));
    }
  }
}
