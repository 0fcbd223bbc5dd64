/**
 * What the request handlers promise: which requests are refused and with
 * which status, that a refused request changes nothing, where an accepted
 * one stores its entity, that the close listeners undo it, and that the
 * registry invariants (entries under their own id, no id in two rooms)
 * survive every handler.
 */
module ApiLaws {
  import opened Wrappers
  import opened OrderedMap
  import opened Registry
  import opened Api

  /** Each status goes out under its own HTTP code, and only a successful
      reply goes out as 200. */
  lemma CodesDistinct(s: Status, t: Status, r: Reply)
    ensures Code(s) == Code(t) <==> s == t
    ensures r.Error? && r.status != Ok ==> Code(StatusOf(r)) != 200
    ensures !r.Error? ==> Code(StatusOf(r)) == 200
    ensures Code(StatusOf(Error(ServiceUnavailable, NotInitialized))) == 503
  {
  }

  // ---------------------------------------------------------------------------
  // Rooms

  /** A room id that is answered is answered again, from the registry,
      whatever the pool and the engine do the second time. */
  lemma CreateRoomIdempotent(rooms: Rooms, hasWorker: bool, roomId: string, router: Engine<Router>,
                             hasWorker': bool, router': Engine<Router>)
    requires CreateRoomOutcome(rooms, hasWorker, roomId, router).0.RoomReady?
    ensures var first := CreateRoomOutcome(rooms, hasWorker, roomId, router);
            CreateRoomOutcome(first.1, hasWorker', roomId, router') == first
  {
    if roomId !in rooms.entries {
      var after := AddRoom(rooms, roomId, router.value);
      assert Get(after, roomId) == Some(NewRoom(router.value));
    }
  }

  /** A new room id with a worker and a router gets an empty room appended
      after the others, which stay as they were. */
  lemma CreateRoomAddsEmptyRoom(rooms: Rooms, roomId: string, router: Router)
    requires roomId !in rooms.entries
    ensures var out := CreateRoomOutcome(rooms, true, roomId, Returns(router));
      && out.0 == RoomReady(roomId, router.id)
      && out.1.keys == rooms.keys + [roomId]
      && Get(out.1, roomId) == Some(NewRoom(router))
      && (forall k :: k != roomId ==> Get(out.1, k) == Get(rooms, k))
      && |out.1.entries| == |rooms.entries| + 1
      && (WellKeyed(rooms) ==> WellKeyed(out.1))
      && (UniqueIds(rooms) ==> UniqueIds(out.1))
  {
    var after := AddRoom(rooms, roomId, router);
    SizeIsEntryCount(rooms);
    SizeIsEntryCount(after);
  }

  /** Create-room fails exactly for a new id with no worker or a router the
      engine refuses; the failure is a 500 and stores nothing. */
  lemma CreateRoomRefusals(rooms: Rooms, hasWorker: bool, roomId: string, router: Engine<Router>)
    ensures var out := CreateRoomOutcome(rooms, hasWorker, roomId, router);
      && (out.0.Error? <==> roomId !in rooms.entries && (!hasWorker || router.Throws?))
      && (out.0.Error? ==> StatusOf(out.0) == InternalError && out.1 == rooms)
      && (roomId !in rooms.entries && !hasWorker ==> out.0 == Error(InternalError, NoWorkers))
  {
  }

  // ---------------------------------------------------------------------------
  // Transports

  /** Transport creation fails exactly for an unknown room (404) or an engine
      error (500), and then stores nothing. */
  lemma CreateTransportRefusals(rooms: Rooms, roomId: string, direction: string, userId: string,
                                created: Engine<string>)
    ensures var out := CreateTransportOutcome(rooms, roomId, direction, userId, created);
      && (out.0.Error? <==> roomId !in rooms.entries || created.Throws?)
      && (roomId !in rooms.entries ==> out.0 == Error(NotFound, RoomNotFound))
      && (out.0.Error? ==> out.1 == rooms)
  {
  }

  /** A transport with a new id is found by the global lookup in its room,
      nothing else is found differently, the invariants survive, and its
      close listener restores the rooms. */
  lemma CreateTransportRegisters(rooms: Rooms, roomId: string, direction: string, userId: string, id: string)
    requires roomId in rooms.entries && TransportLookup(rooms, id).None?
    ensures var out := CreateTransportOutcome(rooms, roomId, direction, userId, Returns(id));
      && out.0 == TransportReady(id)
      && TransportLookup(out.1, id) == Some(Transport(id, userId, direction))
      && RoomOfTransport(out.1, id) == Some(roomId)
      && (forall t :: t != id ==> TransportLookup(out.1, t) == TransportLookup(rooms, t))
      && (WellKeyed(rooms) ==> WellKeyed(out.1))
      && (UniqueIds(rooms) ==> UniqueIds(out.1))
      && RemoveTransport(out.1, roomId, id) == rooms
  {
    var t := Transport(id, userId, direction);
    LookupsAfterAddTransport(rooms, roomId, t);
    AddTransportKeepsInvariants(rooms, roomId, t);
    AddThenRemoveTransport(rooms, roomId, t);
  }

  /** Connecting succeeds exactly for a registered transport the engine
      connects; an unknown transport is a 404. */
  lemma ConnectRefusals(rooms: Rooms, transportId: string, connected: Completion)
    ensures var r := ConnectOutcome(rooms, transportId, connected);
      && (r == Connected <==> TransportLookup(rooms, transportId).Some? && connected.Completed?)
      && (TransportLookup(rooms, transportId).None? ==> r == Error(NotFound, TransportNotFound))
  {
  }

  // ---------------------------------------------------------------------------
  // Producers

  /** Producing fails exactly for an unknown transport (404), an engine error
      or a failed resume (500), and then stores nothing. */
  lemma ProduceRefusals(rooms: Rooms, transportId: string, userId: string, channelId: string,
                        produced: Engine<NewProducer>, resumed: Completion)
    ensures var out := ProduceOutcome(rooms, transportId, userId, channelId, produced, resumed);
      && (out.0.Error? <==>
            TransportLookup(rooms, transportId).None? || produced.Throws?
            || (produced.value.paused && resumed.Failed?))
      && (TransportLookup(rooms, transportId).None? ==> out.0 == Error(NotFound, TransportNotFound))
      && (out.0.Error? ==> out.1 == rooms)
  {
  }

  /** An accepted producer with a new id is stored unpaused, with the
      caller's `userId` and `channelId`, in the room that owns the
      transport; the invariants survive and closing it restores the rooms. */
  lemma ProduceRegisters(rooms: Rooms, transportId: string, userId: string, channelId: string,
                         p: NewProducer, resumed: Completion)
    requires TransportLookup(rooms, transportId).Some? && ProducerLookup(rooms, p.id).None?
    requires !p.paused || resumed.Completed?
    ensures var out := ProduceOutcome(rooms, transportId, userId, channelId, Returns(p), resumed);
      var key := RoomOfTransport(rooms, transportId).value;
      && out.0 == Produced(p.id, p.kind)
      && ProducerLookup(out.1, p.id) == Some(Producer(p.id, p.kind, false, userId, channelId))
      && RoomOfProducer(out.1, p.id) == Some(key)
      && (forall y :: y != p.id ==> ProducerLookup(out.1, y) == ProducerLookup(rooms, y))
      && (forall t :: TransportLookup(out.1, t) == TransportLookup(rooms, t))
      && (WellKeyed(rooms) ==> WellKeyed(out.1))
      && (UniqueIds(rooms) ==> UniqueIds(out.1))
      && CloseProducerOutcome(out.1, p.id) == (Closed, rooms)
  {
    var key := RoomOfTransport(rooms, transportId).value;
    var x := Producer(p.id, p.kind, false, userId, channelId);
    LookupsAfterAddProducer(rooms, key, x);
    MapsAfterAddProducer(rooms, key, x);
    AddProducerKeepsInvariants(rooms, key, x);
    AddThenRemoveProducer(rooms, key, x);
  }

  // ---------------------------------------------------------------------------
  // Consumers

  /** Consume checks the transport, then the producer in the transport's own
      room, then the router's verdict; "Room not found" is never sent,
      because a registered transport always has a room; a refusal stores
      nothing. */
  lemma ConsumeChecksInOrder(rooms: Rooms, transportId: string, producerId: string, canConsume: bool,
                             consumed: Engine<NewConsumer>, resumed: Completion)
    ensures var out := ConsumeOutcome(rooms, transportId, producerId, canConsume, consumed, resumed);
      && out.0 != Error(NotFound, RoomNotFound)
      && (TransportLookup(rooms, transportId).None? ==> out.0 == Error(NotFound, TransportNotFound))
      && (TransportLookup(rooms, transportId).Some? ==>
            var room := rooms.entries[RoomOfTransport(rooms, transportId).value];
            && (!Has(room.producers, producerId) ==> out.0 == Error(NotFound, ProducerNotFound))
            && (Has(room.producers, producerId) && !canConsume ==> out.0 == Error(BadRequest, CannotConsume)))
      && (out.0.Error? ==> out.1 == rooms)
  {
  }

  /** With ids unique, a producer held by another room than the transport's
      (or by none) is a 404, so consumers never cross rooms. */
  lemma ConsumeStaysInRoom(rooms: Rooms, transportId: string, producerId: string, canConsume: bool,
                           consumed: Engine<NewConsumer>, resumed: Completion)
    requires UniqueIds(rooms) && TransportLookup(rooms, transportId).Some?
    requires RoomOfProducer(rooms, producerId) != RoomOfTransport(rooms, transportId)
    ensures ConsumeOutcome(rooms, transportId, producerId, canConsume, consumed, resumed).0
            == Error(NotFound, ProducerNotFound)
  {
    var key := RoomOfTransport(rooms, transportId).value;
    if Has(rooms.entries[key].producers, producerId) {
      var i := RoomIndex(rooms, key);
      OnlyHolder(ProducerMaps(rooms), i, producerId);
      assert false;
    }
  }

  /** An accepted consumer with a new id is stored unpaused in the room that
      owns the transport, next to the producer it consumes; the invariants
      survive and closing it restores the rooms. */
  lemma ConsumeRegisters(rooms: Rooms, transportId: string, producerId: string,
                         c: NewConsumer, resumed: Completion)
    requires TransportLookup(rooms, transportId).Some? && ConsumerLookup(rooms, c.id).None?
    requires Has(rooms.entries[RoomOfTransport(rooms, transportId).value].producers, producerId)
    requires !c.paused || resumed.Completed?
    ensures var out := ConsumeOutcome(rooms, transportId, producerId, true, Returns(c), resumed);
      var key := RoomOfTransport(rooms, transportId).value;
      && out.0 == Consumed(c.id, producerId, c.kind)
      && ConsumerLookup(out.1, c.id) == Some(Consumer(c.id, producerId, c.kind, false))
      && RoomOfConsumer(out.1, c.id) == Some(key)
      && (forall y :: y != c.id ==> ConsumerLookup(out.1, y) == ConsumerLookup(rooms, y))
      && (WellKeyed(rooms) ==> WellKeyed(out.1))
      && (UniqueIds(rooms) ==> UniqueIds(out.1))
      && CloseConsumerOutcome(out.1, c.id) == (Closed, rooms)
  {
    var key := RoomOfTransport(rooms, transportId).value;
    var x := Consumer(c.id, producerId, c.kind, false);
    LookupsAfterAddConsumer(rooms, key, x);
    AddConsumerKeepsInvariants(rooms, key, x);
    AddThenRemoveConsumer(rooms, key, x);
  }

  /** With ids unique, the consumed producer is registered in the room of the
      transport, before and after the consumer is added. */
  lemma ConsumerSharesProducerRoom(rooms: Rooms, transportId: string, producerId: string,
                                   c: NewConsumer, resumed: Completion)
    requires UniqueIds(rooms) && TransportLookup(rooms, transportId).Some?
    requires Has(rooms.entries[RoomOfTransport(rooms, transportId).value].producers, producerId)
    requires !c.paused || resumed.Completed?
    ensures var out := ConsumeOutcome(rooms, transportId, producerId, true, Returns(c), resumed);
      && RoomOfProducer(rooms, producerId) == RoomOfTransport(rooms, transportId)
      && RoomOfProducer(out.1, producerId) == RoomOfTransport(rooms, transportId)
  {
    var key := RoomOfTransport(rooms, transportId).value;
    var x := Consumer(c.id, producerId, c.kind, false);
    var i := RoomIndex(rooms, key);
    OnlyHolder(ProducerMaps(rooms), i, producerId);
    MapsAfterAddConsumer(rooms, key, x);
    assert AddConsumer(rooms, key, x).keys == rooms.keys;
  }

  // ---------------------------------------------------------------------------
  // Listing and status

  /** The status of a room counts its three Maps' entries and lists one
      summary per producer, in insertion order, each under its own id. */
  lemma StatusCounts(rooms: Rooms, roomId: string)
    requires roomId in rooms.entries
    ensures var room := rooms.entries[roomId];
      var s := RoomStatusOutcome(rooms, roomId);
      && s.RoomStatus? && s.roomId == roomId && s.routerId == room.router.id
      && s.transportCount == |room.transports.entries|
      && s.producerCount == |room.producers.entries|
      && s.consumerCount == |room.consumers.entries|
      && |s.producers| == s.producerCount
      && (forall i :: 0 <= i < |s.producers| ==>
            s.producers[i] == Summary(room.producers.entries[room.producers.keys[i]]))
      && (WellKeyed(rooms) ==>
            forall i :: 0 <= i < |s.producers| ==> s.producers[i].id == room.producers.keys[i])
  {
    var room := rooms.entries[roomId];
    SizeIsEntryCount(room.transports);
    SizeIsEntryCount(room.producers);
    SizeIsEntryCount(room.consumers);
  }

  /** The producer listing of a room is the status's producer list, and both
      are a 404 for an unknown room. */
  lemma ListingMatchesStatus(rooms: Rooms, roomId: string)
    ensures roomId !in rooms.entries ==>
      ListProducersOutcome(rooms, roomId) == Error(NotFound, RoomNotFound)
      && RoomStatusOutcome(rooms, roomId) == Error(NotFound, RoomNotFound)
    ensures roomId in rooms.entries ==>
      ListProducersOutcome(rooms, roomId) == ProducerList(RoomStatusOutcome(rooms, roomId).producers)
  {
  }

  // ---------------------------------------------------------------------------
  // Closing

  /** With ids unique, closing a producer succeeds exactly when it is
      registered, leaves it unregistered and every other producer as it
      was, keeps the invariants, and a repeated close is a 404. */
  lemma CloseProducerRemoves(rooms: Rooms, producerId: string)
    requires UniqueIds(rooms)
    ensures var out := CloseProducerOutcome(rooms, producerId);
      && (out.0 == Closed <==> ProducerLookup(rooms, producerId).Some?)
      && (out.0.Error? ==> out == (Error(NotFound, ProducerNotFound), rooms))
      && ProducerLookup(out.1, producerId).None?
      && (forall y :: y != producerId ==> ProducerLookup(out.1, y) == ProducerLookup(rooms, y))
      && (WellKeyed(rooms) ==> WellKeyed(out.1))
      && UniqueIds(out.1)
      && CloseProducerOutcome(out.1, producerId) == (Error(NotFound, ProducerNotFound), out.1)
  {
    var key := RoomOfProducer(rooms, producerId);
    if key.Some? {
      LookupsAfterRemoveProducer(rooms, key.value, producerId);
      RemoveProducerKeepsInvariants(rooms, key.value, producerId);
    }
  }

  /** The same for consumers. */
  lemma CloseConsumerRemoves(rooms: Rooms, consumerId: string)
    requires UniqueIds(rooms)
    ensures var out := CloseConsumerOutcome(rooms, consumerId);
      && (out.0 == Closed <==> ConsumerLookup(rooms, consumerId).Some?)
      && (out.0.Error? ==> out == (Error(NotFound, ConsumerNotFound), rooms))
      && ConsumerLookup(out.1, consumerId).None?
      && (forall y :: y != consumerId ==> ConsumerLookup(out.1, y) == ConsumerLookup(rooms, y))
      && (WellKeyed(rooms) ==> WellKeyed(out.1))
      && UniqueIds(out.1)
      && CloseConsumerOutcome(out.1, consumerId) == (Error(NotFound, ConsumerNotFound), out.1)
  {
    var key := RoomOfConsumer(rooms, consumerId);
    if key.Some? {
      LookupsAfterRemoveConsumer(rooms, key.value, consumerId);
      RemoveConsumerKeepsInvariants(rooms, key.value, consumerId);
    }
  }
}
