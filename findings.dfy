/**
 * The room dictionary of server.js is a plain object, and api.js looks a
 * room up with `rooms[roomId]`.  Property access on a plain object also
 * finds the members every object inherits from `Object.prototype`, and
 * those are truthy, so a room id such as `toString` passes the handlers'
 * existence checks although no room is stored under it.  The handlers then
 * read `router`, `producers` or `transports` of the inherited member, get
 * undefined, and the next property read throws a TypeError, which the
 * handler's catch turns into a 500.  This module models that lookup (the
 * "as written" handlers) and exhibits the discrepancy; the handlers of
 * module Api, used everywhere else, look up own keys only, which is the
 * behaviour the 404 branches evidently intend.
 */
module Findings {
  import opened Wrappers
  import opened OrderedMap
  import opened Registry
  import opened Api

  /** The names every plain object inherits from `Object.prototype`. */
  const InheritedNames: set<string> := {
    "constructor", "__proto__", "toString", "toLocaleString", "valueOf",
    "hasOwnProperty", "isPrototypeOf", "propertyIsEnumerable",
    "__defineGetter__", "__defineSetter__", "__lookupGetter__", "__lookupSetter__" }

  /** What `rooms[key]` evaluates to. */
  datatype Property = Missing | OwnRoom(room: Room) | Inherited

  function PropertyOf(rooms: Rooms, key: string): (p: Property)
    ensures p.OwnRoom? <==> key in rooms.entries
    ensures p.OwnRoom? ==> p.room == rooms.entries[key]
    ensures p.Inherited? <==> key !in rooms.entries && key in InheritedNames
  {
    if key in rooms.entries then OwnRoom(rooms.entries[key])
    else if key in InheritedNames then Inherited
    else Missing
  }

  /** V8's message for reading `name` of undefined. */
  function ReadOfUndefined(name: string): string {
    "Cannot read properties of undefined (reading '" + name + "')"
  }

  /** Create-room with the prototype lookup: an inherited name is taken for
      an existing room, whose `router.id` read throws. */
  function CreateRoomAsWritten(rooms: Rooms, hasWorker: bool, roomId: string, router: Engine<Router>): (Reply, Rooms) {
    match PropertyOf(rooms, roomId)
    case OwnRoom(room) => (RoomReady(roomId, room.router.id), rooms)
    case Inherited => (Error(InternalError, ReadOfUndefined("id")), rooms)
    case Missing =>
      if !hasWorker then (Error(InternalError, NoWorkers), rooms)
      else match router
        case Throws(m) => (Error(InternalError, m), rooms)
        case Returns(r) => (RoomReady(roomId, r.id), AddRoom(rooms, roomId, r))
  }

  /** Transport creation with the prototype lookup. */
  function CreateTransportAsWritten(rooms: Rooms, roomId: string, direction: string, userId: string,
                                    created: Engine<string>): (Reply, Rooms) {
    match PropertyOf(rooms, roomId)
    case Missing => (Error(NotFound, RoomNotFound), rooms)
    case Inherited => (Error(InternalError, ReadOfUndefined("createWebRtcTransport")), rooms)
    case OwnRoom(_) =>
      match created
      case Throws(m) => (Error(InternalError, m), rooms)
      case Returns(id) => (TransportReady(id), AddTransport(rooms, roomId, Transport(id, userId, direction)))
  }

  /** The producer listing with the prototype lookup. */
  function ListProducersAsWritten(rooms: Rooms, roomId: string): Reply {
    match PropertyOf(rooms, roomId)
    case Missing => Error(NotFound, RoomNotFound)
    case Inherited => Error(InternalError, ReadOfUndefined("values"))
    case OwnRoom(room) => ProducerList(Summaries(Values(room.producers)))
  }

  /** The room status with the prototype lookup. */
  function RoomStatusAsWritten(rooms: Rooms, roomId: string): Reply {
    match PropertyOf(rooms, roomId)
    case Missing => Error(NotFound, RoomNotFound)
    case Inherited => Error(InternalError, ReadOfUndefined("id"))
    case OwnRoom(room) =>
      RoomStatus(roomId, room.router.id, Size(room.transports), Size(room.producers),
                 Size(room.consumers), Summaries(Values(room.producers)))
  }

  /** Outside the inherited names, the handlers as written and the own-key
      handlers agree on every input. */
  lemma AsWrittenAgreesElsewhere(rooms: Rooms, roomId: string, hasWorker: bool, router: Engine<Router>,
                                 direction: string, userId: string, created: Engine<string>)
    requires roomId !in InheritedNames
    ensures CreateRoomAsWritten(rooms, hasWorker, roomId, router) == CreateRoomOutcome(rooms, hasWorker, roomId, router)
    ensures CreateTransportAsWritten(rooms, roomId, direction, userId, created)
            == CreateTransportOutcome(rooms, roomId, direction, userId, created)
    ensures ListProducersAsWritten(rooms, roomId) == ListProducersOutcome(rooms, roomId)
    ensures RoomStatusAsWritten(rooms, roomId) == RoomStatusOutcome(rooms, roomId)
  {
  }

  /** A room named after an inherited member can never be created: every
      attempt as written is a 500 that stores nothing, while the own-key
      handler creates it; a room never stored is then a 500 instead of a
      404 for status, listing and transport creation. */
  lemma InheritedNameRoomIsUnusable(rooms: Rooms, roomId: string, router: Router,
                                    direction: string, userId: string, created: Engine<string>)
    requires roomId in InheritedNames && roomId !in rooms.entries
    ensures CreateRoomAsWritten(rooms, true, roomId, Returns(router)) == (Error(InternalError, ReadOfUndefined("id")), rooms)
    ensures CreateRoomOutcome(rooms, true, roomId, Returns(router)).0 == RoomReady(roomId, router.id)
    ensures StatusOf(RoomStatusAsWritten(rooms, roomId)) == InternalError
    ensures RoomStatusOutcome(rooms, roomId) == Error(NotFound, RoomNotFound)
    ensures StatusOf(ListProducersAsWritten(rooms, roomId)) == InternalError
    ensures ListProducersOutcome(rooms, roomId) == Error(NotFound, RoomNotFound)
    ensures StatusOf(CreateTransportAsWritten(rooms, roomId, direction, userId, created).0) == InternalError
    ensures CreateTransportOutcome(rooms, roomId, direction, userId, created).0 == Error(NotFound, RoomNotFound)
  {
  }

  /** A concrete instance: the empty registry and the room id `toString`. */
  lemma ToStringRoomExample(router: Router)
    ensures CreateRoomAsWritten(Empty(), true, "toString", Returns(router)).0
            == Error(InternalError, "Cannot read properties of undefined (reading 'id')")
    ensures CreateRoomOutcome(Empty(), true, "toString", Returns(router)).0 == RoomReady("toString", router.id)
  {
    assert "toString" in InheritedNames;
  }
}
