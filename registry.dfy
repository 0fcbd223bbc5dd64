/**
 * The session registry of server.js and api.js: the room dictionary
 * `rooms` (room id to `{router, transports, producers, consumers}`), the
 * global lookups by bare id that scan it room by room, and the bookkeeping
 * the request handlers and close listeners perform on a room's three Maps.
 * Engine objects are reduced to the fields the registry reads.
 */
module Registry {
  import opened Wrappers
  import opened OrderedMap

  /** A media worker; `workerId` is the `appData.workerId` it was created with. */
  datatype Worker = Worker(pid: int, workerId: nat)

  datatype Router = Router(id: string)

  /** A WebRTC transport with the `appData` its creator gave it. */
  datatype Transport = Transport(id: string, userId: string, direction: string)

  /** A producer: engine id, kind and pause flag, `appData.userId/channelId`. */
  datatype Producer = Producer(id: string, kind: string, paused: bool, userId: string, channelId: string)

  /** A consumer of the producer `producerId`. */
  datatype Consumer = Consumer(id: string, producerId: string, kind: string, paused: bool)

  datatype Room = Room(
    router: Router,
    transports: Dict<Transport>,
    producers: Dict<Producer>,
    consumers: Dict<Consumer>)

  /** `this.rooms`: room ids to rooms, in `Object.values` order. */
  type Rooms = Dict<Room>

  /** The room `create` stores: the router and three empty Maps. */
  function NewRoom(router: Router): (room: Room)
    ensures room.router == router
    ensures Size(room.transports) == 0 && Size(room.producers) == 0 && Size(room.consumers) == 0
  {
    Room(router, Empty(), Empty(), Empty())
  }

  /** The i-th room in iteration order. */
  function RoomAt(rooms: Rooms, i: nat): Room
    requires i < |rooms.keys|
  {
    rooms.entries[rooms.keys[i]]
  }

  // ---------------------------------------------------------------------------
  // Global lookups: a scan over the rooms that stops at the first room whose
  // Map holds the id.

  /** The index of the first Map of `ds` that holds `id`. */
  function FirstHolder<V>(ds: seq<Dict<V>>, id: string): (r: Option<nat>)
    ensures r.Some? ==> r.value < |ds| && Has(ds[r.value], id)
    ensures r.Some? ==> forall j :: 0 <= j < r.value ==> !Has(ds[j], id)
    ensures r.None? <==> forall j :: 0 <= j < |ds| ==> !Has(ds[j], id)
  {
    if ds == [] then None
    else if Has(ds[0], id) then Some(0)
    else match FirstHolder(ds[1..], id)
      case None => None
      case Some(i) => Some(i + 1)
  }

  /** The first holder is determined by which Maps hold the id, and by nothing
      else in them. */
  lemma FirstHolderDependsOnlyOnHas<V, W>(ds: seq<Dict<V>>, es: seq<Dict<W>>, id: string)
    requires |ds| == |es|
    requires forall i :: 0 <= i < |ds| ==> (Has(ds[i], id) <==> Has(es[i], id))
    ensures FirstHolder(ds, id) == FirstHolder(es, id)
  {
    var a, b := FirstHolder(ds, id), FirstHolder(es, id);
    if a.Some? && b.Some? {
      assert !(a.value < b.value) && !(b.value < a.value);
    }
  }

  /** The value stored under `id` in the first Map of `ds` holding it. */
  function LookupIn<V>(ds: seq<Dict<V>>, id: string): (r: Option<V>)
    ensures r.None? <==> forall j :: 0 <= j < |ds| ==> !Has(ds[j], id)
    ensures r.Some? ==> FirstHolder(ds, id).Some? && r == Get(ds[FirstHolder(ds, id).value], id)
  {
    match FirstHolder(ds, id)
    case None => None
    case Some(i) => Get(ds[i], id)
  }

  /** A scan that passed the first `i` Maps without finding `id` and finds
      it in the i-th stops there; one that passed them all finds nothing. */
  lemma ScanStep<V>(ds: seq<Dict<V>>, i: nat, id: string)
    requires i <= |ds| && forall j :: 0 <= j < i ==> !Has(ds[j], id)
    ensures i < |ds| && Has(ds[i], id) ==> FirstHolder(ds, id) == Some(i) && LookupIn(ds, id) == Get(ds[i], id)
    ensures i == |ds| ==> FirstHolder(ds, id) == None && LookupIn(ds, id) == None
  {
  }

  function TransportMaps(rooms: Rooms): (ds: seq<Dict<Transport>>)
    ensures |ds| == |rooms.keys|
    ensures forall i :: 0 <= i < |ds| ==> ds[i] == RoomAt(rooms, i).transports
  {
    seq(|rooms.keys|, i requires 0 <= i < |rooms.keys| => RoomAt(rooms, i).transports)
  }

  function ProducerMaps(rooms: Rooms): (ds: seq<Dict<Producer>>)
    ensures |ds| == |rooms.keys|
    ensures forall i :: 0 <= i < |ds| ==> ds[i] == RoomAt(rooms, i).producers
  {
    seq(|rooms.keys|, i requires 0 <= i < |rooms.keys| => RoomAt(rooms, i).producers)
  }

  function ConsumerMaps(rooms: Rooms): (ds: seq<Dict<Consumer>>)
    ensures |ds| == |rooms.keys|
    ensures forall i :: 0 <= i < |ds| ==> ds[i] == RoomAt(rooms, i).consumers
  {
    seq(|rooms.keys|, i requires 0 <= i < |rooms.keys| => RoomAt(rooms, i).consumers)
  }

  /** Every room of the dictionary sits at some index of the iteration. */
  lemma RoomIndex(rooms: Rooms, k: string) returns (i: nat)
    requires k in rooms.entries
    ensures i < |rooms.keys| && rooms.keys[i] == k && RoomAt(rooms, i) == rooms.entries[k]
  {
    assert k in rooms.keys;
    i :| 0 <= i < |rooms.keys| && rooms.keys[i] == k;
  }

  /** `findTransport(id)`: the transport stored under `id` in the first room
      whose `transports` holds it; None exactly when no room holds it. */
  function TransportLookup(rooms: Rooms, id: string): (r: Option<Transport>)
    ensures r.None? <==> forall k :: k in rooms.entries ==> !Has(rooms.entries[k].transports, id)
    ensures r.Some? ==> exists i :: 0 <= i < |rooms.keys| && Get(RoomAt(rooms, i).transports, id) == r
                                   && forall j :: 0 <= j < i ==> !Has(RoomAt(rooms, j).transports, id)
  {
    var r := LookupIn(TransportMaps(rooms), id);
    assert r.None? ==> forall k :: k in rooms.entries ==> !Has(rooms.entries[k].transports, id) by {
      forall k | k in rooms.entries && r.None? ensures !Has(rooms.entries[k].transports, id) {
        var i := RoomIndex(rooms, k);
      }
    }
    r
  }

  /** `findProducer(id)`, the same scan over the rooms' `producers`. */
  function ProducerLookup(rooms: Rooms, id: string): (r: Option<Producer>)
    ensures r.None? <==> forall k :: k in rooms.entries ==> !Has(rooms.entries[k].producers, id)
    ensures r.Some? ==> exists i :: 0 <= i < |rooms.keys| && Get(RoomAt(rooms, i).producers, id) == r
                                   && forall j :: 0 <= j < i ==> !Has(RoomAt(rooms, j).producers, id)
  {
    var r := LookupIn(ProducerMaps(rooms), id);
    assert r.None? ==> forall k :: k in rooms.entries ==> !Has(rooms.entries[k].producers, id) by {
      forall k | k in rooms.entries && r.None? ensures !Has(rooms.entries[k].producers, id) {
        var i := RoomIndex(rooms, k);
      }
    }
    r
  }

  /** `findConsumer(id)`, the same scan over the rooms' `consumers`. */
  function ConsumerLookup(rooms: Rooms, id: string): (r: Option<Consumer>)
    ensures r.None? <==> forall k :: k in rooms.entries ==> !Has(rooms.entries[k].consumers, id)
    ensures r.Some? ==> exists i :: 0 <= i < |rooms.keys| && Get(RoomAt(rooms, i).consumers, id) == r
                                   && forall j :: 0 <= j < i ==> !Has(RoomAt(rooms, j).consumers, id)
  {
    var r := LookupIn(ConsumerMaps(rooms), id);
    assert r.None? ==> forall k :: k in rooms.entries ==> !Has(rooms.entries[k].consumers, id) by {
      forall k | k in rooms.entries && r.None? ensures !Has(rooms.entries[k].consumers, id) {
        var i := RoomIndex(rooms, k);
      }
    }
    r
  }

  /** `findRoomByTransport(id)`, the room given by its id: it holds the
      transport, `findTransport` finds the transport stored there, and it is
      None exactly when `findTransport` is. */
  function RoomOfTransport(rooms: Rooms, id: string): (r: Option<string>)
    ensures r.Some? ==> r.value in rooms.entries && Has(rooms.entries[r.value].transports, id)
    ensures r.Some? ==> TransportLookup(rooms, id) == Get(rooms.entries[r.value].transports, id)
    ensures r.None? <==> TransportLookup(rooms, id).None?
  {
    match FirstHolder(TransportMaps(rooms), id)
    case None => None
    case Some(i) => Some(rooms.keys[i])
  }

  /** The room the first scan for producer `id` stops at. */
  function RoomOfProducer(rooms: Rooms, id: string): (r: Option<string>)
    ensures r.Some? ==> r.value in rooms.entries && Has(rooms.entries[r.value].producers, id)
    ensures r.Some? ==> ProducerLookup(rooms, id) == Get(rooms.entries[r.value].producers, id)
    ensures r.None? <==> ProducerLookup(rooms, id).None?
  {
    match FirstHolder(ProducerMaps(rooms), id)
    case None => None
    case Some(i) => Some(rooms.keys[i])
  }

  /** The room the first scan for consumer `id` stops at. */
  function RoomOfConsumer(rooms: Rooms, id: string): (r: Option<string>)
    ensures r.Some? ==> r.value in rooms.entries && Has(rooms.entries[r.value].consumers, id)
    ensures r.Some? ==> ConsumerLookup(rooms, id) == Get(rooms.entries[r.value].consumers, id)
    ensures r.None? <==> ConsumerLookup(rooms, id).None?
  {
    match FirstHolder(ConsumerMaps(rooms), id)
    case None => None
    case Some(i) => Some(rooms.keys[i])
  }

  // ---------------------------------------------------------------------------
  // What the handlers and close listeners do to the rooms.

  /** `rooms[key] = NewRoom(router)`; create-room only stores a room under an
      id that is not there yet. */
  function AddRoom(rooms: Rooms, key: string, router: Router): (r: Rooms)
    requires key !in rooms.entries
    ensures r.keys == rooms.keys + [key]
    ensures WellKeyed(rooms) ==> WellKeyed(r)
    ensures UniqueIds(rooms) ==> UniqueIds(r)
  {
    var r := Set(rooms, key, NewRoom(router));
    assert UniqueIds(rooms) ==> UniqueIds(r) by {
      if UniqueIds(rooms) {
        forall i | 0 <= i < |r.keys| ensures RoomAt(r, i) == if i < |rooms.keys| then RoomAt(rooms, i) else NewRoom(router) {
          if i < |rooms.keys| { assert r.keys[i] == rooms.keys[i] != key; }
        }
        DisjointAfterAppend(TransportMaps(rooms), TransportMaps(r));
        DisjointAfterAppend(ProducerMaps(rooms), ProducerMaps(r));
        DisjointAfterAppend(ConsumerMaps(rooms), ConsumerMaps(r));
      }
    }
    r
  }

  /** The rooms with the room under `key` replaced by `room`. */
  lemma RoomAtAfterUpdate(rooms: Rooms, key: string, room: Room) returns (p: nat)
    requires key in rooms.entries
    ensures Set(rooms, key, room).keys == rooms.keys
    ensures p < |rooms.keys| && rooms.keys[p] == key
    ensures forall i :: 0 <= i < |rooms.keys| ==>
      RoomAt(Set(rooms, key, room), i) == if i == p then room else RoomAt(rooms, i)
  {
    p := RoomIndex(rooms, key);
    var r := Set(rooms, key, room);
    forall i | 0 <= i < |rooms.keys| && i != p ensures RoomAt(r, i) == RoomAt(rooms, i) {
      assert rooms.keys[i] != key;
    }
  }

  /** `room.transports.set(t.id, t)` on the room stored under `key`. */
  function AddTransport(rooms: Rooms, key: string, t: Transport): (r: Rooms)
    requires key in rooms.entries
    ensures r.keys == rooms.keys && key in r.entries
    ensures Get(r.entries[key].transports, t.id) == Some(t)
    ensures forall id :: id != t.id ==> Get(r.entries[key].transports, id) == Get(rooms.entries[key].transports, id)
    ensures r.entries[key].router == rooms.entries[key].router && r.entries[key].producers == rooms.entries[key].producers && r.entries[key].consumers == rooms.entries[key].consumers
    ensures forall k :: k != key ==> Get(r, k) == Get(rooms, k)
  {
    var room := rooms.entries[key];
    Set(rooms, key, room.(transports := Set(room.transports, t.id, t)))
  }

  /** `room.transports.delete(id)` on the room stored under `key`, if any. */
  function RemoveTransport(rooms: Rooms, key: string, id: string): (r: Rooms)
    ensures r.keys == rooms.keys
    ensures key !in rooms.entries ==> r == rooms
    ensures key in rooms.entries ==> key in r.entries && !Has(r.entries[key].transports, id)
    ensures key in rooms.entries ==> forall y :: y != id ==> Get(r.entries[key].transports, y) == Get(rooms.entries[key].transports, y)
    ensures key in rooms.entries ==> r.entries[key].router == rooms.entries[key].router && r.entries[key].producers == rooms.entries[key].producers && r.entries[key].consumers == rooms.entries[key].consumers
    ensures forall k :: k != key ==> Get(r, k) == Get(rooms, k)
  {
    if key in rooms.entries then
      var room := rooms.entries[key];
      Set(rooms, key, room.(transports := Delete(room.transports, id)))
    else rooms
  }

  /** `room.producers.set(p.id, p)` on the room stored under `key`. */
  function AddProducer(rooms: Rooms, key: string, p: Producer): (r: Rooms)
    requires key in rooms.entries
    ensures r.keys == rooms.keys && key in r.entries
    ensures Get(r.entries[key].producers, p.id) == Some(p)
    ensures forall id :: id != p.id ==> Get(r.entries[key].producers, id) == Get(rooms.entries[key].producers, id)
    ensures r.entries[key].router == rooms.entries[key].router && r.entries[key].transports == rooms.entries[key].transports && r.entries[key].consumers == rooms.entries[key].consumers
    ensures forall k :: k != key ==> Get(r, k) == Get(rooms, k)
  {
    var room := rooms.entries[key];
    Set(rooms, key, room.(producers := Set(room.producers, p.id, p)))
  }

  /** `room.producers.delete(id)` on the room stored under `key`, if any. */
  function RemoveProducer(rooms: Rooms, key: string, id: string): (r: Rooms)
    ensures r.keys == rooms.keys
    ensures key !in rooms.entries ==> r == rooms
    ensures key in rooms.entries ==> key in r.entries && !Has(r.entries[key].producers, id)
    ensures key in rooms.entries ==> forall y :: y != id ==> Get(r.entries[key].producers, y) == Get(rooms.entries[key].producers, y)
    ensures key in rooms.entries ==> r.entries[key].router == rooms.entries[key].router && r.entries[key].transports == rooms.entries[key].transports && r.entries[key].consumers == rooms.entries[key].consumers
    ensures forall k :: k != key ==> Get(r, k) == Get(rooms, k)
  {
    if key in rooms.entries then
      var room := rooms.entries[key];
      Set(rooms, key, room.(producers := Delete(room.producers, id)))
    else rooms
  }

  /** `room.consumers.set(c.id, c)` on the room stored under `key`. */
  function AddConsumer(rooms: Rooms, key: string, c: Consumer): (r: Rooms)
    requires key in rooms.entries
    ensures r.keys == rooms.keys && key in r.entries
    ensures Get(r.entries[key].consumers, c.id) == Some(c)
    ensures forall id :: id != c.id ==> Get(r.entries[key].consumers, id) == Get(rooms.entries[key].consumers, id)
    ensures r.entries[key].router == rooms.entries[key].router && r.entries[key].transports == rooms.entries[key].transports && r.entries[key].producers == rooms.entries[key].producers
    ensures forall k :: k != key ==> Get(r, k) == Get(rooms, k)
  {
    var room := rooms.entries[key];
    Set(rooms, key, room.(consumers := Set(room.consumers, c.id, c)))
  }

  /** `room.consumers.delete(id)` on the room stored under `key`, if any. */
  function RemoveConsumer(rooms: Rooms, key: string, id: string): (r: Rooms)
    ensures r.keys == rooms.keys
    ensures key !in rooms.entries ==> r == rooms
    ensures key in rooms.entries ==> key in r.entries && !Has(r.entries[key].consumers, id)
    ensures key in rooms.entries ==> forall y :: y != id ==> Get(r.entries[key].consumers, y) == Get(rooms.entries[key].consumers, y)
    ensures key in rooms.entries ==> r.entries[key].router == rooms.entries[key].router && r.entries[key].transports == rooms.entries[key].transports && r.entries[key].producers == rooms.entries[key].producers
    ensures forall k :: k != key ==> Get(r, k) == Get(rooms, k)
  {
    if key in rooms.entries then
      var room := rooms.entries[key];
      Set(rooms, key, room.(consumers := Delete(room.consumers, id)))
    else rooms
  }

  // ---------------------------------------------------------------------------
  // Removal is idempotent and undoes an addition of a new id.

  /** A repeated transport removal is a no-op. */
  lemma RemoveTransportIdempotent(rooms: Rooms, key: string, id: string)
    ensures RemoveTransport(RemoveTransport(rooms, key, id), key, id) == RemoveTransport(rooms, key, id)
  {
    if key in rooms.entries {
      var room := rooms.entries[key];
      var once := room.(transports := Delete(room.transports, id));
      SetTwice(rooms, key, once, once);
    }
  }

  lemma RemoveProducerIdempotent(rooms: Rooms, key: string, id: string)
    ensures RemoveProducer(RemoveProducer(rooms, key, id), key, id) == RemoveProducer(rooms, key, id)
  {
    if key in rooms.entries {
      var room := rooms.entries[key];
      var once := room.(producers := Delete(room.producers, id));
      SetTwice(rooms, key, once, once);
    }
  }

  lemma RemoveConsumerIdempotent(rooms: Rooms, key: string, id: string)
    ensures RemoveConsumer(RemoveConsumer(rooms, key, id), key, id) == RemoveConsumer(rooms, key, id)
  {
    if key in rooms.entries {
      var room := rooms.entries[key];
      var once := room.(consumers := Delete(room.consumers, id));
      SetTwice(rooms, key, once, once);
    }
  }

  /** Closing a transport just created under a new id restores the rooms
      exactly, iteration order included. */
  lemma AddThenRemoveTransport(rooms: Rooms, key: string, t: Transport)
    requires key in rooms.entries && !Has(rooms.entries[key].transports, t.id)
    ensures RemoveTransport(AddTransport(rooms, key, t), key, t.id) == rooms
  {
    var room := rooms.entries[key];
    SetThenDelete(room.transports, t.id, t);
    SetTwice(rooms, key, room.(transports := Set(room.transports, t.id, t)), room);
    SetSame(rooms, key);
  }

  lemma AddThenRemoveProducer(rooms: Rooms, key: string, p: Producer)
    requires key in rooms.entries && !Has(rooms.entries[key].producers, p.id)
    ensures RemoveProducer(AddProducer(rooms, key, p), key, p.id) == rooms
  {
    var room := rooms.entries[key];
    SetThenDelete(room.producers, p.id, p);
    SetTwice(rooms, key, room.(producers := Set(room.producers, p.id, p)), room);
    SetSame(rooms, key);
  }

  lemma AddThenRemoveConsumer(rooms: Rooms, key: string, c: Consumer)
    requires key in rooms.entries && !Has(rooms.entries[key].consumers, c.id)
    ensures RemoveConsumer(AddConsumer(rooms, key, c), key, c.id) == rooms
  {
    var room := rooms.entries[key];
    SetThenDelete(room.consumers, c.id, c);
    SetTwice(rooms, key, room.(consumers := Set(room.consumers, c.id, c)), room);
    SetSame(rooms, key);
  }

  // ---------------------------------------------------------------------------
  // Invariants: entries are stored under their own id, and no id is held by
  // two rooms (the engine hands out fresh ids).

  ghost predicate RoomWellKeyed(room: Room) {
    && (forall id :: id in room.transports.entries ==> room.transports.entries[id].id == id)
    && (forall id :: id in room.producers.entries ==> room.producers.entries[id].id == id)
    && (forall id :: id in room.consumers.entries ==> room.consumers.entries[id].id == id)
  }

  ghost predicate WellKeyed(rooms: Rooms) {
    forall k :: k in rooms.entries ==> RoomWellKeyed(rooms.entries[k])
  }

  /** No id is held by two of the Maps. */
  ghost predicate Disjoint<V>(ds: seq<Dict<V>>) {
    forall i, j, id :: 0 <= i < j < |ds| && Has(ds[i], id) ==> !Has(ds[j], id)
  }

  ghost predicate UniqueIds(rooms: Rooms) {
    && Disjoint(TransportMaps(rooms))
    && Disjoint(ProducerMaps(rooms))
    && Disjoint(ConsumerMaps(rooms))
  }

  /** Replacing one room by a room whose entries are under their own ids
      keeps every entry under its own id. */
  lemma WellKeyedAfterUpdate(rooms: Rooms, key: string, room: Room)
    requires WellKeyed(rooms) && RoomWellKeyed(room)
    ensures WellKeyed(Set(rooms, key, room))
  {
    var r := Set(rooms, key, room);
    forall k | k in r.entries ensures RoomWellKeyed(r.entries[k]) {
      if k != key { assert Get(r, k) == Get(rooms, k); }
    }
  }

  lemma DisjointAfterAppend<V>(ds: seq<Dict<V>>, es: seq<Dict<V>>)
    requires Disjoint(ds) && |es| == |ds| + 1
    requires forall i :: 0 <= i < |ds| ==> es[i] == ds[i]
    requires forall id :: !Has(es[|ds|], id)
    ensures Disjoint(es)
  {
  }

  /** Changing one Map so that it gains at most the one id `added`, held by no
      Map before, keeps the Maps disjoint. */
  lemma DisjointAfterChange<V>(ds: seq<Dict<V>>, es: seq<Dict<V>>, p: nat, added: Option<string>)
    requires Disjoint(ds) && |es| == |ds| && p < |ds|
    requires forall i :: 0 <= i < |ds| && i != p ==> es[i] == ds[i]
    requires forall id :: Has(es[p], id) ==> Has(ds[p], id) || Some(id) == added
    requires added.Some? ==> forall i :: 0 <= i < |ds| ==> !Has(ds[i], added.value)
    ensures Disjoint(es)
  {
    forall i, j, id | 0 <= i < j < |es| && Has(es[i], id) ensures !Has(es[j], id) {
      if i == p || j == p {
        if Some(id) == added {
          assert !Has(ds[i], id) && !Has(ds[j], id);
        }
      }
    }
  }

  /** Under unique ids the scan stops at the one room holding the id. */
  lemma OnlyHolder<V>(ds: seq<Dict<V>>, i: nat, id: string)
    requires Disjoint(ds) && i < |ds| && Has(ds[i], id)
    ensures FirstHolder(ds, id) == Some(i)
    ensures forall j :: 0 <= j < |ds| && j != i ==> !Has(ds[j], id)
  {
  }

  // ---------------------------------------------------------------------------
  // The scans after one Map changed.

  /** After `set(id, v)` on the p-th Map, with `id` held by no Map before, the
      scan finds `v` in the p-th Map, and every other id as before. */
  lemma LookupInAfterSet<V>(ds: seq<Dict<V>>, p: nat, id: string, v: V)
    requires p < |ds| && LookupIn(ds, id).None?
    ensures FirstHolder(ds[p := Set(ds[p], id, v)], id) == Some(p)
    ensures LookupIn(ds[p := Set(ds[p], id, v)], id) == Some(v)
    ensures forall y :: y != id ==> LookupIn(ds[p := Set(ds[p], id, v)], y) == LookupIn(ds, y)
  {
    var es := ds[p := Set(ds[p], id, v)];
    forall j | 0 <= j < p ensures !Has(es[j], id) {
      assert es[j] == ds[j];
    }
    assert Has(es[p], id);
    ScanStep(es, p, id);
    forall y | y != id ensures LookupIn(es, y) == LookupIn(ds, y) {
      FirstHolderDependsOnlyOnHas(ds, es, y);
    }
  }

  /** With no id held by two Maps, `delete(id)` on the Map holding it leaves
      no Map holding `id`, and every other id is found as before. */
  lemma LookupInAfterDelete<V>(ds: seq<Dict<V>>, p: nat, id: string)
    requires Disjoint(ds) && p < |ds| && Has(ds[p], id)
    ensures LookupIn(ds[p := Delete(ds[p], id)], id).None?
    ensures forall y :: y != id ==> LookupIn(ds[p := Delete(ds[p], id)], y) == LookupIn(ds, y)
    ensures Disjoint(ds[p := Delete(ds[p], id)])
  {
    var es := ds[p := Delete(ds[p], id)];
    OnlyHolder(ds, p, id);
    forall y | y != id ensures LookupIn(es, y) == LookupIn(ds, y) {
      FirstHolderDependsOnlyOnHas(ds, es, y);
    }
    DisjointAfterChange(ds, es, p, None);
  }

  /** Replacing the room under `key` replaces the three Maps at its index. */
  lemma MapsAfterUpdate(rooms: Rooms, key: string, room: Room)
    requires key in rooms.entries
    ensures TransportMaps(Set(rooms, key, room)) == TransportMaps(rooms)[IndexOf(rooms, key) := room.transports]
    ensures ProducerMaps(Set(rooms, key, room)) == ProducerMaps(rooms)[IndexOf(rooms, key) := room.producers]
    ensures ConsumerMaps(Set(rooms, key, room)) == ConsumerMaps(rooms)[IndexOf(rooms, key) := room.consumers]
  {
    var p := RoomAtAfterUpdate(rooms, key, room);
    assert p == IndexOf(rooms, key);
  }

  // ---------------------------------------------------------------------------
  // Transports: the scans after a change, and the invariants kept.

  /** The three Maps after `transports.set(x.id, x)` on the room `key`. */
  lemma MapsAfterAddTransport(rooms: Rooms, key: string, x: Transport)
    requires key in rooms.entries
    ensures TransportMaps(AddTransport(rooms, key, x)) == TransportMaps(rooms)[IndexOf(rooms, key) := Set(rooms.entries[key].transports, x.id, x)]
    ensures ProducerMaps(AddTransport(rooms, key, x)) == ProducerMaps(rooms)
    ensures ConsumerMaps(AddTransport(rooms, key, x)) == ConsumerMaps(rooms)
  {
    var room := rooms.entries[key];
    MapsAfterUpdate(rooms, key, room.(transports := Set(room.transports, x.id, x)));
  }

  /** The three Maps after `transports.delete(id)` on the room `key`. */
  lemma MapsAfterRemoveTransport(rooms: Rooms, key: string, id: string)
    requires key in rooms.entries
    ensures TransportMaps(RemoveTransport(rooms, key, id)) == TransportMaps(rooms)[IndexOf(rooms, key) := Delete(rooms.entries[key].transports, id)]
    ensures ProducerMaps(RemoveTransport(rooms, key, id)) == ProducerMaps(rooms)
    ensures ConsumerMaps(RemoveTransport(rooms, key, id)) == ConsumerMaps(rooms)
  {
    var room := rooms.entries[key];
    MapsAfterUpdate(rooms, key, room.(transports := Delete(room.transports, id)));
  }

  /** After `transports.set(x.id, x)` on the room `key`, with `x.id` held by no
      room before, `findTransport(x.id)` gives `x` from that room and every other
      id is found as before. */
  lemma LookupsAfterAddTransport(rooms: Rooms, key: string, x: Transport)
    requires key in rooms.entries && TransportLookup(rooms, x.id).None?
    ensures TransportLookup(AddTransport(rooms, key, x), x.id) == Some(x)
    ensures RoomOfTransport(AddTransport(rooms, key, x), x.id) == Some(key)
    ensures forall id :: id != x.id ==> TransportLookup(AddTransport(rooms, key, x), id) == TransportLookup(rooms, id)
  {
    MapsAfterAddTransport(rooms, key, x);
    LookupInAfterSet(TransportMaps(rooms), IndexOf(rooms, key), x.id, x);
  }

  /** With ids unique across rooms, deleting `id` from the room `key` that
      holds it leaves no room holding it; every other id is found as before. */
  lemma LookupsAfterRemoveTransport(rooms: Rooms, key: string, id: string)
    requires UniqueIds(rooms) && key in rooms.entries && Has(rooms.entries[key].transports, id)
    ensures RoomOfTransport(rooms, id) == Some(key)
    ensures TransportLookup(RemoveTransport(rooms, key, id), id).None?
    ensures forall y :: y != id ==> TransportLookup(RemoveTransport(rooms, key, id), y) == TransportLookup(rooms, y)
  {
    MapsAfterRemoveTransport(rooms, key, id);
    OnlyHolder(TransportMaps(rooms), IndexOf(rooms, key), id);
    LookupInAfterDelete(TransportMaps(rooms), IndexOf(rooms, key), id);
  }

  /** Adding keeps entries under their own ids, and keeps ids unique when the
      new id was held by no room. */
  lemma AddTransportKeepsInvariants(rooms: Rooms, key: string, x: Transport)
    requires key in rooms.entries
    ensures WellKeyed(rooms) ==> WellKeyed(AddTransport(rooms, key, x))
    ensures UniqueIds(rooms) && TransportLookup(rooms, x.id).None? ==> UniqueIds(AddTransport(rooms, key, x))
  {
    if WellKeyed(rooms) {
      AddTransportKeepsWellKeyed(rooms, key, x);
    }
    if UniqueIds(rooms) && TransportLookup(rooms, x.id).None? {
      AddTransportKeepsUniqueIds(rooms, key, x);
    }
  }

  lemma AddTransportKeepsWellKeyed(rooms: Rooms, key: string, x: Transport)
    requires key in rooms.entries && WellKeyed(rooms)
    ensures WellKeyed(AddTransport(rooms, key, x))
  {
    var room := rooms.entries[key];
    assert RoomWellKeyed(room);
    assert AddTransport(rooms, key, x) == Set(rooms, key, room.(transports := Set(room.transports, x.id, x)));
    WellKeyedAfterUpdate(rooms, key, room.(transports := Set(room.transports, x.id, x)));
  }

  lemma AddTransportKeepsUniqueIds(rooms: Rooms, key: string, x: Transport)
    requires key in rooms.entries && UniqueIds(rooms) && TransportLookup(rooms, x.id).None?
    ensures UniqueIds(AddTransport(rooms, key, x))
  {
    MapsAfterAddTransport(rooms, key, x);
    var ds := TransportMaps(rooms);
    DisjointAfterChange(ds, ds[IndexOf(rooms, key) := Set(rooms.entries[key].transports, x.id, x)], IndexOf(rooms, key), Some(x.id));
  }

  /** Removing keeps both invariants. */
  lemma RemoveTransportKeepsInvariants(rooms: Rooms, key: string, id: string)
    ensures WellKeyed(rooms) ==> WellKeyed(RemoveTransport(rooms, key, id))
    ensures UniqueIds(rooms) ==> UniqueIds(RemoveTransport(rooms, key, id))
  {
    if key in rooms.entries {
      MapsAfterRemoveTransport(rooms, key, id);
      var ds := TransportMaps(rooms);
      if UniqueIds(rooms) {
        DisjointAfterChange(ds, ds[IndexOf(rooms, key) := Delete(rooms.entries[key].transports, id)], IndexOf(rooms, key), None);
      }
    }
  }

  // ---------------------------------------------------------------------------
  // Producers: the scans after a change, and the invariants kept.

  /** The three Maps after `producers.set(x.id, x)` on the room `key`. */
  lemma MapsAfterAddProducer(rooms: Rooms, key: string, x: Producer)
    requires key in rooms.entries
    ensures ProducerMaps(AddProducer(rooms, key, x)) == ProducerMaps(rooms)[IndexOf(rooms, key) := Set(rooms.entries[key].producers, x.id, x)]
    ensures TransportMaps(AddProducer(rooms, key, x)) == TransportMaps(rooms)
    ensures ConsumerMaps(AddProducer(rooms, key, x)) == ConsumerMaps(rooms)
  {
    var room := rooms.entries[key];
    MapsAfterUpdate(rooms, key, room.(producers := Set(room.producers, x.id, x)));
  }

  /** The three Maps after `producers.delete(id)` on the room `key`. */
  lemma MapsAfterRemoveProducer(rooms: Rooms, key: string, id: string)
    requires key in rooms.entries
    ensures ProducerMaps(RemoveProducer(rooms, key, id)) == ProducerMaps(rooms)[IndexOf(rooms, key) := Delete(rooms.entries[key].producers, id)]
    ensures TransportMaps(RemoveProducer(rooms, key, id)) == TransportMaps(rooms)
    ensures ConsumerMaps(RemoveProducer(rooms, key, id)) == ConsumerMaps(rooms)
  {
    var room := rooms.entries[key];
    MapsAfterUpdate(rooms, key, room.(producers := Delete(room.producers, id)));
  }

  /** After `producers.set(x.id, x)` on the room `key`, with `x.id` held by no
      room before, `findProducer(x.id)` gives `x` from that room and every other
      id is found as before. */
  lemma LookupsAfterAddProducer(rooms: Rooms, key: string, x: Producer)
    requires key in rooms.entries && ProducerLookup(rooms, x.id).None?
    ensures ProducerLookup(AddProducer(rooms, key, x), x.id) == Some(x)
    ensures RoomOfProducer(AddProducer(rooms, key, x), x.id) == Some(key)
    ensures forall id :: id != x.id ==> ProducerLookup(AddProducer(rooms, key, x), id) == ProducerLookup(rooms, id)
  {
    MapsAfterAddProducer(rooms, key, x);
    LookupInAfterSet(ProducerMaps(rooms), IndexOf(rooms, key), x.id, x);
  }

  /** With ids unique across rooms, deleting `id` from the room `key` that
      holds it leaves no room holding it; every other id is found as before. */
  lemma LookupsAfterRemoveProducer(rooms: Rooms, key: string, id: string)
    requires UniqueIds(rooms) && key in rooms.entries && Has(rooms.entries[key].producers, id)
    ensures RoomOfProducer(rooms, id) == Some(key)
    ensures ProducerLookup(RemoveProducer(rooms, key, id), id).None?
    ensures forall y :: y != id ==> ProducerLookup(RemoveProducer(rooms, key, id), y) == ProducerLookup(rooms, y)
  {
    MapsAfterRemoveProducer(rooms, key, id);
    OnlyHolder(ProducerMaps(rooms), IndexOf(rooms, key), id);
    LookupInAfterDelete(ProducerMaps(rooms), IndexOf(rooms, key), id);
  }

  /** Adding keeps entries under their own ids, and keeps ids unique when the
      new id was held by no room. */
  lemma AddProducerKeepsInvariants(rooms: Rooms, key: string, x: Producer)
    requires key in rooms.entries
    ensures WellKeyed(rooms) ==> WellKeyed(AddProducer(rooms, key, x))
    ensures UniqueIds(rooms) && ProducerLookup(rooms, x.id).None? ==> UniqueIds(AddProducer(rooms, key, x))
  {
    if WellKeyed(rooms) {
      AddProducerKeepsWellKeyed(rooms, key, x);
    }
    if UniqueIds(rooms) && ProducerLookup(rooms, x.id).None? {
      AddProducerKeepsUniqueIds(rooms, key, x);
    }
  }

  lemma AddProducerKeepsWellKeyed(rooms: Rooms, key: string, x: Producer)
    requires key in rooms.entries && WellKeyed(rooms)
    ensures WellKeyed(AddProducer(rooms, key, x))
  {
    var room := rooms.entries[key];
    assert RoomWellKeyed(room);
    assert AddProducer(rooms, key, x) == Set(rooms, key, room.(producers := Set(room.producers, x.id, x)));
    WellKeyedAfterUpdate(rooms, key, room.(producers := Set(room.producers, x.id, x)));
  }

  lemma AddProducerKeepsUniqueIds(rooms: Rooms, key: string, x: Producer)
    requires key in rooms.entries && UniqueIds(rooms) && ProducerLookup(rooms, x.id).None?
    ensures UniqueIds(AddProducer(rooms, key, x))
  {
    MapsAfterAddProducer(rooms, key, x);
    var ds := ProducerMaps(rooms);
    DisjointAfterChange(ds, ds[IndexOf(rooms, key) := Set(rooms.entries[key].producers, x.id, x)], IndexOf(rooms, key), Some(x.id));
  }

  /** Removing keeps both invariants. */
  lemma RemoveProducerKeepsInvariants(rooms: Rooms, key: string, id: string)
    ensures WellKeyed(rooms) ==> WellKeyed(RemoveProducer(rooms, key, id))
    ensures UniqueIds(rooms) ==> UniqueIds(RemoveProducer(rooms, key, id))
  {
    if key in rooms.entries {
      MapsAfterRemoveProducer(rooms, key, id);
      var ds := ProducerMaps(rooms);
      if UniqueIds(rooms) {
        DisjointAfterChange(ds, ds[IndexOf(rooms, key) := Delete(rooms.entries[key].producers, id)], IndexOf(rooms, key), None);
      }
    }
  }

  // ---------------------------------------------------------------------------
  // Consumers: the scans after a change, and the invariants kept.

  /** The three Maps after `consumers.set(x.id, x)` on the room `key`. */
  lemma MapsAfterAddConsumer(rooms: Rooms, key: string, x: Consumer)
    requires key in rooms.entries
    ensures ConsumerMaps(AddConsumer(rooms, key, x)) == ConsumerMaps(rooms)[IndexOf(rooms, key) := Set(rooms.entries[key].consumers, x.id, x)]
    ensures TransportMaps(AddConsumer(rooms, key, x)) == TransportMaps(rooms)
    ensures ProducerMaps(AddConsumer(rooms, key, x)) == ProducerMaps(rooms)
  {
    var room := rooms.entries[key];
    MapsAfterUpdate(rooms, key, room.(consumers := Set(room.consumers, x.id, x)));
  }

  /** The three Maps after `consumers.delete(id)` on the room `key`. */
  lemma MapsAfterRemoveConsumer(rooms: Rooms, key: string, id: string)
    requires key in rooms.entries
    ensures ConsumerMaps(RemoveConsumer(rooms, key, id)) == ConsumerMaps(rooms)[IndexOf(rooms, key) := Delete(rooms.entries[key].consumers, id)]
    ensures TransportMaps(RemoveConsumer(rooms, key, id)) == TransportMaps(rooms)
    ensures ProducerMaps(RemoveConsumer(rooms, key, id)) == ProducerMaps(rooms)
  {
    var room := rooms.entries[key];
    MapsAfterUpdate(rooms, key, room.(consumers := Delete(room.consumers, id)));
  }

  /** After `consumers.set(x.id, x)` on the room `key`, with `x.id` held by no
      room before, `findConsumer(x.id)` gives `x` from that room and every other
      id is found as before. */
  lemma LookupsAfterAddConsumer(rooms: Rooms, key: string, x: Consumer)
    requires key in rooms.entries && ConsumerLookup(rooms, x.id).None?
    ensures ConsumerLookup(AddConsumer(rooms, key, x), x.id) == Some(x)
    ensures RoomOfConsumer(AddConsumer(rooms, key, x), x.id) == Some(key)
    ensures forall id :: id != x.id ==> ConsumerLookup(AddConsumer(rooms, key, x), id) == ConsumerLookup(rooms, id)
  {
    MapsAfterAddConsumer(rooms, key, x);
    LookupInAfterSet(ConsumerMaps(rooms), IndexOf(rooms, key), x.id, x);
  }

  /** With ids unique across rooms, deleting `id` from the room `key` that
      holds it leaves no room holding it; every other id is found as before. */
  lemma LookupsAfterRemoveConsumer(rooms: Rooms, key: string, id: string)
    requires UniqueIds(rooms) && key in rooms.entries && Has(rooms.entries[key].consumers, id)
    ensures RoomOfConsumer(rooms, id) == Some(key)
    ensures ConsumerLookup(RemoveConsumer(rooms, key, id), id).None?
    ensures forall y :: y != id ==> ConsumerLookup(RemoveConsumer(rooms, key, id), y) == ConsumerLookup(rooms, y)
  {
    MapsAfterRemoveConsumer(rooms, key, id);
    OnlyHolder(ConsumerMaps(rooms), IndexOf(rooms, key), id);
    LookupInAfterDelete(ConsumerMaps(rooms), IndexOf(rooms, key), id);
  }

  /** Adding keeps entries under their own ids, and keeps ids unique when the
      new id was held by no room. */
  lemma AddConsumerKeepsInvariants(rooms: Rooms, key: string, x: Consumer)
    requires key in rooms.entries
    ensures WellKeyed(rooms) ==> WellKeyed(AddConsumer(rooms, key, x))
    ensures UniqueIds(rooms) && ConsumerLookup(rooms, x.id).None? ==> UniqueIds(AddConsumer(rooms, key, x))
  {
    if WellKeyed(rooms) {
      AddConsumerKeepsWellKeyed(rooms, key, x);
    }
    if UniqueIds(rooms) && ConsumerLookup(rooms, x.id).None? {
      AddConsumerKeepsUniqueIds(rooms, key, x);
    }
  }

  lemma AddConsumerKeepsWellKeyed(rooms: Rooms, key: string, x: Consumer)
    requires key in rooms.entries && WellKeyed(rooms)
    ensures WellKeyed(AddConsumer(rooms, key, x))
  {
    var room := rooms.entries[key];
    assert RoomWellKeyed(room);
    assert AddConsumer(rooms, key, x) == Set(rooms, key, room.(consumers := Set(room.consumers, x.id, x)));
    WellKeyedAfterUpdate(rooms, key, room.(consumers := Set(room.consumers, x.id, x)));
  }

  lemma AddConsumerKeepsUniqueIds(rooms: Rooms, key: string, x: Consumer)
    requires key in rooms.entries && UniqueIds(rooms) && ConsumerLookup(rooms, x.id).None?
    ensures UniqueIds(AddConsumer(rooms, key, x))
  {
    MapsAfterAddConsumer(rooms, key, x);
    var ds := ConsumerMaps(rooms);
    DisjointAfterChange(ds, ds[IndexOf(rooms, key) := Set(rooms.entries[key].consumers, x.id, x)], IndexOf(rooms, key), Some(x.id));
  }

  /** Removing keeps both invariants. */
  lemma RemoveConsumerKeepsInvariants(rooms: Rooms, key: string, id: string)
    ensures WellKeyed(rooms) ==> WellKeyed(RemoveConsumer(rooms, key, id))
    ensures UniqueIds(rooms) ==> UniqueIds(RemoveConsumer(rooms, key, id))
  {
    if key in rooms.entries {
      MapsAfterRemoveConsumer(rooms, key, id);
      var ds := ConsumerMaps(rooms);
      if UniqueIds(rooms) {
        DisjointAfterChange(ds, ds[IndexOf(rooms, key) := Delete(rooms.entries[key].consumers, id)], IndexOf(rooms, key), None);
      }
    }
  }
}
