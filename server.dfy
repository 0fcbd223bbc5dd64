/**
 * server.js: the `MediaSoupServer` object that owns the worker pool and the
 * room dictionary, builds the pool at start-up, scans the rooms for an
 * entity by its bare id and empties everything at shutdown.
 */
module Server {
  import opened Wrappers
  import opened OrderedMap
  import opened Registry
  import Config

  /** The engine's answer to the i-th `createWorker` call: the new worker's
      pid, or the exception it threw. */
  type Spawner = nat -> Engine<int>

  /** The first of the first `n` creations that throws, if any. */
  function FirstFailure(spawn: Spawner, n: nat): (r: Option<nat>)
    ensures r.Some? ==> r.value < n && spawn(r.value).Throws?
    ensures r.Some? ==> forall j :: 0 <= j < r.value ==> spawn(j).Returns?
    ensures r.None? <==> forall j :: 0 <= j < n ==> spawn(j).Returns?
  {
    if n == 0 then None
    else match FirstFailure(spawn, n - 1)
      case Some(i) => Some(i)
      case None => if spawn(n - 1).Throws? then Some(n - 1) else None
  }

  /** The workers the first `n` creations give, the i-th tagged with
      `appData.workerId = i`. */
  function Pool(spawn: Spawner, n: nat): (ws: seq<Worker>)
    requires forall i :: 0 <= i < n ==> spawn(i).Returns?
    ensures |ws| == n
    ensures forall i :: 0 <= i < n ==> ws[i].workerId == i && ws[i].pid == spawn(i).value
  {
    seq(n, i requires 0 <= i < n => Worker(spawn(i).value, i))
  }

  class MediaSoupServer {
    const config: Config.Settings
    var workers: seq<Worker>
    var rooms: Rooms

    constructor(config: Config.Settings)
      ensures this.config == config
      ensures workers == [] && rooms == Empty()
    {
      this.config := config;
      workers := [];
      rooms := Empty();
    }

    /** How often the `for` loop of `createWorkers` runs: `workerCount`
        times, and not at all when it is negative. */
    function Attempts(): nat
      reads this
    {
      if config.workerCount < 0 then 0 else config.workerCount
    }

    /** `createWorkers()`: push one worker per attempt; the first creation
        that throws stops the loop with the workers before it pushed, and its
        exception propagates. */
    method CreateWorkers(spawn: Spawner) returns (outcome: Completion)
      modifies this
      ensures rooms == old(rooms)
      ensures FirstFailure(spawn, Attempts()).None? ==>
        outcome == Completed && workers == old(workers) + Pool(spawn, Attempts())
      ensures FirstFailure(spawn, Attempts()).Some? ==>
        var i := FirstFailure(spawn, Attempts()).value;
        outcome == Failed(spawn(i).message) && workers == old(workers) + Pool(spawn, i)
    {
      var i: nat := 0;
      while i < config.workerCount
        invariant i <= Attempts()
        invariant forall j :: 0 <= j < i ==> spawn(j).Returns?
        invariant workers == old(workers) + Pool(spawn, i)
        invariant rooms == old(rooms)
      {
        var created := spawn(i);
        if created.Throws? {
          return Failed(created.message);
        }
        workers := workers + [Worker(created.value, i)];
        assert Pool(spawn, i + 1) == Pool(spawn, i) + [Worker(created.value, i)];
        i := i + 1;
      }
      return Completed;
    }

    /** `getLeastLoadedWorker()`: null exactly when there is no worker,
        otherwise a worker of the pool (picked at random by the source). */
    method GetLeastLoadedWorker() returns (w: Option<Worker>)
      ensures w.None? <==> workers == []
      ensures w.Some? ==> w.value in workers
    {
      if |workers| == 0 {
        return None;
      }
      var i :| 0 <= i < |workers|;
      return Some(workers[i]);
    }

    /** `findTransport(id)`: the rooms in iteration order, stopping at the
        first whose `transports` holds `id`. */
    method FindTransport(transportId: string) returns (r: Option<Transport>)
      ensures r == TransportLookup(rooms, transportId)
    {
      ghost var ds := TransportMaps(rooms);
      var i := 0;
      while i < |rooms.keys|
        invariant i <= |rooms.keys|
        invariant forall j :: 0 <= j < i ==> !Has(ds[j], transportId)
      {
        var room := rooms.entries[rooms.keys[i]];
        var transport := Get(room.transports, transportId);
        ScanStep(ds, i, transportId);
        if transport.Some? {
          return transport;
        }
        i := i + 1;
      }
      ScanStep(ds, i, transportId);
      return None;
    }

    /** `findProducer(id)`, the same scan over the rooms' `producers`. */
    method FindProducer(producerId: string) returns (r: Option<Producer>)
      ensures r == ProducerLookup(rooms, producerId)
    {
      ghost var ds := ProducerMaps(rooms);
      var i := 0;
      while i < |rooms.keys|
        invariant i <= |rooms.keys|
        invariant forall j :: 0 <= j < i ==> !Has(ds[j], producerId)
      {
        var room := rooms.entries[rooms.keys[i]];
        var producer := Get(room.producers, producerId);
        ScanStep(ds, i, producerId);
        if producer.Some? {
          return producer;
        }
        i := i + 1;
      }
      ScanStep(ds, i, producerId);
      return None;
    }

    /** `findConsumer(id)`, the same scan over the rooms' `consumers`. */
    method FindConsumer(consumerId: string) returns (r: Option<Consumer>)
      ensures r == ConsumerLookup(rooms, consumerId)
    {
      ghost var ds := ConsumerMaps(rooms);
      var i := 0;
      while i < |rooms.keys|
        invariant i <= |rooms.keys|
        invariant forall j :: 0 <= j < i ==> !Has(ds[j], consumerId)
      {
        var room := rooms.entries[rooms.keys[i]];
        var consumer := Get(room.consumers, consumerId);
        ScanStep(ds, i, consumerId);
        if consumer.Some? {
          return consumer;
        }
        i := i + 1;
      }
      ScanStep(ds, i, consumerId);
      return None;
    }

    /** `findRoomByTransport(id)`: the first room whose `transports` has
        `id`, given by its id in `rooms`. */
    method FindRoomByTransport(transportId: string) returns (r: Option<string>)
      ensures r == RoomOfTransport(rooms, transportId)
    {
      ghost var ds := TransportMaps(rooms);
      var i := 0;
      while i < |rooms.keys|
        invariant i <= |rooms.keys|
        invariant forall j :: 0 <= j < i ==> !Has(ds[j], transportId)
      {
        var room := rooms.entries[rooms.keys[i]];
        ScanStep(ds, i, transportId);
        if Has(room.transports, transportId) {
          return Some(rooms.keys[i]);
        }
        i := i + 1;
      }
      ScanStep(ds, i, transportId);
      return None;
    }

    /** `shutdown()`: after closing every router and worker in the engine,
        the room dictionary and the worker list are replaced by empty ones. */
    method Shutdown()
      modifies this
      ensures rooms == Empty() && workers == []
    {
      rooms := Empty();
      workers := [];
    }
  }
}
