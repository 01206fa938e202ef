/** The request handlers every node has, and the leader's PUT that replaces one of them. */
module Nodes {
  import opened Versions
  import opened Storage
  import opened Topology
  import opened Gather
  import opened Handlers

  class NodeApp {
    const nodeId: string
    const storage: KVStore

    constructor (nodeId: string)
      ensures this.nodeId == nodeId && fresh(storage) && storage.data == map[]
    {
      this.nodeId := nodeId;
      storage := new KVStore();
    }

    method GetKey(key: Key) returns (response: Response)
      ensures response == if key in storage.data then Found(storage.data[key]) else NotFound
    {
      var entry := storage.Get(key);
      response := if entry.None? then NotFound else Found(entry.value);
    }

    /** A client's write is stamped here, never by the client. */
    method PutKey(key: Key, value: Value, now: real) returns (response: Response)
      modifies storage
      ensures var v := VersionedValue(value, now, nodeId);
              && storage.data == PutStore(old(storage.data), key, v)
              && response == PutOk(Accepts(old(storage.data), key, v), now)
    {
      var applied := storage.Put(key, value, now, nodeId);
      return PutOk(applied, now);
    }

    /** A replicated write keeps its stamp. A second delivery of it changes nothing. */
    method Replicate(key: Key, version: VersionedValue) returns (applied: bool)
      modifies storage
      ensures storage.data == PutStore(old(storage.data), key, version)
      ensures applied == Accepts(old(storage.data), key, version)
      ensures !Accepts(storage.data, key, version)
    {
      PutTwice(storage.data, key, version);
      assert PutAll(PutStore(storage.data, key, version), []) == PutStore(storage.data, key, version);
      applied := storage.Put(key, version.value, version.timestamp, version.nodeId);
    }

    method Health() returns (id: string, keyCount: nat)
      ensures id == nodeId && keyCount == |storage.data.Keys|
    {
      id := nodeId;
      keyCount := storage.KeyCount();
    }

    /** Deleting is local and leaves no tombstone: any later delivery is accepted again. */
    method DeleteKey(key: Key) returns (deleted: bool)
      modifies storage
      ensures deleted == (key in old(storage.data)) && storage.data == old(storage.data) - {key}
      ensures forall v :: Accepts(storage.data, key, v)
    {
      deleted := storage.Delete(key);
    }
  }

  /** What a store holds after any further puts, in order. */
  function PutAll(s: Store, puts: seq<(Key, VersionedValue)>): Store
    decreases |puts|
  {
    if puts == [] then s else PutAll(PutStore(s, puts[0].0, puts[0].1), puts[1..])
  }

  lemma {:induction false} StaysRejected(s: Store, k: Key, v: VersionedValue, puts: seq<(Key, VersionedValue)>)
    requires Covers(Lookup(s, k), v)
    ensures !Accepts(PutAll(s, puts), k, v)
    decreases |puts|
  {
    if puts != [] {
      var s1 := PutStore(s, puts[0].0, puts[0].1);
      PutRaises(s, puts[0].0, puts[0].1);
      CoversRises(Lookup(s1, k), Lookup(s, k), v);
      StaysRejected(s1, k, v, puts[1..]);
    }
  }

  /** At-least-once delivery is harmless: a version put once is never accepted again, after
      any number of further puts. */
  lemma PutTwice(s: Store, k: Key, v: VersionedValue)
    ensures forall puts :: !Accepts(PutAll(PutStore(s, k, v), puts), k, v)
  {
    PutRaises(s, k, v);
    forall puts ensures !Accepts(PutAll(PutStore(s, k, v), puts), k, v) {
      StaysRejected(PutStore(s, k, v), k, v, puts);
    }
  }

  /** The leader: every write is stored here first, then sent to every follower. */
  class LeaderNode {
    const nodeId: string
    const ackRequired: int
    const followers: set<Port>
    const storage: KVStore
    const replicator: Replicator

    constructor (nodeId: string, ackRequired: int, followers: set<Port>)
      ensures fresh(storage) && fresh(replicator)
      ensures storage.data == map[] && replicator.background == {}
      ensures this.nodeId == nodeId && this.ackRequired == ackRequired && this.followers == followers
    {
      this.nodeId := nodeId;
      this.ackRequired := ackRequired;
      this.followers := followers;
      storage := new KVStore();
      replicator := new Replicator();
    }

    /** The answer is "unavailable" exactly when the wait ended short of `ackRequired`
        acks, which it can only do with a task still unfinished or every follower heard
        from; the write is stored and sent either way. A cancelled wait answers nobody. */
    method PutKey(key: Key, value: Value, now: real, request: nat, results: map<Port, Task>, schedule: seq<Wake>)
      returns (response: Response, exit: Exit)
      requires ScheduleFits(results, followers, schedule)
      modifies storage, replicator
      ensures var v := VersionedValue(value, now, nodeId);
              var r := Loop(results, followers, 0, ackRequired, schedule);
              && storage.data == PutStore(old(storage.data), key, v)
              && AllFinished(results, r.0) && exit == r.1
              && response == PutAnswer(ackRequired + 1, |Counting(results, r.0)|, Accepts(old(storage.data), key, v),
                                       now)
              && replicator.background ==
                 old(replicator.background)
                 + (if exit.Interrupted? then {} else TasksOf(request, followers - Elements(r.0)))
      ensures var v := VersionedValue(value, now, nodeId);
              var acks := |Counting(results, Loop(results, followers, 0, ackRequired, schedule).0)|;
              && (response == PutOk(Accepts(old(storage.data), key, v), now) <==> acks >= ackRequired)
              && (response == Unavailable <==> acks < ackRequired)
      ensures exit.LoopDone? && response.Unavailable?
              ==> Elements(Loop(results, followers, 0, ackRequired, schedule).0) == followers
    {
      LoopConserves(results, followers, 0, ackRequired, schedule);
      var localApplied := storage.Put(key, value, now, nodeId);
      var acked;
      acked, exit := replicator.Replicate(request, followers, results, ackRequired, schedule);
      if acked < ackRequired {
        return Unavailable, exit;
      }
      return PutOk(localApplied, now), exit;
    }
  }
}
