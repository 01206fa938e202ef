/** What a client-facing handler answers, given what its gather collected. */
module Handlers {
  import opened Versions
  import opened Storage
  import opened Topology
  import opened Gather

  datatype Response =
    | PutOk(applied: bool, timestamp: real)
    | Found(version: VersionedValue)
    | NotFound
    | Unavailable   // 503: quorum not reached in time
    | Rejected      // 422: quorum parameter out of range

  function Candidates(entries: seq<Option<VersionedValue>>): (vs: seq<VersionedValue>)
    decreases |entries|
  {
    if entries == [] then []
    else (if entries[0].Some? then [entries[0].value] else []) + Candidates(entries[1..])
  }

  function Values(replies: seq<Reply>): (vs: seq<Option<VersionedValue>>)
    ensures |vs| == |replies|
    ensures forall i | 0 <= i < |vs| :: vs[i] == replies[i].value
  {
    seq(|replies|, i requires 0 <= i < |replies| => replies[i].value)
  }

  /** The winner among the entries that hold something: the same join a store computes. */
  function Resolve(entries: seq<Option<VersionedValue>>): Response {
    var winner := Join(Candidates(entries));
    if winner.None? then NotFound else Found(winner.value)
  }

  function PutAnswer(w: int, acks: int, applied: bool, timestamp: real): Response {
    if 1 + acks < w then Unavailable else PutOk(applied, timestamp)
  }

  function GetAnswer(r: int, local: Option<VersionedValue>, replies: seq<Reply>): Response {
    if 1 + |replies| < r then Unavailable else Resolve([local] + Values(replies))
  }

  lemma {:induction false} CandidatesAre(entries: seq<Option<VersionedValue>>)
    ensures forall v :: v in Candidates(entries) <==> Some(v) in entries
    decreases |entries|
  {
    if entries != [] {
      CandidatesAre(entries[1..]);
      assert entries == [entries[0]] + entries[1..];
      forall v ensures v in Candidates(entries) <==> Some(v) in entries {
        assert v in Candidates(entries) <==> (entries[0] == Some(v) || v in Candidates(entries[1..]));
        assert Some(v) in entries <==> (entries[0] == Some(v) || Some(v) in entries[1..]);
      }
    }
  }

  /** The read loop answers with a collected entry that covers every collected entry, and
      answers "not found" exactly when no response holds the key. */
  lemma ResolveIsNewest(entries: seq<Option<VersionedValue>>)
    ensures Resolve(entries).NotFound? || Resolve(entries).Found?
    ensures Resolve(entries).NotFound? <==> forall e | e in entries :: e.None?
    ensures Resolve(entries).Found? ==>
              && Some(Resolve(entries).version) in entries
              && forall e | e in entries :: EntryAtLeast(Some(Resolve(entries).version), e)
  {
    CandidatesAre(entries);
    var cs := Candidates(entries);
    JoinCovers(cs);
    forall e | e in entries && e.Some? ensures e.value in cs && Covers(Join(cs), e.value) {
      assert Some(e.value) in entries;
    }
    if cs != [] {
      assert Some(cs[0]) in entries;
    }
  }

  /** Neither the order of the responses nor the empty ones among them affect the stamp. */
  lemma ResolveStampIndependent(xs: seq<Option<VersionedValue>>, ys: seq<Option<VersionedValue>>)
    requires forall v :: Some(v) in xs <==> Some(v) in ys
    ensures Resolve(xs).NotFound? <==> Resolve(ys).NotFound?
    ensures Resolve(xs).Found? ==> Resolve(xs).version.SameStamp(Resolve(ys).version)
  {
    CandidatesAre(xs);
    CandidatesAre(ys);
    SameWritesSameStamp(Candidates(xs), Candidates(ys));
  }

  /** The loop at the end of a read: keep the newest candidate seen so far. */
  method ResolveRead(entries: seq<Option<VersionedValue>>) returns (response: Response)
    ensures response == Resolve(entries)
    ensures response.NotFound? <==> forall e | e in entries :: e.None?
    ensures response.Found? ==>
              && Some(response.version) in entries
              && forall e | e in entries :: EntryAtLeast(Some(response.version), e)
  {
    ResolveIsNewest(entries);
    var candidates := Candidates(entries);
    if candidates == [] {
      return NotFound;
    }
    var winner := candidates[0];
    var i := 1;
    while i < |candidates|
      invariant 1 <= i <= |candidates|
      invariant JoinFrom(Some(winner), candidates[i..]) == Join(candidates)
    {
      assert candidates[i..][1..] == candidates[i + 1..];
      if candidates[i].IsNewerThan(winner) {
        winner := candidates[i];
      }
      i := i + 1;
    }
    return Found(winner);
  }

  /** All peers if that many are wanted, otherwise exactly `needed` of them. */
  ghost predicate ReadPeersAllowed(peers: set<Port>, needed: int, chosen: set<Port>) {
    if needed <= 0 then chosen == {}
    else if needed >= |peers| then chosen == peers
    else chosen <= peers && |chosen| == needed
  }

  /** One leaderless node: its store and its coordinator. */
  class LeaderlessNode {
    const nodeId: string
    const clusterSize: nat
    const peers: set<Port>
    const storage: KVStore
    const coordinator: QuorumCoordinator

    constructor (nodeId: string, nodes: seq<Node>, ownPort: Port)
      ensures fresh(storage) && fresh(coordinator)
      ensures storage.data == map[] && coordinator.background == {}
      ensures this.nodeId == nodeId && clusterSize == |nodes| && peers == Ports(PeersExcluding(nodes, ownPort))
    {
      this.nodeId := nodeId;
      clusterSize := |nodes|;
      peers := Ports(PeersExcluding(nodes, ownPort));
      storage := new KVStore();
      coordinator := new QuorumCoordinator();
    }

    /** PUT: stamp, write locally, flood every peer, wait for w-1 acks. A write answered
        "unavailable" has still been stored locally and sent to every peer. A wait that was
        interrupted answers nobody. */
    method PutKey(key: Key, value: Value, w: int, timestamp: real, request: nat,
                  results: map<Port, Task>, schedule: seq<Wake>)
      returns (response: Response, exit: Exit)
      requires ScheduleFits(results, peers, schedule)
      modifies storage, coordinator
      ensures !(1 <= w <= clusterSize) ==>
                response == Rejected && storage.data == old(storage.data)
                && coordinator.background == old(coordinator.background)
      ensures 1 <= w <= clusterSize ==>
                var v := VersionedValue(value, timestamp, nodeId);
                var r := Loop(results, peers, 0, w - 1, schedule);
                && storage.data == PutStore(old(storage.data), key, v)
                && AllFinished(results, r.0) && exit == r.1
                && coordinator.background == old(coordinator.background) + TasksOf(request, peers - Elements(r.0))
                && response == PutAnswer(w, |Counting(results, r.0)|, Accepts(old(storage.data), key, v), timestamp)
                && (response == PutOk(Accepts(old(storage.data), key, v), timestamp)
                    <==> |Counting(results, r.0)| >= w - 1)
                && (response == Unavailable <==> |Counting(results, r.0)| < w - 1)
    {
      if !(1 <= w <= clusterSize) {
        return Rejected, LoopDone;
      }
      var localApplied := storage.Put(key, value, timestamp, nodeId);
      var acked;
      acked, exit := coordinator.Gather(request, peers, results, w - 1, schedule);
      var totalAcked := 1 + |acked|;
      if totalAcked < w {
        return Unavailable, exit;
      }
      return PutOk(localApplied, timestamp), exit;
    }

    /** GET: read locally, ask exactly r-1 peers, answer with the newest entry. */
    method GetKey(key: Key, r: int, chosen: set<Port>, request: nat,
                  results: map<Port, Task>, schedule: seq<Wake>)
      returns (response: Response, exit: Exit)
      requires ReadPeersAllowed(peers, r - 1, chosen)
      requires ScheduleFits(results, chosen, schedule)
      modifies coordinator
      ensures !(1 <= r <= clusterSize) ==>
                response == Rejected && coordinator.background == old(coordinator.background)
      ensures 1 <= r <= clusterSize ==>
                var g := Loop(results, chosen, 0, r - 1, schedule);
                && AllFinished(results, g.0) && exit == g.1
                && response == GetAnswer(r, Lookup(storage.data, key), Counting(results, g.0))
                && coordinator.background == old(coordinator.background) + TasksOf(request, chosen - Elements(g.0))
                && (response == Unavailable <==> |Counting(results, g.0)| < r - 1)
                && (response != Unavailable ==>
                      response == Resolve([Lookup(storage.data, key)] + Values(Counting(results, g.0))))
    {
      if !(1 <= r <= clusterSize) {
        return Rejected, LoopDone;
      }
      var localEntry := storage.Get(key);
      var peerEntries;
      peerEntries, exit := coordinator.Gather(request, chosen, results, r - 1, schedule);
      var totalResponses := 1 + |peerEntries|;
      if totalResponses < r {
        return Unavailable, exit;
      }
      response := ResolveRead([localEntry] + Values(peerEntries));
    }
  }
}
