/** The leaderless cluster as a step system: any node coordinates, every message is sent,
    delivered or lost on its own, and floods outlive the requests that started them. */
module Cluster {
  import opened Versions
  import opened Storage
  import opened Topology
  import opened Gather
  import opened Handlers

  datatype Config = Config(nodes: seq<Node>, nodeIds: map<Port, string>)

  ghost predicate ValidConfig(c: Config) {
    DistinctPorts(c.nodes) && Ports(c.nodes) <= c.nodeIds.Keys
  }

  function Members(c: Config): set<Port> {
    Ports(c.nodes)
  }

  function PeerPorts(c: Config, own: Port): set<Port> {
    Ports(PeersExcluding(c.nodes, own))
  }

  /** A message to one peer. `Arrived` carries what the peer answered: nothing for a
      replicated write, its local entry for a read. Arrival does not mean the answer
      gets back, and a sender that gave up does not recall its message. */
  datatype Message = Sent | Arrived(reply: Option<VersionedValue>) | Lost

  datatype Operation = Write(version: VersionedValue, applied: bool) | Read(local: Option<VersionedValue>)

  datatype Status = Waiting | Answered(response: Response) | Aborted

  /** One client request at its coordinator. `before`, the stores as they were when the
      request began, is history: no step looks at it. */
  datatype Request = Request(
    coord: Port, key: Key, quorum: int, op: Operation,
    messages: map<Port, Message>, tasks: map<Port, Task>,
    pending: set<Port>, background: set<Port>, collected: seq<Reply>,
    status: Status, before: map<Port, Store>)

  /** `deleted`, the keys some node was ever told to delete, is history as well. */
  datatype State = State(stores: map<Port, Store>, requests: seq<Request>, deleted: set<Key>)

  datatype Step =
    | BeginPut(coord: Port, key: Key, value: Value, timestamp: real, w: int)
    | BeginGet(coord: Port, key: Key, r: int, chosen: set<Port>)
    | Deliver(i: nat, peer: Port)
    | Lose(i: nat, peer: Port)
    | Complete(i: nat, peer: Port)
    | Fail(i: nat, peer: Port)
    | TakeIn(i: nat, done: seq<Port>)
    | Leave(i: nat, aborted: bool)
    | Delete(node: Port, key: Key)

  ghost function Init(c: Config): State {
    State(map n | n in Members(c) :: map[], [], {})
  }

  /** The answer the handler computes when its wait is over. */
  function Answer(q: Request): Response {
    match q.op
    case Write(v, applied) => PutAnswer(q.quorum, |q.collected|, applied, v.timestamp)
    case Read(local) => GetAnswer(q.quorum, local, q.collected)
  }

  /** Nothing to wait for, or enough collected. */
  predicate WaitOver(q: Request) {
    q.pending == {} || |q.collected| >= q.quorum - 1
  }

  /** A wait can be left at any time by giving up, but cancelled only while it goes on. */
  ghost predicate Enabled(c: Config, s: State, step: Step) {
    match step
    case BeginPut(coord, key, value, timestamp, w) => coord in Members(c) && 1 <= w <= |c.nodes|
    case BeginGet(coord, key, r, chosen) =>
      && coord in Members(c) && 1 <= r <= |c.nodes|
      && ReadPeersAllowed(PeerPorts(c, coord), r - 1, chosen)
    case Deliver(i, p) =>
      i < |s.requests| && p in s.requests[i].messages && s.requests[i].messages[p].Sent?
    case Lose(i, p) =>
      i < |s.requests| && p in s.requests[i].messages && s.requests[i].messages[p].Sent?
    case Complete(i, p) =>
      && i < |s.requests| && p in s.requests[i].tasks && s.requests[i].tasks[p].Running?
      && p in s.requests[i].messages && s.requests[i].messages[p].Arrived?
    case Fail(i, p) =>
      i < |s.requests| && p in s.requests[i].tasks && s.requests[i].tasks[p].Running?
    case TakeIn(i, done) =>
      && i < |s.requests| && s.requests[i].status.Waiting?
      && |s.requests[i].collected| < s.requests[i].quorum - 1
      && done != [] && NoDuplicates(done) && Elements(done) <= s.requests[i].pending
      && AllFinished(s.requests[i].tasks, done)
    case Leave(i, aborted) =>
      && i < |s.requests| && s.requests[i].status.Waiting?
      && (aborted ==> !WaitOver(s.requests[i]))
    case Delete(node, key) => node in Members(c)
  }

  function FreshRequest(coord: Port, key: Key, quorum: int, op: Operation, contacted: set<Port>,
                        before: map<Port, Store>): Request {
    Request(coord, key, quorum, op,
            map p | p in contacted :: Sent, map p | p in contacted :: Running,
            contacted, {}, [], Waiting, before)
  }

  function SetTask(q: Request, p: Port, t: Task): Request {
    q.(tasks := q.tasks[p := t], background := q.background - {p})
  }

  function Delivered(s: State, i: nat, p: Port): State
    requires i < |s.requests| && p in s.stores
  {
    var q := s.requests[i];
    match q.op
    case Write(v, _) =>
      s.(stores := s.stores[p := PutStore(s.stores[p], q.key, v)],
         requests := s.requests[i := q.(messages := q.messages[p := Arrived(None)])])
    case Read(_) =>
      s.(requests := s.requests[i := q.(messages := q.messages[p := Arrived(Lookup(s.stores[p], q.key))])])
  }

  function Left(q: Request, aborted: bool): Request {
    q.(pending := {},
       background := (set p | p in q.pending && p in q.tasks && q.tasks[p].Running?),
       status := if aborted then Aborted else Answered(Answer(q)))
  }

  /** Every node and every contacted peer is one that exists. */
  ghost predicate WellFormed(c: Config, s: State) {
    && s.stores.Keys == Members(c)
    && Members(c) <= c.nodeIds.Keys
    && forall i | 0 <= i < |s.requests| :: s.requests[i].messages.Keys <= s.stores.Keys
  }

  ghost function Apply(c: Config, s: State, step: Step): State
    requires WellFormed(c, s) && Enabled(c, s, step)
  {
    match step
    case BeginPut(coord, key, value, timestamp, w) =>
      var v := VersionedValue(value, timestamp, c.nodeIds[coord]);
      var applied := Accepts(s.stores[coord], key, v);
      s.(stores := s.stores[coord := PutStore(s.stores[coord], key, v)],
         requests := s.requests + [FreshRequest(coord, key, w, Write(v, applied), PeerPorts(c, coord), s.stores)])
    case BeginGet(coord, key, r, chosen) =>
      s.(requests := s.requests + [FreshRequest(coord, key, r, Read(Lookup(s.stores[coord], key)), chosen, s.stores)])
    case Deliver(i, p) => Delivered(s, i, p)
    case Lose(i, p) =>
      s.(requests := s.requests[i := s.requests[i].(messages := s.requests[i].messages[p := Lost])])
    case Complete(i, p) =>
      s.(requests := s.requests[i := SetTask(s.requests[i], p, Finished(true, s.requests[i].messages[p].reply))])
    case Fail(i, p) =>
      s.(requests := s.requests[i := SetTask(s.requests[i], p, Finished(false, None))])
    case TakeIn(i, done) =>
      var q := s.requests[i];
      s.(requests := s.requests[i := q.(pending := q.pending - Elements(done),
                                         collected := q.collected + Counting(q.tasks, done))])
    case Leave(i, aborted) =>
      s.(requests := s.requests[i := Left(s.requests[i], aborted)])
    case Delete(node, key) =>
      s.(stores := s.stores[node := s.stores[node] - {key}], deleted := s.deleted + {key})
  }

  lemma ApplyWellFormed(c: Config, s: State, step: Step)
    requires WellFormed(c, s) && Enabled(c, s, step)
    ensures WellFormed(c, Apply(c, s, step))
  {
    match step
    case BeginPut(coord, key, value, timestamp, w) => BeginWellFormed(c, s, step);
    case BeginGet(coord, key, r, chosen) => BeginWellFormed(c, s, step);
    case Deliver(i, p) => DeliveredWellFormed(c, s, i, p);
    case Lose(i, p) =>
      RequestUpdated(c, s, i, s.requests[i].(messages := s.requests[i].messages[p := Lost]));
    case Complete(i, p) => RequestUpdated(c, s, i, Apply(c, s, step).requests[i]);
    case Fail(i, p) => RequestUpdated(c, s, i, Apply(c, s, step).requests[i]);
    case TakeIn(i, done) => RequestUpdated(c, s, i, Apply(c, s, step).requests[i]);
    case Leave(i, aborted) => RequestUpdated(c, s, i, Apply(c, s, step).requests[i]);
    case Delete(node, key) =>
  }

  lemma BeginWellFormed(c: Config, s: State, step: Step)
    requires WellFormed(c, s) && Enabled(c, s, step) && (step.BeginPut? || step.BeginGet?)
    ensures WellFormed(c, Apply(c, s, step))
  {
    PeersAre(c.nodes, step.coord);
    var s' := Apply(c, s, step);
    assert s'.stores.Keys == s.stores.Keys;
    assert s'.requests[|s.requests|].messages.Keys <= PeerPorts(c, step.coord);
  }

  lemma RequestUpdated(c: Config, s: State, i: nat, q: Request)
    requires WellFormed(c, s) && i < |s.requests| && q.messages.Keys == s.requests[i].messages.Keys
    ensures WellFormed(c, s.(requests := s.requests[i := q]))
  {
  }

  lemma DeliveredWellFormed(c: Config, s: State, i: nat, p: Port)
    requires WellFormed(c, s) && i < |s.requests| && p in s.requests[i].messages
    ensures WellFormed(c, Delivered(s, i, p))
  {
    var s' := Delivered(s, i, p);
    var q' := s'.requests[i];
    assert q'.messages.Keys == s.requests[i].messages.Keys;
    var s1 := s.(stores := s'.stores);
    RequestUpdated(c, s1, i, q');
    assert s' == s1.(requests := s1.requests[i := q']);
  }

  // ----- Runs

  ghost predicate Legal(c: Config, s: State, steps: seq<Step>)
    decreases |steps|
  {
    && WellFormed(c, s)
    && (steps == [] || (Enabled(c, s, steps[0]) && Legal(c, Apply(c, s, steps[0]), steps[1..])))
  }

  ghost function Exec(c: Config, s: State, steps: seq<Step>): State
    requires Legal(c, s, steps)
    decreases |steps|
  {
    if steps == [] then s else Exec(c, Apply(c, s, steps[0]), steps[1..])
  }

  lemma {:induction false} LegalAppend(c: Config, s: State, xs: seq<Step>, ys: seq<Step>)
    requires Legal(c, s, xs) && Legal(c, Exec(c, s, xs), ys)
    ensures Legal(c, s, xs + ys) && Exec(c, s, xs + ys) == Exec(c, Exec(c, s, xs), ys)
    decreases |xs|
  {
    if xs == [] {
      assert xs + ys == ys;
    } else {
      assert (xs + ys)[1..] == xs[1..] + ys;
      LegalAppend(c, Apply(c, s, xs[0]), xs[1..], ys);
    }
  }

  lemma LegalCons(c: Config, s: State, step: Step, rest: seq<Step>)
    requires WellFormed(c, s) && Enabled(c, s, step) && Legal(c, Apply(c, s, step), rest)
    ensures Legal(c, s, [step] + rest) && Exec(c, s, [step] + rest) == Exec(c, Apply(c, s, step), rest)
  {
    assert ([step] + rest)[1..] == rest;
  }

  lemma LegalSnoc(c: Config, s: State, steps: seq<Step>, step: Step)
    requires Legal(c, s, steps) && Enabled(c, Exec(c, s, steps), step)
    ensures WellFormed(c, Exec(c, s, steps))
    ensures Legal(c, s, steps + [step]) && Exec(c, s, steps + [step]) == Apply(c, Exec(c, s, steps), step)
  {
    ExecWellFormed(c, s, steps);
    var s1 := Exec(c, s, steps);
    ApplyWellFormed(c, s1, step);
    LegalCons(c, s1, step, []);
    assert [step] + [] == [step];
    LegalAppend(c, s, steps, [step]);
  }

  lemma {:induction false} ExecWellFormed(c: Config, s: State, steps: seq<Step>)
    requires Legal(c, s, steps)
    ensures WellFormed(c, Exec(c, s, steps))
    decreases |steps|
  {
    if steps != [] {
      ExecWellFormed(c, Apply(c, s, steps[0]), steps[1..]);
    }
  }

  lemma {:induction false} DeletedIff(c: Config, s: State, steps: seq<Step>, k: Key)
    requires Legal(c, s, steps)
    ensures k in Exec(c, s, steps).deleted
            <==> k in s.deleted || exists i :: 0 <= i < |steps| && steps[i].Delete? && steps[i].key == k
    decreases |steps|
  {
    if steps != [] {
      DeletedIff(c, Apply(c, s, steps[0]), steps[1..], k);
      if i :| 0 <= i < |steps[1..]| && steps[1..][i].Delete? && steps[1..][i].key == k {
        assert steps[i + 1] == steps[1..][i];
      }
      if i :| 0 <= i < |steps| && steps[i].Delete? && steps[i].key == k {
        assert i > 0 ==> steps[1..][i - 1] == steps[i];
      }
    }
  }
}
