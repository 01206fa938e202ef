/** The leader-follower cluster. Its leader floods every follower just as a leaderless
    coordinator floods its peers, waiting for `ackRequired` follower acks where the
    coordinator waits for w-1; its followers answer reads from their own store alone. So
    it is the leaderless cluster with one writer, w = ackRequired + 1 and r = 1, plus the
    semaphore that admits follower POSTs. */
module LeaderFollower {
  import opened Topology
  import opened Gather
  import opened Cluster
  import opened ClusterSafety
  import opened LoadTest
  import opened Monitor

  const MAX_CONCURRENT_REPLICATE_CALLS := 256

  datatype LeaderConfig = LeaderConfig(leader: Node, followers: seq<Node>, ackRequired: int, nodeIds: map<Port, string>)

  ghost predicate ValidLeaderConfig(c: LeaderConfig) {
    && ValidConfig(ClusterOf(c))
    && c.followers != []
    && 0 <= c.ackRequired <= |c.followers|
  }

  function ClusterOf(c: LeaderConfig): Config {
    Config([c.leader] + c.followers, c.nodeIds)
  }

  /** Writes go to the leader; reads go to followers. */
  function SetupOf(c: LeaderConfig): Setup {
    Setup(ClusterOf(c), c.ackRequired + 1, 1, [c.leader.port], PortSeq(c.followers))
  }

  /** A send waits for a slot, holds it for as long as its POST is outstanding, and then
      has released it for good. */
  datatype Gate = Queued | Holding | Released

  datatype LState = LState(m: MState, gates: map<TaskId, Gate>, permits: int)

  datatype LStep = Acquire(i: nat, follower: Port) | Do(step: MStep)

  ghost function LInit(c: LeaderConfig, plans: seq<seq<PlanItem>>): LState {
    LState(MInit(SetupOf(c), plans), map[], MAX_CONCURRENT_REPLICATE_CALLS)
  }

  /** Nothing reaches the network while its send is queued; a POST can only end while it
      holds a slot; only the leader coordinates writes, and reads ask nobody else. */
  ghost predicate GateAllows(c: LeaderConfig, gates: map<TaskId, Gate>, inner: Step) {
    match inner
    case BeginPut(coord, _, _, _, _) => coord == c.leader.port
    case BeginGet(_, _, r, _) => r == 1
    case Deliver(i, p) => TaskId(i, p) in gates && !gates[TaskId(i, p)].Queued?
    case Lose(i, p) => TaskId(i, p) in gates && !gates[TaskId(i, p)].Queued?
    case Complete(i, p) => TaskId(i, p) in gates && gates[TaskId(i, p)].Holding?
    case Fail(i, p) => TaskId(i, p) in gates && gates[TaskId(i, p)].Holding?
    case _ => true
  }

  ghost predicate LEnabled(c: LeaderConfig, l: LState, step: LStep) {
    match step
    case Acquire(i, f) => TaskId(i, f) in l.gates && l.gates[TaskId(i, f)].Queued? && l.permits > 0
    case Do(mstep) =>
      && MEnabled(SetupOf(c), l.m, mstep)
      && var inner := Induced(SetupOf(c), l.m, mstep);
         inner.Some? ==> GateAllows(c, l.gates, inner.value)
  }

  function QueuedTasks(i: nat, followers: set<Port>): map<TaskId, Gate> {
    map t | t in TasksOf(i, followers) :: Queued
  }

  ghost function GatesAfter(c: LeaderConfig, s: State, gates: map<TaskId, Gate>, inner: Step): map<TaskId, Gate> {
    match inner
    case BeginPut(coord, _, _, _, _) => gates + QueuedTasks(|s.requests|, PeerPorts(ClusterOf(c), coord))
    case Complete(i, p) => gates[TaskId(i, p) := Released]
    case Fail(i, p) => gates[TaskId(i, p) := Released]
    case _ => gates
  }

  function PermitsAfter(permits: int, inner: Step): int {
    if inner.Complete? || inner.Fail? then permits + 1 else permits
  }

  ghost predicate LWellFormed(c: LeaderConfig, l: LState) {
    WellFormed(ClusterOf(c), l.m.cluster)
  }

  ghost function LApply(c: LeaderConfig, l: LState, step: LStep): LState
    requires LWellFormed(c, l) && LEnabled(c, l, step)
  {
    match step
    case Acquire(i, f) => l.(gates := l.gates[TaskId(i, f) := Holding], permits := l.permits - 1)
    case Do(mstep) =>
      var m' := MApply(SetupOf(c), l.m, mstep);
      var inner := Induced(SetupOf(c), l.m, mstep);
      if inner.None? then l.(m := m')
      else LState(m', GatesAfter(c, l.m.cluster, l.gates, inner.value), PermitsAfter(l.permits, inner.value))
  }

  ghost predicate LLegal(c: LeaderConfig, l: LState, steps: seq<LStep>)
    decreases |steps|
  {
    && LWellFormed(c, l)
    && (steps == [] || (LEnabled(c, l, steps[0]) && LLegal(c, LApply(c, l, steps[0]), steps[1..])))
  }

  ghost function LExec(c: LeaderConfig, l: LState, steps: seq<LStep>): LState
    requires LLegal(c, l, steps)
    decreases |steps|
  {
    if steps == [] then l else LExec(c, LApply(c, l, steps[0]), steps[1..])
  }

  // ----- Refinement: forgetting the semaphore leaves a run of the leaderless system

  function Forget(steps: seq<LStep>): seq<MStep>
    decreases |steps|
  {
    if steps == [] then []
    else (if steps[0].Do? then [steps[0].step] else []) + Forget(steps[1..])
  }

  lemma {:induction false} LeaderFollowerRefines(c: LeaderConfig, l: LState, steps: seq<LStep>)
    requires LLegal(c, l, steps)
    ensures MLegal(SetupOf(c), l.m, Forget(steps))
    ensures MExec(SetupOf(c), l.m, Forget(steps)) == LExec(c, l, steps).m
    decreases |steps|
  {
    if steps != [] {
      LeaderFollowerRefines(c, LApply(c, l, steps[0]), steps[1..]);
      if steps[0].Do? {
        assert Forget(steps) == [steps[0].step] + Forget(steps[1..]);
        assert Forget(steps)[1..] == Forget(steps[1..]);
      } else {
        assert Forget(steps) == Forget(steps[1..]);
      }
    }
  }

  lemma SetupIsValid(c: LeaderConfig)
    requires ValidLeaderConfig(c)
    ensures ValidSetup(SetupOf(c))
    ensures |ClusterOf(c).nodes| == |c.followers| + 1
    ensures forall i | 0 <= i < |c.followers| :: SetupOf(c).readers[i] != c.leader.port
  {
    var u := SetupOf(c);
    var ports := PortSeq(u.cluster.nodes);
    assert ports[0] == c.leader.port;
    forall i | 0 <= i < |u.readers| ensures u.readers[i] in Members(u.cluster) && u.readers[i] != c.leader.port {
      assert ports[i + 1] == u.readers[i];
    }
  }

  // ----- The semaphore

  function InState(gates: map<TaskId, Gate>, g: Gate): set<TaskId> {
    set t | t in gates && gates[t] == g
  }

  /** Every gate belongs to one (write, follower) pair. */
  ghost predicate GatesOfWrites(s: State, gates: map<TaskId, Gate>) {
    forall t | t in gates ::
      && t.request < |s.requests| && s.requests[t.request].op.Write?
      && t.peer in s.requests[t.request].tasks && t.peer in s.requests[t.request].messages
  }

  ghost predicate EveryTaskGated(s: State, gates: map<TaskId, Gate>) {
    forall i, p | 0 <= i < |s.requests| && p in s.requests[i].tasks :: TaskId(i, p) in gates
  }

  /** Queued means not sent yet; released means the send is over, one way or the other. */
  ghost predicate GateTells(s: State, gates: map<TaskId, Gate>, t: TaskId)
    requires GatesOfWrites(s, gates) && t in gates
  {
    && (gates[t].Released? <==> s.requests[t.request].tasks[t.peer].Finished?)
    && (gates[t].Queued? ==> s.requests[t.request].messages[t.peer].Sent?)
  }

  ghost predicate GatesTell(s: State, gates: map<TaskId, Gate>)
    requires GatesOfWrites(s, gates)
  {
    forall t | t in gates :: GateTells(s, gates, t)
  }

  ghost predicate SlotsAddUp(gates: map<TaskId, Gate>, permits: int) {
    0 <= permits && |InState(gates, Holding)| + permits == MAX_CONCURRENT_REPLICATE_CALLS
  }

  ghost predicate GInv(c: LeaderConfig, s: State, gates: map<TaskId, Gate>, permits: int) {
    && ValidLeaderConfig(c) && Inv(ClusterOf(c), s)
    && GatesOfWrites(s, gates) && EveryTaskGated(s, gates)
    && GatesTell(s, gates) && SlotsAddUp(gates, permits)
  }

  ghost predicate LInv(c: LeaderConfig, l: LState) {
    GInv(c, l.m.cluster, l.gates, l.permits)
  }

  lemma ReleaseCounts(gates: map<TaskId, Gate>, t: TaskId)
    requires t in gates && gates[t].Holding?
    ensures |InState(gates[t := Released], Holding)| == |InState(gates, Holding)| - 1
  {
    assert InState(gates[t := Released], Holding) == InState(gates, Holding) - {t};
  }

  lemma AcquireCounts(gates: map<TaskId, Gate>, t: TaskId)
    requires t in gates && gates[t].Queued?
    ensures |InState(gates[t := Holding], Holding)| == |InState(gates, Holding)| + 1
  {
    assert InState(gates[t := Holding], Holding) == InState(gates, Holding) + {t};
  }

  /** What a cluster step does to one peer's slot in one request. */
  lemma SlotAfter(c: Config, s: State, step: Step, j: nat, p: Port)
    requires WellFormed(c, s) && Enabled(c, s, step)
    requires j < |s.requests| && p in s.requests[j].tasks && p in s.requests[j].messages
    ensures var s' := Apply(c, s, step);
            && j < |s'.requests| && s'.requests[j].op == s.requests[j].op
            && s'.requests[j].tasks.Keys == s.requests[j].tasks.Keys
            && p in s'.requests[j].tasks && p in s'.requests[j].messages
            && (step == Complete(j, p) || step == Fail(j, p) ==> s'.requests[j].tasks[p].Finished?)
            && (step != Complete(j, p) && step != Fail(j, p) ==> s'.requests[j].tasks[p] == s.requests[j].tasks[p])
            && (step != Deliver(j, p) && step != Lose(j, p) ==> s'.requests[j].messages[p] == s.requests[j].messages[p])
  {
    OnlySubjectChanges(c, s, step);
    match step
    case BeginPut(coord, key, value, timestamp, w) =>
    case BeginGet(coord, key, r, chosen) =>
    case Deliver(i, p) =>
    case Lose(i, p) =>
    case Complete(i, p) =>
    case Fail(i, p) =>
    case TakeIn(i, done) =>
    case Leave(i, aborted) =>
    case Delete(node, key) =>
  }

  /** A new request comes with a task per contacted peer, all unsent. */
  lemma NewRequest(c: LeaderConfig, s: State, step: Step)
    requires WellFormed(ClusterOf(c), s) && Enabled(ClusterOf(c), s, step)
    requires step.BeginPut? || (step.BeginGet? && step.r == 1)
    ensures var q := Apply(ClusterOf(c), s, step).requests[|s.requests|];
            && q.tasks.Keys == q.messages.Keys == (if step.BeginPut? then PeerPorts(ClusterOf(c), step.coord) else {})
            && (q.op.Write? <==> step.BeginPut?)
            && (forall p | p in q.tasks :: q.tasks[p].Running? && q.messages[p].Sent?)
  {
  }

  lemma GatesStayOfWrites(c: LeaderConfig, s: State, gates: map<TaskId, Gate>, step: Step)
    requires WellFormed(ClusterOf(c), s) && Enabled(ClusterOf(c), s, step) && GateAllows(c, gates, step)
    requires GatesOfWrites(s, gates)
    ensures GatesOfWrites(Apply(ClusterOf(c), s, step), GatesAfter(c, s, gates, step))
  {
    var gates' := GatesAfter(c, s, gates, step);
    forall t | t in gates'
      ensures var s' := Apply(ClusterOf(c), s, step);
              && t.request < |s'.requests| && s'.requests[t.request].op.Write?
              && t.peer in s'.requests[t.request].tasks && t.peer in s'.requests[t.request].messages
    {
      if t in gates {
        SlotAfter(ClusterOf(c), s, step, t.request, t.peer);
      } else {
        NewRequest(c, s, step);
      }
    }
  }

  lemma TasksStayGated(c: LeaderConfig, s: State, gates: map<TaskId, Gate>, step: Step)
    requires Inv(ClusterOf(c), s) && Enabled(ClusterOf(c), s, step) && GateAllows(c, gates, step)
    requires EveryTaskGated(s, gates)
    ensures EveryTaskGated(Apply(ClusterOf(c), s, step), GatesAfter(c, s, gates, step))
  {
    var s' := Apply(ClusterOf(c), s, step);
    forall i, p | 0 <= i < |s'.requests| && p in s'.requests[i].tasks
      ensures TaskId(i, p) in GatesAfter(c, s, gates, step)
    {
      TaskGated(c, s, gates, step, i, p);
    }
  }

  lemma TaskGated(c: LeaderConfig, s: State, gates: map<TaskId, Gate>, step: Step, i: nat, p: Port)
    requires Inv(ClusterOf(c), s) && Enabled(ClusterOf(c), s, step) && GateAllows(c, gates, step)
    requires EveryTaskGated(s, gates)
    requires i < |Apply(ClusterOf(c), s, step).requests| && p in Apply(ClusterOf(c), s, step).requests[i].tasks
    ensures TaskId(i, p) in GatesAfter(c, s, gates, step)
  {
    if i < |s.requests| {
      OldTaskGated(c, s, gates, step, i, p);
    } else {
      var n := NewestIs(c, s, step, i);
      NewTaskGated(c, s, gates, step, p);
    }
  }

  lemma NewestIs(c: LeaderConfig, s: State, step: Step, i: nat) returns (n: nat)
    requires WellFormed(ClusterOf(c), s) && Enabled(ClusterOf(c), s, step)
    requires |s.requests| <= i < |Apply(ClusterOf(c), s, step).requests|
    ensures n == i == |s.requests|
  {
    RequestsGrow(ClusterOf(c), s, step);
    n := i;
  }

  lemma OldTaskGated(c: LeaderConfig, s: State, gates: map<TaskId, Gate>, step: Step, i: nat, p: Port)
    requires WellFormed(ClusterOf(c), s) && Enabled(ClusterOf(c), s, step) && EveryTaskGated(s, gates)
             && i < |s.requests|
    requires i < |Apply(ClusterOf(c), s, step).requests| && p in Apply(ClusterOf(c), s, step).requests[i].tasks
    ensures TaskId(i, p) in GatesAfter(c, s, gates, step)
  {
    OldTask(ClusterOf(c), s, step, i, p);
    GatesRemain(c, s, gates, step);
    assert TaskId(i, p) in gates.Keys;
  }

  lemma RequestsGrow(c: Config, s: State, step: Step)
    requires WellFormed(c, s) && Enabled(c, s, step)
    ensures |s.requests| <= |Apply(c, s, step).requests| <= |s.requests| + 1
  {
  }

  lemma GatesRemain(c: LeaderConfig, s: State, gates: map<TaskId, Gate>, step: Step)
    ensures gates.Keys <= GatesAfter(c, s, gates, step).Keys
  {
  }

  lemma NewTaskGated(c: LeaderConfig, s: State, gates: map<TaskId, Gate>, step: Step, p: Port)
    requires Inv(ClusterOf(c), s) && Enabled(ClusterOf(c), s, step) && GateAllows(c, gates, step)
    requires |Apply(ClusterOf(c), s, step).requests| > |s.requests|
    requires p in Apply(ClusterOf(c), s, step).requests[|s.requests|].tasks
    ensures TaskId(|s.requests|, p) in GatesAfter(c, s, gates, step)
  {
    NewRequest(c, s, step);
    assert step.BeginPut?;
    assert TaskId(|s.requests|, p) in TasksOf(|s.requests|, PeerPorts(ClusterOf(c), step.coord));
  }

  lemma OldTask(c: Config, s: State, step: Step, i: nat, p: Port)
    requires WellFormed(c, s) && Enabled(c, s, step) && i < |s.requests|
    requires i < |Apply(c, s, step).requests| && p in Apply(c, s, step).requests[i].tasks
    ensures p in s.requests[i].tasks
  {
    if i != Subject(s, step) {
      OnlySubjectChanges(c, s, step);
    } else if step.Complete? || step.Fail? {
      assert step.peer in s.requests[i].tasks;
    } else {
      TasksUntouched(c, s, step, i);
    }
  }

  lemma TasksUntouched(c: Config, s: State, step: Step, i: nat)
    requires WellFormed(c, s) && Enabled(c, s, step) && i < |s.requests| && i == Subject(s, step)
    requires !step.Complete? && !step.Fail?
    ensures i < |Apply(c, s, step).requests| && Apply(c, s, step).requests[i].tasks == s.requests[i].tasks
  {
    match step
    case BeginPut(coord, key, value, timestamp, w) =>
    case BeginGet(coord, key, r, chosen) =>
    case Deliver(_, _) =>
    case Lose(_, _) =>
    case TakeIn(_, done) =>
    case Leave(_, aborted) =>
    case Delete(node, key) =>
  }

  lemma GatesStillTell(c: LeaderConfig, s: State, gates: map<TaskId, Gate>, step: Step)
    requires WellFormed(ClusterOf(c), s) && Enabled(ClusterOf(c), s, step) && GateAllows(c, gates, step)
    requires GatesOfWrites(s, gates) && GatesTell(s, gates)
    requires GatesOfWrites(Apply(ClusterOf(c), s, step), GatesAfter(c, s, gates, step))
    ensures GatesTell(Apply(ClusterOf(c), s, step), GatesAfter(c, s, gates, step))
  {
    var s', gates' := Apply(ClusterOf(c), s, step), GatesAfter(c, s, gates, step);
    forall t | t in gates' ensures GateTells(s', gates', t) {
      if t in gates {
        assert GateTells(s, gates, t);
        SlotAfter(ClusterOf(c), s, step, t.request, t.peer);
        assert TaskId(t.request, t.peer) == t;
        GateOf(c, s, gates, step, t);
      } else {
        NewRequest(c, s, step);
      }
    }
  }

  lemma GateOf(c: LeaderConfig, s: State, gates: map<TaskId, Gate>, step: Step, t: TaskId)
    requires t in gates && (forall u | u in gates :: u.request < |s.requests|)
    ensures t in GatesAfter(c, s, gates, step)
    ensures GatesAfter(c, s, gates, step)[t] ==
              if step == Complete(t.request, t.peer) || step == Fail(t.request, t.peer) then Released else gates[t]
  {
  }

  lemma SlotsStillAddUp(c: LeaderConfig, s: State, gates: map<TaskId, Gate>, permits: int, step: Step)
    requires GateAllows(c, gates, step) && SlotsAddUp(gates, permits)
    requires forall u | u in gates :: u.request < |s.requests|
    ensures SlotsAddUp(GatesAfter(c, s, gates, step), PermitsAfter(permits, step))
  {
    if step.Complete? || step.Fail? {
      ReleaseCounts(gates, TaskId(step.i, step.peer));
    } else if step.BeginPut? {
      assert InState(GatesAfter(c, s, gates, step), Holding) == InState(gates, Holding);
    }
  }

  lemma GateStepKeeps(c: LeaderConfig, s: State, gates: map<TaskId, Gate>, permits: int, step: Step)
    requires GInv(c, s, gates, permits) && Enabled(ClusterOf(c), s, step) && GateAllows(c, gates, step)
    ensures GInv(c, Apply(ClusterOf(c), s, step), GatesAfter(c, s, gates, step), PermitsAfter(permits, step))
  {
    InvStep(ClusterOf(c), s, step);
    GatesStayOfWrites(c, s, gates, step);
    TasksStayGated(c, s, gates, step);
    GatesStillTell(c, s, gates, step);
    SlotsStillAddUp(c, s, gates, permits, step);
  }

  lemma AcquireKeeps(c: LeaderConfig, s: State, gates: map<TaskId, Gate>, permits: int, t: TaskId)
    requires GInv(c, s, gates, permits) && t in gates && gates[t].Queued? && permits > 0
    ensures GInv(c, s, gates[t := Holding], permits - 1)
  {
    AcquireCounts(gates, t);
    AcquireTells(s, gates, t);
  }

  lemma AcquireTells(s: State, gates: map<TaskId, Gate>, t: TaskId)
    requires GatesOfWrites(s, gates) && GatesTell(s, gates) && t in gates && gates[t].Queued?
    ensures GatesOfWrites(s, gates[t := Holding]) && GatesTell(s, gates[t := Holding])
  {
    var gates' := gates[t := Holding];
    assert gates'.Keys == gates.Keys;
    assert GatesOfWrites(s, gates');
    forall o | o in gates' ensures GateTells(s, gates', o) {
      assert GateTells(s, gates, o);
    }
  }

  lemma MApplyCluster(u: Setup, m: MState, step: MStep)
    requires u.writers != [] && WellFormed(u.cluster, m.cluster) && MEnabled(u, m, step)
    ensures var inner := Induced(u, m, step);
            && (inner.Some? ==> Enabled(u.cluster, m.cluster, inner.value))
            && MApply(u, m, step).cluster == if inner.Some? then Apply(u.cluster, m.cluster, inner.value) else m.cluster
  {
  }

  lemma LInvStep(c: LeaderConfig, l: LState, step: LStep)
    requires LInv(c, l) && LEnabled(c, l, step)
    ensures LInv(c, LApply(c, l, step))
  {
    match step
    case Acquire(i, f) => AcquireKeeps(c, l.m.cluster, l.gates, l.permits, TaskId(i, f));
    case Do(mstep) =>
      MApplyCluster(SetupOf(c), l.m, mstep);
      var inner := Induced(SetupOf(c), l.m, mstep);
      if inner.Some? {
        GateStepKeeps(c, l.m.cluster, l.gates, l.permits, inner.value);
      }
  }

  lemma {:induction false} LRunKeepsInv(c: LeaderConfig, l: LState, steps: seq<LStep>)
    requires LInv(c, l) && LLegal(c, l, steps)
    ensures LInv(c, LExec(c, l, steps))
    decreases |steps|
  {
    if steps != [] {
      LInvStep(c, l, steps[0]);
      LRunKeepsInv(c, LApply(c, l, steps[0]), steps[1..]);
    }
  }

  lemma LInvInit(c: LeaderConfig, plans: seq<seq<PlanItem>>)
    requires ValidLeaderConfig(c)
    ensures LInv(c, LInit(c, plans))
  {
    InvInit(ClusterOf(c));
    assert InState(map[], Holding) == {};
  }

  function WritesIn(requests: seq<Request>): nat
    decreases |requests|
  {
    if requests == [] then 0
    else WritesIn(requests[..|requests| - 1]) + (if requests[|requests| - 1].op.Write? then 1 else 0)
  }

  /** The sends of all writes so far. */
  ghost function Sends(requests: seq<Request>): set<TaskId> {
    set i, p | 0 <= i < |requests| && p in requests[i].tasks :: TaskId(i, p)
  }

  lemma SendsSnoc(requests: seq<Request>)
    requires requests != []
    ensures var n := |requests| - 1;
            && Sends(requests) == Sends(requests[..n]) + TasksOf(n, requests[n].tasks.Keys)
            && Sends(requests[..n]) !! TasksOf(n, requests[n].tasks.Keys)
  {
    var n := |requests| - 1;
    forall t | t in Sends(requests[..n]) ensures t in Sends(requests) {
      assert requests[..n][t.request] == requests[t.request];
    }
    forall t | t in Sends(requests) ensures t in Sends(requests[..n]) + TasksOf(n, requests[n].tasks.Keys) {
      if t.request < n { assert requests[..n][t.request] == requests[t.request]; }
    }
  }

  lemma {:induction false} TasksOfCount(n: nat, ps: set<Port>)
    ensures |TasksOf(n, ps)| == |ps|
    decreases ps
  {
    if ps == {} {
      assert TasksOf(n, ps) == {};
    } else {
      var p := AnyOf(ps);
      TasksOfCount(n, ps - {p});
      assert TasksOf(n, ps) == TasksOf(n, ps - {p}) + {TaskId(n, p)};
    }
  }

  ghost predicate FansOut(q: Request, fanOut: nat) {
    |q.tasks.Keys| == if q.op.Write? then fanOut else 0
  }

  lemma {:induction false} SendsCount(fanOut: nat, requests: seq<Request>)
    requires forall i | 0 <= i < |requests| :: FansOut(requests[i], fanOut)
    ensures |Sends(requests)| == SendTotal(requests, fanOut)
    decreases |requests|
  {
    if requests == [] {
      assert Sends(requests) == {};
    } else {
      var n := |requests| - 1;
      var init, last := requests[..n], requests[n];
      assert FansOut(last, fanOut);
      forall i | 0 <= i < |init| ensures FansOut(init[i], fanOut) {
        assert init[i] == requests[i];
      }
      SendsCount(fanOut, init);
      SendsSnoc(requests);
      TasksOfCount(n, last.tasks.Keys);
      DisjointCount(Sends(init), TasksOf(n, last.tasks.Keys));
    }
  }

  function SendTotal(requests: seq<Request>, fanOut: nat): nat
    decreases |requests|
  {
    if requests == [] then 0
    else SendTotal(requests[..|requests| - 1], fanOut) + (if requests[|requests| - 1].op.Write? then fanOut else 0)
  }

  lemma {:induction false} SendTotalIsProduct(requests: seq<Request>, fanOut: nat)
    ensures SendTotal(requests, fanOut) == WritesIn(requests) * fanOut
    decreases |requests|
  {
    if requests != [] {
      var init := requests[..|requests| - 1];
      SendTotalIsProduct(init, fanOut);
      OneMore(WritesIn(init), fanOut);
    }
  }

  lemma DisjointCount(a: set<TaskId>, b: set<TaskId>)
    requires a !! b
    ensures |a + b| == |a| + |b|
  {
  }

  lemma OneMore(a: nat, b: nat)
    ensures (a + 1) * b == a * b + b
  {
  }

  lemma FanOutOf(c: LeaderConfig, s: State, gates: map<TaskId, Gate>, permits: int, i: nat)
    requires GInv(c, s, gates, permits) && i < |s.requests|
    ensures FansOut(s.requests[i], |c.followers|)
  {
    var q := s.requests[i];
    assert Shape(s.stores.Keys, q) by {
      assert RequestOk(s.stores.Keys, q);
    }
    DistinctCount(PortSeq(ClusterOf(c).nodes));
    forall p | p in q.tasks.Keys ensures q.op.Write? {
      assert TaskId(i, p) in gates;
    }
  }

  lemma GatesAreSends(c: LeaderConfig, s: State, gates: map<TaskId, Gate>, permits: int)
    requires GInv(c, s, gates, permits)
    ensures gates.Keys == Sends(s.requests) && |Sends(s.requests)| == WritesIn(s.requests) * |c.followers|
  {
    forall i | 0 <= i < |s.requests| ensures FansOut(s.requests[i], |c.followers|) {
      FanOutOf(c, s, gates, permits, i);
    }
    SendsCount(|c.followers|, s.requests);
    SendTotalIsProduct(s.requests, |c.followers|);
    GatesCoverSends(s, gates);
  }

  lemma GatesCoverSends(s: State, gates: map<TaskId, Gate>)
    requires GatesOfWrites(s, gates) && EveryTaskGated(s, gates)
    ensures gates.Keys == Sends(s.requests)
  {
    forall t | t in gates.Keys ensures t in Sends(s.requests) {
      assert TaskId(t.request, t.peer) == t;
    }
  }

  lemma StatesPartition(gates: map<TaskId, Gate>)
    ensures |InState(gates, Queued)| + |InState(gates, Holding)| + |InState(gates, Released)| == |gates.Keys|
  {
    var queued, holding, released := InState(gates, Queued), InState(gates, Holding), InState(gates, Released);
    assert gates.Keys == queued + holding + released;
    assert |queued + holding| == |queued| + |holding|;
    assert |queued + holding + released| == |queued + holding| + |released|;
  }

  /** Bounded fan-out. In every run, whatever `ackRequired` is and however fast writes
      arrive: at most 256 follower POSTs are outstanding across all writes together, the
      free slots make up the rest exactly, and every (write, follower) pair is one send,
      queued, outstanding or resolved. */
  lemma BoundedFanOut(c: LeaderConfig, plans: seq<seq<PlanItem>>, steps: seq<LStep>)
    requires ValidLeaderConfig(c) && LLegal(c, LInit(c, plans), steps)
    ensures var l := LExec(c, LInit(c, plans), steps);
            && |InState(l.gates, Holding)| <= MAX_CONCURRENT_REPLICATE_CALLS == 256
            && |InState(l.gates, Holding)| == MAX_CONCURRENT_REPLICATE_CALLS - l.permits
            && |InState(l.gates, Queued)| + |InState(l.gates, Holding)| + |InState(l.gates, Released)|
               == WritesIn(l.m.cluster.requests) * |c.followers|
            && GatesOfWrites(l.m.cluster, l.gates)
            && forall t | t in l.gates ::
                 l.gates[t].Released? <==> l.m.cluster.requests[t.request].tasks[t.peer].Finished?
  {
    var l := LExec(c, LInit(c, plans), steps);
    LInvInit(c, plans);
    LRunKeepsInv(c, LInit(c, plans), steps);
    GatesAreSends(c, l.m.cluster, l.gates, l.permits);
    StatesPartition(l.gates);
    forall t | t in l.gates ensures GateTells(l.m.cluster, l.gates, t) {
    }
  }
}
