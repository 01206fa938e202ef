/** What the leader-follower strategy guarantees its readers, and how it drains. */
module LeaderStaleness {
  import opened Topology
  import opened Gather
  import opened Cluster
  import opened ClusterSafety
  import opened Provenance
  import opened Drain
  import opened LoadTest
  import opened Monitor
  import opened MonitorTight
  import opened LeaderFollower

  // ----- Putting the semaphore back into a run of the leaderless system

  /** Acquire a slot right before each delivery. */
  function Lift(steps: seq<MStep>): seq<LStep>
    decreases |steps|
  {
    if steps == [] then []
    else
      (if steps[0].Net? && steps[0].step.Deliver? then [Acquire(steps[0].step.i, steps[0].step.peer), Do(steps[0])]
       else [Do(steps[0])])
      + Lift(steps[1..])
  }

  /** No POST is outstanding, and only the leader is asked to write. */
  ghost predicate Calm(c: LeaderConfig, l: LState) {
    && InState(l.gates, Holding) == {}
    && forall x | 0 <= x < |l.m.workers| && l.m.workers[x].activity.Writing? ::
         l.m.workers[x].activity.node == c.leader.port
  }

  lemma LLegalCons(c: LeaderConfig, l: LState, step: LStep, rest: seq<LStep>)
    requires LWellFormed(c, l) && LEnabled(c, l, step) && LLegal(c, LApply(c, l, step), rest)
    ensures LLegal(c, l, [step] + rest) && LExec(c, l, [step] + rest) == LExec(c, LApply(c, l, step), rest)
  {
    assert ([step] + rest)[1..] == rest;
  }

  lemma LiftPlainStep(c: LeaderConfig, l: LState, step: MStep) returns (l': LState)
    requires LInv(c, l) && Calm(c, l) && MEnabled(SetupOf(c), l.m, step)
    requires step.Net? ==> step.step.TakeIn? || step.step.Leave?
    ensures LEnabled(c, l, Do(step)) && l' == LApply(c, l, Do(step))
    ensures l'.m == MApply(SetupOf(c), l.m, step)
    ensures LInv(c, l') && Calm(c, l')
  {
    PlainStepAllowed(c, l, step);
    LInvStep(c, l, Do(step));
    l' := LApply(c, l, Do(step));
    if step.IssueWrite? {
      NewSendsQueue(l.m.cluster, l.gates, PeerPorts(ClusterOf(c), l.m.workers[step.x].activity.node));
    } else {
      assert l'.gates == l.gates;
    }
    WritersStay(c, l, step);
  }

  lemma PlainStepAllowed(c: LeaderConfig, l: LState, step: MStep)
    requires LInv(c, l) && Calm(c, l) && MEnabled(SetupOf(c), l.m, step)
    requires step.Net? ==> step.step.TakeIn? || step.step.Leave?
    ensures LEnabled(c, l, Do(step))
  {
  }

  /** Whoever starts writing does so at the leader. */
  lemma WritersStay(c: LeaderConfig, l: LState, step: MStep)
    requires LInv(c, l) && Calm(c, l) && MEnabled(SetupOf(c), l.m, step)
    ensures var m' := MApply(SetupOf(c), l.m, step);
            forall x | 0 <= x < |m'.workers| && m'.workers[x].activity.Writing? ::
                m'.workers[x].activity.node == c.leader.port
  {
  }

  lemma NewSendsQueue(s: State, gates: map<TaskId, Gate>, followers: set<Port>)
    requires GatesOfWrites(s, gates)
    ensures InState(gates + QueuedTasks(|s.requests|, followers), Holding) == InState(gates, Holding)
  {
  }

  /** Taking a slot. */
  lemma DoAcquire(c: LeaderConfig, l: LState, i: nat, p: Port) returns (l': LState)
    requires LInv(c, l) && TaskId(i, p) in l.gates && l.gates[TaskId(i, p)].Queued? && l.permits > 0
    ensures LEnabled(c, l, Acquire(i, p)) && l' == LApply(c, l, Acquire(i, p)) && LInv(c, l')
    ensures l' == LState(l.m, l.gates[TaskId(i, p) := Holding], l.permits - 1)
  {
    LInvStep(c, l, Acquire(i, p));
    l' := LApply(c, l, Acquire(i, p));
  }

  /** A cluster step the semaphore allows. */
  lemma DoNet(c: LeaderConfig, l: LState, inner: Step) returns (l': LState)
    requires LInv(c, l) && Enabled(ClusterOf(c), l.m.cluster, inner) && GateAllows(c, l.gates, inner)
    ensures LEnabled(c, l, Do(Net(inner))) && l' == LApply(c, l, Do(Net(inner))) && LInv(c, l')
    ensures l' == LState(l.m.(cluster := Apply(ClusterOf(c), l.m.cluster, inner)),
                         GatesAfter(c, l.m.cluster, l.gates, inner), PermitsAfter(l.permits, inner))
  {
    LInvStep(c, l, Do(Net(inner)));
    l' := LApply(c, l, Do(Net(inner)));
  }

  lemma LiftDelivery(c: LeaderConfig, l: LState, i: nat, p: Port) returns (l1: LState, l2: LState, l3: LState)
    requires LInv(c, l) && Calm(c, l)
    requires Enabled(ClusterOf(c), l.m.cluster, Deliver(i, p))
    requires Enabled(ClusterOf(c), Apply(ClusterOf(c), l.m.cluster, Deliver(i, p)), Complete(i, p))
    ensures LEnabled(c, l, Acquire(i, p)) && l1 == LApply(c, l, Acquire(i, p)) && LWellFormed(c, l1)
    ensures LEnabled(c, l1, Do(Net(Deliver(i, p)))) && l2 == LApply(c, l1, Do(Net(Deliver(i, p)))) && LWellFormed(c, l2)
    ensures LEnabled(c, l2, Do(Net(Complete(i, p)))) && l3 == LApply(c, l2, Do(Net(Complete(i, p)))) && LInv(c, l3)
    ensures WellFormed(ClusterOf(c), Apply(ClusterOf(c), l.m.cluster, Deliver(i, p)))
    ensures l3.m == l.m.(cluster := Apply(ClusterOf(c), Apply(ClusterOf(c), l.m.cluster, Deliver(i, p)),
                                          Complete(i, p)))
    ensures Calm(c, l3)
  {
    var t := TaskId(i, p);
    RunningBeforeDelivery(c, l.m.cluster, i, p);
    QueuedWhenCalm(c, l, i, p);
    l1 := DoAcquire(c, l, i, p);
    l2 := DoNet(c, l1, Deliver(i, p));
    l3 := DoNet(c, l2, Complete(i, p));
    SlotReturned(l.gates, t);
    assert l3.gates == l.gates[t := Holding][t := Released];
  }

  lemma SlotReturned(gates: map<TaskId, Gate>, t: TaskId)
    requires t in gates && InState(gates, Holding) == {}
    ensures InState(gates[t := Holding][t := Released], Holding) == {}
  {
    forall o | o in gates ensures !gates[o].Holding? {
      assert o !in InState(gates, Holding);
    }
  }

  lemma RunningBeforeDelivery(c: LeaderConfig, s: State, i: nat, p: Port)
    requires WellFormed(ClusterOf(c), s) && Enabled(ClusterOf(c), s, Deliver(i, p))
    requires Enabled(ClusterOf(c), Apply(ClusterOf(c), s, Deliver(i, p)), Complete(i, p))
    ensures p in s.requests[i].tasks && s.requests[i].tasks[p].Running?
  {
  }

  lemma QueuedWhenCalm(c: LeaderConfig, l: LState, i: nat, p: Port)
    requires LInv(c, l) && Calm(c, l)
    requires i < |l.m.cluster.requests| && p in l.m.cluster.requests[i].tasks
             && l.m.cluster.requests[i].tasks[p].Running?
    ensures TaskId(i, p) in l.gates && l.gates[TaskId(i, p)].Queued? && l.permits > 0
  {
    var t := TaskId(i, p);
    assert t in l.gates;
    assert GateTells(l.m.cluster, l.gates, t);
    assert t !in InState(l.gates, Holding);
  }

  lemma MUncons(u: Setup, m: MState, steps: seq<MStep>)
    requires MLegal(u, m, steps) && steps != []
    ensures MEnabled(u, m, steps[0]) && u.writers != [] && WellFormed(u.cluster, m.cluster)
    ensures MLegal(u, MApply(u, m, steps[0]), steps[1..])
    ensures MExec(u, m, steps) == MExec(u, MApply(u, m, steps[0]), steps[1..])
  {
  }

  lemma LiftPair(c: LeaderConfig, l: LState, steps: seq<MStep>, l1: LState, l2: LState, l3: LState, rest: seq<LStep>)
    requires |steps| >= 2 && steps[0].Net? && steps[0].step.Deliver?
    requires steps[1] == Net(Complete(steps[0].step.i, steps[0].step.peer))
    requires LWellFormed(c, l) && LWellFormed(c, l1) && LWellFormed(c, l2)
    requires LEnabled(c, l, Acquire(steps[0].step.i, steps[0].step.peer))
             && l1 == LApply(c, l, Acquire(steps[0].step.i, steps[0].step.peer))
    requires LEnabled(c, l1, Do(steps[0])) && l2 == LApply(c, l1, Do(steps[0]))
    requires LEnabled(c, l2, Do(steps[1])) && l3 == LApply(c, l2, Do(steps[1]))
    requires LLegal(c, l3, rest) && rest == Lift(steps[2..])
    ensures LLegal(c, l, Lift(steps)) && LExec(c, l, Lift(steps)) == LExec(c, l3, rest)
  {
    var acquire := Acquire(steps[0].step.i, steps[0].step.peer);
    LLegalCons(c, l2, Do(steps[1]), rest);
    LLegalCons(c, l1, Do(steps[0]), [Do(steps[1])] + rest);
    LLegalCons(c, l, acquire, [Do(steps[0])] + ([Do(steps[1])] + rest));
    LiftPairIs(steps);
    assert [acquire] + ([Do(steps[0])] + ([Do(steps[1])] + rest)) == [acquire, Do(steps[0]), Do(steps[1])] + rest;
  }

  lemma LiftPairIs(steps: seq<MStep>)
    requires |steps| >= 2 && steps[0].Net? && steps[0].step.Deliver?
    requires steps[1] == Net(Complete(steps[0].step.i, steps[0].step.peer))
    ensures Lift(steps) == [Acquire(steps[0].step.i, steps[0].step.peer), Do(steps[0]), Do(steps[1])] + Lift(steps[2..])
  {
    assert steps[1..][0] == steps[1] && steps[1..][1..] == steps[2..];
    assert Lift(steps[1..]) == [Do(steps[1])] + Lift(steps[2..]);
  }

  /** A run in which deliveries are answered at once needs only one slot at a time. */
  lemma {:induction false} LiftRun(c: LeaderConfig, l: LState, steps: seq<MStep>)
    requires LInv(c, l) && Calm(c, l)
    requires MLegal(SetupOf(c), l.m, steps) && MPaired(steps)
    ensures LLegal(c, l, Lift(steps))
    ensures LExec(c, l, Lift(steps)).m == MExec(SetupOf(c), l.m, steps)
    decreases |steps|
  {
    if steps == [] {
    } else if steps[0].Net? && steps[0].step.Deliver? {
      MUncons(SetupOf(c), l.m, steps);
      MUncons(SetupOf(c), MApply(SetupOf(c), l.m, steps[0]), steps[1..]);
      assert steps[1..][0] == steps[1] && steps[1..][1..] == steps[2..];
      var l1, l2, l3 := LiftDelivery(c, l, steps[0].step.i, steps[0].step.peer);
      LiftRun(c, l3, steps[2..]);
      LiftPair(c, l, steps, l1, l2, l3, Lift(steps[2..]));
    } else {
      MUncons(SetupOf(c), l.m, steps);
      var l' := LiftPlainStep(c, l, steps[0]);
      LiftRun(c, l', steps[1..]);
      LLegalCons(c, l, Do(steps[0]), Lift(steps[1..]));
    }
  }

  // ----- The exact condition

  ghost predicate LStaleRun(c: LeaderConfig, plans: seq<seq<PlanItem>>, steps: seq<LStep>) {
    && LLegal(c, LInit(c, plans), steps)
    && LExec(c, LInit(c, plans), steps).m.cluster.deleted == {}
    && TotalStale(LExec(c, LInit(c, plans), steps).m.workers) > 0
  }

  /** When every follower must ack, no read of a follower is ever stale. */
  lemma FullySynchronousNeverStale(c: LeaderConfig, plans: seq<seq<PlanItem>>, steps: seq<LStep>)
    requires ValidLeaderConfig(c) && c.ackRequired == |c.followers|
    ensures !LStaleRun(c, plans, steps)
  {
    if LLegal(c, LInit(c, plans), steps) {
      SetupIsValid(c);
      LeaderFollowerRefines(c, LInit(c, plans), steps);
      NoStaleReads(SetupOf(c), plans, Forget(steps));
    }
  }

  lemma PartlySynchronousCanBeStale(c: LeaderConfig) returns (steps: seq<LStep>)
    requires ValidLeaderConfig(c) && c.ackRequired < |c.followers|
    ensures LStaleRun(c, [WriteThenRead(0)], steps)
  {
    SetupIsValid(c);
    var plain, m := StaleRunExists(SetupOf(c), 0);
    var l := LInit(c, [WriteThenRead(0)]);
    LInvInit(c, [WriteThenRead(0)]);
    assert InState(l.gates, Holding) == {};
    LiftRun(c, l, plain);
    steps := Lift(plain);
  }

  /** The load test against a leader with any number of followers: zero stale reads in
      every run if and only if every follower must ack. */
  lemma LeaderFollowerStalenessIff(c: LeaderConfig)
    requires ValidLeaderConfig(c)
    ensures (forall plans, steps :: !LStaleRun(c, plans, steps)) <==> c.ackRequired == |c.followers|
  {
    if c.ackRequired == |c.followers| {
      forall plans, steps ensures !LStaleRun(c, plans, steps) {
        FullySynchronousNeverStale(c, plans, steps);
      }
    } else {
      var steps := PartlySynchronousCanBeStale(c);
    }
  }

  // ----- Draining

  /** A step of the replication machinery itself. */
  predicate LInternal(step: LStep) {
    step.Acquire? || (step.step.Net? && Internal(step.step.step))
  }

  ghost function LMeasure(l: LState): nat {
    Measure(l.m.cluster) + |InState(l.gates, Queued)|
  }

  lemma QueueShrinks(c: LeaderConfig, s: State, gates: map<TaskId, Gate>, inner: Step)
    requires Internal(inner) && GateAllows(c, gates, inner)
    ensures |InState(GatesAfter(c, s, gates, inner), Queued)| <= |InState(gates, Queued)|
  {
    assert InState(GatesAfter(c, s, gates, inner), Queued) <= InState(gates, Queued);
    SubsetCount(InState(GatesAfter(c, s, gates, inner), Queued), InState(gates, Queued));
  }

  lemma LInternalStepDecreases(c: LeaderConfig, l: LState, step: LStep) returns (l': LState)
    requires LInv(c, l) && LEnabled(c, l, step) && LInternal(step)
    ensures l' == LApply(c, l, step) && LInv(c, l')
    ensures LMeasure(l') < LMeasure(l)
  {
    if step.Acquire? {
      l' := AcquireDecreases(c, l, step.i, step.follower);
    } else {
      l' := NetDecreases(c, l, step.step.step);
    }
  }

  lemma AcquireDecreases(c: LeaderConfig, l: LState, i: nat, f: Port) returns (l': LState)
    requires LInv(c, l) && LEnabled(c, l, Acquire(i, f))
    ensures l' == LApply(c, l, Acquire(i, f)) && LInv(c, l') && LMeasure(l') < LMeasure(l)
  {
    l' := DoAcquire(c, l, i, f);
    AcquireShortensQueue(l.gates, TaskId(i, f));
  }

  lemma AcquireShortensQueue(gates: map<TaskId, Gate>, t: TaskId)
    requires t in gates && gates[t].Queued?
    ensures |InState(gates[t := Holding], Queued)| == |InState(gates, Queued)| - 1
  {
    assert InState(gates[t := Holding], Queued) == InState(gates, Queued) - {t};
  }

  lemma NetDecreases(c: LeaderConfig, l: LState, inner: Step) returns (l': LState)
    requires LInv(c, l) && Enabled(ClusterOf(c), l.m.cluster, inner) && GateAllows(c, l.gates, inner) && Internal(inner)
    ensures LEnabled(c, l, Do(Net(inner))) && l' == LApply(c, l, Do(Net(inner)))
    ensures LInv(c, l') && LMeasure(l') < LMeasure(l)
  {
    l' := DoNet(c, l, inner);
    InternalStepDecreases(ClusterOf(c), l.m.cluster, inner);
    QueueShrinks(c, l.m.cluster, l.gates, inner);
  }

  /** While work is outstanding something loss-free can happen: a full semaphore never
      deadlocks, because whoever holds a slot can finish. */
  lemma LDrainProgress(c: LeaderConfig, l: LState) returns (step: LStep)
    requires LInv(c, l) && LMeasure(l) > 0
    ensures LEnabled(c, l, step) && LInternal(step)
    ensures step.Do? ==> !step.step.step.Lose? && FailsOnlyLost(l.m.cluster, step.step.step)
  {
    if InState(l.gates, Holding) != {} {
      var t := AnyOf(InState(l.gates, Holding));
      var inner := HolderCanFinish(c, l, t);
      step := Do(Net(inner));
    } else if InState(l.gates, Queued) != {} {
      var t := AnyOf(InState(l.gates, Queued));
      assert TaskId(t.request, t.peer) == t;
      step := Acquire(t.request, t.peer);
    } else {
      var inner := RestCanFinish(c, l);
      step := Do(Net(inner));
    }
  }

  lemma HolderCanFinish(c: LeaderConfig, l: LState, t: TaskId) returns (inner: Step)
    requires LInv(c, l) && t in l.gates && l.gates[t].Holding?
    ensures Enabled(ClusterOf(c), l.m.cluster, inner) && GateAllows(c, l.gates, inner) && Internal(inner)
    ensures !inner.Lose? && FailsOnlyLost(l.m.cluster, inner)
  {
    assert GateTells(l.m.cluster, l.gates, t);
    assert TaskId(t.request, t.peer) == t;
    inner := SendCanMove(ClusterOf(c), l.m.cluster, t.request, t.peer);
  }

  lemma NothingUnfinished(c: LeaderConfig, l: LState, i: nat)
    requires LInv(c, l) && i < |l.m.cluster.requests|
    requires InState(l.gates, Holding) == {} && InState(l.gates, Queued) == {}
    ensures Unfinished(l.m.cluster.requests[i]) == {}
  {
    var q := l.m.cluster.requests[i];
    forall p | p in q.tasks ensures q.tasks[p].Finished? {
      var t := TaskId(i, p);
      assert t in l.gates && GateTells(l.m.cluster, l.gates, t);
      assert t !in InState(l.gates, Holding) && t !in InState(l.gates, Queued);
    }
  }

  lemma RestCanFinish(c: LeaderConfig, l: LState) returns (inner: Step)
    requires LInv(c, l) && Measure(l.m.cluster) > 0
    requires InState(l.gates, Holding) == {} && InState(l.gates, Queued) == {}
    ensures Enabled(ClusterOf(c), l.m.cluster, inner) && GateAllows(c, l.gates, inner) && Internal(inner)
    ensures !inner.Lose? && !inner.Fail?
  {
    var i := HeavyRequest(l.m.cluster.requests);
    var q := l.m.cluster.requests[i];
    NothingUnfinished(c, l, i);
    assert q.messages.Keys == q.tasks.Keys && (!q.status.Waiting? ==> q.pending == {}) by {
      assert RequestOk(l.m.cluster.stores.Keys, q);
    }
    if InTransit(q) != {} {
      var p := AnyOf(InTransit(q));
      var t := TaskId(i, p);
      assert p in q.tasks.Keys && t in l.gates;
      assert t !in InState(l.gates, Queued);
      inner := Deliver(i, p);
    } else {
      inner := Leave(i, false);
    }
  }

  /** Outstanding work done as it should be. */
  predicate LSmooth(step: LStep) {
    LInternal(step) && (step.Do? ==> Smooth(step.step.step))
  }

  lemma LDrainStep(c: LeaderConfig, l: LState) returns (step: LStep, l1: LState)
    requires LInv(c, l) && AllKnown(l.m.cluster) && NothingLost(l.m.cluster) && LMeasure(l) > 0
    ensures LEnabled(c, l, step) && LSmooth(step) && l1 == LApply(c, l, step)
    ensures LInv(c, l1) && AllKnown(l1.m.cluster) && NothingLost(l1.m.cluster) && LMeasure(l1) < LMeasure(l)
    ensures l1.m.cluster.deleted == l.m.cluster.deleted && |l1.m.cluster.requests| == |l.m.cluster.requests|
  {
    step := LDrainProgress(c, l);
    if step.Do? {
      SmoothIfNothingLost(l.m.cluster, step.step.step);
    }
    l1 := LInternalStepDecreases(c, l, step);
    LStepKeepsKnown(c, l, step, l1);
  }

  lemma SmoothCons(step: LStep, rest: seq<LStep>)
    requires LSmooth(step) && forall t | 0 <= t < |rest| :: LSmooth(rest[t])
    ensures forall t | 0 <= t < |[step] + rest| :: LSmooth(([step] + rest)[t])
  {
  }

  /** From any state that lost nothing, the leader's outstanding sends, queued ones included,
      can all be delivered and answered, with no new client request and no delete. */
  lemma {:induction false} LCanDrain(c: LeaderConfig, l: LState) returns (steps: seq<LStep>, l': LState)
    requires LInv(c, l) && AllKnown(l.m.cluster) && NothingLost(l.m.cluster)
    ensures LLegal(c, l, steps) && l' == LExec(c, l, steps)
    ensures forall t | 0 <= t < |steps| :: LSmooth(steps[t])
    ensures LInv(c, l') && AllKnown(l'.m.cluster) && NothingLost(l'.m.cluster) && LMeasure(l') == 0
    ensures l'.m.cluster.deleted == l.m.cluster.deleted && |l'.m.cluster.requests| == |l.m.cluster.requests|
    decreases LMeasure(l)
  {
    if LMeasure(l) == 0 {
      steps, l' := [], l;
    } else {
      var step, l1 := LDrainStep(c, l);
      var rest;
      rest, l' := LCanDrain(c, l1);
      steps := [step] + rest;
      LLegalCons(c, l, step, rest);
      SmoothCons(step, rest);
    }
  }

  lemma LStepKeepsKnown(c: LeaderConfig, l: LState, step: LStep, l': LState)
    requires LInv(c, l) && LEnabled(c, l, step) && LInternal(step) && AllKnown(l.m.cluster)
    requires !(step.Do? && step.step.step.Lose?)
    requires l' == LApply(c, l, step)
    ensures AllKnown(l'.m.cluster)
    ensures l'.m.cluster.deleted == l.m.cluster.deleted && |l'.m.cluster.requests| == |l.m.cluster.requests|
    ensures NothingLost(l.m.cluster) ==> NothingLost(l'.m.cluster)
  {
    if step.Do? {
      var l1 := DoNet(c, l, step.step.step);
      InternalKeepsKnown(ClusterOf(c), l.m.cluster, step.step.step);
    } else {
      var l1 := DoAcquire(c, l, step.i, step.follower);
    }
  }

  lemma InternalKeepsKnown(c: Config, s: State, step: Step)
    requires WellFormed(c, s) && Enabled(c, s, step) && Internal(step) && !step.Lose? && AllKnown(s)
    ensures AllKnown(Apply(c, s, step))
    ensures Apply(c, s, step).deleted == s.deleted && |Apply(c, s, step).requests| == |s.requests|
    ensures NothingLost(s) ==> NothingLost(Apply(c, s, step))
  {
    LosslessKeepsKnown(c, s, step);
    InternalKeepsClients(c, s, step);
  }

  lemma LosslessKeepsKnown(c: Config, s: State, step: Step)
    requires WellFormed(c, s) && Enabled(c, s, step) && !step.Lose? && AllKnown(s)
    ensures AllKnown(Apply(c, s, step))
    ensures NothingLost(s) ==> NothingLost(Apply(c, s, step))
  {
    StepKeepsKnown(c, s, step);
    if NothingLost(s) {
      StepLosesNothing(c, s, step);
    }
  }

  predicate LosesAMessage(step: LStep) {
    step.Do? && step.step.Net? && step.step.step.Lose?
  }

  /** A run without a lost message: nothing is lost, and nothing is invented. */
  lemma {:induction false} LRunLosesNothing(c: LeaderConfig, l: LState, steps: seq<LStep>)
    requires LInv(c, l) && LLegal(c, l, steps) && AllKnown(l.m.cluster) && NothingLost(l.m.cluster)
    requires forall t | 0 <= t < |steps| :: !LosesAMessage(steps[t])
    ensures LInv(c, LExec(c, l, steps))
    ensures AllKnown(LExec(c, l, steps).m.cluster) && NothingLost(LExec(c, l, steps).m.cluster)
    decreases |steps|
  {
    if steps != [] {
      var l1 := LApply(c, l, steps[0]);
      LInvStep(c, l, steps[0]);
      if steps[0].Do? {
        var inner := Induced(SetupOf(c), l.m, steps[0].step);
        MApplyCluster(SetupOf(c), l.m, steps[0].step);
        assert !LosesAMessage(steps[0]);
        if inner.Some? {
          LosslessKeepsKnown(ClusterOf(c), l.m.cluster, inner.value);
        }
      }
      LRunLosesNothing(c, l1, steps[1..]);
    }
  }

  /** Followers catch up whatever `ackRequired` is, even 0: any run that lost no message can
      be continued, with no new client request and no delete, by delivering and answering
      every outstanding send; then nothing is queued or outstanding, and on every key never
      deleted every node covers every write, with one stamp everywhere. */
  lemma FollowersConverge(c: LeaderConfig, plans: seq<seq<PlanItem>>, first: seq<LStep>) returns (rest: seq<LStep>)
    requires ValidLeaderConfig(c) && LLegal(c, LInit(c, plans), first)
    requires forall t | 0 <= t < |first| :: !LosesAMessage(first[t])
    ensures LLegal(c, LExec(c, LInit(c, plans), first), rest)
    ensures forall t | 0 <= t < |rest| :: LSmooth(rest[t])
    ensures var l1, l := LExec(c, LInit(c, plans), first), LExec(c, LExec(c, LInit(c, plans), first), rest);
            && Converged(l.m.cluster) && LMeasure(l) == 0
            && l.m.cluster.deleted == l1.m.cluster.deleted
            && |l.m.cluster.requests| == |l1.m.cluster.requests|
  {
    LInvInit(c, plans);
    LRunLosesNothing(c, LInit(c, plans), first);
    var l;
    rest, l := LCanDrain(c, LExec(c, LInit(c, plans), first));
    DrainedIsConverged(ClusterOf(c), l.m.cluster);
  }
}
