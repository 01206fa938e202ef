/** The leader's PUT, as code, against the steps of the leader-follower system: whatever its
    wait does, with slots being taken, POSTs being delivered and other writes going on in
    between, is a run of that system. */
module LeaderRuns {
  import opened Versions
  import opened Storage
  import opened Topology
  import opened Gather
  import opened Cluster
  import opened ClusterSafety
  import opened CoordinatorRuns
  import opened Monitor
  import opened LeaderFollower

  datatype LEvent = LElsewhere(step: LStep) | LTurn(wake: Wake)

  function LWakesOf(events: seq<LEvent>): seq<Wake>
    decreases |events|
  {
    if events == [] then []
    else (if events[0].LTurn? then [events[0].wake] else []) + LWakesOf(events[1..])
  }

  function Inner(step: Step): LStep {
    Do(Net(step))
  }

  /** A step of the wait of request `i` itself. */
  predicate LOwn(step: LStep, i: nat) {
    step.Do? && step.step.Net? && Own(step.step.step, i)
  }

  ghost predicate LHappens(c: LeaderConfig, l: LState, i: nat, results: map<Port, Task>, events: seq<LEvent>)
    decreases |events|
  {
    && LWellFormed(c, l) && i < |l.m.cluster.requests| && l.m.cluster.requests[i].status.Waiting?
    && (WaitOver(l.m.cluster.requests[i]) || events == [] ||
        match events[0]
        case LElsewhere(step) =>
          LEnabled(c, l, step) && !LOwn(step, i) && LHappens(c, LApply(c, l, step), i, results, events[1..])
        case LTurn(wake) =>
          wake.Woken? ==>
            && LEnabled(c, l, Inner(TakeIn(i, wake.done)))
            && Same(l.m.cluster.requests[i].tasks, results, wake.done)
            && LHappens(c, LApply(c, l, Inner(TakeIn(i, wake.done))), i, results, events[1..]))
  }

  ghost function LRunOf(c: LeaderConfig, l: LState, i: nat, results: map<Port, Task>, events: seq<LEvent>): seq<LStep>
    requires LHappens(c, l, i, results, events)
    decreases |events|
  {
    if WaitOver(l.m.cluster.requests[i]) || events == [] then [Inner(Leave(i, false))]
    else match events[0]
      case LElsewhere(step) => [step] + LRunOf(c, LApply(c, l, step), i, results, events[1..])
      case LTurn(wake) =>
        match wake
        case Woken(done) =>
          [Inner(TakeIn(i, done))] + LRunOf(c, LApply(c, l, Inner(TakeIn(i, done))), i, results, events[1..])
        case Cancelled => [Inner(Leave(i, true))]
        case _ => [Inner(Leave(i, false))]
  }

  /** A cluster step that needs no slot. */
  lemma UngatedStep(c: LeaderConfig, l: LState, step: Step)
    requires c.leader.port in Members(ClusterOf(c)) && LWellFormed(c, l)
    requires Enabled(ClusterOf(c), l.m.cluster, step) && (step.TakeIn? || step.Leave?)
    ensures LEnabled(c, l, Inner(step))
    ensures LApply(c, l, Inner(step)) == l.(m := l.m.(cluster := Apply(ClusterOf(c), l.m.cluster, step)))
    ensures LWellFormed(c, LApply(c, l, Inner(step)))
  {
    ApplyWellFormed(ClusterOf(c), l.m.cluster, step);
  }

  lemma LLeaveNow(c: LeaderConfig, l: LState, i: nat, results: map<Port, Task>, exit: Exit)
    returns (steps: seq<LStep>, l': LState)
    requires c.leader.port in Members(ClusterOf(c)) && LWellFormed(c, l)
    requires i < |l.m.cluster.requests| && l.m.cluster.requests[i].status.Waiting?
    requires exit.Interrupted? ==> !WaitOver(l.m.cluster.requests[i])
    ensures steps == [Inner(Leave(i, exit.Interrupted?))] && LLegal(c, l, steps) && l' == LExec(c, l, steps)
    ensures i < |l'.m.cluster.requests|
    ensures Concluded(results, l.m.cluster.requests[i], [], exit, l'.m.cluster.requests[i])
  {
    var inner, s' := LeaveNow(ClusterOf(c), l.m.cluster, i, results, exit);
    var step := Leave(i, exit.Interrupted?);
    assert inner[0] == step && inner[1..] == [];
    UngatedStep(c, l, step);
    steps := [Inner(step)];
    assert steps[1..] == [];
    l' := LApply(c, l, Inner(step));
  }

  /** Whatever is not the wait's own step leaves what it has collected and waits for alone. */
  lemma LOthersKeep(c: LeaderConfig, l: LState, step: LStep, i: nat)
    requires LWellFormed(c, l) && LEnabled(c, l, step) && !LOwn(step, i) && i < |l.m.cluster.requests|
    requires SetupOf(c).writers != []
    ensures i < |LApply(c, l, step).m.cluster.requests|
    ensures var q, q1 := l.m.cluster.requests[i], LApply(c, l, step).m.cluster.requests[i];
            && q1.pending == q.pending && q1.collected == q.collected && q1.op == q.op
            && q1.quorum == q.quorum && q1.coord == q.coord && q1.key == q.key
  {
    if step.Do? {
      var inner := Induced(SetupOf(c), l.m, step.step);
      MApplyCluster(SetupOf(c), l.m, step.step);
      if inner.Some? {
        OthersKeep(ClusterOf(c), l.m.cluster, inner.value, i);
      }
    }
  }

  lemma LLegalOn(c: LeaderConfig, l: LState, step: LStep, rest: seq<LStep>)
    requires LWellFormed(c, l) && LEnabled(c, l, step) && LLegal(c, LApply(c, l, step), rest)
    ensures LLegal(c, l, [step] + rest) && LExec(c, l, [step] + rest) == LExec(c, LApply(c, l, step), rest)
  {
    assert ([step] + rest)[1..] == rest;
  }

  /** The leader's wait is a run made of just these events and turns, in order, that ends
      with what the loop computes. */
  lemma {:induction false} LGatherIsRun(c: LeaderConfig, l: LState, i: nat, results: map<Port, Task>,
                                        events: seq<LEvent>)
    returns (steps: seq<LStep>, l': LState)
    requires c.leader.port in Members(ClusterOf(c)) && LHappens(c, l, i, results, events)
    requires ScheduleFits(results, l.m.cluster.requests[i].pending, LWakesOf(events))
    ensures LLegal(c, l, steps) && l' == LExec(c, l, steps) && i < |l'.m.cluster.requests|
    ensures LoopsTo(results, l.m.cluster.requests[i], LWakesOf(events), l'.m.cluster.requests[i])
    ensures steps == LRunOf(c, l, i, results, events)
    decreases |events|
  {
    var q := l.m.cluster.requests[i];
    if WaitOver(q) {
      steps, l' := LLeaveNow(c, l, i, results, LoopDone);
    } else if events == [] {
      steps, l' := LLeaveNow(c, l, i, results, GaveUp);
    } else if events[0].LElsewhere? {
      steps, l' := LSomethingElse(c, l, i, results, events);
    } else if events[0].wake.Woken? {
      steps, l' := LBatchTaken(c, l, i, results, events);
    } else {
      steps, l' := LLeaveNow(c, l, i, results, if events[0].wake.Cancelled? then Interrupted else GaveUp);
    }
  }

  lemma {:induction false} LSomethingElse(c: LeaderConfig, l: LState, i: nat, results: map<Port, Task>,
                                          events: seq<LEvent>)
    returns (steps: seq<LStep>, l': LState)
    requires c.leader.port in Members(ClusterOf(c)) && LHappens(c, l, i, results, events)
    requires !WaitOver(l.m.cluster.requests[i]) && events != [] && events[0].LElsewhere?
    requires ScheduleFits(results, l.m.cluster.requests[i].pending, LWakesOf(events))
    ensures LLegal(c, l, steps) && l' == LExec(c, l, steps) && i < |l'.m.cluster.requests|
    ensures LoopsTo(results, l.m.cluster.requests[i], LWakesOf(events), l'.m.cluster.requests[i])
    ensures steps == LRunOf(c, l, i, results, events)
    decreases |events|, 0
  {
    var l1 := LApply(c, l, events[0].step);
    LOthersKeep(c, l, events[0].step, i);
    assert LWakesOf(events) == [] + LWakesOf(events[1..]) == LWakesOf(events[1..]);
    var rest;
    rest, l' := LGatherIsRun(c, l1, i, results, events[1..]);
    LoopsAlike(results, l.m.cluster.requests[i], LWakesOf(events[1..]), l1.m.cluster.requests[i],
               l'.m.cluster.requests[i]);
    steps := [events[0].step] + rest;
    LLegalOn(c, l, events[0].step, rest);
  }

  lemma {:induction false} LBatchTaken(c: LeaderConfig, l: LState, i: nat, results: map<Port, Task>,
                                       events: seq<LEvent>)
    returns (steps: seq<LStep>, l': LState)
    requires c.leader.port in Members(ClusterOf(c)) && LHappens(c, l, i, results, events)
    requires !WaitOver(l.m.cluster.requests[i]) && events != [] && events[0].LTurn? && events[0].wake.Woken?
    requires ScheduleFits(results, l.m.cluster.requests[i].pending, LWakesOf(events))
    ensures LLegal(c, l, steps) && l' == LExec(c, l, steps) && i < |l'.m.cluster.requests|
    ensures LoopsTo(results, l.m.cluster.requests[i], LWakesOf(events), l'.m.cluster.requests[i])
    ensures steps == LRunOf(c, l, i, results, events)
    decreases |events|, 0
  {
    var done, wakes := events[0].wake.done, LWakesOf(events);
    assert wakes[0] == events[0].wake && wakes[1..] == LWakesOf(events[1..]);
    var step := Inner(TakeIn(i, done));
    var s1 := TakeBatch(ClusterOf(c), l.m.cluster, i, results, done);
    UngatedStep(c, l, TakeIn(i, done));
    var rest;
    rest, l' := LGatherIsRun(c, LApply(c, l, step), i, results, events[1..]);
    LoopsOn(results, l.m.cluster.requests[i], wakes, s1.requests[i], l'.m.cluster.requests[i]);
    steps := [step] + rest;
    LLegalOn(c, l, step, rest);
  }

  /** What the leader sends to is the followers it is configured with. */
  lemma FollowersArePeers(c: LeaderConfig)
    requires ValidLeaderConfig(c)
    ensures PeerPorts(ClusterOf(c), c.leader.port) == Ports(c.followers)
    ensures c.leader.port in Members(ClusterOf(c))
  {
    var ports := PortSeq(ClusterOf(c).nodes);
    PeersAre(ClusterOf(c).nodes, c.leader.port);
    assert ports == [c.leader.port] + PortSeq(c.followers);
    ElementsAppend([c.leader.port], PortSeq(c.followers));
    forall p | p in Ports(c.followers) ensures p != c.leader.port {
      var i :| 0 <= i < |PortSeq(c.followers)| && PortSeq(c.followers)[i] == p;
      assert ports[i + 1] == p && ports[0] == c.leader.port;
    }
  }

  /** The leader's PUT, from its local write to its answer or cancellation, is a run of the
      leader-follower system: its write is stored at the leader, one send a follower is
      queued, and the answer is the one its handler computes with w = ackRequired + 1. */
  lemma LeaderPutIsRun(c: LeaderConfig, l: LState, key: Key, value: Value, timestamp: real, l0: LState,
                       results: map<Port, Task>, events: seq<LEvent>) returns (steps: seq<LStep>, l': LState)
    requires ValidLeaderConfig(c) && LWellFormed(c, l)
    requires LEnabled(c, l, Inner(BeginPut(c.leader.port, key, value, timestamp, c.ackRequired + 1)))
    requires l0 == LApply(c, l, Inner(BeginPut(c.leader.port, key, value, timestamp, c.ackRequired + 1)))
    requires LHappens(c, l0, |l.m.cluster.requests|, results, events)
    requires ScheduleFits(results, Ports(c.followers), LWakesOf(events))
    ensures c.leader.port in l.m.cluster.stores && c.leader.port in c.nodeIds
    ensures var port, v := c.leader.port, VersionedValue(value, timestamp, c.nodeIds[c.leader.port]);
            && l0.m.cluster.stores == l.m.cluster.stores[port := PutStore(l.m.cluster.stores[port], key, v)]
            && l0.gates == l.gates + QueuedTasks(|l.m.cluster.requests|, Ports(c.followers))
            && l0.permits == l.permits
    ensures LLegal(c, l, [Inner(BeginPut(c.leader.port, key, value, timestamp, c.ackRequired + 1))] + steps)
    ensures l' == LExec(c, l, [Inner(BeginPut(c.leader.port, key, value, timestamp, c.ackRequired + 1))] + steps)
    ensures steps == LRunOf(c, l0, |l.m.cluster.requests|, results, events)
    ensures |l.m.cluster.requests| < |l'.m.cluster.requests|
    ensures var v := VersionedValue(value, timestamp, c.nodeIds[c.leader.port]);
            PutEnds(results, Ports(c.followers), c.ackRequired + 1, Accepts(l.m.cluster.stores[c.leader.port], key, v),
                    timestamp, LWakesOf(events), l'.m.cluster.requests[|l.m.cluster.requests|])
  {
    FollowersArePeers(c);
    var begin := Inner(BeginPut(c.leader.port, key, value, timestamp, c.ackRequired + 1));
    var q0 := FreshLeaderPut(c, l, key, value, timestamp, l0);
    steps, l' := LGatherIsRun(c, l0, |l.m.cluster.requests|, results, events);
    LLegalOn(c, l, begin, steps);
    PutEnded(results, q0, LWakesOf(events), l'.m.cluster.requests[|l.m.cluster.requests|]);
  }

  lemma FreshLeaderPut(c: LeaderConfig, l: LState, key: Key, value: Value, timestamp: real, l0: LState)
    returns (q0: Request)
    requires ValidLeaderConfig(c) && LWellFormed(c, l) && PeerPorts(ClusterOf(c), c.leader.port) == Ports(c.followers)
    requires LEnabled(c, l, Inner(BeginPut(c.leader.port, key, value, timestamp, c.ackRequired + 1)))
    requires l0 == LApply(c, l, Inner(BeginPut(c.leader.port, key, value, timestamp, c.ackRequired + 1)))
    ensures c.leader.port in l.m.cluster.stores && c.leader.port in c.nodeIds
    ensures var port, v := c.leader.port, VersionedValue(value, timestamp, c.nodeIds[c.leader.port]);
            && l0.m.cluster.stores == l.m.cluster.stores[port := PutStore(l.m.cluster.stores[port], key, v)]
            && l0.gates == l.gates + QueuedTasks(|l.m.cluster.requests|, Ports(c.followers))
            && l0.permits == l.permits
            && |l0.m.cluster.requests| == |l.m.cluster.requests| + 1
            && q0 == l0.m.cluster.requests[|l.m.cluster.requests|]
            && q0.op == Write(v, Accepts(l.m.cluster.stores[port], key, v))
    ensures q0.collected == [] && q0.pending == Ports(c.followers) && q0.quorum == c.ackRequired + 1
  {
    q0 := l0.m.cluster.requests[|l.m.cluster.requests|];
  }
}
