/** Once clients stop, the outstanding work drains; when all of it was delivered, every
    node agrees. */
module Drain {
  import opened Versions
  import opened Storage
  import opened Topology
  import opened Gather
  import opened Cluster
  import opened ClusterSafety
  import opened Quorum
  import opened Provenance

  /** Neither a new client request nor a delete. */
  predicate Internal(step: Step) {
    !step.BeginPut? && !step.BeginGet? && !step.Delete?
  }

  function InTransit(q: Request): set<Port> {
    set p | p in q.messages && q.messages[p].Sent?
  }

  function Unfinished(q: Request): set<Port> {
    set p | p in q.tasks && q.tasks[p].Running?
  }

  function Weight(q: Request): nat {
    |InTransit(q)| + |Unfinished(q)| + |q.pending| + (if q.status.Waiting? then 1 else 0)
  }

  function TotalWeight(qs: seq<Request>): nat
    decreases |qs|
  {
    if qs == [] then 0 else Weight(qs[0]) + TotalWeight(qs[1..])
  }

  function Measure(s: State): nat {
    TotalWeight(s.requests)
  }

  lemma {:induction false} TotalWeightUpdate(qs: seq<Request>, i: nat, q: Request)
    requires i < |qs|
    ensures TotalWeight(qs[i := q]) == TotalWeight(qs) - Weight(qs[i]) + Weight(q)
    decreases |qs|
  {
    if i > 0 {
      assert qs[i := q][1..] == qs[1..][i - 1 := q];
      TotalWeightUpdate(qs[1..], i - 1, q);
    } else {
      assert qs[0 := q][1..] == qs[1..];
    }
  }

  lemma {:induction false} HeavyRequest(qs: seq<Request>) returns (i: nat)
    requires TotalWeight(qs) > 0
    ensures i < |qs| && Weight(qs[i]) > 0
    decreases |qs|
  {
    if Weight(qs[0]) > 0 {
      i := 0;
    } else {
      i := HeavyRequest(qs[1..]);
      i := i + 1;
    }
  }

  lemma ResolvedMessageWeighsLess(q: Request, p: Port, m: Message)
    requires p in q.messages && q.messages[p].Sent? && !m.Sent?
    ensures Weight(q.(messages := q.messages[p := m])) < Weight(q)
  {
    var q' := q.(messages := q.messages[p := m]);
    assert InTransit(q') == InTransit(q) - {p};
    assert Unfinished(q') == Unfinished(q);
  }

  lemma FinishedTaskWeighsLess(q: Request, p: Port, t: Task)
    requires p in q.tasks && q.tasks[p].Running? && t.Finished?
    ensures Weight(SetTask(q, p, t)) < Weight(q)
  {
    var q' := SetTask(q, p, t);
    assert Unfinished(q') == Unfinished(q) - {p};
    assert InTransit(q') == InTransit(q);
  }

  lemma TakenInWeighsLess(q: Request, done: seq<Port>, collected: seq<Reply>)
    requires done != [] && Elements(done) <= q.pending
    ensures Weight(q.(pending := q.pending - Elements(done), collected := collected)) < Weight(q)
  {
    var q' := q.(pending := q.pending - Elements(done), collected := collected);
    assert done[0] in Elements(done);
    assert InTransit(q') == InTransit(q) && Unfinished(q') == Unfinished(q);
    assert |q'.pending| == |q.pending| - |Elements(done)|;
  }

  lemma LeftWeighsLess(q: Request, aborted: bool)
    requires q.status.Waiting?
    ensures Weight(Left(q, aborted)) < Weight(q)
  {
    var q' := Left(q, aborted);
    assert InTransit(q') == InTransit(q) && Unfinished(q') == Unfinished(q);
  }

  /** Delivering, losing, finishing, taking in, leaving: each uses up outstanding work. */
  lemma InternalStepDecreases(c: Config, s: State, step: Step)
    requires WellFormed(c, s) && Enabled(c, s, step) && Internal(step)
    ensures Measure(Apply(c, s, step)) < Measure(s)
  {
    var i := Subject(s, step);
    var s' := Apply(c, s, step);
    match step
    case Deliver(_, p) =>
      var m := if s.requests[i].op.Write? then Arrived(None) else Arrived(Lookup(s.stores[p], s.requests[i].key));
      ResolvedMessageWeighsLess(s.requests[i], p, m);
      TotalWeightUpdate(s.requests, i, s.requests[i].(messages := s.requests[i].messages[p := m]));
    case Lose(_, p) =>
      ResolvedMessageWeighsLess(s.requests[i], p, Lost);
      TotalWeightUpdate(s.requests, i, s'.requests[i]);
    case Complete(_, p) =>
      FinishedTaskWeighsLess(s.requests[i], p, s'.requests[i].tasks[p]);
      TotalWeightUpdate(s.requests, i, s'.requests[i]);
    case Fail(_, p) =>
      FinishedTaskWeighsLess(s.requests[i], p, s'.requests[i].tasks[p]);
      TotalWeightUpdate(s.requests, i, s'.requests[i]);
    case TakeIn(_, done) =>
      TakenInWeighsLess(s.requests[i], done, s'.requests[i].collected);
      TotalWeightUpdate(s.requests, i, s'.requests[i]);
    case Leave(_, aborted) =>
      LeftWeighsLess(s.requests[i], aborted);
      TotalWeightUpdate(s.requests, i, s'.requests[i]);
  }

  /** Without new requests, a run is no longer than the work outstanding at its start. */
  lemma {:induction false} DrainBound(c: Config, s: State, steps: seq<Step>)
    requires Legal(c, s, steps) && forall t | 0 <= t < |steps| :: Internal(steps[t])
    ensures |steps| + Measure(Exec(c, s, steps)) <= Measure(s)
    decreases |steps|
  {
    if steps != [] {
      InternalStepDecreases(c, s, steps[0]);
      DrainBound(c, Apply(c, s, steps[0]), steps[1..]);
    }
  }

  ghost predicate NothingLost(s: State) {
    forall i, p | 0 <= i < |s.requests| && p in s.requests[i].messages :: !s.requests[i].messages[p].Lost?
  }

  /** Work done as it should be: no message lost, and no send reported as failed. */
  predicate Smooth(step: Step) {
    Internal(step) && !step.Lose? && !step.Fail?
  }

  /** A send is reported as failed only if its message was in fact lost. */
  ghost predicate FailsOnlyLost(s: State, step: Step) {
    step.Fail? ==>
      && step.i < |s.requests| && step.peer in s.requests[step.i].messages
      && s.requests[step.i].messages[step.peer].Lost?
  }

  /** What can be done next about one outstanding send. */
  lemma SendCanMove(c: Config, s: State, i: nat, p: Port) returns (step: Step)
    requires Inv(c, s) && i < |s.requests| && p in s.requests[i].tasks && s.requests[i].tasks[p].Running?
    ensures Enabled(c, s, step) && Internal(step) && !step.Lose? && FailsOnlyLost(s, step)
    ensures step == Deliver(i, p) || step == Complete(i, p) || step == Fail(i, p)
  {
    var q := s.requests[i];
    assert p in q.messages by {
      assert RequestOk(s.stores.Keys, q);
    }
    step := match q.messages[p]
      case Sent => Deliver(i, p)
      case Arrived(_) => Complete(i, p)
      case Lost => Fail(i, p);
  }

  /** While work is outstanding, some internal step is possible that loses no message and
      fails no send whose message was not already lost. */
  lemma DrainProgress(c: Config, s: State) returns (step: Step)
    requires Inv(c, s) && Measure(s) > 0
    ensures Enabled(c, s, step) && Internal(step) && !step.Lose? && FailsOnlyLost(s, step)
  {
    var i := HeavyRequest(s.requests);
    var q := s.requests[i];
    if InTransit(q) != {} {
      var p := AnyOf(InTransit(q));
      step := Deliver(i, p);
    } else if Unfinished(q) != {} {
      var p := AnyOf(Unfinished(q));
      step := SendCanMove(c, s, i, p);
    } else {
      assert RequestOk(s.stores.Keys, q);
      step := Leave(i, false);
    }
  }

  lemma StepLosesNothing(c: Config, s: State, step: Step)
    requires WellFormed(c, s) && Enabled(c, s, step) && !step.Lose? && NothingLost(s)
    ensures NothingLost(Apply(c, s, step))
  {
    var s1 := Apply(c, s, step);
    OnlySubjectChanges(c, s, step);
    forall i, p | 0 <= i < |s1.requests| && p in s1.requests[i].messages ensures !s1.requests[i].messages[p].Lost? {
      if i < |s.requests| && p in s.requests[i].messages {
        assert !s.requests[i].messages[p].Lost?;
      }
    }
  }

  lemma SmoothIfNothingLost(s: State, step: Step)
    requires NothingLost(s) && Internal(step) && !step.Lose? && FailsOnlyLost(s, step)
    ensures Smooth(step)
  {
  }

  /** Internal steps bring no new request and delete nothing. */
  lemma InternalKeepsClients(c: Config, s: State, step: Step)
    requires WellFormed(c, s) && Enabled(c, s, step) && Internal(step)
    ensures var s' := Apply(c, s, step); s'.deleted == s.deleted && |s'.requests| == |s.requests|
  {
    OnlySubjectChanges(c, s, step);
  }

  /** From any state, the outstanding work can be driven to the end losing nothing; if
      nothing had been lost before, every send is delivered and answered. */
  lemma {:induction false} CanDrain(c: Config, s: State) returns (steps: seq<Step>)
    requires Inv(c, s)
    ensures Legal(c, s, steps) && Measure(Exec(c, s, steps)) == 0
    ensures forall t | 0 <= t < |steps| :: Internal(steps[t]) && !steps[t].Lose?
    ensures NothingLost(s) ==> forall t | 0 <= t < |steps| :: Smooth(steps[t])
    decreases Measure(s)
  {
    if Measure(s) == 0 {
      steps := [];
    } else {
      var step := DrainProgress(c, s);
      InternalStepDecreases(c, s, step);
      InvStep(c, s, step);
      if NothingLost(s) {
        StepLosesNothing(c, s, step);
        SmoothIfNothingLost(s, step);
      }
      var rest := CanDrain(c, Apply(c, s, step));
      steps := [step] + rest;
      LegalCons(c, s, step, rest);
      forall t | 0 <= t < |steps|
        ensures Internal(steps[t]) && !steps[t].Lose? && (NothingLost(s) ==> Smooth(steps[t]))
      {
        if t > 0 { assert steps[t] == rest[t - 1]; }
      }
    }
  }

  lemma {:induction false} DrainedWeighsNothing(qs: seq<Request>, i: nat)
    requires TotalWeight(qs) == 0 && i < |qs|
    ensures Weight(qs[i]) == 0
    decreases |qs|
  {
    if i > 0 {
      DrainedWeighsNothing(qs[1..], i - 1);
    }
  }

  lemma DrainedWriteIsEverywhere(c: Config, s: State, i: nat, n: Port)
    requires Inv(c, s) && Measure(s) == 0 && NothingLost(s)
    requires i < |s.requests| && s.requests[i].op.Write? && s.requests[i].key !in s.deleted && n in s.stores
    ensures Covers(Lookup(s.stores[n], s.requests[i].key), s.requests[i].op.version)
  {
    var q := s.requests[i];
    assert Effects(s.stores, s.deleted, q) && RequestOk(s.stores.Keys, q);
    DrainedWeighsNothing(s.requests, i);
    if n != q.coord {
      assert n in q.messages && !q.messages[n].Lost?;
      assert n !in InTransit(q);
    }
  }

  /** `v` is among the versions of `k` that no other version of it beats. */
  ghost predicate Newest(s: State, k: Key, v: VersionedValue) {
    Known(s, k, v) && forall u | Known(s, k, u) :: AtLeast(v, u)
  }

  /** The winning stamp carries one value; what stamps that lost carry does not matter. */
  ghost predicate WinnerHasOneValue(s: State, k: Key) {
    forall v, v' | Newest(s, k, v) && Known(s, k, v') && v.SameStamp(v') :: v == v'
  }

  /** Convergence: when everything has drained and nothing was lost, all nodes agree on
      whether an undeleted key is there and on its stamp, which is the newest ever put,
      for any quorum sizes; they agree on the value too if the winning stamp carries one. */
  lemma Convergence(c: Config, s: State, k: Key, n: Port, m: Port)
    requires Inv(c, s) && AllKnown(s) && Measure(s) == 0 && NothingLost(s)
    requires k !in s.deleted && n in s.stores && m in s.stores
    ensures k in s.stores[n] <==> k in s.stores[m]
    ensures k in s.stores[n] ==> s.stores[n][k].SameStamp(s.stores[m][k])
    ensures forall v | Known(s, k, v) :: Covers(Lookup(s.stores[n], k), v)
    ensures k in s.stores[n] && WinnerHasOneValue(s, k) ==> s.stores[n][k] == s.stores[m][k]
  {
    forall v, p | Known(s, k, v) && p in s.stores ensures Covers(Lookup(s.stores[p], k), v) {
      var i :| 0 <= i < |s.requests| && s.requests[i].key == k && s.requests[i].op.Write?
          && s.requests[i].op.version == v;
      DrainedWriteIsEverywhere(c, s, i, p);
    }
    if k in s.stores[m] {
      assert Known(s, k, s.stores[m][k]);
      assert Covers(Lookup(s.stores[n], k), s.stores[m][k]);
    }
    if k in s.stores[n] {
      assert Known(s, k, s.stores[n][k]);
      assert Covers(Lookup(s.stores[m], k), s.stores[n][k]);
      NewerIsStrictTotalOnStamps(s.stores[n][k], s.stores[m][k], s.stores[n][k]);
      forall u | Known(s, k, u) ensures AtLeast(s.stores[n][k], u) {
        assert Covers(Lookup(s.stores[n], k), u);
      }
      assert Newest(s, k, s.stores[n][k]);
    }
  }

  lemma {:induction false} LosingNothing(c: Config, s: State, steps: seq<Step>)
    requires Legal(c, s, steps) && NothingLost(s)
    requires forall t | 0 <= t < |steps| :: !steps[t].Lose?
    ensures NothingLost(Exec(c, s, steps))
    decreases |steps|
  {
    if steps != [] {
      StepLosesNothing(c, s, steps[0]);
      LosingNothing(c, Apply(c, s, steps[0]), steps[1..]);
    }
  }

  lemma {:induction false} DrainingKeepsClients(c: Config, s: State, steps: seq<Step>)
    requires Legal(c, s, steps) && forall t | 0 <= t < |steps| :: Internal(steps[t])
    ensures Exec(c, s, steps).deleted == s.deleted && |Exec(c, s, steps).requests| == |s.requests|
    decreases |steps|
  {
    if steps != [] {
      InternalKeepsClients(c, s, steps[0]);
      DrainingKeepsClients(c, Apply(c, s, steps[0]), steps[1..]);
    }
  }

  /** Two nodes hold an undeleted key under one stamp, and with one value if the winning
      stamp carries one, or neither holds it. */
  ghost predicate Agree(s: State, n: Port, m: Port, k: Key)
    requires n in s.stores && m in s.stores
  {
    && (k in s.stores[n] <==> k in s.stores[m])
    && (k in s.stores[n] ==> s.stores[n][k].SameStamp(s.stores[m][k]))
    && (k in s.stores[n] && WinnerHasOneValue(s, k) ==> s.stores[n][k] == s.stores[m][k])
  }

  /** Nothing is outstanding, and on every key never deleted all nodes agree and cover every
      write ever made. */
  ghost predicate Converged(s: State) {
    && Measure(s) == 0
    && (forall n, k, v | n in s.stores && k !in s.deleted && Known(s, k, v) :: Covers(Lookup(s.stores[n], k), v))
    && (forall n, m, k | n in s.stores && m in s.stores && k !in s.deleted :: Agree(s, n, m, k))
  }

  lemma DrainedIsConverged(c: Config, s: State)
    requires Inv(c, s) && AllKnown(s) && Measure(s) == 0 && NothingLost(s)
    ensures Converged(s)
  {
    forall n, m, k | n in s.stores && m in s.stores && k !in s.deleted ensures Agree(s, n, m, k) {
      Convergence(c, s, k, n, m);
    }
    forall n, k, v | n in s.stores && k !in s.deleted && Known(s, k, v) ensures Covers(Lookup(s.stores[n], k), v) {
      Convergence(c, s, k, n, n);
    }
  }

  /** Any run that lost no message can be continued, with no new client request and no
      delete, by delivering and answering everything outstanding, to a converged state. */
  lemma ConvergenceReachable(c: Config, first: seq<Step>) returns (rest: seq<Step>)
    requires ValidConfig(c) && Legal(c, Init(c), first)
    requires forall t | 0 <= t < |first| :: !first[t].Lose?
    ensures Legal(c, Exec(c, Init(c), first), rest)
    ensures forall t | 0 <= t < |rest| :: Smooth(rest[t])
    ensures var s1, s := Exec(c, Init(c), first), Exec(c, Exec(c, Init(c), first), rest);
            Converged(s) && s.deleted == s1.deleted && |s.requests| == |s1.requests|
  {
    var s1 := Exec(c, Init(c), first);
    InvInit(c);
    RunKeepsInv(c, Init(c), first);
    RunKeepsKnown(c, Init(c), first);
    LosingNothing(c, Init(c), first);
    rest := CanDrain(c, s1);
    RunKeepsInv(c, s1, rest);
    RunKeepsKnown(c, s1, rest);
    LosingNothing(c, s1, rest);
    DrainingKeepsClients(c, s1, rest);
    DrainedIsConverged(c, Exec(c, s1, rest));
  }

  // ----- Values that tie

  /** Two nodes hold different values under one stamp, and no write of the key has another. */
  ghost predicate TornApart(s: State, k: Key, n: Port, m: Port, a: VersionedValue, b: VersionedValue) {
    && n in s.stores && m in s.stores && a.SameStamp(b) && a != b
    && Lookup(s.stores[n], k) == Some(a) && Lookup(s.stores[m], k) == Some(b)
    && forall i | 0 <= i < |s.requests| && s.requests[i].key == k && s.requests[i].op.Write? ::
        s.requests[i].op.version.SameStamp(a)
  }

  lemma TieChangesNothing(store: Store, k: Key, a: VersionedValue, v: VersionedValue)
    requires Lookup(store, k) == Some(a) && v.SameStamp(a)
    ensures PutStore(store, k, v) == store
  {
    NewerIsStrictTotalOnStamps(v, a, v);
  }

  lemma StaysTornApart(c: Config, s: State, step: Step, k: Key, n: Port, m: Port, a: VersionedValue, b: VersionedValue)
    requires WellFormed(c, s) && Enabled(c, s, step) && Internal(step) && TornApart(s, k, n, m, a, b)
    ensures TornApart(Apply(c, s, step), k, n, m, a, b)
  {
    OnlySubjectChanges(c, s, step);
    InternalKeepsClients(c, s, step);
    StepContinues(c, s, step);
    var s' := Apply(c, s, step);
    forall i | 0 <= i < |s'.requests| && s'.requests[i].key == k && s'.requests[i].op.Write?
      ensures s'.requests[i].op.version.SameStamp(a)
    {
      assert Continues(s.requests[i], s'.requests[i]);
    }
    if step.Deliver? && s.requests[step.i].op.Write? && s.requests[step.i].key == k {
      if step.peer == n { TieChangesNothing(s.stores[n], k, a, s.requests[step.i].op.version); }
      if step.peer == m { TieChangesNothing(s.stores[m], k, b, s.requests[step.i].op.version); }
    }
  }

  /** Nothing the cluster does by itself reconciles two such nodes. */
  lemma {:induction false} TornApartForGood(c: Config, s: State, steps: seq<Step>, k: Key, n: Port, m: Port,
                                            a: VersionedValue, b: VersionedValue)
    requires Legal(c, s, steps) && TornApart(s, k, n, m, a, b)
    requires forall t | 0 <= t < |steps| :: Internal(steps[t])
    ensures TornApart(Exec(c, s, steps), k, n, m, a, b)
    decreases |steps|
  {
    if steps != [] {
      StaysTornApart(c, s, steps[0], k, n, m, a, b);
      TornApartForGood(c, Apply(c, s, steps[0]), steps[1..], k, n, m, a, b);
    }
  }

  /** Values need the extra condition: two PUTs of one key stamped alike at one coordinator
      leave it and a peer that hears of them in the other order apart, and no run of
      deliveries and answers, however long, brings them together again. */
  lemma TiedWritesDiverge(c: Config, coord: Port, peer: Port, k: Key, ts: real, a: Value, b: Value)
    returns (steps: seq<Step>)
    requires ValidConfig(c) && coord in Members(c) && peer in PeerPorts(c, coord) && a != b
    ensures coord in c.nodeIds && Legal(c, Init(c), steps) && forall t | 0 <= t < |steps| :: !steps[t].Lose?
    ensures var s := Exec(c, Init(c), steps);
            forall rest | Legal(c, s, rest) && (forall t | 0 <= t < |rest| :: Internal(rest[t])) ::
              var s' := Exec(c, s, rest);
              && coord in s'.stores && peer in s'.stores
              && Lookup(s'.stores[coord], k) == Some(VersionedValue(a, ts, c.nodeIds[coord]))
              && Lookup(s'.stores[peer], k) == Some(VersionedValue(b, ts, c.nodeIds[coord]))
  {
    var s;
    steps, s := TiedWrites(c, coord, peer, k, ts, a, b);
    var va, vb := VersionedValue(a, ts, c.nodeIds[coord]), VersionedValue(b, ts, c.nodeIds[coord]);
    forall rest | Legal(c, s, rest) && (forall t | 0 <= t < |rest| :: Internal(rest[t]))
      ensures TornApart(Exec(c, s, rest), k, coord, peer, va, vb)
    {
      TornApartForGood(c, s, rest, k, coord, peer, va, vb);
    }
  }

  lemma TiedWrites(c: Config, coord: Port, peer: Port, k: Key, ts: real, a: Value, b: Value)
    returns (steps: seq<Step>, s: State)
    requires ValidConfig(c) && coord in Members(c) && peer in PeerPorts(c, coord) && a != b
    ensures coord in c.nodeIds && Legal(c, Init(c), steps) && s == Exec(c, Init(c), steps)
    ensures forall t | 0 <= t < |steps| :: !steps[t].Lose?
    ensures TornApart(s, k, coord, peer, VersionedValue(a, ts, c.nodeIds[coord]),
                      VersionedValue(b, ts, c.nodeIds[coord]))
  {
    var puts, s2 := TwoTiedPuts(c, coord, peer, k, ts, a, b);
    ExecWellFormed(c, Init(c), puts);
    LegalSnoc(c, Init(c), puts, Deliver(1, peer));
    steps := puts + [Deliver(1, peer)];
    s := Exec(c, Init(c), steps);
    TiedDelivery(c, s2, coord, peer, k, VersionedValue(a, ts, c.nodeIds[coord]),
                 VersionedValue(b, ts, c.nodeIds[coord]));
  }

  lemma TwoTiedPuts(c: Config, coord: Port, peer: Port, k: Key, ts: real, a: Value, b: Value)
    returns (puts: seq<Step>, s2: State)
    requires ValidConfig(c) && coord in Members(c) && peer in PeerPorts(c, coord) && a != b
    ensures coord in c.nodeIds && coord != peer
    ensures Legal(c, Init(c), puts) && s2 == Exec(c, Init(c), puts) && Enabled(c, s2, Deliver(1, peer))
    ensures forall t | 0 <= t < |puts| :: !puts[t].Lose?
    ensures var va, vb := VersionedValue(a, ts, c.nodeIds[coord]), VersionedValue(b, ts, c.nodeIds[coord]);
            && |s2.requests| == 2 && s2.requests[0].op.Write? && s2.requests[1].op.Write? && s2.requests[1].key == k
            && s2.requests[0].op.version == va && s2.requests[1].op.version == vb
            && coord in s2.stores && peer in s2.stores && Lookup(s2.stores[coord], k) == Some(va)
                && k !in s2.stores[peer]
  {
    var s1 := FirstTiedPut(c, coord, peer, k, ts, a);
    var vb := VersionedValue(b, ts, c.nodeIds[coord]);
    puts := [BeginPut(coord, k, a, ts, 1)];
    s2 := TiedPut(c, Init(c), puts, coord, peer, k, vb);
    puts := puts + [BeginPut(coord, k, b, ts, 1)];
    TieChangesNothing(s1.stores[coord], k, VersionedValue(a, ts, c.nodeIds[coord]), vb);
    assert s2.requests[..1][0] == s1.requests[0];
  }

  lemma FirstTiedPut(c: Config, coord: Port, peer: Port, k: Key, ts: real, a: Value) returns (s1: State)
    requires ValidConfig(c) && coord in Members(c) && peer in PeerPorts(c, coord)
    ensures coord in c.nodeIds && coord != peer
    ensures Legal(c, Init(c), [BeginPut(coord, k, a, ts, 1)]) && s1 == Exec(c, Init(c), [BeginPut(coord, k, a, ts, 1)])
    ensures WellFormed(c, Init(c)) && |s1.requests| == 1 && s1.requests[0].op.Write?
    ensures s1.requests[0].op.version == VersionedValue(a, ts, c.nodeIds[coord])
    ensures s1.stores.Keys == Members(c) && peer in s1.stores
    ensures s1.stores[coord] == map[k := VersionedValue(a, ts, c.nodeIds[coord])] && s1.stores[peer] == map[]
  {
    PeersAre(c.nodes, coord);
    assert Legal(c, Init(c), []) && Exec(c, Init(c), []) == Init(c);
    s1 := TiedPut(c, Init(c), [], coord, peer, k, VersionedValue(a, ts, c.nodeIds[coord]));
    assert [] + [BeginPut(coord, k, a, ts, 1)] == [BeginPut(coord, k, a, ts, 1)];
  }

  lemma TiedDelivery(c: Config, s2: State, coord: Port, peer: Port, k: Key, va: VersionedValue, vb: VersionedValue)
    requires WellFormed(c, s2) && Enabled(c, s2, Deliver(1, peer)) && coord != peer && va.SameStamp(vb) && va != vb
    requires |s2.requests| == 2 && s2.requests[0].op.Write? && s2.requests[1].op.Write? && s2.requests[1].key == k
    requires s2.requests[0].op.version == va && s2.requests[1].op.version == vb
    requires coord in s2.stores && peer in s2.stores && Lookup(s2.stores[coord], k) == Some(va) && k !in s2.stores[peer]
    ensures TornApart(Apply(c, s2, Deliver(1, peer)), k, coord, peer, va, vb)
  {
    OnlySubjectChanges(c, s2, Deliver(1, peer));
    var s := Apply(c, s2, Deliver(1, peer));
    assert Lookup(s.stores[peer], k) == Some(vb) && s.stores[coord] == s2.stores[coord];
    assert s.requests[1].op == s2.requests[1].op;
  }

  lemma TiedPut(c: Config, s0: State, steps: seq<Step>, coord: Port, peer: Port, k: Key, v: VersionedValue)
    returns (s': State)
    requires Legal(c, s0, steps) && coord in Members(c) && peer in PeerPorts(c, coord) && coord in c.nodeIds
    requires WellFormed(c, s0) && v.nodeId == c.nodeIds[coord] && coord in Exec(c, s0, steps).stores
    ensures var s, step := Exec(c, s0, steps), BeginPut(coord, k, v.value, v.timestamp, 1);
            && Legal(c, s0, steps + [step]) && s' == Exec(c, s0, steps + [step])
            && s'.stores == s.stores[coord := PutStore(s.stores[coord], k, v)]
            && |s'.requests| == |s.requests| + 1 && s'.requests[..|s.requests|] == s.requests
            && var q := s'.requests[|s.requests|];
               q.key == k && q.op.Write? && q.op.version == v && peer in q.messages && q.messages[peer].Sent?
  {
    assert |c.nodes| >= 1;
    LegalSnoc(c, s0, steps, BeginPut(coord, k, v.value, v.timestamp, 1));
    s' := Exec(c, s0, steps + [BeginPut(coord, k, v.value, v.timestamp, 1)]);
  }
}
