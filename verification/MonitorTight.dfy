/** The load test can count a stale read whenever the quorums need not overlap. */
module MonitorTight {
  import opened Versions
  import opened Topology
  import opened Handlers
  import opened Cluster
  import opened ClusterSafety
  import opened Tightness
  import opened LoadTest
  import opened Monitor

  // ----- Building runs of the whole

  lemma MApplyWellFormed(u: Setup, m: MState, step: MStep)
    requires u.writers != [] && WellFormed(u.cluster, m.cluster) && MEnabled(u, m, step)
    ensures WellFormed(u.cluster, MApply(u, m, step).cluster)
  {
    var inner := Induced(u, m, step);
    if inner.Some? {
      ApplyWellFormed(u.cluster, m.cluster, inner.value);
    }
  }

  lemma {:induction false} MLegalAppend(u: Setup, m: MState, xs: seq<MStep>, ys: seq<MStep>)
    requires MLegal(u, m, xs) && MLegal(u, MExec(u, m, xs), ys)
    ensures MLegal(u, m, xs + ys) && MExec(u, m, xs + ys) == MExec(u, MExec(u, m, xs), ys)
    decreases |xs|
  {
    if xs == [] {
      assert xs + ys == ys;
    } else {
      assert (xs + ys)[1..] == xs[1..] + ys;
      MLegalAppend(u, MApply(u, m, xs[0]), xs[1..], ys);
    }
  }

  lemma {:induction false} MExecWellFormed(u: Setup, m: MState, steps: seq<MStep>)
    requires MLegal(u, m, steps)
    ensures u.writers != [] && WellFormed(u.cluster, MExec(u, m, steps).cluster)
    decreases |steps|
  {
    if steps != [] {
      MExecWellFormed(u, MApply(u, m, steps[0]), steps[1..]);
    }
  }

  lemma MLegalSnoc(u: Setup, m: MState, steps: seq<MStep>, step: MStep)
    requires MLegal(u, m, steps) && MEnabled(u, MExec(u, m, steps), step)
    ensures u.writers != [] && WellFormed(u.cluster, MExec(u, m, steps).cluster)
    ensures MLegal(u, m, steps + [step]) && MExec(u, m, steps + [step]) == MApply(u, MExec(u, m, steps), step)
  {
    MExecWellFormed(u, m, steps);
    var m1 := MExec(u, m, steps);
    MApplyWellFormed(u, m1, step);
    assert MLegal(u, MApply(u, m1, step), []);
    assert [step][1..] == [];
    assert MLegal(u, m1, [step]);
    MLegalAppend(u, m, steps, [step]);
  }

  function Nets(steps: seq<Step>): seq<MStep> {
    seq(|steps|, i requires 0 <= i < |steps| => Net(steps[i]))
  }

  /** A run of the cluster is a run of the whole in which the workers stand still. */
  lemma {:induction false} NetsRun(u: Setup, m: MState, steps: seq<Step>)
    requires u.writers != [] && Legal(u.cluster, m.cluster, steps)
    ensures MLegal(u, m, Nets(steps))
    ensures MExec(u, m, Nets(steps)) == m.(cluster := Exec(u.cluster, m.cluster, steps))
    decreases |steps|
  {
    if steps != [] {
      assert Nets(steps)[1..] == Nets(steps[1..]);
      NetsRun(u, m.(cluster := Apply(u.cluster, m.cluster, steps[0])), steps[1..]);
    }
  }

  /** Within the steps of the cluster, every delivery is answered at once. */
  ghost predicate MPaired(steps: seq<MStep>)
    decreases |steps|
  {
    steps != [] ==>
      if steps[0].Net? && steps[0].step.Deliver? then
        |steps| >= 2 && steps[1] == Net(Complete(steps[0].step.i, steps[0].step.peer)) && MPaired(steps[2..])
      else (steps[0].Net? ==> steps[0].step.TakeIn? || steps[0].step.Leave?) && MPaired(steps[1..])
  }

  lemma {:induction false} MPairedAppend(xs: seq<MStep>, ys: seq<MStep>)
    requires MPaired(xs) && MPaired(ys)
    ensures MPaired(xs + ys)
    decreases |xs|
  {
    if xs == [] {
      assert xs + ys == ys;
    } else if xs[0].Net? && xs[0].step.Deliver? {
      assert (xs + ys)[2..] == xs[2..] + ys;
      MPairedAppend(xs[2..], ys);
    } else {
      assert (xs + ys)[1..] == xs[1..] + ys;
      MPairedAppend(xs[1..], ys);
    }
  }

  lemma {:induction false} NetsPaired(steps: seq<Step>)
    requires Paired(steps)
    ensures MPaired(Nets(steps))
    decreases |steps|
  {
    if steps == [] {
    } else if steps[0].Deliver? {
      assert Nets(steps)[2..] == Nets(steps[2..]);
      NetsPaired(steps[2..]);
    } else {
      assert Nets(steps)[1..] == Nets(steps[1..]);
      NetsPaired(steps[1..]);
    }
  }

  lemma MPairedSnoc(steps: seq<MStep>, step: MStep)
    requires MPaired(steps) && !step.Net?
    ensures MPaired(steps + [step])
  {
    assert MPaired([step]);
    MPairedAppend(steps, [step]);
  }

  // ----- The run that is counted stale

  /** `steps` leads from `m0` to `m`, paired. */
  ghost predicate Leads(u: Setup, m0: MState, steps: seq<MStep>, m: MState) {
    MLegal(u, m0, steps) && MExec(u, m0, steps) == m && MPaired(steps)
  }

  lemma LeadsOn(u: Setup, m0: MState, steps: seq<MStep>, m: MState, step: MStep) returns (m': MState)
    requires Leads(u, m0, steps, m) && MEnabled(u, m, step) && !step.Net?
    ensures u.writers != [] && WellFormed(u.cluster, m.cluster) && m' == MApply(u, m, step)
    ensures WellFormed(u.cluster, m'.cluster)
    ensures Leads(u, m0, steps + [step], m')
  {
    MLegalSnoc(u, m0, steps, step);
    MPairedSnoc(steps, step);
    m' := MApply(u, m, step);
    MApplyWellFormed(u, m, step);
  }

  lemma LeadsOnNets(u: Setup, m0: MState, steps: seq<MStep>, m: MState, inner: seq<Step>) returns (m': MState)
    requires Leads(u, m0, steps, m) && Legal(u.cluster, m.cluster, inner) && Paired(inner)
    ensures m' == m.(cluster := Exec(u.cluster, m.cluster, inner)) && WellFormed(u.cluster, m'.cluster)
    ensures Leads(u, m0, steps + Nets(inner), m')
  {
    MExecWellFormed(u, m0, steps);
    NetsRun(u, m, inner);
    NetsPaired(inner);
    MLegalAppend(u, m0, steps, Nets(inner));
    MPairedAppend(steps, Nets(inner));
    m' := m.(cluster := Exec(u.cluster, m.cluster, inner));
    ExecWellFormed(u.cluster, m.cluster, inner);
  }

  lemma LegalUncons(c: Config, s: State, step: Step, rest: seq<Step>)
    requires Legal(c, s, [step] + rest)
    ensures WellFormed(c, s) && Enabled(c, s, step) && Legal(c, Apply(c, s, step), rest)
    ensures Exec(c, s, [step] + rest) == Exec(c, Apply(c, s, step), rest)
  {
    assert ([step] + rest)[1..] == rest;
  }

  /** One worker, one key: write it, then read it. */
  function WriteThenRead(target: nat): seq<PlanItem> {
    [PlanItem(false, "k", 0), PlanItem(true, "k", target)]
  }

  /** After the write was acknowledged by the peers in `acking` only. */
  ghost predicate WriteDone(u: Setup, m: MState, target: nat, acking: seq<Port>)
    requires u.writers != []
  {
    && |m.workers| == 1 && m.workers[0].activity.Idle?
    && m.workers[0].todo == WriteThenRead(target)[1..]
    && m.workers[0].tally.staleReads == 0
    && "k" in m.truth && m.cluster.deleted == {} && m.cluster.stores.Keys == Members(u.cluster)
    && forall n | n in m.cluster.stores && n != u.writers[0] && n !in Elements(acking) :: m.cluster.stores[n] == map[]
  }

  lemma WriteStarts(u: Setup, target: nat) returns (m1: MState)
    requires ValidSetup(u)
    ensures Leads(u, MInit(u, [WriteThenRead(target)]), [Start(0)], m1)
    ensures m1.cluster == Init(u.cluster) && WellFormed(u.cluster, m1.cluster) && |m1.workers| == 1
    ensures m1.workers[0].todo == WriteThenRead(target)[1..] && m1.workers[0].tally.staleReads == 0
    ensures m1.workers[0].activity == Writing("k", 0, u.writers[0], None)
  {
    var m0 := MInit(u, [WriteThenRead(target)]);
    InvInit(u.cluster);
    assert Leads(u, m0, [], m0);
    m1 := LeadsOn(u, m0, [], m0, Start(0));
    assert [] + [Start(0)] == [Start(0)];
  }

  lemma WritePhase(u: Setup, target: nat, acking: seq<Port>) returns (steps: seq<MStep>, m: MState)
    requires ValidSetup(u)
    requires NoDuplicates(acking) && |acking| == u.w - 1 && Elements(acking) <= Members(u.cluster) - {u.writers[0]}
    ensures Leads(u, MInit(u, [WriteThenRead(target)]), steps, m) && WriteDone(u, m, target, acking)
  {
    var m0, coord := MInit(u, [WriteThenRead(target)]), u.writers[0];
    var m1 := WriteStarts(u, target);
    steps := [Start(0)];
    var puts, s' := DrivePut(u.cluster, m0.cluster, coord, "k", 0, 0.0, u.w, acking);
    var begin := BeginPut(coord, "k", 0, 0.0, u.w);
    LegalUncons(u.cluster, m0.cluster, begin, puts);
    assert PutStep(u, m1.workers[0].activity, 0.0) == begin;
    var m2 := LeadsOn(u, m0, steps, m1, IssueWrite(0, 0.0));
    steps := steps + [IssueWrite(0, 0.0)];
    var m3 := LeadsOnNets(u, m0, steps, m2, puts);
    steps := steps + Nets(puts);
    assert m3.cluster == s' && m3.workers[0].activity == Writing("k", 0, coord, Some(0));
    assert s'.requests[0].status == Answered(PutOk(true, 0.0));
    m := LeadsOn(u, m0, steps, m3, Finish(0));
    steps := steps + [Finish(0)];
  }

  lemma ReadPhase(u: Setup, m0: MState, before: seq<MStep>, m: MState, target: nat, acking: seq<Port>, asked: seq<Port>)
    returns (steps: seq<MStep>, m': MState)
    requires ValidSetup(u) && Leads(u, m0, before, m) && WriteDone(u, m, target, acking)
    requires target < |u.readers| && u.readers[target] != u.writers[0] && u.readers[target] !in Elements(acking)
    requires NoDuplicates(asked) && |asked| == u.r - 1
    requires Elements(asked) <= Members(u.cluster) - {u.writers[0], u.readers[target]} - Elements(acking)
    ensures Leads(u, m0, steps, m') && m'.cluster.deleted == {} && TotalStale(m'.workers) == 1
  {
    var reader, s := u.readers[target], m.cluster;
    steps := before;
    MExecWellFormed(u, m0, before);
    var m1 := LeadsOn(u, m0, steps, m, Start(0));
    steps := steps + [Start(0)];
    assert m1.workers[0].activity == Reading("k", m.truth["k"], reader, None);
    forall n | 0 <= n < |asked| ensures asked[n] in s.stores && "k" !in s.stores[asked[n]] {
      var p := asked[n];
      assert p in Elements(asked);
    }
    var gets, s' := MissingGet(u.cluster, s, reader, "k", u.r, asked);
    var begin := BeginGet(reader, "k", u.r, Elements(asked));
    LegalUncons(u.cluster, s, begin, gets);
    assert GetStep(u, m1.workers[0].activity, Elements(asked)) == begin;
    var m2 := LeadsOn(u, m0, steps, m1, IssueRead(0, Elements(asked)));
    steps := steps + [IssueRead(0, Elements(asked))];
    var m3 := LeadsOnNets(u, m0, steps, m2, gets);
    steps := steps + Nets(gets);
    assert m3.cluster == s' && m3.workers[0].activity == Reading("k", m.truth["k"], reader, Some(|s.requests|));
    assert s'.requests[|s.requests|].status == Answered(NotFound);
    m' := LeadsOn(u, m0, steps, m3, Finish(0));
    steps := steps + [Finish(0)];
    assert m'.workers[1..] == [];
  }

  lemma StaleRunExists(u: Setup, target: nat) returns (steps: seq<MStep>, m: MState)
    requires ValidSetup(u) && u.w + u.r <= |u.cluster.nodes|
    requires target < |u.readers| && u.readers[target] != u.writers[0]
    ensures Leads(u, MInit(u, [WriteThenRead(target)]), steps, m)
    ensures m.cluster.deleted == {} && TotalStale(m.workers) == 1
  {
    var members, writer, reader := Members(u.cluster), u.writers[0], u.readers[target];
    DistinctCount(PortSeq(u.cluster.nodes));
    assert |members - {writer, reader}| == |members| - 2;
    var acking := PickSome(members - {writer, reader}, u.w - 1);
    assert |members - {writer, reader} - Elements(acking)| == |members| - 1 - u.w;
    var asked := PickSome(members - {writer, reader} - Elements(acking), u.r - 1);
    var first, m1 := WritePhase(u, target, acking);
    steps, m := ReadPhase(u, MInit(u, [WriteThenRead(target)]), first, m1, target, acking, asked);
  }

  // ----- The exact condition

  /** A run without deletes in which the load test counts a stale read. */
  ghost predicate StaleRun(u: Setup, plans: seq<seq<PlanItem>>, steps: seq<MStep>) {
    && MLegal(u, MInit(u, plans), steps)
    && MExec(u, MInit(u, plans), steps).cluster.deleted == {}
    && TotalStale(MExec(u, MInit(u, plans), steps).workers) > 0
  }

  function Leaderless(c: Config, w: int, r: int): Setup {
    Setup(c, w, r, PortSeq(c.nodes), PortSeq(c.nodes))
  }

  /** The load test against a leaderless cluster of any size: zero stale reads in every run
      if and only if w + r > N. */
  lemma LeaderlessStalenessIff(c: Config, w: int, r: int)
    requires ValidConfig(c) && 1 <= w <= |c.nodes| && 1 <= r <= |c.nodes|
    ensures (forall plans, steps :: !StaleRun(Leaderless(c, w, r), plans, steps)) <==> w + r > |c.nodes|
  {
    var u := Leaderless(c, w, r);
    forall i | 0 <= i < |u.writers| ensures u.writers[i] in Members(c) {
    }
    if w + r > |c.nodes| {
      forall plans, steps ensures !StaleRun(u, plans, steps) {
        if MLegal(u, MInit(u, plans), steps) {
          NoStaleReads(u, plans, steps);
        }
      }
    } else {
      assert u.readers[1] != u.writers[0];
      var steps, m := StaleRunExists(u, 1);
      assert StaleRun(u, [WriteThenRead(1)], steps);
    }
  }
}
