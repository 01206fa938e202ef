/** Where the load test's record of confirmed writes comes from, for any quorum sizes. */
module MonitorTruth {
  import opened Versions
  import opened Topology
  import opened Handlers
  import opened Cluster
  import opened ClusterSafety
  import opened Quorum
  import opened LoadTest
  import opened Monitor

  /** Some PUT of `k` with that value and timestamp was answered 200 and applied locally. */
  ghost predicate Confirmed(s: State, k: Key, entry: SourceEntry) {
    exists i :: 0 <= i < |s.requests| && Confirms(s.requests[i], k, entry)
  }

  predicate Confirms(q: Request, k: Key, entry: SourceEntry) {
    && q.key == k && q.op.Write? && q.op.applied
    && q.op.version.value == entry.value && q.op.version.timestamp == entry.timestamp
    && q.status == Answered(PutOk(true, entry.timestamp))
  }

  ghost predicate TruthConfirmed(s: State, truth: Truth) {
    forall k | k in truth :: Confirmed(s, k, truth[k])
  }

  /** A worker waits for the write it asked for. */
  ghost predicate WriterOk(s: State, a: Activity) {
    a.Writing? && a.request.Some? ==>
      && a.request.value < |s.requests|
      && var q := s.requests[a.request.value];
         q.op.Write? && q.key == a.key && q.op.version.value == a.value
  }

  ghost predicate TInv(u: Setup, m: MState) {
    && ValidSetup(u) && Inv(u.cluster, m.cluster) && TruthConfirmed(m.cluster, m.truth)
    && forall x | 0 <= x < |m.workers| :: WriterOk(m.cluster, m.workers[x].activity)
  }

  lemma ClusterMoves(u: Setup, m: MState, step: Step)
    requires TInv(u, m) && Enabled(u.cluster, m.cluster, step)
    ensures TInv(u, m.(cluster := Apply(u.cluster, m.cluster, step)))
  {
    var s, s' := m.cluster, Apply(u.cluster, m.cluster, step);
    InvStep(u.cluster, s, step);
    RequestsStay(u.cluster, s, step);
    forall k | k in m.truth ensures Confirmed(s', k, m.truth[k]) {
      var i :| 0 <= i < |s.requests| && Confirms(s.requests[i], k, m.truth[k]);
      assert Continues(s.requests[i], s'.requests[i]);
      assert Confirms(s'.requests[i], k, m.truth[k]);
    }
    forall x | 0 <= x < |m.workers| ensures WriterOk(s', m.workers[x].activity) {
      var a := m.workers[x].activity;
      assert WriterOk(s, a);
      if a.Writing? && a.request.Some? {
        assert Continues(s.requests[a.request.value], s'.requests[a.request.value]);
      }
    }
  }

  lemma RequestsStay(c: Config, s: State, step: Step)
    requires WellFormed(c, s) && Enabled(c, s, step)
    ensures |s.requests| <= |Apply(c, s, step).requests|
    ensures forall j | 0 <= j < |s.requests| :: Continues(s.requests[j], Apply(c, s, step).requests[j])
  {
    StepContinues(c, s, step);
    OnlySubjectChanges(c, s, step);
  }

  lemma WorkerMoves(u: Setup, m: MState, x: nat, w: Worker)
    requires TInv(u, m) && x < |m.workers| && WriterOk(m.cluster, w.activity)
    ensures TInv(u, m.(workers := m.workers[x := w]))
  {
  }

  lemma StartKeepsTruth(u: Setup, m: MState, x: nat)
    requires TInv(u, m) && MEnabled(u, m, Start(x))
    ensures TInv(u, Started(u, m, x))
  {
    var m' := Started(u, m, x);
    assert WriterOk(m.cluster, m.workers[x].activity);
    WorkerMoves(u, m.(counter := m'.counter, rotation := m'.rotation), x, m'.workers[x]);
  }

  lemma IssueKeepsTruth(u: Setup, m: MState, step: MStep)
    requires TInv(u, m) && MEnabled(u, m, step) && (step.IssueWrite? || step.IssueRead?)
    ensures TInv(u, MApply(u, m, step))
  {
    var inner := Induced(u, m, step).value;
    var m1 := m.(cluster := Apply(u.cluster, m.cluster, inner));
    ClusterMoves(u, m, inner);
    var x, m' := step.x, MApply(u, m, step);
    IssuedRequest(u, m, step);
    WorkerMoves(u, m1, x, m'.workers[x]);
    assert m' == m1.(workers := m1.workers[x := m'.workers[x]]);
  }

  lemma IssuedRequest(u: Setup, m: MState, step: MStep)
    requires TInv(u, m) && MEnabled(u, m, step) && (step.IssueWrite? || step.IssueRead?)
    ensures WriterOk(MApply(u, m, step).cluster, MApply(u, m, step).workers[step.x].activity)
  {
  }

  lemma SettledKeepsTruth(u: Setup, m: MState, x: nat, written: WriteReply, got: ReadReply)
    requires TInv(u, m) && x < |m.workers|
    requires var a := m.workers[x].activity;
             a.Writing? && written.WriteOk? && written.applied ==>
               Confirmed(m.cluster, a.key, SourceEntry(a.value, written.timestamp))
    ensures TInv(u, Settled(m, x, written, got))
  {
    var m' := Settled(m, x, written, got);
    assert WriterOk(m.cluster, m.workers[x].activity);
    WorkerMoves(u, m.(truth := m'.truth), x, m'.workers[x]);
  }

  lemma FinishedWrite(u: Setup, m: MState, x: nat)
    requires TInv(u, m) && MEnabled(u, m, Finish(x)) && m.workers[x].activity.Writing?
    ensures var a := m.workers[x].activity;
            var reply := WriteReplyOf(m.cluster.requests[a.request.value].status.response);
            reply.WriteOk? && reply.applied ==> Confirmed(m.cluster, a.key, SourceEntry(a.value, reply.timestamp))
  {
    var a := m.workers[x].activity;
    var q := m.cluster.requests[a.request.value];
    assert WriterOk(m.cluster, a);
    assert q.status.response == Answer(q) by {
      assert RequestOk(m.cluster.stores.Keys, q);
    }
    var reply := WriteReplyOf(q.status.response);
    if reply.WriteOk? && reply.applied {
      assert Confirms(q, a.key, SourceEntry(a.value, reply.timestamp));
    }
  }

  lemma StepKeepsTruth(u: Setup, m: MState, step: MStep)
    requires TInv(u, m) && MEnabled(u, m, step)
    ensures TInv(u, MApply(u, m, step))
  {
    match step
    case Net(inner) => ClusterMoves(u, m, inner);
    case Start(x) => StartKeepsTruth(u, m, x);
    case IssueWrite(x, timestamp) => IssueKeepsTruth(u, m, step);
    case IssueRead(x, chosen) => IssueKeepsTruth(u, m, step);
    case Finish(x) =>
      if m.workers[x].activity.Writing? {
        FinishedWrite(u, m, x);
      }
      var response := m.cluster.requests[m.workers[x].activity.request.value].status.response;
      SettledKeepsTruth(u, m, x, WriteReplyOf(response), ReadReplyOf(response));
    case GiveUp(x, kind) => SettledKeepsTruth(u, m, x, WriteFailed(kind), ReadFailed(kind));
  }

  lemma {:induction false} RunKeepsTruth(u: Setup, m: MState, steps: seq<MStep>)
    requires TInv(u, m) && MLegal(u, m, steps)
    ensures TInv(u, MExec(u, m, steps))
    decreases |steps|
  {
    if steps != [] {
      StepKeepsTruth(u, m, steps[0]);
      RunKeepsTruth(u, MApply(u, m, steps[0]), steps[1..]);
    }
  }

  /** In every run, whatever w and r are, each truth entry is a PUT of its key, with that
      value and timestamp, that was answered 200 and applied. */
  lemma TruthIsConfirmed(u: Setup, plans: seq<seq<PlanItem>>, steps: seq<MStep>)
    requires ValidSetup(u) && MLegal(u, MInit(u, plans), steps)
    ensures var m := MExec(u, MInit(u, plans), steps); TruthConfirmed(m.cluster, m.truth)
  {
    InvInit(u.cluster);
    RunKeepsTruth(u, MInit(u, plans), steps);
  }
}
