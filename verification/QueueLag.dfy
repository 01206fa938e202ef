/** The lag a follower reports: two numbers read at different moments, and what may be
    concluded from them. */
module QueueLag {
  import opened Versions
  import opened Storage
  import opened Queue

  function TrueLag(s: QState, w: Follower, p: nat): int
    requires p < |s.logs| && p < |w.committed|
  {
    |s.logs[p]| - CommittedOffset(w, p)
  }

  lemma CommitRises(t: Topic, s: QState, step: QStep, f: nat, p: nat)
    requires QInv(t, s) && Sized(t, s) && QEnabled(t, s, step) && f < |s.followers| && p < t.partitions
    ensures var s' := QApply(t, s, step);
            && QInv(t, s') && |s'.followers| == |s.followers|
            && p < |s.followers[f].committed| && p < |s'.followers[f].committed|
            && CommittedOffset(s.followers[f], p) <= CommittedOffset(s'.followers[f], p)
  {
    var s' := QApply(t, s, step);
    QInvStep(t, s, step);
    assert FollowerOk(t, s.logs, s.followers[f]);
    assert FollowerOk(t, s'.logs, s'.followers[f]);
    assert CommitsFollow(s.followers[f], p);
  }

  lemma {:induction false} CommitsNeverRegress(t: Topic, s: QState, steps: seq<QStep>, f: nat, p: nat)
    requires QInv(t, s) && QLegal(t, s, steps) && f < |s.followers| && p < t.partitions
    ensures var s' := QExec(t, s, steps);
            && f < |s'.followers| && p < |s.followers[f].committed| && p < |s'.followers[f].committed|
            && CommittedOffset(s.followers[f], p) <= CommittedOffset(s'.followers[f], p)
    decreases |steps|
  {
    if steps == [] {
      assert FollowerOk(t, s.logs, s.followers[f]);
    } else {
      CommitRises(t, s, steps[0], f, p);
      CommitsNeverRegress(t, QApply(t, s, steps[0]), steps[1..], f, p);
    }
  }

  /** One partition's reported lag: the end offset as it was in `s`, minus the committed
      offset as it was later, in `s'`. */
  function ReportedLag(s: QState, s': QState, f: nat, p: nat): int
    requires p < |s.logs| && f < |s'.followers| && p < |s'.followers[f].committed|
  {
    |s.logs[p]| - CommittedOffset(s'.followers[f], p)
  }

  /** With anything going on between the two readings, the reported lag is at most the true
      lag at either moment; it is short of the earlier one by exactly what was committed
      in between, and of the later one by exactly what was produced. */
  lemma ReportedLagIsLowerBound(t: Topic, s: QState, steps: seq<QStep>, f: nat, p: nat)
    requires QInv(t, s) && QLegal(t, s, steps) && f < |s.followers| && p < t.partitions
    ensures var s' := QExec(t, s, steps);
            && f < |s'.followers| && |s'.logs| == |s.logs| == t.partitions
            && p < |s.followers[f].committed| && p < |s'.followers[f].committed|
            && var reported := ReportedLag(s, s', f, p);
               && reported <= TrueLag(s, s.followers[f], p) && reported <= TrueLag(s', s'.followers[f], p)
               && TrueLag(s, s.followers[f], p) - reported
                  == CommittedOffset(s'.followers[f], p) - CommittedOffset(s.followers[f], p)
               && TrueLag(s', s'.followers[f], p) - reported == |s'.logs[p]| - |s.logs[p]|
  {
    CommitsNeverRegress(t, s, steps, f, p);
    QRunKeepsInv(t, s, steps);
  }

  function Sum(lags: seq<int>): int
    decreases |lags|
  {
    if lags == [] then 0 else Sum(lags[..|lags| - 1]) + lags[|lags| - 1]
  }

  /** The plain sum: of one lag, that lag; of two stretches, both together. */
  lemma {:induction false} SumAdds(xs: seq<int>, ys: seq<int>)
    ensures Sum([]) == 0 && forall x :: Sum([x]) == x
    ensures Sum(xs + ys) == Sum(xs) + Sum(ys)
    decreases |ys|
  {
    forall x ensures Sum([x]) == x {
      assert [x][..0] == [];
    }
    if ys == [] {
      assert xs + ys == xs;
    } else {
      var n := |ys| - 1;
      assert (xs + ys)[..|xs + ys| - 1] == xs + ys[..n];
      SumAdds(xs, ys[..n]);
    }
  }

  lemma {:induction false} SumOfNonPositive(lags: seq<int>)
    requires forall i | 0 <= i < |lags| :: lags[i] <= 0
    ensures Sum(lags) <= 0 && (Sum(lags) == 0 ==> forall i | 0 <= i < |lags| :: lags[i] == 0)
    decreases |lags|
  {
    if lags != [] {
      SumOfNonPositive(lags[..|lags| - 1]);
    }
  }

  lemma {:induction false} SumOfNonNegative(lags: seq<int>)
    requires forall i | 0 <= i < |lags| :: lags[i] >= 0
    ensures Sum(lags) >= 0 && (Sum(lags) == 0 ==> forall i | 0 <= i < |lags| :: lags[i] == 0)
    decreases |lags|
  {
    if lags != [] {
      SumOfNonNegative(lags[..|lags| - 1]);
    }
  }

  lemma {:induction false} SumAtMost(xs: seq<int>, ys: seq<int>)
    requires |xs| == |ys| && forall i | 0 <= i < |xs| :: xs[i] <= ys[i]
    ensures Sum(xs) <= Sum(ys)
    decreases |xs|
  {
    if xs != [] {
      SumAtMost(xs[..|xs| - 1], ys[..|ys| - 1]);
    }
  }

  /** A lag report: end offsets read in `s`, then the committed offset of partition p read
      in `readings[p]`, each reached from `s` by some run. */
  ghost predicate LagReport(t: Topic, s: QState, f: nat, readings: seq<QState>, runs: seq<seq<QStep>>, lags: seq<int>) {
    && QInv(t, s) && f < |s.followers|
    && |readings| == |runs| == |lags| == t.partitions
    && forall p | 0 <= p < t.partitions ::
         && QLegal(t, s, runs[p]) && readings[p] == QExec(t, s, runs[p])
         && |s.logs| == t.partitions && f < |readings[p].followers| && p < |readings[p].followers[f].committed|
         && lags[p] == ReportedLag(s, readings[p], f, p)
  }

  /** Every message of `p` that was logged in `s` has been consumed by reading time. */
  ghost predicate HandledSince(s: QState, reading: QState, f: nat, p: nat) {
    && p < |s.logs| && f < |reading.followers| && p < |reading.followers[f].committed|
        && p < |reading.followers[f].position|
    && CommittedOffset(reading.followers[f], p) >= |s.logs[p]|
    && reading.followers[f].position[p] >= |s.logs[p]|
  }

  /** Every partition reports lag at most 0 exactly when everything logged at the first
      reading was handled by the later ones. A total of 0 says so exactly when no
      partition's lag is negative. */
  lemma LagReportMeaning(t: Topic, s: QState, f: nat, readings: seq<QState>, runs: seq<seq<QStep>>, lags: seq<int>)
    requires LagReport(t, s, f, readings, runs, lags)
    ensures (forall p | 0 <= p < t.partitions :: lags[p] <= 0)
            <==> (forall p | 0 <= p < t.partitions :: HandledSince(s, readings[p], f, p))
    ensures Sum(lags) == 0 ==>
              ((forall p | 0 <= p < t.partitions :: HandledSince(s, readings[p], f, p))
               <==> (forall p | 0 <= p < t.partitions :: lags[p] >= 0))
  {
    forall p | 0 <= p < t.partitions ensures lags[p] <= 0 <==> HandledSince(s, readings[p], f, p) {
      QRunKeepsInv(t, s, runs[p]);
      assert FollowerOk(t, readings[p].logs, readings[p].followers[f]);
      assert CommitsFollow(readings[p].followers[f], p);
    }
    if forall p | 0 <= p < t.partitions :: lags[p] <= 0 {
      SumOfNonPositive(lags);
    }
    if forall p | 0 <= p < t.partitions :: lags[p] >= 0 {
      SumOfNonNegative(lags);
    }
  }

  // ----- What a zero does not mean

  function TwoPartitions(): Topic {
    Topic(2, (k: Key) => |k| % 2)
  }

  function One(k: Key): QStep {
    Produce(k, 1, 1.0, "producer")
  }

  lemma RunTwo(t: Topic, s: QState, first: QStep, rest: seq<QStep>)
    requires Sized(t, s) && QEnabled(t, s, first) && QLegal(t, QApply(t, s, first), rest)
    ensures QLegal(t, s, [first] + rest) && QExec(t, s, [first] + rest) == QExec(t, QApply(t, s, first), rest)
  {
    assert ([first] + rest)[1..] == rest;
  }

  /** One message, in the second of two partitions. */
  lemma OneLogged() returns (t: Topic, steps: seq<QStep>, s: QState)
    ensures t == TwoPartitions() && ValidTopic(t)
    ensures QLegal(t, QInit(t, 1), steps) && s == QExec(t, QInit(t, 1), steps)
    ensures QInv(t, s) && Sized(t, s) && |s.logs| == 2 && s.logs[0] == [] && |s.logs[1]| == 1
    ensures s.followers == [NewFollower(2)]
  {
    t := TwoPartitions();
    var s0 := QInit(t, 1);
    QInvInit(t, 1);
    InvSized(t, s0);
    assert s0.followers[0] == NewFollower(t.partitions);
    s := QApply(t, s0, One("a"));
    QInvStep(t, s0, One("a"));
    InvSized(t, s);
    steps := [One("a")] + [];
    RunTwo(t, s0, One("a"), []);
  }

  /** A message is logged in the first partition, applied and committed. */
  lemma OneHandled(t: Topic, s: QState) returns (steps: seq<QStep>, s': QState)
    requires t == TwoPartitions() && QInv(t, s) && Sized(t, s) && s.logs[0] == [] && s.followers == [NewFollower(2)]
    ensures QLegal(t, s, steps) && s' == QExec(t, s, steps)
    ensures |s'.followers| == 1 && s'.followers[0].committed == [Some(1), None]
  {
    var s1 := QApply(t, s, One("bb"));
    QInvStep(t, s, One("bb"));
    InvSized(t, s1);
    var s2 := QApply(t, s1, ApplyNext(0, 0));
    QInvStep(t, s1, ApplyNext(0, 0));
    InvSized(t, s2);
    s' := QApply(t, s2, Commit(0));
    QInvStep(t, s2, Commit(0));
    InvSized(t, s');
    RunTwo(t, s2, Commit(0), []);
    RunTwo(t, s1, ApplyNext(0, 0), [Commit(0)] + []);
    steps := [One("bb")] + ([ApplyNext(0, 0)] + ([Commit(0)] + []));
    RunTwo(t, s, One("bb"), [ApplyNext(0, 0)] + ([Commit(0)] + []));
  }

  /** A total of 0 can hide an unhandled message: a message already logged at the first
      reading weighs +1 on its partition, and one logged and committed between the two
      readings weighs -1 on another. */
  lemma ZeroTotalCanHideBacklog()
    returns (t: Topic, before: seq<QStep>, s: QState, between: seq<QStep>, s': QState, lags: seq<int>)
    ensures ValidTopic(t) && QLegal(t, QInit(t, 1), before) && s == QExec(t, QInit(t, 1), before)
    ensures QLegal(t, s, between) && s' == QExec(t, s, between)
    ensures LagReport(t, s, 0, [s', s'], [between, between], lags)
    ensures Sum(lags) == 0 && !HandledSince(s, s', 0, 1)
  {
    t, before, s := OneLogged();
    between, s' := OneHandled(t, s);
    lags := [-1, 1];
    assert ReportedLag(s, s', 0, 0) == -1;
    assert ReportedLag(s, s', 0, 1) == 1;
    assert lags[..1] == [-1] && lags[..1][..0] == [];
    assert Sum([]) == 0 && Sum([-1]) == -1;
  }

  /** One partition, one message, handled and committed. */
  lemma HandledOne(k: Key, v: VersionedValue) returns (t: Topic, steps: seq<QStep>, s: QState)
    ensures t.partitions == 1 && ValidTopic(t) && QLegal(t, QInit(t, 1), steps) && s == QExec(t, QInit(t, 1), steps)
    ensures QInv(t, s) && s.logs == [[Entry(k, v)]] && |s.followers| == 1
    ensures s.followers[0].committed == [Some(1)]
  {
    t := Topic(1, (key: Key) => 0);
    var publish := Produce(k, v.value, v.timestamp, v.nodeId);
    var s0 := QInit(t, 1);
    QInvInit(t, 1);
    InvSized(t, s0);
    assert s0.followers[0] == NewFollower(1);
    var s1 := QApply(t, s0, publish);
    QInvStep(t, s0, publish);
    InvSized(t, s1);
    assert s1.logs == [[Entry(k, v)]];
    var s2 := QApply(t, s1, ApplyNext(0, 0));
    QInvStep(t, s1, ApplyNext(0, 0));
    InvSized(t, s2);
    assert s2.followers[0].position == [1];
    s := QApply(t, s2, Commit(0));
    QInvStep(t, s2, Commit(0));
    InvSized(t, s);
    RunTwo(t, s2, Commit(0), []);
    RunTwo(t, s1, ApplyNext(0, 0), [Commit(0)] + []);
    steps := [publish] + ([ApplyNext(0, 0)] + ([Commit(0)] + []));
    RunTwo(t, s0, publish, [ApplyNext(0, 0)] + ([Commit(0)] + []));
  }

  /** A restarted follower can be fully caught up by every measure and hold nothing: it
      resumes where it had committed, with an empty store. */
  lemma RestartForgets(k: Key, v: VersionedValue) returns (t: Topic, steps: seq<QStep>, s: QState, s': QState)
    ensures ValidTopic(t) && QLegal(t, QInit(t, 1), steps) && s == QExec(t, QInit(t, 1), steps)
    ensures Sized(t, s) && QEnabled(t, s, Restart(0)) && s' == QApply(t, s, Restart(0))
    ensures |s'.logs| == |s'.followers| == 1 && |s'.followers[0].committed| == 1
    ensures s'.logs[0] == [Entry(k, v)] && TrueLag(s', s'.followers[0], 0) == 0
    ensures Lookup(s'.followers[0].store, k) == None
  {
    t, steps, s := HandledOne(k, v);
    InvSized(t, s);
    s' := QApply(t, s, Restart(0));
  }
}
