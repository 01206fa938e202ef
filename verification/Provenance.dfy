/** Where data comes from, and what each store amounts to: over every run, each slot is
    the LWW join of the versions put to it since it was last deleted there. */
module Provenance {
  import opened Versions
  import opened Storage
  import opened Topology
  import opened Handlers
  import opened Cluster
  import opened ClusterSafety
  import opened Quorum

  // ----- No invented data

  ghost predicate Known(s: State, k: Key, v: VersionedValue) {
    exists i :: 0 <= i < |s.requests| && s.requests[i].key == k && s.requests[i].op.Write?
        && s.requests[i].op.version == v
  }

  ghost predicate EntryKnown(s: State, k: Key, e: Option<VersionedValue>) {
    e.Some? ==> Known(s, k, e.value)
  }

  ghost predicate StoresKnown(s: State) {
    forall n, k | n in s.stores && k in s.stores[n] :: Known(s, k, s.stores[n][k])
  }

  ghost predicate RequestKnown(s: State, q: Request) {
    && (q.op.Read? ==> EntryKnown(s, q.key, q.op.local))
    && (forall p | p in q.messages && q.messages[p].Arrived? :: EntryKnown(s, q.key, q.messages[p].reply))
  }

  ghost predicate AllKnown(s: State) {
    StoresKnown(s) && forall i | 0 <= i < |s.requests| :: RequestKnown(s, s.requests[i])
  }

  lemma KnownPersists(c: Config, s: State, step: Step)
    requires WellFormed(c, s) && Enabled(c, s, step)
    ensures forall k, v | Known(s, k, v) :: Known(Apply(c, s, step), k, v)
  {
    StepContinues(c, s, step);
    OnlySubjectChanges(c, s, step);
    var s' := Apply(c, s, step);
    forall k, v | Known(s, k, v) ensures Known(s', k, v) {
      var i :| 0 <= i < |s.requests| && s.requests[i].key == k && s.requests[i].op.Write?
          && s.requests[i].op.version == v;
      assert Continues(s.requests[i], s'.requests[i]);
    }
  }

  lemma StoresStayKnown(c: Config, s: State, step: Step)
    requires WellFormed(c, s) && Enabled(c, s, step) && AllKnown(s)
    ensures StoresKnown(Apply(c, s, step))
  {
    KnownPersists(c, s, step);
    var s' := Apply(c, s, step);
    forall n, k | n in s'.stores && k in s'.stores[n] ensures Known(s', k, s'.stores[n][k]) {
      var v := s'.stores[n][k];
      if k in s.stores[n] && s.stores[n][k] == v {
        assert Known(s, k, v);
      } else if step.BeginPut? {
        assert s'.requests[|s.requests|].key == k && s'.requests[|s.requests|].op.version == v;
      } else {
        assert step.Deliver? && s.requests[step.i].key == k && s.requests[step.i].op.version == v;
        assert Known(s, k, v);
      }
    }
  }

  lemma SubjectKnown(c: Config, s: State, step: Step)
    requires WellFormed(c, s) && Enabled(c, s, step) && StoresKnown(s)
    requires Subject(s, step) < |s.requests| ==> RequestKnown(s, s.requests[Subject(s, step)])
    ensures var s' := Apply(c, s, step);
            Subject(s, step) < |s'.requests| ==> RequestKnown(s', s'.requests[Subject(s, step)])
  {
    KnownPersists(c, s, step);
    match step
    case BeginPut(coord, key, value, timestamp, w) =>
    case BeginGet(coord, key, r, chosen) =>
    case Deliver(i, p) =>
    case Lose(i, p) =>
    case Complete(i, p) =>
    case Fail(i, p) =>
    case TakeIn(i, done) =>
    case Leave(i, aborted) =>
    case Delete(node, key) =>
  }

  lemma StepKeepsKnown(c: Config, s: State, step: Step)
    requires WellFormed(c, s) && Enabled(c, s, step) && AllKnown(s)
    ensures AllKnown(Apply(c, s, step))
  {
    StoresStayKnown(c, s, step);
    SubjectKnown(c, s, step);
    OnlySubjectChanges(c, s, step);
    KnownPersists(c, s, step);
    var s' := Apply(c, s, step);
    forall i | 0 <= i < |s'.requests| ensures RequestKnown(s', s'.requests[i]) {
      if i != Subject(s, step) {
        assert RequestKnown(s, s.requests[i]) && s'.requests[i] == s.requests[i];
      }
    }
  }

  lemma {:induction false} RunKeepsKnown(c: Config, s: State, steps: seq<Step>)
    requires Legal(c, s, steps) && AllKnown(s)
    ensures AllKnown(Exec(c, s, steps))
    decreases |steps|
  {
    if steps != [] {
      StepKeepsKnown(c, s, steps[0]);
      RunKeepsKnown(c, Apply(c, s, steps[0]), steps[1..]);
    }
  }

  ghost predicate StampedBy(c: Config, step: Step, k: Key, v: VersionedValue) {
    && step.BeginPut? && step.key == k && step.coord in c.nodeIds
    && v == VersionedValue(step.value, step.timestamp, c.nodeIds[step.coord])
  }

  ghost predicate Stamped(c: Config, steps: seq<Step>, k: Key, v: VersionedValue) {
    exists t :: 0 <= t < |steps| && StampedBy(c, steps[t], k, v)
  }

  lemma {:induction false} KnownWasStamped(c: Config, s: State, steps: seq<Step>, k: Key, v: VersionedValue)
    requires Legal(c, s, steps) && Known(Exec(c, s, steps), k, v)
    ensures Known(s, k, v) || Stamped(c, steps, k, v)
    decreases |steps|
  {
    if steps != [] {
      var s1 := Apply(c, s, steps[0]);
      KnownWasStamped(c, s1, steps[1..], k, v);
      if Stamped(c, steps[1..], k, v) {
        var t :| 0 <= t < |steps[1..]| && StampedBy(c, steps[1..][t], k, v);
        assert StampedBy(c, steps[t + 1], k, v);
      } else {
        StepContinues(c, s, steps[0]);
        OnlySubjectChanges(c, s, steps[0]);
        var i :| 0 <= i < |s1.requests| && s1.requests[i].key == k && s1.requests[i].op.Write?
            && s1.requests[i].op.version == v;
        if i < |s.requests| {
          assert Continues(s.requests[i], s1.requests[i]);
        } else {
          assert StampedBy(c, steps[0], k, v);
        }
      }
    }
  }

  /** In every reachable state, whatever a node stores under a key, has sent in reply to a
      read of it, or answered a read with, was stamped by an earlier PUT of that key with
      exactly that value, timestamp and node id (even if that PUT was answered 503). */
  lemma NoInventedData(c: Config, steps: seq<Step>)
    requires ValidConfig(c) && Legal(c, Init(c), steps)
    ensures var s := Exec(c, Init(c), steps);
            && (forall n, k | n in s.stores && k in s.stores[n] :: Stamped(c, steps, k, s.stores[n][k]))
            && (forall i, p | 0 <= i < |s.requests| && p in s.requests[i].messages && s.requests[i].messages[p].Arrived?
                              && s.requests[i].messages[p].reply.Some? ::
                  Stamped(c, steps, s.requests[i].key, s.requests[i].messages[p].reply.value))
            && (forall i | 0 <= i < |s.requests| && s.requests[i].status.Answered?
                && s.requests[i].status.response.Found? ::
                  Stamped(c, steps, s.requests[i].key, s.requests[i].status.response.version))
  {
    var s := Exec(c, Init(c), steps);
    RunKeepsKnown(c, Init(c), steps);
    InvInit(c);
    RunKeepsInv(c, Init(c), steps);
    forall k, v | Known(s, k, v) ensures Stamped(c, steps, k, v) {
      KnownWasStamped(c, Init(c), steps, k, v);
    }
    forall i | 0 <= i < |s.requests| && s.requests[i].status.Answered? && s.requests[i].status.response.Found?
      ensures Stamped(c, steps, s.requests[i].key, s.requests[i].status.response.version)
    {
      AnswerKnown(c, s, i);
    }
    forall i, p | 0 <= i < |s.requests| && p in s.requests[i].messages && s.requests[i].messages[p].Arrived?
                  && s.requests[i].messages[p].reply.Some?
      ensures Stamped(c, steps, s.requests[i].key, s.requests[i].messages[p].reply.value)
    {
      assert RequestKnown(s, s.requests[i]);
    }
  }

  lemma AnswerKnown(c: Config, s: State, i: nat)
    requires Inv(c, s) && AllKnown(s) && i < |s.requests|
    requires s.requests[i].status.Answered? && s.requests[i].status.response.Found?
    ensures Known(s, s.requests[i].key, s.requests[i].status.response.version)
  {
    var q := s.requests[i];
    var entries := [q.op.local] + Values(q.collected);
    assert q.op.Read? && q.status.response == Resolve(entries) by {
      assert RequestOk(s.stores.Keys, q);
    }
    ResolveIsNewest(entries);
    var m :| 0 <= m < |entries| && entries[m] == Some(q.status.response.version);
    EntriesKnown(c, s, i, m);
  }

  lemma EntriesKnown(c: Config, s: State, i: nat, m: nat)
    requires Inv(c, s) && AllKnown(s) && i < |s.requests| && s.requests[i].op.Read? && m <= |s.requests[i].collected|
    ensures var q := s.requests[i]; EntryKnown(s, q.key, ([q.op.local] + Values(q.collected))[m])
  {
    var q := s.requests[i];
    assert RequestKnown(s, q);
    if m > 0 {
      CollectedArrived(s.stores.Keys, q, m - 1);
    }
  }

  // ----- Each store is a join

  /** The versions of `k` put to node `n` by `steps`, in order, since the last delete. */
  ghost function Received(c: Config, s: State, steps: seq<Step>, n: Port, k: Key,
                          sofar: seq<VersionedValue>): seq<VersionedValue>
    requires Legal(c, s, steps)
    decreases |steps|
  {
    if steps == [] then sofar
    else
      var step := steps[0];
      var next :=
        if step.BeginPut? && step.coord == n && step.key == k then
          sofar + [VersionedValue(step.value, step.timestamp, c.nodeIds[n])]
        else if step.Deliver? && step.peer == n && s.requests[step.i].key == k && s.requests[step.i].op.Write? then
          sofar + [s.requests[step.i].op.version]
        else if step.Delete? && step.node == n && step.key == k then []
        else sofar;
      Received(c, Apply(c, s, step), steps[1..], n, k, next)
  }

  lemma {:induction false} RunStoresJoin(c: Config, s: State, steps: seq<Step>, n: Port, k: Key,
                                         sofar: seq<VersionedValue>)
    requires Legal(c, s, steps) && n in s.stores
    requires Lookup(s.stores[n], k) == Join(sofar)
    ensures n in Exec(c, s, steps).stores
    ensures Lookup(Exec(c, s, steps).stores[n], k) == Join(Received(c, s, steps, n, k, sofar))
    decreases |steps|
  {
    if steps != [] {
      var step := steps[0];
      var s1 := Apply(c, s, step);
      OnlySubjectChanges(c, s, step);
      if step.BeginPut? && step.coord == n && step.key == k {
        var v := VersionedValue(step.value, step.timestamp, c.nodeIds[n]);
        PutRaises(s.stores[n], k, v);
        JoinAppendOne(sofar, v);
        RunStoresJoin(c, s1, steps[1..], n, k, sofar + [v]);
      } else if step.Deliver? && step.peer == n && s.requests[step.i].key == k && s.requests[step.i].op.Write? {
        PutRaises(s.stores[n], k, s.requests[step.i].op.version);
        JoinAppendOne(sofar, s.requests[step.i].op.version);
        RunStoresJoin(c, s1, steps[1..], n, k, sofar + [s.requests[step.i].op.version]);
      } else if step.Delete? && step.node == n && step.key == k {
        RunStoresJoin(c, s1, steps[1..], n, k, []);
      } else {
        assert Lookup(s1.stores[n], k) == Lookup(s.stores[n], k);
        RunStoresJoin(c, s1, steps[1..], n, k, sofar);
      }
    }
  }

  /** After any run, what a node holds for a key is the LWW join, in arrival order, of the
      versions put to it since it last deleted the key. */
  lemma StoreIsJoin(c: Config, steps: seq<Step>, n: Port, k: Key)
    requires ValidConfig(c) && Legal(c, Init(c), steps) && n in Members(c)
    ensures n in Exec(c, Init(c), steps).stores
    ensures Lookup(Exec(c, Init(c), steps).stores[n], k) == Join(Received(c, Init(c), steps, n, k, []))
  {
    RunStoresJoin(c, Init(c), steps, n, k, []);
  }

  /** Two nodes given the same set of versions of a key agree on its stamp, and on its
      value too if the winning stamp is unambiguous. */
  lemma SameReceivedSameStamp(c: Config, steps: seq<Step>, n: Port, m: Port, k: Key)
    requires ValidConfig(c) && Legal(c, Init(c), steps) && n in Members(c) && m in Members(c)
    requires forall v :: v in Received(c, Init(c), steps, n, k, []) <==> v in Received(c, Init(c), steps, m, k, [])
    ensures var s := Exec(c, Init(c), steps);
            && n in s.stores && m in s.stores
            && (k in s.stores[n] <==> k in s.stores[m])
            && (k in s.stores[n] ==> s.stores[n][k].SameStamp(s.stores[m][k]))
            && (k in s.stores[n] && WinnerUnambiguous(Received(c, Init(c), steps, n, k, []))
                ==> s.stores[n][k] == s.stores[m][k])
  {
    StoreIsJoin(c, steps, n, k);
    StoreIsJoin(c, steps, m, k);
    var xs, ys := Received(c, Init(c), steps, n, k, []), Received(c, Init(c), steps, m, k, []);
    SameWritesSameStamp(xs, ys);
    JoinCovers(xs);
    JoinCovers(ys);
  }
}
