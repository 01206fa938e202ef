/** The quorum guarantees, over whole runs of the cluster. */
module Quorum {
  import opened Versions
  import opened Storage
  import opened Topology
  import opened Gather
  import opened Handlers
  import opened Cluster
  import opened ClusterSafety

  /** The nodes that hold a version of `k` at least as new as `v`. */
  function Holders(stores: map<Port, Store>, k: Key, v: VersionedValue): set<Port> {
    set n | n in stores && Covers(Lookup(stores[n], k), v)
  }

  /** What may change about a request, and how: its identity is fixed, and once it has
      been answered or aborted it stays so. */
  ghost predicate Continues(q: Request, q': Request) {
    && q'.coord == q.coord && q'.key == q.key && q'.quorum == q.quorum && q'.op == q.op && q'.before == q.before
    && (!q.status.Waiting? ==> q'.status == q.status)
  }

  lemma StepContinues(c: Config, s: State, step: Step)
    requires WellFormed(c, s) && Enabled(c, s, step)
    ensures forall j | 0 <= j < |s.requests| :: Continues(s.requests[j], Apply(c, s, step).requests[j])
  {
    OnlySubjectChanges(c, s, step);
    match step
    case BeginPut(coord, key, value, timestamp, w) =>
    case BeginGet(coord, key, r, chosen) =>
    case Deliver(i, p) =>
    case Lose(i, p) =>
    case Complete(i, p) =>
    case Fail(i, p) =>
    case TakeIn(i, done) =>
    case Leave(i, aborted) =>
    case Delete(node, key) =>
  }

  /** Requests keep their identity through a run, and those begun during it found the
      stores no older than they were at its start. */
  lemma {:induction false} RunContinues(c: Config, s: State, steps: seq<Step>)
    requires Inv(c, s) && Legal(c, s, steps)
    ensures BeganLater(s, Exec(c, s, steps))
    decreases |steps|
  {
    if steps == [] {
      RisesReflexive(s.stores, s.deleted);
    } else {
      var s1 := Apply(c, s, steps[0]);
      InvStep(c, s, steps[0]);
      StepBeganLater(c, s, steps[0]);
      RunContinues(c, s1, steps[1..]);
      RunKeepsInv(c, s1, steps[1..]);
      BeganLaterComposes(s, s1, Exec(c, s, steps));
    }
  }

  /** `s'` carries on from `s`: the requests of `s` continue, the others began at stores at
      least as new as those of `s`. */
  ghost predicate BeganLater(s: State, s': State) {
    && |s.requests| <= |s'.requests|
    && (forall j | 0 <= j < |s.requests| :: Continues(s.requests[j], s'.requests[j]))
    && (forall j | |s.requests| <= j < |s'.requests| :: Rises(s.stores, s'.requests[j].before, s'.deleted))
  }

  lemma StepBeganLater(c: Config, s: State, step: Step)
    requires WellFormed(c, s) && Enabled(c, s, step)
    ensures var s' := Apply(c, s, step);
            BeganLater(s, s') && Rises(s.stores, s'.stores, s'.deleted) && s.deleted <= s'.deleted
  {
    StepContinues(c, s, step);
    OnlySubjectChanges(c, s, step);
    StepRises(c, s, step);
    RisesReflexive(s.stores, s.deleted);
  }

  lemma BeganLaterComposes(s: State, s1: State, s': State)
    requires BeganLater(s, s1) && BeganLater(s1, s')
    requires Rises(s.stores, s1.stores, s1.deleted) && s1.deleted <= s'.deleted
    ensures BeganLater(s, s')
  {
    forall j | 0 <= j < |s.requests| ensures Continues(s.requests[j], s'.requests[j]) {
      assert Continues(s.requests[j], s1.requests[j]) && Continues(s1.requests[j], s'.requests[j]);
    }
    forall j | |s.requests| <= j < |s'.requests| ensures Rises(s.stores, s'.requests[j].before, s'.deleted) {
      if j < |s1.requests| {
        assert Continues(s1.requests[j], s'.requests[j]);
      } else {
        assert Rises(s.stores, s1.stores, s'.deleted);
        RisesTransitive(s.stores, s1.stores, s'.requests[j].before, s'.deleted);
      }
    }
  }

  lemma HoldersRise(earlier: map<Port, Store>, later: map<Port, Store>, deleted: set<Key>, k: Key, v: VersionedValue)
    requires Rises(earlier, later, deleted) && k !in deleted
    ensures Holders(earlier, k, v) <= Holders(later, k, v)
    ensures |Holders(earlier, k, v)| <= |Holders(later, k, v)|
  {
    forall n | n in Holders(earlier, k, v) ensures n in Holders(later, k, v) {
      assert SlotRises(later[n], earlier[n], k);
      CoversRises(Lookup(later[n], k), Lookup(earlier[n], k), v);
    }
    SubsetCount(Holders(earlier, k, v), Holders(later, k, v));
  }

  function Senders(replies: seq<Reply>): set<Port> {
    set i | 0 <= i < |replies| :: replies[i].from
  }

  lemma {:induction false} SendersCount(replies: seq<Reply>)
    requires forall i, j | 0 <= i < j < |replies| :: replies[i].from != replies[j].from
    ensures |Senders(replies)| == |replies|
    decreases |replies|
  {
    if replies != [] {
      var init, last := replies[..|replies| - 1], replies[|replies| - 1];
      SendersCount(init);
      assert Senders(replies) == Senders(init) + {last.from} by {
        forall p | p in Senders(replies) ensures p in Senders(init) + {last.from} {
          var i :| 0 <= i < |replies| && replies[i].from == p;
          if i < |init| { assert init[i].from == p; }
        }
        forall p | p in Senders(init) ensures p in Senders(replies) {
          var i :| 0 <= i < |init| && init[i].from == p;
          assert replies[i].from == p;
        }
      }
      assert last.from !in Senders(init);
    }
  }

  /** The nodes whose entry went into a request's answer. */
  function Responders(q: Request): set<Port> {
    {q.coord} + Senders(q.collected)
  }

  lemma RespondersCount(members: set<Port>, q: Request)
    requires RequestOk(members, q)
    ensures |Responders(q)| == 1 + |q.collected|
    ensures Responders(q) <= members
  {
    SendersCount(q.collected);
    forall p | p in Senders(q.collected) ensures p in members && p != q.coord {
      var i :| 0 <= i < |q.collected| && q.collected[i].from == p;
      assert p in q.tasks.Keys;
    }
    assert q.coord !in Senders(q.collected);
  }

  /** A write answered 200 is held by at least `w` nodes, its coordinator among them,
      whichever peers they are and whether or not they reported the write as applied. */
  lemma AckedWriteIsHeld(c: Config, s: State, i: nat)
    requires Inv(c, s) && i < |s.requests|
    requires s.requests[i].op.Write? && s.requests[i].key !in s.deleted
    requires s.requests[i].status.Answered? && s.requests[i].status.response.PutOk?
    ensures var q := s.requests[i];
            && q.coord in Holders(s.stores, q.key, q.op.version)
            && |Holders(s.stores, q.key, q.op.version)| >= q.quorum
  {
    var q := s.requests[i];
    RespondersHold(s.stores, s.deleted, q);
    RespondersCount(s.stores.Keys, q);
    SubsetCount(Responders(q), Holders(s.stores, q.key, q.op.version));
    assert q.status.response == Answer(q) by {
      assert RequestOk(s.stores.Keys, q);
    }
  }

  lemma RespondersHold(stores: map<Port, Store>, deleted: set<Key>, q: Request)
    requires RequestOk(stores.Keys, q) && Effects(stores, deleted, q)
    requires q.op.Write? && q.key !in deleted
    ensures Responders(q) <= Holders(stores, q.key, q.op.version)
  {
    forall p | p in Responders(q) ensures p in Holders(stores, q.key, q.op.version) {
      if p != q.coord {
        var j :| 0 <= j < |q.collected| && q.collected[j].from == p;
        CollectedArrived(stores.Keys, q, j);
      }
    }
  }

  /** In every run an answered write was answered 200 exactly when it had w-1 acks, more than
      that included, and then with its own timestamp and the verdict of its local write. */
  lemma WriteAnswerIff(c: Config, s: State, i: nat)
    requires Inv(c, s) && i < |s.requests| && s.requests[i].op.Write? && s.requests[i].status.Answered?
    ensures var q := s.requests[i];
            && (q.status.response == PutOk(q.op.applied, q.op.version.timestamp) <==> |q.collected| >= q.quorum - 1)
            && (q.status.response == Unavailable <==> |q.collected| < q.quorum - 1)
  {
    assert RequestOk(s.stores.Keys, s.requests[i]);
  }

  /** Durability: from the moment a write with quorum w is answered 200, and for the rest
      of the run, its holders are at least w nodes and never become fewer. */
  lemma DurableHolders(c: Config, s: State, steps: seq<Step>, i: nat)
    requires Inv(c, s) && Legal(c, s, steps) && i < |s.requests|
    requires s.requests[i].op.Write? && s.requests[i].key !in Exec(c, s, steps).deleted
    requires s.requests[i].status.Answered? && s.requests[i].status.response.PutOk?
    ensures var q, s' := s.requests[i], Exec(c, s, steps);
            && q.coord in Holders(s'.stores, q.key, q.op.version)
            && |Holders(s'.stores, q.key, q.op.version)| >= q.quorum
            && Holders(s.stores, q.key, q.op.version) <= Holders(s'.stores, q.key, q.op.version)
  {
    var q, s' := s.requests[i], Exec(c, s, steps);
    RunKeepsInv(c, s, steps);
    AckedWriteIsHeld(c, s, i);
    HoldersRise(s.stores, s'.stores, s'.deleted, q.key, q.op.version);
  }

  ghost predicate AnsweredRead(s: State, j: nat) {
    && j < |s.requests| && s.requests[j].op.Read?
    && s.requests[j].status.Answered? && !s.requests[j].status.response.Unavailable?
  }

  lemma ReadEntryOfResponder(c: Config, s: State, j: nat, n: Port) returns (e: Option<VersionedValue>)
    requires Inv(c, s) && AnsweredRead(s, j) && s.requests[j].key !in s.deleted
    requires n in Responders(s.requests[j])
    ensures var q := s.requests[j];
            && e in [q.op.local] + Values(q.collected)
            && n in q.before && EntryAtLeast(e, Lookup(q.before[n], q.key))
  {
    var q := s.requests[j];
    assert RequestOk(s.stores.Keys, q) && Effects(s.stores, s.deleted, q);
    var entries := [q.op.local] + Values(q.collected);
    if n == q.coord {
      e := q.op.local;
      assert entries[0] == e;
      EntryAtLeastReflexive(e);
    } else {
      var i :| 0 <= i < |q.collected| && q.collected[i].from == n;
      e := q.collected[i].value;
      assert entries[i + 1] == e;
      assert q.messages[n] == Arrived(e);
    }
  }

  /** If enough nodes held something as new as `v` when the read began, then the read, if
      answered at all, answers with something as new. */
  lemma ReadIsFresh(c: Config, s: State, j: nat, v: VersionedValue)
    requires Inv(c, s) && AnsweredRead(s, j)
    requires s.requests[j].key !in s.deleted
    requires |Holders(s.requests[j].before, s.requests[j].key, v)| + s.requests[j].quorum > |c.nodes|
    ensures var a := s.requests[j].status.response; a.Found? && AtLeast(a.version, v)
  {
    var q := s.requests[j];
    assert RequestOk(s.stores.Keys, q);
    DistinctCount(PortSeq(c.nodes));
    RespondersCount(s.stores.Keys, q);
    var n := QuorumsIntersect(s.stores.Keys, Holders(q.before, q.key, v), Responders(q));
    var e := ReadEntryOfResponder(c, s, j, n);
    CoversRises(e, Lookup(q.before[n], q.key), v);
    var entries := [q.op.local] + Values(q.collected);
    ResolveIsNewest(entries);
    assert EntryAtLeast(Some(Resolve(entries).version), e);
    AtLeastTransitive(Resolve(entries).version, e.value, v);
  }

  /** Quorum freshness. If a PUT with quorum w was answered 200 before a GET with quorum r
      began, w + r > N, and the key is never deleted, then a GET that is not a 503 is not
      a 404 and its version is not LWW-older than that PUT's: whatever else is concurrent,
      late, lost or aborted, and through whichever coordinators. */
  lemma QuorumFreshness(c: Config, first: seq<Step>, rest: seq<Step>, i: nat, j: nat)
    requires ValidConfig(c) && Legal(c, Init(c), first) && Legal(c, Exec(c, Init(c), first), rest)
    requires var s1 := Exec(c, Init(c), first);
             && i < |s1.requests| && s1.requests[i].op.Write?
             && s1.requests[i].status.Answered? && s1.requests[i].status.response.PutOk?
    requires var s1, s2 := Exec(c, Init(c), first), Exec(c, Exec(c, Init(c), first), rest);
             && |s1.requests| <= j && AnsweredRead(s2, j)
             && s2.requests[j].key == s1.requests[i].key
             && s1.requests[i].quorum + s2.requests[j].quorum > |c.nodes|
             && forall t | 0 <= t < |first + rest| ::
                 !((first + rest)[t].Delete? && (first + rest)[t].key == s2.requests[j].key)
    ensures var s1, s2 := Exec(c, Init(c), first), Exec(c, Exec(c, Init(c), first), rest);
            var a := s2.requests[j].status.response;
            a.Found? && AtLeast(a.version, s1.requests[i].op.version)
  {
    var s1, s2 := Exec(c, Init(c), first), Exec(c, Exec(c, Init(c), first), rest);
    var k := s2.requests[j].key;
    LegalAppend(c, Init(c), first, rest);
    DeletedIff(c, Init(c), first + rest, k);
    InvInit(c);
    RunKeepsInv(c, Init(c), first);
    RunKeepsInv(c, s1, rest);
    RunContinues(c, s1, rest);
    AckedWriteIsHeld(c, s1, i);
    HoldersRise(s1.stores, s2.requests[j].before, s2.deleted, k, s1.requests[i].op.version);
    ReadIsFresh(c, s2, j, s1.requests[i].op.version);
  }
}
