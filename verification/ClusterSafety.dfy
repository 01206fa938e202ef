/** What every step of the cluster keeps, and the quorum guarantees that follow. */
module ClusterSafety {
  import opened Versions
  import opened Storage
  import opened Topology
  import opened Gather
  import opened Handlers
  import opened Cluster

  // ----- The invariant of one request

  /** A write floods every peer; a read contacts exactly r-1 of them. */
  ghost predicate Shape(members: set<Port>, q: Request) {
    && q.coord in members && 1 <= q.quorum <= |members|
    && q.messages.Keys == q.tasks.Keys
    && q.tasks.Keys <= members - {q.coord}
    && (q.op.Write? ==> q.tasks.Keys == members - {q.coord})
    && (q.op.Read? ==> |q.tasks.Keys| == q.quorum - 1)
    && q.before.Keys == members
  }

  /** A task counts only if its message arrived, and then its value is what was replied. */
  ghost predicate TasksTruthful(q: Request) {
    forall p | p in q.tasks && q.tasks[p].Finished? && q.tasks[p].counts ::
      p in q.messages && q.messages[p] == Arrived(q.tasks[p].value)
  }

  ghost predicate CollectedTruthful(q: Request) {
    && (forall i, j | 0 <= i < j < |q.collected| :: q.collected[i].from != q.collected[j].from)
    && (forall i | 0 <= i < |q.collected| ::
          var r := q.collected[i];
          r.from in q.tasks && r.from !in q.pending && q.tasks[r.from] == Finished(true, r.value))
  }

  /** Every unfinished task is held: by the waiting loop, or by the background set. */
  ghost predicate NothingDropped(q: Request) {
    && q.pending <= q.tasks.Keys
    && (q.status.Waiting? ==> q.background == {})
    && (!q.status.Waiting? ==> q.pending == {})
    && (forall p | p in q.tasks && q.tasks[p].Running? :: p in q.pending || p in q.background)
  }

  ghost predicate AnswerFixed(q: Request) {
    q.status.Answered? ==> q.status.response == Answer(q)
  }

  ghost predicate RequestOk(members: set<Port>, q: Request) {
    Shape(members, q) && TasksTruthful(q) && CollectedTruthful(q) && NothingDropped(q) && AnswerFixed(q)
  }

  lemma CollectedArrived(members: set<Port>, q: Request, m: nat)
    requires RequestOk(members, q) && m < |q.collected|
    ensures q.collected[m].from in q.messages
    ensures q.messages[q.collected[m].from] == Arrived(q.collected[m].value)
  {
    assert q.tasks[q.collected[m].from] == Finished(true, q.collected[m].value);
  }

  // ----- What a request has done to, and seen of, the stores

  ghost predicate SlotRises(later: Store, earlier: Store, k: Key) {
    EntryAtLeast(Lookup(later, k), Lookup(earlier, k))
  }

  ghost predicate WriteLanded(stores: map<Port, Store>, q: Request)
    requires q.op.Write?
  {
    && q.coord in stores && Covers(Lookup(stores[q.coord], q.key), q.op.version)
    && forall p | p in q.messages && q.messages[p].Arrived? ::
         p in stores && Covers(Lookup(stores[p], q.key), q.op.version)
  }

  ghost predicate ReadSaw(q: Request)
    requires q.op.Read?
  {
    && q.coord in q.before && q.op.local == Lookup(q.before[q.coord], q.key)
    && forall p | p in q.messages && q.messages[p].Arrived? ::
         p in q.before && EntryAtLeast(q.messages[p].reply, Lookup(q.before[p], q.key))
  }

  ghost predicate Effects(stores: map<Port, Store>, deleted: set<Key>, q: Request) {
    q.key !in deleted ==>
      && (forall n | n in q.before :: n in stores && SlotRises(stores[n], q.before[n], q.key))
      && (if q.op.Write? then WriteLanded(stores, q) else ReadSaw(q))
  }

  ghost predicate Inv(c: Config, s: State) {
    && ValidConfig(c) && WellFormed(c, s)
    && (forall i | 0 <= i < |s.requests| :: RequestOk(s.stores.Keys, s.requests[i]))
    && (forall i | 0 <= i < |s.requests| :: Effects(s.stores, s.deleted, s.requests[i]))
  }

  // ----- Stores only rise

  ghost predicate Rises(earlier: map<Port, Store>, later: map<Port, Store>, deleted: set<Key>) {
    && earlier.Keys == later.Keys
    && forall n, k | n in earlier && k !in deleted :: SlotRises(later[n], earlier[n], k)
  }

  lemma RisesReflexive(stores: map<Port, Store>, deleted: set<Key>)
    ensures Rises(stores, stores, deleted)
  {
    forall n, k | n in stores && k !in deleted ensures SlotRises(stores[n], stores[n], k) {
      EntryAtLeastReflexive(Lookup(stores[n], k));
    }
  }

  lemma RisesTransitive(a: map<Port, Store>, b: map<Port, Store>, d: map<Port, Store>, deleted: set<Key>)
    requires Rises(a, b, deleted) && Rises(b, d, deleted)
    ensures Rises(a, d, deleted)
  {
    forall n, k | n in a && k !in deleted ensures SlotRises(d[n], a[n], k) {
      assert SlotRises(b[n], a[n], k) && SlotRises(d[n], b[n], k);
      EntryAtLeastTransitive(Lookup(d[n], k), Lookup(b[n], k), Lookup(a[n], k));
    }
  }

  lemma PutRises(stores: map<Port, Store>, p: Port, k: Key, v: VersionedValue, deleted: set<Key>)
    requires p in stores
    ensures Rises(stores, stores[p := PutStore(stores[p], k, v)], deleted)
    ensures Covers(Lookup(PutStore(stores[p], k, v), k), v)
  {
    PutRaises(stores[p], k, v);
    RisesReflexive(stores, deleted);
  }

  lemma StepRises(c: Config, s: State, step: Step)
    requires WellFormed(c, s) && Enabled(c, s, step)
    ensures var s' := Apply(c, s, step); Rises(s.stores, s'.stores, s'.deleted) && s.deleted <= s'.deleted
  {
    RisesReflexive(s.stores, s.deleted);
    match step
    case BeginPut(coord, key, value, timestamp, w) =>
      PutRises(s.stores, coord, key, VersionedValue(value, timestamp, c.nodeIds[coord]), s.deleted);
    case BeginGet(coord, key, r, chosen) =>
    case Deliver(i, p) =>
      if s.requests[i].op.Write? {
        PutRises(s.stores, p, s.requests[i].key, s.requests[i].op.version, s.deleted);
      }
    case Lose(i, p) =>
    case Complete(i, p) =>
    case Fail(i, p) =>
    case TakeIn(i, done) =>
    case Leave(i, aborted) =>
    case Delete(node, key) =>
      var s' := Apply(c, s, step);
      forall n, k | n in s.stores && k !in s'.deleted ensures SlotRises(s'.stores[n], s.stores[n], k) {
        assert Lookup(s'.stores[n], k) == Lookup(s.stores[n], k);
        EntryAtLeastReflexive(Lookup(s.stores[n], k));
      }
  }

  lemma EffectsRise(stores: map<Port, Store>, later: map<Port, Store>, deleted: set<Key>, deleted': set<Key>,
                    q: Request)
    requires Effects(stores, deleted, q) && Rises(stores, later, deleted') && deleted <= deleted'
    ensures Effects(later, deleted', q)
  {
    if q.key !in deleted' {
      forall n | n in q.before ensures n in later && SlotRises(later[n], q.before[n], q.key) {
        assert SlotRises(later[n], stores[n], q.key) && SlotRises(stores[n], q.before[n], q.key);
        EntryAtLeastTransitive(Lookup(later[n], q.key), Lookup(stores[n], q.key), Lookup(q.before[n], q.key));
      }
      if q.op.Write? {
        forall n | n in stores && Covers(Lookup(stores[n], q.key), q.op.version)
          ensures n in later && Covers(Lookup(later[n], q.key), q.op.version)
        {
          assert SlotRises(later[n], stores[n], q.key);
          CoversRises(Lookup(later[n], q.key), Lookup(stores[n], q.key), q.op.version);
        }
      }
    }
  }

  // ----- Each step keeps the request it works on in order

  lemma FreshRequestOk(c: Config, s: State, coord: Port, key: Key, quorum: int, op: Operation, contacted: set<Port>)
    requires ValidConfig(c) && WellFormed(c, s)
    requires coord in Members(c) && 1 <= quorum <= |c.nodes|
    requires op.Write? ==> contacted == PeerPorts(c, coord)
    requires op.Read? ==> ReadPeersAllowed(PeerPorts(c, coord), quorum - 1, contacted)
    ensures RequestOk(s.stores.Keys, FreshRequest(coord, key, quorum, op, contacted, s.stores))
  {
    PeersAre(c.nodes, coord);
    PeersOfMember(c.nodes, coord);
    DistinctCount(PortSeq(PeersExcluding(c.nodes, coord)));
    var q := FreshRequest(coord, key, quorum, op, contacted, s.stores);
    assert q.messages.Keys == contacted && q.tasks.Keys == contacted;
  }

  lemma SetTaskOk(members: set<Port>, q: Request, p: Port, t: Task)
    requires RequestOk(members, q) && p in q.tasks && q.tasks[p].Running? && t.Finished?
    requires t.counts ==> p in q.messages && q.messages[p] == Arrived(t.value)
    ensures RequestOk(members, SetTask(q, p, t))
  {
    assert SetTask(q, p, t).tasks.Keys == q.tasks.Keys;
    SetTaskTruthful(q, p, t);
    SetTaskDropsNothing(q, p, t);
  }

  lemma SetTaskTruthful(q: Request, p: Port, t: Task)
    requires TasksTruthful(q) && CollectedTruthful(q) && p in q.tasks && q.tasks[p].Running? && t.Finished?
    requires t.counts ==> p in q.messages && q.messages[p] == Arrived(t.value)
    ensures TasksTruthful(SetTask(q, p, t)) && CollectedTruthful(SetTask(q, p, t))
  {
    forall i | 0 <= i < |q.collected| ensures q.collected[i].from != p {
      assert q.tasks[q.collected[i].from].Finished?;
    }
  }

  lemma SetTaskDropsNothing(q: Request, p: Port, t: Task)
    requires NothingDropped(q) && AnswerFixed(q) && p in q.tasks && t.Finished?
    ensures NothingDropped(SetTask(q, p, t)) && AnswerFixed(SetTask(q, p, t))
  {
    var q' := SetTask(q, p, t);
    forall n | n in q'.tasks && q'.tasks[n].Running? ensures n in q'.pending || n in q'.background {
      assert n != p && q.tasks[n].Running?;
    }
  }

  lemma SetMessageOk(members: set<Port>, q: Request, p: Port, m: Message)
    requires RequestOk(members, q) && p in q.messages && q.messages[p].Sent?
    ensures RequestOk(members, q.(messages := q.messages[p := m]))
  {
    var q' := q.(messages := q.messages[p := m]);
    assert q'.messages.Keys == q.messages.Keys;
    if q.status.Answered? {
      assert Answer(q') == Answer(q);
    }
  }

  lemma TakeInOk(members: set<Port>, q: Request, done: seq<Port>)
    requires RequestOk(members, q) && q.status.Waiting?
    requires NoDuplicates(done) && Elements(done) <= q.pending && AllFinished(q.tasks, done)
    ensures RequestOk(members,
                      q.(pending := q.pending - Elements(done), collected := q.collected + Counting(q.tasks, done)))
  {
    var batch := Counting(q.tasks, done);
    var q' := q.(pending := q.pending - Elements(done), collected := q.collected + batch);
    CountingSenders(q.tasks, done);
    CountingDistinct(q.tasks, done);
    forall i | 0 <= i < |q'.collected|
      ensures var r := q'.collected[i];
              r.from in q.tasks && r.from !in q'.pending && q.tasks[r.from] == Finished(true, r.value)
    {
      if i >= |q.collected| {
        assert batch[i - |q.collected|] in batch;
        assert batch[i - |q.collected|].from in Elements(done);
      }
    }
    forall i, j | 0 <= i < j < |q'.collected| ensures q'.collected[i].from != q'.collected[j].from {
      if i < |q.collected| <= j {
        assert batch[j - |q.collected|] in batch;
        assert batch[j - |q.collected|].from in Elements(done);
      }
    }
  }

  lemma LeftOk(members: set<Port>, q: Request, aborted: bool)
    requires RequestOk(members, q) && q.status.Waiting?
    ensures RequestOk(members, Left(q, aborted))
  {
    assert Answer(Left(q, aborted)) == Answer(q);
  }

  lemma DeliveredEffects(s: State, i: nat, p: Port)
    requires i < |s.requests| && p in s.stores && p in s.requests[i].messages
    requires Effects(s.stores, s.deleted, s.requests[i])
    requires p in s.requests[i].before
    ensures Effects(Delivered(s, i, p).stores, s.deleted, Delivered(s, i, p).requests[i])
  {
    var q := s.requests[i];
    var s' := Delivered(s, i, p);
    if q.op.Write? {
      PutRises(s.stores, p, q.key, q.op.version, s.deleted);
      EffectsRise(s.stores, s'.stores, s.deleted, s.deleted, q);
    } else if q.key !in s.deleted {
      assert SlotRises(s.stores[p], q.before[p], q.key);
    }
  }

  lemma BeginEffects(c: Config, s: State, step: Step)
    requires WellFormed(c, s) && Enabled(c, s, step) && (step.BeginPut? || step.BeginGet?)
    ensures var s' := Apply(c, s, step); Effects(s'.stores, s'.deleted, s'.requests[|s.requests|])
  {
    StepRises(c, s, step);
    var s' := Apply(c, s, step);
    var q := s'.requests[|s.requests|];
    if q.key !in s'.deleted {
      forall n | n in q.before ensures SlotRises(s'.stores[n], q.before[n], q.key) {
      }
      if step.BeginPut? {
        PutRises(s.stores, step.coord, step.key, q.op.version, s.deleted);
      }
    }
  }

  /** The request a step works on; for a new request, where it will be. */
  function Subject(s: State, step: Step): nat {
    match step
    case BeginPut(_, _, _, _, _) => |s.requests|
    case BeginGet(_, _, _, _) => |s.requests|
    case Deliver(i, _) => i
    case Lose(i, _) => i
    case Complete(i, _) => i
    case Fail(i, _) => i
    case TakeIn(i, _) => i
    case Leave(i, _) => i
    case Delete(_, _) => |s.requests|
  }

  /** A step changes one request at most, and no request is ever forgotten. */
  lemma OnlySubjectChanges(c: Config, s: State, step: Step)
    requires WellFormed(c, s) && Enabled(c, s, step)
    ensures var s' := Apply(c, s, step);
            && s'.stores.Keys == s.stores.Keys
            && |s.requests| <= |s'.requests| <= |s.requests| + 1
            && (|s'.requests| > |s.requests| <==> step.BeginPut? || step.BeginGet?)
            && (forall j | 0 <= j < |s.requests| && j != Subject(s, step) :: s'.requests[j] == s.requests[j])
  {
    match step
    case BeginPut(coord, key, value, timestamp, w) =>
    case BeginGet(coord, key, r, chosen) =>
    case Deliver(i, p) =>
    case Lose(i, p) =>
    case Complete(i, p) =>
    case Fail(i, p) =>
    case TakeIn(i, done) =>
    case Leave(i, aborted) =>
    case Delete(node, key) =>
  }

  lemma SubjectOk(c: Config, s: State, step: Step)
    requires ValidConfig(c) && WellFormed(c, s) && Enabled(c, s, step)
    requires Subject(s, step) < |s.requests| ==> RequestOk(s.stores.Keys, s.requests[Subject(s, step)])
    ensures var s' := Apply(c, s, step);
            Subject(s, step) < |s'.requests| ==> RequestOk(s.stores.Keys, s'.requests[Subject(s, step)])
  {
    match step
    case BeginPut(coord, key, value, timestamp, w) =>
      var v := VersionedValue(value, timestamp, c.nodeIds[coord]);
      FreshRequestOk(c, s, coord, key, w, Write(v, Accepts(s.stores[coord], key, v)), PeerPorts(c, coord));
    case BeginGet(coord, key, r, chosen) =>
      FreshRequestOk(c, s, coord, key, r, Read(Lookup(s.stores[coord], key)), chosen);
    case Deliver(i, p) =>
      SetMessageOk(s.stores.Keys, s.requests[i], p,
                   if s.requests[i].op.Write? then Arrived(None) else Arrived(Lookup(s.stores[p], s.requests[i].key)));
    case Lose(i, p) =>
      SetMessageOk(s.stores.Keys, s.requests[i], p, Lost);
    case Complete(i, p) =>
      SetTaskOk(s.stores.Keys, s.requests[i], p, Finished(true, s.requests[i].messages[p].reply));
    case Fail(i, p) =>
      SetTaskOk(s.stores.Keys, s.requests[i], p, Finished(false, None));
    case TakeIn(i, done) =>
      TakeInOk(s.stores.Keys, s.requests[i], done);
    case Leave(i, aborted) =>
      LeftOk(s.stores.Keys, s.requests[i], aborted);
    case Delete(node, key) =>
  }

  lemma SubjectEffects(c: Config, s: State, step: Step)
    requires ValidConfig(c) && WellFormed(c, s) && Enabled(c, s, step)
    requires Subject(s, step) < |s.requests| ==>
               && RequestOk(s.stores.Keys, s.requests[Subject(s, step)])
               && Effects(s.stores, s.deleted, s.requests[Subject(s, step)])
    ensures var s' := Apply(c, s, step);
            Subject(s, step) < |s'.requests| ==> Effects(s'.stores, s'.deleted, s'.requests[Subject(s, step)])
  {
    match step
    case BeginPut(coord, key, value, timestamp, w) => BeginEffects(c, s, step);
    case BeginGet(coord, key, r, chosen) => BeginEffects(c, s, step);
    case Deliver(i, p) =>
      assert Shape(s.stores.Keys, s.requests[i]);
      DeliveredEffects(s, i, p);
    case Lose(i, p) => LostEffects(s.stores, s.deleted, s.requests[i], p);
    case Complete(i, p) => BookkeepingEffects(s.stores, s.deleted, s.requests[i], Apply(c, s, step).requests[i]);
    case Fail(i, p) => BookkeepingEffects(s.stores, s.deleted, s.requests[i], Apply(c, s, step).requests[i]);
    case TakeIn(i, done) => BookkeepingEffects(s.stores, s.deleted, s.requests[i], Apply(c, s, step).requests[i]);
    case Leave(i, aborted) => BookkeepingEffects(s.stores, s.deleted, s.requests[i], Apply(c, s, step).requests[i]);
    case Delete(node, key) =>
  }

  lemma LostEffects(stores: map<Port, Store>, deleted: set<Key>, q: Request, p: Port)
    requires Effects(stores, deleted, q)
    ensures Effects(stores, deleted, q.(messages := q.messages[p := Lost]))
  {
  }

  /** Effects depend only on what was sent and what arrived. */
  lemma BookkeepingEffects(stores: map<Port, Store>, deleted: set<Key>, q: Request, q': Request)
    requires Effects(stores, deleted, q)
    requires q'.coord == q.coord && q'.key == q.key && q'.op == q.op && q'.messages == q.messages
             && q'.before == q.before
    ensures Effects(stores, deleted, q')
  {
  }

  lemma InvStepRequests(c: Config, s: State, step: Step)
    requires Inv(c, s) && Enabled(c, s, step)
    ensures var s' := Apply(c, s, step);
            && (forall i | 0 <= i < |s'.requests| :: RequestOk(s'.stores.Keys, s'.requests[i]))
            && (forall i | 0 <= i < |s'.requests| :: Effects(s'.stores, s'.deleted, s'.requests[i]))
  {
    OnlySubjectChanges(c, s, step);
    StepRises(c, s, step);
    SubjectOk(c, s, step);
    SubjectEffects(c, s, step);
    var s', t := Apply(c, s, step), Subject(s, step);
    forall i | 0 <= i < |s'.requests| ensures RequestOk(s'.stores.Keys, s'.requests[i]) {
      if i != t { assert RequestOk(s.stores.Keys, s.requests[i]); }
    }
    forall i | 0 <= i < |s'.requests| ensures Effects(s'.stores, s'.deleted, s'.requests[i]) {
      if i != t { EffectsRise(s.stores, s'.stores, s.deleted, s'.deleted, s.requests[i]); }
    }
  }

  lemma InvStep(c: Config, s: State, step: Step)
    requires Inv(c, s) && Enabled(c, s, step)
    ensures Inv(c, Apply(c, s, step))
  {
    ApplyWellFormed(c, s, step);
    InvStepRequests(c, s, step);
  }

  lemma InvInit(c: Config)
    requires ValidConfig(c)
    ensures Inv(c, Init(c))
  {
  }

  /** Every run keeps the invariant, and no undeleted slot of any node ever gets older. */
  lemma {:induction false} RunKeepsInv(c: Config, s: State, steps: seq<Step>)
    requires Inv(c, s) && Legal(c, s, steps)
    ensures var s' := Exec(c, s, steps);
            && Inv(c, s') && Rises(s.stores, s'.stores, s'.deleted)
            && s.deleted <= s'.deleted && |s.requests| <= |s'.requests|
    decreases |steps|
  {
    if steps == [] {
      RisesReflexive(s.stores, s.deleted);
    } else {
      var s1, s' := Apply(c, s, steps[0]), Exec(c, s, steps);
      InvStep(c, s, steps[0]);
      StepRises(c, s, steps[0]);
      RunKeepsInv(c, s1, steps[1..]);
      assert Rises(s.stores, s1.stores, s'.deleted);
      RisesTransitive(s.stores, s1.stores, s'.stores, s'.deleted);
    }
  }
}
