/** The overlap condition is exact: without it a read can miss an acknowledged write. */
module Tightness {
  import opened Versions
  import opened Storage
  import opened Topology
  import opened Gather
  import opened Handlers
  import opened Cluster
  import opened ClusterSafety
  import opened Quorum

  /** A step of request `j`'s own life: its messages, its tasks, its wait. */
  predicate OwnStep(step: Step, j: nat) {
    match step
    case Deliver(i, _) => i == j
    case Lose(i, _) => i == j
    case Complete(i, _) => i == j
    case Fail(i, _) => i == j
    case TakeIn(i, _) => i == j
    case Leave(i, _) => i == j
    case _ => false
  }

  ghost predicate AllOwn(steps: seq<Step>, j: nat) {
    forall t | 0 <= t < |steps| :: OwnStep(steps[t], j)
  }

  /** Every delivery is answered at once, and nothing is lost or failed. */
  ghost predicate Paired(steps: seq<Step>)
    decreases |steps|
  {
    steps != [] ==>
      if steps[0].Deliver? then
        |steps| >= 2 && steps[1] == Complete(steps[0].i, steps[0].peer) && Paired(steps[2..])
      else (steps[0].TakeIn? || steps[0].Leave?) && Paired(steps[1..])
  }

  lemma {:induction false} PairedAppend(xs: seq<Step>, ys: seq<Step>)
    requires Paired(xs) && Paired(ys)
    ensures Paired(xs + ys)
    decreases |xs|
  {
    if xs == [] {
      assert xs + ys == ys;
    } else if xs[0].Deliver? {
      assert (xs + ys)[2..] == xs[2..] + ys;
      PairedAppend(xs[2..], ys);
    } else {
      assert (xs + ys)[1..] == xs[1..] + ys;
      PairedAppend(xs[1..], ys);
    }
  }

  // ----- Driving one request to its answer

  function ReplyOf(s: State, q: Request, p: Port): Option<VersionedValue>
    requires p in s.stores
  {
    if q.op.Write? then None else Lookup(s.stores[p], q.key)
  }

  function StoreAfter(q: Request, store: Store): Store {
    if q.op.Write? then PutStore(store, q.key, q.op.version) else store
  }

  /** `s'` is `s` after the peers `ps` served request `i` and their answers got back. */
  ghost predicate Served(s: State, i: nat, ps: set<Port>, s': State)
    requires i < |s.requests|
  {
    var q := s.requests[i];
    && |s'.requests| == |s.requests|
    && var q' := s'.requests[i];
       && s' == s.(stores := s'.stores, requests := s.requests[i := q'])
       && q' == q.(messages := q'.messages, tasks := q'.tasks, background := q'.background)
       && q'.messages.Keys == q.messages.Keys && q'.tasks.Keys == q.tasks.Keys
       && s'.stores.Keys == s.stores.Keys
       && (forall p | p in s.stores :: s'.stores[p] == if p in ps then StoreAfter(q, s.stores[p]) else s.stores[p])
       && (forall p | p in q.messages && p !in ps :: q'.messages[p] == q.messages[p])
       && (forall p | p in q.tasks && p !in ps :: q'.tasks[p] == q.tasks[p])
       && (forall p | p in ps :: p in s.stores && p in q.tasks && q'.tasks[p] == Finished(true, ReplyOf(s, q, p)))
  }

  ghost predicate Unserved(q: Request, ps: set<Port>) {
    forall p | p in ps :: p in q.messages && p in q.tasks && q.messages[p].Sent? && q.tasks[p].Running?
  }

  lemma ServeOne(c: Config, s: State, i: nat, p: Port) returns (s': State)
    requires WellFormed(c, s) && i < |s.requests| && Unserved(s.requests[i], {p})
    ensures Legal(c, s, [Deliver(i, p), Complete(i, p)])
    ensures s' == Exec(c, s, [Deliver(i, p), Complete(i, p)]) && WellFormed(c, s')
    ensures Served(s, i, {p}, s')
  {
    assert p in s.requests[i].messages && p in s.stores;
    var s1 := Apply(c, s, Deliver(i, p));
    ApplyWellFormed(c, s, Deliver(i, p));
    s' := Apply(c, s1, Complete(i, p));
    ApplyWellFormed(c, s1, Complete(i, p));
    LegalCons(c, s1, Complete(i, p), []);
    LegalCons(c, s, Deliver(i, p), [Complete(i, p)] + []);
    assert [Deliver(i, p)] + ([Complete(i, p)] + []) == [Deliver(i, p), Complete(i, p)];
    DeliveredAndDone(c, s, i, p, s1, s');
  }

  lemma DeliveredAndDone(c: Config, s: State, i: nat, p: Port, s1: State, s': State)
    requires WellFormed(c, s) && i < |s.requests| && Unserved(s.requests[i], {p})
    requires Enabled(c, s, Deliver(i, p)) && s1 == Apply(c, s, Deliver(i, p)) && WellFormed(c, s1)
    requires Enabled(c, s1, Complete(i, p)) && s' == Apply(c, s1, Complete(i, p))
    ensures Served(s, i, {p}, s')
  {
    assert s.requests[i := s1.requests[i]][i := s'.requests[i]] == s.requests[i := s'.requests[i]];
  }

  lemma ServedCompose(s: State, s1: State, s2: State, i: nat, ps: set<Port>, qs: set<Port>)
    requires i < |s.requests| && Served(s, i, ps, s1) && Served(s1, i, qs, s2) && ps !! qs
    ensures Served(s, i, ps + qs, s2)
  {
    forall p | p in qs
      ensures s1.stores[p] == s.stores[p] && ReplyOf(s1, s1.requests[i], p) == ReplyOf(s, s.requests[i], p)
    {
    }
  }

  lemma PairUp(i: nat, p: Port, rest: seq<Step>)
    requires AllOwn(rest, i) && Paired(rest)
    ensures AllOwn([Deliver(i, p), Complete(i, p)] + rest, i) && Paired([Deliver(i, p), Complete(i, p)] + rest)
  {
    var steps := [Deliver(i, p), Complete(i, p)] + rest;
    assert steps[2..] == rest;
    forall t | 0 <= t < |steps| ensures OwnStep(steps[t], i) {
      if t >= 2 { assert steps[t] == rest[t - 2]; }
    }
  }

  lemma UnservedAfter(s: State, i: nat, p: Port, ps: seq<Port>, s1: State)
    requires i < |s.requests| && ps != [] && ps[0] == p && NoDuplicates(ps)
    requires Unserved(s.requests[i], Elements(ps)) && Served(s, i, {p}, s1)
    ensures Elements(ps) == {p} + Elements(ps[1..]) && p !in Elements(ps[1..])
    ensures Unserved(s1.requests[i], Elements(ps[1..]))
  {
    assert ps == [p] + ps[1..];
    ElementsAppend([p], ps[1..]);
    assert Elements([p]) == {p};
  }

  lemma {:induction false} ServeAll(c: Config, s: State, i: nat, ps: seq<Port>) returns (steps: seq<Step>, s': State)
    requires WellFormed(c, s) && i < |s.requests|
    requires NoDuplicates(ps) && Unserved(s.requests[i], Elements(ps))
    ensures Legal(c, s, steps) && AllOwn(steps, i) && Paired(steps) && s' == Exec(c, s, steps) && WellFormed(c, s')
    ensures Served(s, i, Elements(ps), s')
    decreases |ps|
  {
    if ps == [] {
      steps, s' := [], s;
      assert Elements(ps) == {};
      assert s.requests == s.requests[i := s.requests[i]];
    } else {
      var p := ps[0];
      assert p in Elements(ps);
      var s1 := ServeOne(c, s, i, p);
      UnservedAfter(s, i, p, ps, s1);
      var rest;
      rest, s' := ServeAll(c, s1, i, ps[1..]);
      steps := [Deliver(i, p), Complete(i, p)] + rest;
      PairUp(i, p, rest);
      LegalAppend(c, s, [Deliver(i, p), Complete(i, p)], rest);
      ServedCompose(s, s1, s', i, {p}, Elements(ps[1..]));
    }
  }

  lemma {:induction false} CountingAll(results: map<Port, Task>, done: seq<Port>)
    requires AllFinished(results, done) && forall i | 0 <= i < |done| :: results[done[i]].counts
    ensures |Counting(results, done)| == |done|
    ensures forall i | 0 <= i < |done| :: Counting(results, done)[i] == Reply(done[i], results[done[i]].value)
    decreases |done|
  {
    if done != [] {
      CountingAll(results, done[1..]);
    }
  }

  ghost predicate JustBegun(q: Request, ps: set<Port>) {
    q.status.Waiting? && q.collected == [] && ps <= q.pending && Unserved(q, ps)
  }

  lemma TakeInAll(c: Config, s: State, i: nat, ps: seq<Port>) returns (steps: seq<Step>, s': State)
    requires WellFormed(c, s) && i < |s.requests|
    requires s.requests[i].status.Waiting? && s.requests[i].collected == []
    requires NoDuplicates(ps) && Elements(ps) <= s.requests[i].pending && |ps| == s.requests[i].quorum - 1
    requires AllFinished(s.requests[i].tasks, ps) && forall n | 0 <= n < |ps| :: s.requests[i].tasks[ps[n]].counts
    ensures Legal(c, s, steps) && AllOwn(steps, i) && Paired(steps) && s' == Exec(c, s, steps)
    ensures |s'.requests| == |s.requests|
    ensures var q, q' := s.requests[i], s'.requests[i];
            && s' == s.(requests := s.requests[i := q'])
            && Continues(q, q') && q'.collected == Counting(q.tasks, ps) && |q'.collected| == |ps|
            && q'.status == Answered(Answer(q'))
  {
    var q := s.requests[i];
    CountingAll(q.tasks, ps);
    assert Legal(c, s, []) && Exec(c, s, []) == s;
    steps := [];
    if ps != [] {
      LegalSnoc(c, s, [], TakeIn(i, ps));
      steps := [] + [TakeIn(i, ps)];
      assert steps[1..] == [];
    }
    assert Paired(steps);
    PairedAppend(steps, [Leave(i, false)]);
    var s1 := Exec(c, s, steps);
    assert s1.requests[i].collected == Counting(q.tasks, ps);
    LegalSnoc(c, s, steps, Leave(i, false));
    steps := steps + [Leave(i, false)];
    s' := Exec(c, s, steps);
    assert Answer(s'.requests[i]) == Answer(s1.requests[i]);
  }

  /** A request just begun can be answered by exactly the `quorum - 1` peers in `ps`. */
  lemma Conclude(c: Config, s: State, i: nat, ps: seq<Port>) returns (steps: seq<Step>, s': State)
    requires WellFormed(c, s) && i < |s.requests|
    requires NoDuplicates(ps) && JustBegun(s.requests[i], Elements(ps)) && |ps| == s.requests[i].quorum - 1
    ensures Legal(c, s, steps) && AllOwn(steps, i) && Paired(steps) && s' == Exec(c, s, steps)
    ensures |s'.requests| == |s.requests| && s'.deleted == s.deleted && s'.stores.Keys == s.stores.Keys
    ensures forall m | 0 <= m < |s.requests| && m != i :: s'.requests[m] == s.requests[m]
    ensures var q, q' := s.requests[i], s'.requests[i];
            && Continues(q, q') && q'.status == Answered(Answer(q'))
            && |q'.collected| == |ps|
            && (forall n | 0 <= n < |ps| :: ps[n] in s.stores && q'.collected[n].value == ReplyOf(s, q, ps[n]))
            && (forall p | p in s.stores ::
                  s'.stores[p] == if p in Elements(ps) then StoreAfter(q, s.stores[p]) else s.stores[p])
  {
    var serve, s1 := ServeAll(c, s, i, ps);
    var q1 := s1.requests[i];
    forall n | 0 <= n < |ps|
      ensures ps[n] in s.stores && ps[n] in q1.tasks
              && q1.tasks[ps[n]] == Finished(true, ReplyOf(s, s.requests[i], ps[n]))
    {
      var p := ps[n];
      assert p in Elements(ps);
    }
    var wait;
    wait, s' := TakeInAll(c, s1, i, ps);
    CountingAll(q1.tasks, ps);
    steps := serve + wait;
    PairedAppend(serve, wait);
    LegalAppend(c, s, serve, wait);
  }

  // ----- When a read can miss a version

  /** The answer is a 404 or something LWW-older than `v`. */
  ghost predicate Misses(s: State, j: nat, v: VersionedValue) {
    && AnsweredRead(s, j)
    && (s.requests[j].status.response.Found? ==> v.IsNewerThan(s.requests[j].status.response.version))
  }

  /** One read at `coord` with quorum `r`, run without any other step in between. */
  /** No step of the run changes what any node holds. */
  ghost predicate StoresStay(c: Config, s: State, steps: seq<Step>)
    requires Legal(c, s, steps)
    decreases |steps|
  {
    steps != [] ==> Apply(c, s, steps[0]).stores == s.stores && StoresStay(c, Apply(c, s, steps[0]), steps[1..])
  }

  /** A run that begins with the read and, whatever else happens in it, changes no store. */
  ghost predicate QuietRead(c: Config, s: State, steps: seq<Step>, coord: Port, k: Key, r: int) {
    && Legal(c, s, steps) && steps != [] && steps[0].BeginGet?
    && steps[0].coord == coord && steps[0].key == k && steps[0].r == r
    && StoresStay(c, s, steps)
  }

  /** Everything the read has been told is what the stores of `s0` say. */
  ghost predicate TellsExactly(s0: State, s: State, j: nat) {
    && j < |s.requests| && s.stores == s0.stores
    && var q := s.requests[j];
       && q.op.Read? && q.coord in s0.stores && q.op.local == Lookup(s0.stores[q.coord], q.key)
       && forall p | p in q.messages && q.messages[p].Arrived? ::
            p in s0.stores && q.messages[p].reply == Lookup(s0.stores[p], q.key)
  }

  lemma {:induction false} QuietReadTellsExactly(c: Config, s0: State, s: State, steps: seq<Step>, j: nat)
    requires Legal(c, s, steps) && StoresStay(c, s, steps) && TellsExactly(s0, s, j)
    ensures TellsExactly(s0, Exec(c, s, steps), j)
    decreases |steps|
  {
    if steps != [] {
      StepTellsExactly(c, s0, s, steps[0], j);
      QuietReadTellsExactly(c, s0, Apply(c, s, steps[0]), steps[1..], j);
    }
  }

  lemma StepTellsExactly(c: Config, s0: State, s: State, step: Step, j: nat)
    requires WellFormed(c, s) && Enabled(c, s, step) && Apply(c, s, step).stores == s.stores && TellsExactly(s0, s, j)
    ensures TellsExactly(s0, Apply(c, s, step), j)
  {
    OnlySubjectChanges(c, s, step);
    match step
    case BeginPut(coord, key, value, timestamp, w) =>
    case BeginGet(coord, key, r, chosen) =>
    case Deliver(i, p) =>
    case Lose(i, p) =>
    case Complete(i, p) =>
    case Fail(i, p) =>
    case TakeIn(i, done) =>
    case Leave(i, aborted) =>
    case Delete(node, key) =>
  }

  /** The read's own steps change no store. */
  lemma {:induction false} OwnStepsStay(c: Config, s: State, steps: seq<Step>, j: nat)
    requires Legal(c, s, steps) && AllOwn(steps, j) && j < |s.requests| && s.requests[j].op.Read?
    ensures StoresStay(c, s, steps)
    decreases |steps|
  {
    if steps != [] {
      assert OwnStep(steps[0], j);
      OwnStepStays(c, s, steps[0], j);
      OwnStepsStay(c, Apply(c, s, steps[0]), steps[1..], j);
    }
  }

  lemma OwnStepStays(c: Config, s: State, step: Step, j: nat)
    requires WellFormed(c, s) && Enabled(c, s, step) && OwnStep(step, j) && j < |s.requests| && s.requests[j].op.Read?
    ensures Apply(c, s, step).stores == s.stores
    ensures j < |Apply(c, s, step).requests| && Apply(c, s, step).requests[j].op.Read?
  {
    StepContinues(c, s, step);
    assert Continues(s.requests[j], Apply(c, s, step).requests[j]);
    match step
    case Deliver(_, _) =>
    case Lose(_, _) =>
    case Complete(_, _) =>
    case Fail(_, _) =>
    case TakeIn(_, _) =>
    case Leave(_, _) =>
  }

  lemma ExactReadMisses(c: Config, s0: State, s: State, j: nat, v: VersionedValue)
    requires Inv(c, s) && TellsExactly(s0, s, j) && Misses(s, j, v)
    ensures Responders(s.requests[j]) <= s.stores.Keys - Holders(s.stores, s.requests[j].key, v)
  {
    var q := s.requests[j];
    RespondersCount(s.stores.Keys, q);
    var entries := [q.op.local] + Values(q.collected);
    ResolveIsNewest(entries);
    assert RequestOk(s.stores.Keys, q);
    assert q.status.response == Resolve(entries);
    forall p | p in Responders(q) ensures p !in Holders(s.stores, q.key, v) {
      ResponderTold(s0, s, j, p);
      var e := Lookup(s.stores[p], q.key);
      if Covers(e, v) {
        AtLeastTransitive(Resolve(entries).version, e.value, v);
      }
    }
  }

  lemma ResponderTold(s0: State, s: State, j: nat, p: Port)
    requires TellsExactly(s0, s, j) && RequestOk(s.stores.Keys, s.requests[j]) && p in Responders(s.requests[j])
    ensures p in s.stores
    ensures var q := s.requests[j]; Lookup(s.stores[p], q.key) in [q.op.local] + Values(q.collected)
  {
    var q := s.requests[j];
    if p == q.coord {
      assert ([q.op.local] + Values(q.collected))[0] == q.op.local;
    } else {
      var i :| 0 <= i < |q.collected| && q.collected[i].from == p;
      CollectedArrived(s.stores.Keys, q, i);
      ReplyIsEntry(q.op.local, q.collected, i);
    }
  }

  lemma ReplyIsEntry(local: Option<VersionedValue>, replies: seq<Reply>, i: nat)
    requires i < |replies|
    ensures replies[i].value in [local] + Values(replies)
  {
    assert ([local] + Values(replies))[i + 1] == replies[i].value;
  }

  lemma CanMissOnlyIf(c: Config, s: State, coord: Port, k: Key, r: int, v: VersionedValue, steps: seq<Step>)
    requires Inv(c, s) && QuietRead(c, s, steps, coord, k, r)
    requires Misses(Exec(c, s, steps), |s.requests|, v)
    ensures var lacking := s.stores.Keys - Holders(s.stores, k, v);
            coord in lacking && |lacking - {coord}| >= r - 1
  {
    var j, s' := |s.requests|, Exec(c, s, steps);
    var q := QuietReadOutcome(c, s, coord, k, r, steps);
    ExactReadMisses(c, s, s', j, v);
    var lacking := s.stores.Keys - Holders(s.stores, k, v);
    RespondersCount(s'.stores.Keys, q);
    SubsetCount(Responders(q), lacking);
    assert |q.collected| >= r - 1 by {
      assert q.status.response == Answer(q) by { assert RequestOk(s'.stores.Keys, q); }
    }
    assert |lacking - {coord}| == |lacking| - 1;
  }

  lemma QuietReadOutcome(c: Config, s: State, coord: Port, k: Key, r: int, steps: seq<Step>) returns (q: Request)
    requires Inv(c, s) && QuietRead(c, s, steps, coord, k, r)
    ensures var s' := Exec(c, s, steps);
            && |s.requests| < |s'.requests| && q == s'.requests[|s.requests|]
            && Inv(c, s') && TellsExactly(s, s', |s.requests|) && RequestOk(s'.stores.Keys, q)
    ensures q.coord == coord && q.key == k && q.quorum == r && q.op.Read?
  {
    var j, s1, s' := |s.requests|, Apply(c, s, steps[0]), Exec(c, s, steps);
    InvStep(c, s, steps[0]);
    QuietReadTellsExactly(c, s, s1, steps[1..], j);
    RunKeepsInv(c, s1, steps[1..]);
    RunContinues(c, s1, steps[1..]);
    q := s'.requests[j];
    assert Continues(s1.requests[j], q);
  }

  lemma GetEnabled(c: Config, s: State, coord: Port, k: Key, r: int, ps: seq<Port>)
    requires ValidConfig(c) && coord in Members(c) && 1 <= r <= |c.nodes|
    requires NoDuplicates(ps) && |ps| == r - 1 && Elements(ps) <= Members(c) - {coord}
    ensures Enabled(c, s, BeginGet(coord, k, r, Elements(ps)))
  {
    PeersAre(c.nodes, coord);
    PeersOfMember(c.nodes, coord);
    DistinctCount(PortSeq(PeersExcluding(c.nodes, coord)));
    DistinctCount(ps);
    SubsetCount(Elements(ps), PeerPorts(c, coord));
  }

  lemma GetBegun(c: Config, s: State, coord: Port, k: Key, r: int, ps: seq<Port>) returns (s1: State)
    requires ValidConfig(c) && WellFormed(c, s) && coord in Members(c) && 1 <= r <= |c.nodes|
    requires NoDuplicates(ps) && |ps| == r - 1 && Elements(ps) <= Members(c) - {coord}
    ensures var step := BeginGet(coord, k, r, Elements(ps)); Enabled(c, s, step) && s1 == Apply(c, s, step)
    ensures WellFormed(c, s1) && s1.stores == s.stores && s1.deleted == s.deleted
    ensures |s1.requests| == |s.requests| + 1 && s1.requests[..|s.requests|] == s.requests
    ensures s1.requests[|s.requests|] ==
            FreshRequest(coord, k, r, Read(Lookup(s.stores[coord], k)), Elements(ps), s.stores)
    ensures JustBegun(s1.requests[|s.requests|], Elements(ps))
  {
    GetEnabled(c, s, coord, k, r, ps);
    var step := BeginGet(coord, k, r, Elements(ps));
    ApplyWellFormed(c, s, step);
    s1 := Apply(c, s, step);
  }

  /** A read at `coord` answered by exactly the peers `ps`. */
  lemma DriveGet(c: Config, s: State, coord: Port, k: Key, r: int, ps: seq<Port>) returns (steps: seq<Step>, s': State)
    requires ValidConfig(c) && WellFormed(c, s) && coord in Members(c) && 1 <= r <= |c.nodes|
    requires NoDuplicates(ps) && |ps| == r - 1 && Elements(ps) <= Members(c) - {coord}
    ensures Legal(c, s, [BeginGet(coord, k, r, Elements(ps))] + steps)
    ensures AllOwn(steps, |s.requests|) && Paired(steps)
    ensures s' == Exec(c, s, [BeginGet(coord, k, r, Elements(ps))] + steps)
    ensures |s'.requests| == |s.requests| + 1 && s'.deleted == s.deleted && s'.stores == s.stores
    ensures forall m | 0 <= m < |s.requests| :: s'.requests[m] == s.requests[m]
    ensures var q' := s'.requests[|s.requests|];
            && q'.coord == coord && q'.key == k && q'.quorum == r && q'.op == Read(Lookup(s.stores[coord], k))
            && q'.status == Answered(Resolve([q'.op.local] + Values(q'.collected)))
            && |q'.collected| == |ps|
            && forall n | 0 <= n < |ps| :: ps[n] in s.stores && q'.collected[n].value == Lookup(s.stores[ps[n]], k)
  {
    var begin := BeginGet(coord, k, r, Elements(ps));
    var s1 := GetBegun(c, s, coord, k, r, ps);
    steps, s' := Conclude(c, s1, |s.requests|, ps);
    LegalCons(c, s, begin, steps);
    SameStores(s1.requests[|s.requests|], s1.stores, s'.stores, Elements(ps));
    forall m | 0 <= m < |s.requests| ensures s'.requests[m] == s.requests[m] {
      assert s1.requests[..|s.requests|][m] == s1.requests[m];
    }
  }

  /** Serving a read changes no store. */
  lemma SameStores(q: Request, before: map<Port, Store>, after: map<Port, Store>, ps: set<Port>)
    requires q.op.Read? && after.Keys == before.Keys
    requires forall p | p in before :: after[p] == if p in ps then StoreAfter(q, before[p]) else before[p]
    ensures after == before
  {
    assert forall p | p in before :: after[p] == before[p];
  }

  lemma CanMissIf(c: Config, s: State, coord: Port, k: Key, r: int, v: VersionedValue) returns (steps: seq<Step>)
    requires Inv(c, s) && coord in Members(c) && 1 <= r <= |c.nodes|
    requires var lacking := s.stores.Keys - Holders(s.stores, k, v);
             coord in lacking && |lacking - {coord}| >= r - 1
    ensures QuietRead(c, s, steps, coord, k, r)
    ensures Misses(Exec(c, s, steps), |s.requests|, v)
  {
    var lacking := s.stores.Keys - Holders(s.stores, k, v);
    var ps := PickSome(lacking - {coord}, r - 1);
    var rest, s' := DriveGet(c, s, coord, k, r, ps);
    steps := [BeginGet(coord, k, r, Elements(ps))] + rest;
    assert steps[1..] == rest;
    OwnStepsStay(c, Apply(c, s, steps[0]), rest, |s.requests|);
    var q := s'.requests[|s.requests|];
    forall m | 0 <= m < |q.collected| ensures !Covers(q.collected[m].value, v) {
      var n := ps[m];
      assert n in Elements(ps);
      assert n in lacking;
    }
    NoneCovers(q.op.local, q.collected, v);
  }

  lemma NoneCovers(local: Option<VersionedValue>, replies: seq<Reply>, v: VersionedValue)
    requires !Covers(local, v) && forall m | 0 <= m < |replies| :: !Covers(replies[m].value, v)
    ensures var answer := Resolve([local] + Values(replies));
            answer.Found? ==> v.IsNewerThan(answer.version)
  {
    var entries := [local] + Values(replies);
    ResolveIsNewest(entries);
    if Resolve(entries).Found? {
      var m :| 0 <= m < |entries| && entries[m] == Some(Resolve(entries).version);
      assert m > 0 ==> entries[m] == replies[m - 1].value;
    }
  }

  /** In any state, in the runs from it that change no store, whatever else they do, a read
      at `coord` with quorum r can return a 404 or something older than `v` if and only if the
      coordinator and at least r-1 other nodes lack a version as new as `v`. */
  lemma StaleReadPossibleIff(c: Config, s: State, coord: Port, k: Key, r: int, v: VersionedValue)
    requires Inv(c, s) && coord in Members(c) && 1 <= r <= |c.nodes|
    ensures (exists steps :: QuietRead(c, s, steps, coord, k, r) && Misses(Exec(c, s, steps), |s.requests|, v))
            <==> (var lacking := s.stores.Keys - Holders(s.stores, k, v);
                  coord in lacking && |lacking - {coord}| >= r - 1)
  {
    var lacking := s.stores.Keys - Holders(s.stores, k, v);
    if steps :| QuietRead(c, s, steps, coord, k, r) && Misses(Exec(c, s, steps), |s.requests|, v) {
      CanMissOnlyIf(c, s, coord, k, r, v, steps);
    }
    if coord in lacking && |lacking - {coord}| >= r - 1 {
      var steps := CanMissIf(c, s, coord, k, r, v);
    }
  }

  // ----- The exact overlap condition

  /** A write at `coord` acknowledged by exactly the peers `ps`. */
  lemma DrivePut(c: Config, s: State, coord: Port, k: Key, value: Value, ts: real, w: int, ps: seq<Port>)
    returns (steps: seq<Step>, s': State)
    requires ValidConfig(c) && WellFormed(c, s) && coord in Members(c) && 1 <= w <= |c.nodes|
    requires NoDuplicates(ps) && |ps| == w - 1 && Elements(ps) <= Members(c) - {coord}
    ensures Legal(c, s, [BeginPut(coord, k, value, ts, w)] + steps)
    ensures AllOwn(steps, |s.requests|) && Paired(steps)
    ensures s' == Exec(c, s, [BeginPut(coord, k, value, ts, w)] + steps) && WellFormed(c, s')
    ensures |s'.requests| == |s.requests| + 1 && s'.deleted == s.deleted && s'.stores.Keys == s.stores.Keys
    ensures coord in c.nodeIds
    ensures var q' := s'.requests[|s.requests|];
            var v := VersionedValue(value, ts, c.nodeIds[coord]);
            && q'.coord == coord && q'.key == k && q'.quorum == w
            && q'.op == Write(v, Accepts(s.stores[coord], k, v))
            && q'.status == Answered(PutOk(q'.op.applied, ts))
            && forall n | n in s.stores && n != coord && n !in Elements(ps) :: s'.stores[n] == s.stores[n]
  {
    PeersAre(c.nodes, coord);
    var begin := BeginPut(coord, k, value, ts, w);
    ApplyWellFormed(c, s, begin);
    var s1 := Apply(c, s, begin);
    steps, s' := Conclude(c, s1, |s.requests|, ps);
    LegalCons(c, s, begin, steps);
    ExecWellFormed(c, s, [begin] + steps);
  }

  /** A read that happens to ask only nodes without the key. */
  lemma MissingGet(c: Config, s: State, coord: Port, k: Key, r: int, ps: seq<Port>)
    returns (steps: seq<Step>, s': State)
    requires ValidConfig(c) && WellFormed(c, s) && coord in Members(c) && 1 <= r <= |c.nodes|
    requires NoDuplicates(ps) && |ps| == r - 1 && Elements(ps) <= Members(c) - {coord}
    requires coord in s.stores && k !in s.stores[coord]
    requires forall n | 0 <= n < |ps| :: ps[n] in s.stores && k !in s.stores[ps[n]]
    ensures Legal(c, s, [BeginGet(coord, k, r, Elements(ps))] + steps)
    ensures AllOwn(steps, |s.requests|) && Paired(steps)
    ensures s' == Exec(c, s, [BeginGet(coord, k, r, Elements(ps))] + steps)
    ensures |s'.requests| == |s.requests| + 1 && s'.deleted == s.deleted && s'.stores == s.stores
    ensures forall m | 0 <= m < |s.requests| :: s'.requests[m] == s.requests[m]
    ensures var q' := s'.requests[|s.requests|];
            q'.coord == coord && q'.key == k && q'.quorum == r && q'.op.Read? && q'.status == Answered(NotFound)
  {
    steps, s' := DriveGet(c, s, coord, k, r, ps);
    var q := s'.requests[|s.requests|];
    var entries := [q.op.local] + Values(q.collected);
    ResolveIsNewest(entries);
    forall m | 0 <= m < |entries| ensures entries[m].None? {
      if m > 0 {
        assert entries[m] == Lookup(s.stores[ps[m - 1]], k);
      }
    }
    assert forall e | e in entries :: e.None?;
  }

  /** A run in which a PUT with quorum w was answered 200, a GET of the same key with quorum
      r began later, and the GET answered with a 404 or something older, no key deleted. */
  ghost predicate MissedRead(c: Config, w: int, r: int, first: seq<Step>, rest: seq<Step>, i: nat, j: nat) {
    && Legal(c, Init(c), first) && Legal(c, Exec(c, Init(c), first), rest)
    && var s1 := Exec(c, Init(c), first);
       var s2 := Exec(c, s1, rest);
       && i < |s1.requests| <= j < |s2.requests|
       && s1.requests[i].op.Write? && s1.requests[i].quorum == w
       && s1.requests[i].status.Answered? && s1.requests[i].status.response.PutOk?
       && s2.requests[j].quorum == r && s2.requests[j].key == s1.requests[i].key
       && Misses(s2, j, s1.requests[i].op.version)
       && s2.deleted == {}
  }

  /** For every cluster size: whichever two nodes coordinate, if w + r <= N some run acks
      the write at one and then misses it at the other. */
  lemma MissedReadExists(c: Config, w: int, r: int, writer: Port, reader: Port)
    returns (first: seq<Step>, rest: seq<Step>)
    requires ValidConfig(c) && 1 <= w && 1 <= r && w + r <= |c.nodes|
    requires writer in Members(c) && reader in Members(c) && writer != reader
    ensures MissedRead(c, w, r, first, rest, 0, 1)
  {
    var acking, asked := DisjointQuorums(c, w, r, writer, reader);
    var s1;
    first, s1 := FirstWrite(c, w, writer, acking);
    forall n | 0 <= n < |asked| ensures asked[n] in s1.stores && "k" !in s1.stores[asked[n]] {
      var p := asked[n];
      assert p in Elements(asked);
    }
    var gets, s2 := MissingGet(c, s1, reader, "k", r, asked);
    rest := [BeginGet(reader, "k", r, Elements(asked))] + gets;
  }

  /** Room for two quorums that do not meet. */
  lemma DisjointQuorums(c: Config, w: int, r: int, writer: Port, reader: Port)
    returns (acking: seq<Port>, asked: seq<Port>)
    requires ValidConfig(c) && 1 <= w && 1 <= r && w + r <= |c.nodes|
    requires writer in Members(c) && reader in Members(c) && writer != reader
    ensures NoDuplicates(acking) && |acking| == w - 1 && Elements(acking) <= Members(c) - {writer, reader}
    ensures NoDuplicates(asked) && |asked| == r - 1
            && Elements(asked) <= Members(c) - {writer, reader} - Elements(acking)
  {
    DistinctCount(PortSeq(c.nodes));
    assert |Members(c) - {writer, reader}| == |Members(c)| - 2;
    acking := PickSome(Members(c) - {writer, reader}, w - 1);
    assert |Members(c) - {writer, reader} - Elements(acking)| == |Members(c)| - 1 - w;
    asked := PickSome(Members(c) - {writer, reader} - Elements(acking), r - 1);
  }

  /** A first write, acknowledged by exactly `acking`; nobody else has heard of it. */
  lemma FirstWrite(c: Config, w: int, writer: Port, acking: seq<Port>) returns (first: seq<Step>, s1: State)
    requires ValidConfig(c) && writer in Members(c) && 1 <= w <= |c.nodes|
    requires NoDuplicates(acking) && |acking| == w - 1 && Elements(acking) <= Members(c) - {writer}
    ensures Legal(c, Init(c), first) && s1 == Exec(c, Init(c), first) && WellFormed(c, s1)
    ensures |s1.requests| == 1 && s1.deleted == {} && s1.stores.Keys == Members(c)
    ensures s1.requests[0].op.Write? && s1.requests[0].quorum == w && s1.requests[0].key == "k"
    ensures s1.requests[0].status.Answered? && s1.requests[0].status.response.PutOk?
    ensures forall n | n in Members(c) && n != writer && n !in Elements(acking) :: "k" !in s1.stores[n]
  {
    var s0 := Init(c);
    InvInit(c);
    var puts;
    puts, s1 := DrivePut(c, s0, writer, "k", 0, 0.0, w, acking);
    first := [BeginPut(writer, "k", 0, 0.0, w)] + puts;
    forall n | n in Members(c) && n != writer && n !in Elements(acking) ensures "k" !in s1.stores[n] {
      assert s1.stores[n] == s0.stores[n] == map[];
    }
  }

  /** A quorum pair is safe, over every run with every interleaving and every loss, exactly
      when w + r > N. */
  lemma QuorumGuaranteeIff(c: Config, w: int, r: int)
    requires ValidConfig(c) && 1 <= w <= |c.nodes| && 1 <= r <= |c.nodes|
    ensures (forall first, rest, i, j :: !MissedRead(c, w, r, first, rest, i, j)) <==> w + r > |c.nodes|
  {
    if w + r > |c.nodes| {
      forall first, rest, i, j ensures !MissedRead(c, w, r, first, rest, i, j) {
        NoMissedRead(c, w, r, first, rest, i, j);
      }
    } else {
      DistinctCount(PortSeq(c.nodes));
      var writer := AnyOf(Members(c));
      assert |Members(c) - {writer}| == |Members(c)| - 1;
      var reader := AnyOf(Members(c) - {writer});
      var first, rest := MissedReadExists(c, w, r, writer, reader);
    }
  }

  lemma NoMissedRead(c: Config, w: int, r: int, first: seq<Step>, rest: seq<Step>, i: nat, j: nat)
    requires ValidConfig(c) && w + r > |c.nodes|
    ensures !MissedRead(c, w, r, first, rest, i, j)
  {
    if MissedRead(c, w, r, first, rest, i, j) {
      var s1 := Exec(c, Init(c), first);
      var s2 := Exec(c, s1, rest);
      LegalAppend(c, Init(c), first, rest);
      DeletedIff(c, Init(c), first + rest, s2.requests[j].key);
      QuorumFreshness(c, first, rest, i, j);
    }
  }
}
