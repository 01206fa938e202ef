/** The waiting loop, as code, against the cluster's steps. Everything the loop can do,
    whatever goes on around it and whatever is still running when it leaves, is a run of the
    step system; and every run of the step system drives each request as the loop would. */
module CoordinatorRuns {
  import opened Topology
  import opened Gather
  import opened Handlers
  import opened Cluster
  import opened ClusterSafety
  import opened Quorum
  import opened Storage
  import opened Versions

  /** What happens while a request waits: steps of its messages and of everyone else, and
      the turns of its own loop. */
  datatype Event = Elsewhere(step: Step) | Turn(wake: Wake)

  function WakesOf(events: seq<Event>): seq<Wake>
    decreases |events|
  {
    if events == [] then []
    else (if events[0].Turn? then [events[0].wake] else []) + WakesOf(events[1..])
  }

  /** A step of the loop of request `i` itself. */
  predicate Own(step: Step, i: nat) {
    (step.TakeIn? || step.Leave?) && step.i == i
  }

  ghost predicate Same(tasks: map<Port, Task>, results: map<Port, Task>, done: seq<Port>) {
    forall n | 0 <= n < |done| :: done[n] in tasks && done[n] in results && tasks[done[n]] == results[done[n]]
  }

  /** From `s`, the events can happen until the wait is over: a batch is handed back once
      its sends have finished, as `results` has it. */
  ghost predicate Happens(c: Config, s: State, i: nat, results: map<Port, Task>, events: seq<Event>)
    decreases |events|
  {
    && WellFormed(c, s) && i < |s.requests| && s.requests[i].status.Waiting?
    && (WaitOver(s.requests[i]) || events == [] ||
        match events[0]
        case Elsewhere(step) =>
          Enabled(c, s, step) && !Own(step, i) && Happens(c, Apply(c, s, step), i, results, events[1..])
        case Turn(wake) =>
          wake.Woken? ==>
            && Enabled(c, s, TakeIn(i, wake.done)) && Same(s.requests[i].tasks, results, wake.done)
            && Happens(c, Apply(c, s, TakeIn(i, wake.done)), i, results, events[1..]))
  }

  lemma {:induction false} CountingSame(tasks: map<Port, Task>, results: map<Port, Task>, done: seq<Port>)
    requires AllFinished(tasks, done) && Same(tasks, results, done)
    ensures AllFinished(results, done) && Counting(tasks, done) == Counting(results, done)
    decreases |done|
  {
    if done != [] {
      CountingSame(tasks, results, done[1..]);
    }
  }

  /** Nothing but its own loop moves what a request has collected and still waits for. */
  lemma OthersKeep(c: Config, s: State, step: Step, i: nat)
    requires WellFormed(c, s) && Enabled(c, s, step) && !Own(step, i) && i < |s.requests|
    ensures var q, s' := s.requests[i], Apply(c, s, step);
            && i < |s'.requests|
            && var q' := s'.requests[i];
               && q'.pending == q.pending && q'.collected == q.collected && q'.status == q.status
               && q'.op == q.op && q'.quorum == q.quorum && q'.coord == q.coord && q'.key == q.key
  {
    OnlySubjectChanges(c, s, step);
    StepContinues(c, s, step);
    match step
    case BeginPut(coord, key, value, timestamp, w) =>
    case BeginGet(coord, key, r, chosen) =>
    case Deliver(j, p) =>
    case Lose(j, p) =>
    case Complete(j, p) =>
    case Fail(j, p) =>
    case TakeIn(j, done) =>
    case Leave(j, aborted) =>
    case Delete(node, key) =>
  }

  /** Where the loop leaves its request: `consumed` taken in, the rest handed off, with the
      unfinished of the rest kept in the background. */
  ghost predicate Concluded(results: map<Port, Task>, q: Request, consumed: seq<Port>, exit: Exit, q': Request) {
    && AllFinished(results, consumed)
    && q'.coord == q.coord && q'.key == q.key && q'.quorum == q.quorum && q'.op == q.op
    && q'.collected == q.collected + Counting(results, consumed)
    && q'.pending == {}
    && q'.background == (set p | p in q.pending - Elements(consumed) && p in q'.tasks && q'.tasks[p].Running?)
    && q'.status == (if exit.Interrupted? then Aborted else Answered(Answer(q')))
  }

  lemma LeaveNow(c: Config, s: State, i: nat, results: map<Port, Task>, exit: Exit)
    returns (steps: seq<Step>, s': State)
    requires WellFormed(c, s) && i < |s.requests| && s.requests[i].status.Waiting?
    requires exit.Interrupted? ==> !WaitOver(s.requests[i])
    ensures steps == [Leave(i, exit.Interrupted?)] && Legal(c, s, steps) && s' == Exec(c, s, steps)
    ensures |s'.requests| == |s.requests| && Concluded(results, s.requests[i], [], exit, s'.requests[i])
  {
    var q := s.requests[i];
    steps := [Leave(i, exit.Interrupted?)];
    ApplyWellFormed(c, s, steps[0]);
    assert steps[1..] == [];
    s' := Exec(c, s, steps);
    assert q.collected + [] == q.collected && q.pending - Elements<Port>([]) == q.pending;
  }

  lemma TakeBatch(c: Config, s: State, i: nat, results: map<Port, Task>, done: seq<Port>) returns (s1: State)
    requires WellFormed(c, s) && Enabled(c, s, TakeIn(i, done)) && Same(s.requests[i].tasks, results, done)
    ensures s1 == Apply(c, s, TakeIn(i, done)) && WellFormed(c, s1) && |s1.requests| == |s.requests|
    ensures AllFinished(results, done)
    ensures var q := s.requests[i];
            s1.requests[i] == q.(pending := q.pending - Elements(done),
                                 collected := q.collected + Counting(results, done))
  {
    s1 := Apply(c, s, TakeIn(i, done));
    ApplyWellFormed(c, s, TakeIn(i, done));
    CountingSame(s.requests[i].tasks, results, done);
  }

  lemma ConcludedAfterBatch(results: map<Port, Task>, q: Request, done: seq<Port>, q1: Request, rest: seq<Port>,
                            exit: Exit, q': Request)
    requires AllFinished(results, done) && Concluded(results, q1, rest, exit, q')
    requires q1 == q.(pending := q.pending - Elements(done), collected := q.collected + Counting(results, done))
    ensures Concluded(results, q, done + rest, exit, q')
  {
    CountingAppend(results, done, rest);
    ElementsAppend(done, rest);
    assert q.pending - Elements(done + rest) == q1.pending - Elements(rest);
  }

  /** The loop over `wakes`, started at request `q`, leaves it as `q'`. */
  ghost predicate LoopsTo(results: map<Port, Task>, q: Request, wakes: seq<Wake>, q': Request) {
    && ScheduleFits(results, q.pending, wakes)
    && var r := Loop(results, q.pending, |q.collected|, q.quorum - 1, wakes);
       Concluded(results, q, r.0, r.1, q')
  }

  lemma LoopsOn(results: map<Port, Task>, q: Request, wakes: seq<Wake>, q1: Request, q': Request)
    requires wakes != [] && wakes[0].Woken? && !WaitOver(q) && ScheduleFits(results, q.pending, wakes)
    requires q1 == q.(pending := q.pending - Elements(wakes[0].done),
                      collected := q.collected + Counting(results, wakes[0].done))
    requires LoopsTo(results, q1, wakes[1..], q')
    ensures LoopsTo(results, q, wakes, q')
  {
    var r1 := Loop(results, q1.pending, |q1.collected|, q1.quorum - 1, wakes[1..]);
    ConcludedAfterBatch(results, q, wakes[0].done, q1, r1.0, r1.1, q');
  }

  lemma LoopsAlike(results: map<Port, Task>, q: Request, wakes: seq<Wake>, q1: Request, q': Request)
    requires q1.pending == q.pending && q1.collected == q.collected && q1.op == q.op
    requires q1.quorum == q.quorum && q1.coord == q.coord && q1.key == q.key
    ensures LoopsTo(results, q1, wakes, q') <==> LoopsTo(results, q, wakes, q')
  {
  }

  /** The run itself, step by step: everything that happened elsewhere, in its place, the
      batches taken in, and the step that ends the wait. */
  ghost function RunOf(c: Config, s: State, i: nat, results: map<Port, Task>, events: seq<Event>): seq<Step>
    requires Happens(c, s, i, results, events)
    decreases |events|
  {
    if WaitOver(s.requests[i]) || events == [] then [Leave(i, false)]
    else match events[0]
      case Elsewhere(step) => [step] + RunOf(c, Apply(c, s, step), i, results, events[1..])
      case Turn(wake) =>
        match wake
        case Woken(done) => [TakeIn(i, done)] + RunOf(c, Apply(c, s, TakeIn(i, done)), i, results, events[1..])
        case Cancelled => [Leave(i, true)]
        case _ => [Leave(i, false)]
  }

  /** Whatever the loop of request `i` does, from wherever it stands, with anything at all
      going on between its turns and any of its sends still running when it leaves, is a run
      of the cluster, made of just those steps and turns in that order, that ends with exactly
      what the loop computes. */
  lemma {:induction false} GatherIsRun(c: Config, s: State, i: nat, results: map<Port, Task>, events: seq<Event>)
    returns (steps: seq<Step>, s': State)
    requires Happens(c, s, i, results, events)
    requires ScheduleFits(results, s.requests[i].pending, WakesOf(events))
    ensures Legal(c, s, steps) && s' == Exec(c, s, steps) && i < |s'.requests|
    ensures LoopsTo(results, s.requests[i], WakesOf(events), s'.requests[i])
    ensures steps == RunOf(c, s, i, results, events)
    decreases |events|
  {
    var q := s.requests[i];
    if WaitOver(q) {
      steps, s' := LeaveNow(c, s, i, results, LoopDone);
    } else if events == [] {
      steps, s' := LeaveNow(c, s, i, results, GaveUp);
    } else if events[0].Elsewhere? {
      var s1 := StepElsewhere(c, s, i, results, events);
      var rest;
      rest, s' := GatherIsRun(c, s1, i, results, events[1..]);
      LoopsAlike(results, q, WakesOf(events[1..]), s1.requests[i], s'.requests[i]);
      steps := [events[0].step] + rest;
      LegalCons(c, s, events[0].step, rest);
    } else if events[0].wake.Woken? {
      var done, wakes := events[0].wake.done, WakesOf(events);
      assert wakes[0] == events[0].wake && wakes[1..] == WakesOf(events[1..]);
      var s1 := TakeBatch(c, s, i, results, done);
      var rest;
      rest, s' := GatherIsRun(c, s1, i, results, events[1..]);
      LoopsOn(results, q, wakes, s1.requests[i], s'.requests[i]);
      steps := [TakeIn(i, done)] + rest;
      LegalCons(c, s, TakeIn(i, done), rest);
    } else {
      steps, s' := LeaveNow(c, s, i, results, if events[0].wake.Cancelled? then Interrupted else GaveUp);
    }
  }

  lemma StepElsewhere(c: Config, s: State, i: nat, results: map<Port, Task>, events: seq<Event>) returns (s1: State)
    requires Happens(c, s, i, results, events) && !WaitOver(s.requests[i]) && events != [] && events[0].Elsewhere?
    ensures Enabled(c, s, events[0].step) && s1 == Apply(c, s, events[0].step)
    ensures Happens(c, s1, i, results, events[1..]) && WakesOf(events) == WakesOf(events[1..])
    ensures var q, q1 := s.requests[i], s1.requests[i];
            && q1.pending == q.pending && q1.collected == q.collected && q1.op == q.op
            && q1.quorum == q.quorum && q1.coord == q.coord && q1.key == q.key
  {
    s1 := Apply(c, s, events[0].step);
    OthersKeep(c, s, events[0].step, i);
    assert WakesOf(events) == [] + WakesOf(events[1..]);
  }

  // ----- The handlers

  /** A PUT as its handler ends it: cancelled, or answered from the acks the loop collected;
      what was not taken in is in the background until it finishes. */
  ghost predicate PutEnds(results: map<Port, Task>, peers: set<Port>, w: int, applied: bool, timestamp: real,
                          wakes: seq<Wake>, q: Request) {
    && ScheduleFits(results, peers, wakes)
    && var r := Loop(results, peers, 0, w - 1, wakes);
       && AllFinished(results, r.0)
       && q.status == (if r.1.Interrupted? then Aborted
                       else Answered(PutAnswer(w, |Counting(results, r.0)|, applied, timestamp)))
       && q.background == (set p | p in peers - Elements(r.0) && p in q.tasks && q.tasks[p].Running?)
  }

  ghost predicate GetEnds(results: map<Port, Task>, chosen: set<Port>, n: int, local: Option<VersionedValue>,
                          wakes: seq<Wake>, q: Request) {
    && ScheduleFits(results, chosen, wakes)
    && var r := Loop(results, chosen, 0, n - 1, wakes);
       && AllFinished(results, r.0)
       && q.status == (if r.1.Interrupted? then Aborted else Answered(GetAnswer(n, local, Counting(results, r.0))))
       && q.background == (set p | p in chosen - Elements(r.0) && p in q.tasks && q.tasks[p].Running?)
  }

  lemma PutEnded(results: map<Port, Task>, q0: Request, wakes: seq<Wake>, q': Request)
    requires q0.collected == [] && q0.op.Write? && LoopsTo(results, q0, wakes, q')
    ensures PutEnds(results, q0.pending, q0.quorum, q0.op.applied, q0.op.version.timestamp, wakes, q')
  {
    FreshLoop(results, q0, wakes, q');
  }

  lemma GetEnded(results: map<Port, Task>, q0: Request, wakes: seq<Wake>, q': Request)
    requires q0.collected == [] && q0.op.Read? && LoopsTo(results, q0, wakes, q')
    ensures GetEnds(results, q0.pending, q0.quorum, q0.op.local, wakes, q')
  {
    FreshLoop(results, q0, wakes, q');
  }

  lemma BeginThenGather(c: Config, s: State, begin: Step, s0: State, results: map<Port, Task>, events: seq<Event>)
    returns (steps: seq<Step>, s': State)
    requires WellFormed(c, s) && Enabled(c, s, begin) && s0 == Apply(c, s, begin)
    requires Happens(c, s0, |s.requests|, results, events)
    requires ScheduleFits(results, s0.requests[|s.requests|].pending, WakesOf(events))
    ensures Legal(c, s, [begin] + steps) && s' == Exec(c, s, [begin] + steps) && |s.requests| < |s'.requests|
    ensures LoopsTo(results, s0.requests[|s.requests|], WakesOf(events), s'.requests[|s.requests|])
    ensures steps == RunOf(c, s0, |s.requests|, results, events)
  {
    steps, s' := GatherIsRun(c, s0, |s.requests|, results, events);
    LegalCons(c, s, begin, steps);
  }

  lemma FreshLoop(results: map<Port, Task>, q0: Request, wakes: seq<Wake>, q': Request)
    requires q0.collected == [] && LoopsTo(results, q0, wakes, q')
    ensures var r := Loop(results, q0.pending, 0, q0.quorum - 1, wakes);
            && AllFinished(results, r.0) && q'.op == q0.op && q'.quorum == q0.quorum
            && q'.collected == Counting(results, r.0)
            && q'.status == (if r.1.Interrupted? then Aborted else Answered(Answer(q')))
            && q'.background == (set p | p in q0.pending - Elements(r.0) && p in q'.tasks && q'.tasks[p].Running?)
  {
    var r := Loop(results, q0.pending, 0, q0.quorum - 1, wakes);
    assert [] + Counting(results, r.0) == Counting(results, r.0);
  }

  /** A PUT handler, from its local write to its answer, is a run of the cluster: the store,
      the answer and the sends kept in the background are those of the code. */
  lemma PutIsRun(c: Config, s: State, coord: Port, key: Key, value: Value, timestamp: real, w: int, s0: State,
                 results: map<Port, Task>, events: seq<Event>) returns (steps: seq<Step>, s': State)
    requires WellFormed(c, s) && Enabled(c, s, BeginPut(coord, key, value, timestamp, w)) && coord in c.nodeIds
    requires s0 == Apply(c, s, BeginPut(coord, key, value, timestamp, w))
    requires Happens(c, s0, |s.requests|, results, events)
    requires ScheduleFits(results, PeerPorts(c, coord), WakesOf(events))
    ensures var v := VersionedValue(value, timestamp, c.nodeIds[coord]);
            s0.stores == s.stores[coord := PutStore(s.stores[coord], key, v)]
    ensures Legal(c, s, [BeginPut(coord, key, value, timestamp, w)] + steps)
    ensures s' == Exec(c, s, [BeginPut(coord, key, value, timestamp, w)] + steps)
    ensures |s.requests| < |s'.requests|
    ensures PutEnds(results, PeerPorts(c, coord), w,
                    Accepts(s.stores[coord], key, VersionedValue(value, timestamp, c.nodeIds[coord])),
                    timestamp, WakesOf(events), s'.requests[|s.requests|])
    ensures steps == RunOf(c, s0, |s.requests|, results, events)
  {
    var q0 := s0.requests[|s.requests|];
    steps, s' := BeginThenGather(c, s, BeginPut(coord, key, value, timestamp, w), s0, results, events);
    PutEnded(results, q0, WakesOf(events), s'.requests[|s.requests|]);
  }

  /** So is a GET handler; see `ReadsChangeNothing` for what its steps do to the stores. */
  lemma GetIsRun(c: Config, s: State, coord: Port, key: Key, n: int, chosen: set<Port>, s0: State,
                 results: map<Port, Task>, events: seq<Event>) returns (steps: seq<Step>, s': State)
    requires WellFormed(c, s) && Enabled(c, s, BeginGet(coord, key, n, chosen)) && coord in s.stores
    requires s0 == Apply(c, s, BeginGet(coord, key, n, chosen))
    requires Happens(c, s0, |s.requests|, results, events)
    requires ScheduleFits(results, chosen, WakesOf(events))
    ensures s0.stores == s.stores
    ensures Legal(c, s, [BeginGet(coord, key, n, chosen)] + steps)
    ensures s' == Exec(c, s, [BeginGet(coord, key, n, chosen)] + steps)
    ensures |s.requests| < |s'.requests|
    ensures GetEnds(results, chosen, n, Lookup(s.stores[coord], key), WakesOf(events), s'.requests[|s.requests|])
    ensures steps == RunOf(c, s0, |s.requests|, results, events)
  {
    var q0 := FreshGet(c, s, coord, key, n, chosen, s0);
    steps, s' := BeginThenGather(c, s, BeginGet(coord, key, n, chosen), s0, results, events);
    GetEnded(results, q0, WakesOf(events), s'.requests[|s.requests|]);
  }

  /** No step of a read, its messages' included, changes what any node holds. */
  lemma ReadsChangeNothing(c: Config, s: State, step: Step)
    requires WellFormed(c, s) && Enabled(c, s, step)
    requires step.BeginGet? || (Subject(s, step) < |s.requests| && s.requests[Subject(s, step)].op.Read?)
    ensures Apply(c, s, step).stores == s.stores
  {
    match step
    case BeginPut(coord, key, value, timestamp, w) =>
    case BeginGet(coord, key, r, chosen) =>
    case Deliver(_, _) =>
    case Lose(_, _) =>
    case Complete(_, _) =>
    case Fail(_, _) =>
    case TakeIn(_, _) =>
    case Leave(_, _) =>
    case Delete(node, key) =>
  }

  lemma FreshGet(c: Config, s: State, coord: Port, key: Key, n: int, chosen: set<Port>, s0: State) returns (q0: Request)
    requires WellFormed(c, s) && Enabled(c, s, BeginGet(coord, key, n, chosen)) && coord in s.stores
    requires s0 == Apply(c, s, BeginGet(coord, key, n, chosen))
    ensures s0.stores == s.stores
    ensures |s0.requests| == |s.requests| + 1 && q0 == s0.requests[|s.requests|]
    ensures q0.collected == [] && q0.pending == chosen && q0.quorum == n && q0.op == Read(Lookup(s.stores[coord], key))
  {
    q0 := s0.requests[|s.requests|];
  }

  // ----- The converse: the step system does nothing the loop would not

  /** What the loop of request `i` met in a run. Leaving without being cancelled is giving
      up, unless the wait was over. */
  function WakesOfRun(steps: seq<Step>, i: nat): seq<Wake>
    decreases |steps|
  {
    if steps == [] then []
    else
      (match steps[0]
       case TakeIn(j, done) => if j == i then [Woken(done)] else []
       case Leave(j, aborted) => if j == i then [if aborted then Cancelled else WaitTimedOut] else []
       case _ => [])
      + WakesOfRun(steps[1..], i)
  }

  /** A task that has finished keeps its result. */
  ghost predicate Settles(q: Request, q': Request) {
    forall p | p in q.tasks && q.tasks[p].Finished? :: p in q'.tasks && q'.tasks[p] == q.tasks[p]
  }

  lemma SettlesSame(q: Request, q': Request, done: seq<Port>)
    requires Settles(q, q') && AllFinished(q.tasks, done)
    ensures Same(q.tasks, q'.tasks, done)
  {
    forall n | 0 <= n < |done| ensures done[n] in q'.tasks && q'.tasks[done[n]] == q.tasks[done[n]] {
      var p := done[n];
      assert p in q.tasks && q.tasks[p].Finished?;
    }
  }

  lemma StepSettles(c: Config, s: State, step: Step, i: nat)
    requires WellFormed(c, s) && Enabled(c, s, step) && i < |s.requests|
    ensures i < |Apply(c, s, step).requests| && Settles(s.requests[i], Apply(c, s, step).requests[i])
  {
    OnlySubjectChanges(c, s, step);
    match step
    case BeginPut(coord, key, value, timestamp, w) =>
    case BeginGet(coord, key, r, chosen) =>
    case Deliver(j, p) =>
    case Lose(j, p) =>
    case Complete(j, p) =>
    case Fail(j, p) =>
    case TakeIn(j, done) =>
    case Leave(j, aborted) =>
    case Delete(node, key) =>
  }

  lemma {:induction false} RunSettles(c: Config, s: State, steps: seq<Step>, i: nat)
    requires Legal(c, s, steps) && i < |s.requests|
    ensures i < |Exec(c, s, steps).requests| && Settles(s.requests[i], Exec(c, s, steps).requests[i])
    decreases |steps|
  {
    if steps != [] {
      StepSettles(c, s, steps[0], i);
      RunSettles(c, Apply(c, s, steps[0]), steps[1..], i);
    }
  }

  lemma StepStaysConcluded(c: Config, s: State, step: Step, i: nat, results: map<Port, Task>, q: Request, exit: Exit)
    requires WellFormed(c, s) && Enabled(c, s, step) && i < |s.requests|
    requires Concluded(results, q, [], exit, s.requests[i])
    ensures i < |Apply(c, s, step).requests| && Concluded(results, q, [], exit, Apply(c, s, step).requests[i])
    ensures !Own(step, i)
  {
    OnlySubjectChanges(c, s, step);
    OthersKeep(c, s, step, i);
    var q1, q2 := s.requests[i], Apply(c, s, step).requests[i];
    if step.Complete? && step.i == i {
      SlotFreed(q, q1, step.peer, q2.tasks[step.peer], q2);
    } else if step.Fail? && step.i == i {
      SlotFreed(q, q1, step.peer, q2.tasks[step.peer], q2);
    } else {
      assert q2.tasks == q1.tasks && q2.background == q1.background;
    }
  }

  lemma SlotFreed(q: Request, q1: Request, p: Port, t: Task, q2: Request)
    requires q2 == SetTask(q1, p, t) && t.Finished?
    requires q1.background == (set n | n in q.pending - Elements<Port>([]) && n in q1.tasks && q1.tasks[n].Running?)
    ensures q2.background == (set n | n in q.pending - Elements<Port>([]) && n in q2.tasks && q2.tasks[n].Running?)
  {
  }

  lemma {:induction false} RunStaysConcluded(c: Config, s: State, steps: seq<Step>, i: nat, results: map<Port, Task>,
                                             q: Request, exit: Exit)
    requires Legal(c, s, steps) && i < |s.requests|
    requires Concluded(results, q, [], exit, s.requests[i])
    ensures i < |Exec(c, s, steps).requests| && Concluded(results, q, [], exit, Exec(c, s, steps).requests[i])
    ensures WakesOfRun(steps, i) == []
    decreases |steps|
  {
    if steps != [] {
      StepStaysConcluded(c, s, steps[0], i, results, q, exit);
      RunStaysConcluded(c, Apply(c, s, steps[0]), steps[1..], i, results, q, exit);
    }
  }

  /** Every run of the cluster in which request `i` gets past its wait does with it exactly
      what the loop computes from the batches it was handed and the results its sends had,
      and still keeps in the background exactly what was handed off and is unfinished. */
  lemma {:induction false} RunIsGather(c: Config, s: State, steps: seq<Step>, i: nat)
    requires Legal(c, s, steps) && i < |s.requests| && s.requests[i].status.Waiting?
    requires i < |Exec(c, s, steps).requests| && !Exec(c, s, steps).requests[i].status.Waiting?
    ensures var q' := Exec(c, s, steps).requests[i];
            LoopsTo(q'.tasks, s.requests[i], WakesOfRun(steps, i), q')
    decreases |steps|
  {
    var q, step, rest := s.requests[i], steps[0], steps[1..];
    var s1, q' := Apply(c, s, step), Exec(c, s, steps).requests[i];
    if step.Leave? && step.i == i {
      LeftFor(c, s, steps, i, q');
    } else if step.TakeIn? && step.i == i {
      RunSettles(c, s, steps, i);
      SettlesSame(q, q', step.done);
      var s2 := TakeBatch(c, s, i, q'.tasks, step.done);
      RunIsGather(c, s1, rest, i);
      assert step.done[0] in Elements(step.done);
      TakeFirst(steps, i, q, s1.requests[i], q');
    } else {
      OthersKeep(c, s, step, i);
      RunIsGather(c, s1, rest, i);
      assert WakesOfRun(steps, i) == [] + WakesOfRun(rest, i) == WakesOfRun(rest, i);
      LoopsAlike(q'.tasks, q, WakesOfRun(rest, i), s1.requests[i], q');
    }
  }

  lemma LeftFor(c: Config, s: State, steps: seq<Step>, i: nat, q': Request)
    requires Legal(c, s, steps) && i < |s.requests| && s.requests[i].status.Waiting?
    requires steps != [] && steps[0].Leave? && steps[0].i == i
    requires i < |Exec(c, s, steps).requests| && q' == Exec(c, s, steps).requests[i]
    ensures LoopsTo(q'.tasks, s.requests[i], WakesOfRun(steps, i), q')
  {
    var q, aborted := s.requests[i], steps[0].aborted;
    var exit := if WaitOver(q) then LoopDone else if aborted then Interrupted else GaveUp;
    var one, s1 := LeaveNow(c, s, i, q'.tasks, exit);
    assert s1 == Apply(c, s, steps[0]);
    RunStaysConcluded(c, s1, steps[1..], i, q'.tasks, q, exit);
    var wake := if aborted then Cancelled else WaitTimedOut;
    assert WakesOfRun(steps, i) == [wake] + [] == [wake];
    LoopStopsAt(q'.tasks, q, wake, q', exit);
  }

  lemma LoopStopsAt(results: map<Port, Task>, q: Request, wake: Wake, q': Request, exit: Exit)
    requires !wake.Woken?
    requires exit == if WaitOver(q) then LoopDone else if wake.Cancelled? then Interrupted else GaveUp
    requires Concluded(results, q, [], exit, q')
    ensures LoopsTo(results, q, [wake], q')
  {
  }

  lemma TakeFirst(steps: seq<Step>, i: nat, q: Request, q1: Request, q': Request)
    requires steps != [] && steps[0].TakeIn? && steps[0].i == i && !WaitOver(q)
    requires var done := steps[0].done;
             && done != [] && NoDuplicates(done) && Elements(done) <= q.pending && AllFinished(q'.tasks, done)
             && q1 == q.(pending := q.pending - Elements(done), collected := q.collected + Counting(q'.tasks, done))
    requires LoopsTo(q'.tasks, q1, WakesOfRun(steps[1..], i), q')
    ensures LoopsTo(q'.tasks, q, WakesOfRun(steps, i), q')
  {
    var wakes := WakesOfRun(steps, i);
    assert wakes == [Woken(steps[0].done)] + WakesOfRun(steps[1..], i);
    assert wakes[1..] == WakesOfRun(steps[1..], i);
    LoopsOn(q'.tasks, q, wakes, q1, q');
  }
}
