/** The load tests' books, in runs of the combined systems: however the workers interleave
    and whatever the network does to their requests, the counters stay balanced, and when
    all workers are done their merged statistics account for the whole plan. */
module Accounting {
  import opened LoadTest
  import opened Topology
  import Cluster
  import Monitor
  import LeaderFollower
  import Queue
  import QueueMonitor

  // ----- Against a cluster

  ghost predicate Kept(plan: seq<PlanItem>, w: Monitor.Worker) {
    LoadTest.Midway(w.tally, plan, w.todo, w.activity.Reading?, w.activity.Writing?)
  }

  ghost predicate AllKept(plans: seq<seq<PlanItem>>, workers: seq<Monitor.Worker>) {
    |workers| == |plans| && forall x | 0 <= x < |workers| :: Kept(plans[x], workers[x])
  }

  lemma StartKept(u: Monitor.Setup, m: Monitor.MState, x: nat, plan: seq<PlanItem>)
    requires u.writers != [] && Monitor.MEnabled(u, m, Monitor.Start(x)) && Kept(plan, m.workers[x])
    ensures Kept(plan, Monitor.Started(u, m, x).workers[x])
  {
    MidwayBegins(m.workers[x].tally, plan, m.workers[x].todo);
  }

  lemma SettledKept(m: Monitor.MState, x: nat, written: WriteReply, got: ReadReply, plan: seq<PlanItem>)
    requires x < |m.workers| && Kept(plan, m.workers[x])
    ensures Kept(plan, Monitor.Settled(m, x, written, got).workers[x])
  {
    var w := m.workers[x];
    match w.activity
    case Idle =>
    case Writing(key, value, node, _) => MidwayWrites(w.tally, plan, w.todo, key, node, written);
    case Reading(key, expected, node, _) => MidwayReads(w.tally, plan, w.todo, key, node, expected, got);
  }

  /** A step works on at most one worker's books. */
  lemma OneWorkerMoves(u: Monitor.Setup, m: Monitor.MState, step: Monitor.MStep)
    requires u.writers != [] && Cluster.WellFormed(u.cluster, m.cluster) && Monitor.MEnabled(u, m, step)
    ensures var m' := Monitor.MApply(u, m, step);
            && |m'.workers| == |m.workers|
            && forall y | 0 <= y < |m.workers| && (step.Net? || y != step.x) :: m'.workers[y] == m.workers[y]
  {
  }

  lemma StepKept(u: Monitor.Setup, m: Monitor.MState, step: Monitor.MStep, plans: seq<seq<PlanItem>>)
    requires u.writers != [] && Cluster.WellFormed(u.cluster, m.cluster) && Monitor.MEnabled(u, m, step)
    requires AllKept(plans, m.workers)
    ensures AllKept(plans, Monitor.MApply(u, m, step).workers)
  {
    OneWorkerMoves(u, m, step);
    var m' := Monitor.MApply(u, m, step);
    forall y | 0 <= y < |m'.workers| ensures Kept(plans[y], m'.workers[y]) {
      assert Kept(plans[y], m.workers[y]);
      if !step.Net? && y == step.x {
        MovedKept(u, m, step, plans[y]);
      }
    }
  }

  lemma MovedKept(u: Monitor.Setup, m: Monitor.MState, step: Monitor.MStep, plan: seq<PlanItem>)
    requires u.writers != [] && Cluster.WellFormed(u.cluster, m.cluster) && Monitor.MEnabled(u, m, step)
    requires !step.Net? && Kept(plan, m.workers[step.x])
    ensures step.x < |Monitor.MApply(u, m, step).workers|
    ensures Kept(plan, Monitor.MApply(u, m, step).workers[step.x])
  {
    match step
    case Start(x) => StartKept(u, m, x, plan);
    case IssueWrite(x, timestamp) =>
    case IssueRead(x, chosen) =>
    case Finish(x) =>
      var response := m.cluster.requests[m.workers[x].activity.request.value].status.response;
      SettledKept(m, x, Monitor.WriteReplyOf(response), Monitor.ReadReplyOf(response), plan);
    case GiveUp(x, kind) => SettledKept(m, x, WriteFailed(kind), ReadFailed(kind), plan);
  }

  lemma {:induction false} RunKept(u: Monitor.Setup, m: Monitor.MState, steps: seq<Monitor.MStep>,
                                   plans: seq<seq<PlanItem>>)
    requires Monitor.MLegal(u, m, steps) && AllKept(plans, m.workers)
    ensures AllKept(plans, Monitor.MExec(u, m, steps).workers)
    decreases |steps|
  {
    if steps != [] {
      StepKept(u, m, steps[0], plans);
      RunKept(u, Monitor.MApply(u, m, steps[0]), steps[1..], plans);
    }
  }

  function Tallies(workers: seq<Monitor.Worker>): (tallies: seq<Tally>)
    ensures |tallies| == |workers| && forall x | 0 <= x < |workers| :: tallies[x] == workers[x].tally
  {
    seq(|workers|, x requires 0 <= x < |workers| => workers[x].tally)
  }

  ghost predicate Done(w: Monitor.Worker) {
    w.todo == [] && w.activity.Idle?
  }

  /** The accounting of a whole run against a quorum cluster. */
  lemma ClusterRunAccounting(u: Monitor.Setup, plan: seq<PlanItem>, chunks: seq<seq<PlanItem>>,
                             steps: seq<Monitor.MStep>, start: Tally)
    returns (workers: seq<Monitor.Worker>, t: Tally)
    requires Monitor.MLegal(u, Monitor.MInit(u, chunks), steps) && Flatten(chunks) == plan && AllZero(start)
    requires forall x | 0 <= x < |Monitor.MExec(u, Monitor.MInit(u, chunks), steps).workers| ::
               Done(Monitor.MExec(u, Monitor.MInit(u, chunks), steps).workers[x])
    ensures workers == Monitor.MExec(u, Monitor.MInit(u, chunks), steps).workers
    ensures t == MergeAll(start, Tallies(workers)) && Accounts(t, plan)
    ensures AddsUp(t, Tallies(workers)) && t.staleReads == Monitor.TotalStale(workers)
    ensures t.staleReads <= t.comparableReads && t.comparableReads + t.failedReads <= t.totalReads
    ensures |t.failureCounts| == t.failedReads + t.failedWrites
  {
    var m := Monitor.MInit(u, chunks);
    InitKept(u, chunks);
    RunKept(u, m, steps, chunks);
    workers := Monitor.MExec(u, m, steps).workers;
    DoneAccounts(chunks, workers);
    t := RunAccounting(plan, chunks, Tallies(workers), start);
    StaleAddsUp(workers);
  }

  /** The stale reads of all workers, added up either way. */
  lemma {:induction false} StaleAddsUp(workers: seq<Monitor.Worker>)
    ensures Sum(Column(Tallies(workers), (w: Tally) => w.staleReads)) == Monitor.TotalStale(workers)
    decreases |workers|
  {
    if workers != [] {
      var n := |workers| - 1;
      var column := Column(Tallies(workers), (w: Tally) => w.staleReads);
      assert column[..n] == Column(Tallies(workers[..n]), (w: Tally) => w.staleReads);
      StaleAddsUp(workers[..n]);
      TotalStaleSnoc(workers[..n], workers[n]);
      assert workers == workers[..n] + [workers[n]];
    }
  }

  lemma {:induction false} TotalStaleSnoc(workers: seq<Monitor.Worker>, w: Monitor.Worker)
    ensures Monitor.TotalStale(workers + [w]) == Monitor.TotalStale(workers) + w.tally.staleReads
    decreases |workers|
  {
    if workers == [] {
      assert (workers + [w])[1..] == [];
    } else {
      assert (workers + [w])[1..] == workers[1..] + [w];
      TotalStaleSnoc(workers[1..], w);
    }
  }

  // ----- What is drawn, write by write

  /** The value and coordinator a step draws, if it starts a write. */
  ghost function Drawn(u: Monitor.Setup, m: Monitor.MState, step: Monitor.MStep): seq<(int, Port)>
    requires u.writers != [] && Cluster.WellFormed(u.cluster, m.cluster) && Monitor.MEnabled(u, m, step)
  {
    if step.Start? && !m.workers[step.x].todo[0].isRead then
      var a := Monitor.MApply(u, m, step).workers[step.x].activity;
      if a.Writing? then [(a.value, a.node)] else []
    else []
  }

  ghost function DrawnIn(u: Monitor.Setup, m: Monitor.MState, steps: seq<Monitor.MStep>): seq<(int, Port)>
    requires Monitor.MLegal(u, m, steps)
    decreases |steps|
  {
    if steps == [] then []
    else Drawn(u, m, steps[0]) + DrawnIn(u, Monitor.MApply(u, m, steps[0]), steps[1..])
  }

  function WritesStarted(u: Monitor.Setup, m: Monitor.MState, step: Monitor.MStep): nat
    requires step.Start? ==> step.x < |m.workers| && m.workers[step.x].todo != []
  {
    if step.Start? && !m.workers[step.x].todo[0].isRead then 1 else 0
  }

  lemma DrawnOne(u: Monitor.Setup, m: Monitor.MState, step: Monitor.MStep)
    requires u.writers != [] && Cluster.WellFormed(u.cluster, m.cluster) && Monitor.MEnabled(u, m, step)
    ensures var m', drawn := Monitor.MApply(u, m, step), Drawn(u, m, step);
            && |drawn| == WritesStarted(u, m, step)
            && m'.counter == m.counter + |drawn| && m'.rotation == m.rotation + |drawn|
            && (drawn != [] ==> drawn[0] == (m.counter, Draw(u.writers, m.rotation)))
  {
  }

  /** Whatever the workers' interleaving, the writes of a run draw consecutive values, so no
      two the same, and go round the coordinators in order. */
  lemma {:induction false} DrawsAreConsecutive(u: Monitor.Setup, m: Monitor.MState, steps: seq<Monitor.MStep>)
    requires Monitor.MLegal(u, m, steps)
    ensures Consecutive(DrawnIn(u, m, steps), m.counter, u.writers, m.rotation)
    decreases |steps|
  {
    if steps != [] {
      var m1 := Monitor.MApply(u, m, steps[0]);
      DrawnOne(u, m, steps[0]);
      DrawsAreConsecutive(u, m1, steps[1..]);
      OnePrepended(Drawn(u, m, steps[0]), DrawnIn(u, m1, steps[1..]), m.counter, u.writers, m.rotation);
    }
  }

  ghost predicate Consecutive(drawn: seq<(int, Port)>, counter: nat, writers: seq<Port>, rotation: nat)
    requires writers != []
  {
    forall i: nat | i < |drawn| :: drawn[i] == (counter + i, Draw(writers, rotation + i))
  }

  lemma OnePrepended(head: seq<(int, Port)>, rest: seq<(int, Port)>, counter: nat, writers: seq<Port>, rotation: nat)
    requires writers != [] && |head| <= 1 && Consecutive(rest, counter + |head|, writers, rotation + |head|)
    requires head != [] ==> head[0] == (counter, Draw(writers, rotation))
    ensures Consecutive(head + rest, counter, writers, rotation)
  {
    forall i: nat | i < |head + rest| ensures (head + rest)[i] == (counter + i, Draw(writers, rotation + i)) {
      if i >= |head| {
        var j: nat := i - |head|;
        assert (head + rest)[i] == rest[j];
        assert rotation + |head| + j == rotation + i;
      }
    }
  }

  // ----- What is counted, reply by reply

  /** What a worker was told about one request: `expected` is the truth it had taken down. */
  datatype Outcome = Wrote(written: WriteReply) | Got(expected: SourceEntry, reply: ReadReply)

  datatype Books = Books(comparable: nat, stale: nat, failedReads: nat, failedWrites: nat)

  /** Reads that were answered are compared; of them those missing or too old are stale; the
      others failed, as did the writes that did. */
  function BooksOf(outcomes: seq<Outcome>): Books
    decreases |outcomes|
  {
    if outcomes == [] then Books(0, 0, 0, 0)
    else
      var o, rest := outcomes[0], BooksOf(outcomes[1..]);
      Books(rest.comparable + (if o.Got? && !o.reply.ReadFailed? then 1 else 0),
            rest.stale + (if o.Got? && OlderThan(o.reply, o.expected) then 1 else 0),
            rest.failedReads + (if o.Got? && o.reply.ReadFailed? then 1 else 0),
            rest.failedWrites + (if o.Wrote? && o.written.WriteFailed? then 1 else 0))
  }

  /** The counters moved from `before` to `after` by exactly what the outcomes say. */
  ghost predicate Booked(before: Tally, after: Tally, books: Books) {
    && after.comparableReads == before.comparableReads + books.comparable
    && after.staleReads == before.staleReads + books.stale
    && after.failedReads == before.failedReads + books.failedReads
    && after.failedWrites == before.failedWrites + books.failedWrites
  }

  function OutcomeFor(a: Monitor.Activity, written: WriteReply, got: ReadReply): seq<Outcome> {
    match a
    case Idle => []
    case Writing(_, _, _, _) => [Wrote(written)]
    case Reading(_, expected, _, _) => [Got(expected, got)]
  }

  /** What worker `x` is told by one step. */
  ghost function StepOutcome(u: Monitor.Setup, m: Monitor.MState, step: Monitor.MStep, x: nat): seq<Outcome>
    requires Monitor.MEnabled(u, m, step)
  {
    match step
    case Finish(y) =>
      var response := m.cluster.requests[m.workers[y].activity.request.value].status.response;
      if y == x then OutcomeFor(m.workers[x].activity, Monitor.WriteReplyOf(response), Monitor.ReadReplyOf(response))
      else []
    case GiveUp(y, kind) => if y == x then OutcomeFor(m.workers[x].activity, WriteFailed(kind), ReadFailed(kind))
        else []
    case _ => []
  }

  ghost function OutcomesOf(u: Monitor.Setup, m: Monitor.MState, steps: seq<Monitor.MStep>, x: nat): seq<Outcome>
    requires Monitor.MLegal(u, m, steps)
    decreases |steps|
  {
    if steps == [] then []
    else StepOutcome(u, m, steps[0], x) + OutcomesOf(u, Monitor.MApply(u, m, steps[0]), steps[1..], x)
  }

  lemma SettledBooks(m: Monitor.MState, x: nat, written: WriteReply, got: ReadReply)
    requires x < |m.workers|
    ensures Booked(m.workers[x].tally, Monitor.Settled(m, x, written, got).workers[x].tally,
                   BooksOf(OutcomeFor(m.workers[x].activity, written, got)))
  {
    var outcome := OutcomeFor(m.workers[x].activity, written, got);
    assert outcome != [] ==> outcome[1..] == [];
  }

  lemma StepBooks(u: Monitor.Setup, m: Monitor.MState, step: Monitor.MStep, x: nat)
    requires u.writers != [] && Cluster.WellFormed(u.cluster, m.cluster) && Monitor.MEnabled(u, m, step)
    requires x < |m.workers|
    ensures x < |Monitor.MApply(u, m, step).workers|
    ensures Booked(m.workers[x].tally, Monitor.MApply(u, m, step).workers[x].tally, BooksOf(StepOutcome(u, m, step, x)))
  {
    OneWorkerMoves(u, m, step);
    match step
    case Net(_) =>
    case Start(_) =>
    case IssueWrite(_, _) =>
    case IssueRead(_, _) =>
    case Finish(y) =>
      if y == x {
        var response := m.cluster.requests[m.workers[y].activity.request.value].status.response;
        SettledBooks(m, x, Monitor.WriteReplyOf(response), Monitor.ReadReplyOf(response));
      }
    case GiveUp(y, kind) =>
      if y == x { SettledBooks(m, x, WriteFailed(kind), ReadFailed(kind)); }
  }

  lemma {:induction false} BooksAdd(xs: seq<Outcome>, ys: seq<Outcome>)
    ensures var a, b, both := BooksOf(xs), BooksOf(ys), BooksOf(xs + ys);
            && both.comparable == a.comparable + b.comparable && both.stale == a.stale + b.stale
            && both.failedReads == a.failedReads + b.failedReads && both.failedWrites == a.failedWrites + b.failedWrites
    decreases |xs|
  {
    if xs == [] {
      assert xs + ys == ys;
    } else {
      assert (xs + ys)[0] == xs[0] && (xs + ys)[1..] == xs[1..] + ys;
      BooksAdd(xs[1..], ys);
    }
  }

  /** In every run against a cluster, whatever else happens in it: a worker's comparable
      reads are its answered reads, its stale ones those answered with nothing or something
      older than the truth it had taken down, and its failures those it was told of. */
  lemma {:induction false} ClusterBooks(u: Monitor.Setup, m: Monitor.MState, steps: seq<Monitor.MStep>, x: nat)
    requires Monitor.MLegal(u, m, steps) && x < |m.workers|
    ensures x < |Monitor.MExec(u, m, steps).workers|
    ensures Booked(m.workers[x].tally, Monitor.MExec(u, m, steps).workers[x].tally, BooksOf(OutcomesOf(u, m, steps, x)))
    decreases |steps|
  {
    if steps != [] {
      var m1 := Monitor.MApply(u, m, steps[0]);
      StepBooks(u, m, steps[0], x);
      ClusterBooks(u, m1, steps[1..], x);
      BooksAdd(StepOutcome(u, m, steps[0], x), OutcomesOf(u, m1, steps[1..], x));
    }
  }

  /** The truth entries worker `x` takes down in a run, each as it is when a read starts. */
  ghost function TakenDown(u: Monitor.Setup, m: Monitor.MState, steps: seq<Monitor.MStep>, x: nat): seq<SourceEntry>
    requires Monitor.MLegal(u, m, steps)
    decreases |steps|
  {
    if steps == [] then []
    else
      (if steps[0] == Monitor.Start(x) && m.workers[x].todo[0].isRead && m.workers[x].todo[0].key in m.truth
       then [m.truth[m.workers[x].todo[0].key]] else [])
      + TakenDown(u, Monitor.MApply(u, m, steps[0]), steps[1..], x)
  }

  ghost predicate Expects(a: Monitor.Activity, taken: seq<SourceEntry>) {
    a.Reading? ==> a.expected in taken
  }

  ghost predicate AllExpected(outcomes: seq<Outcome>, taken: seq<SourceEntry>) {
    forall o | o in outcomes && o.Got? :: o.expected in taken
  }

  lemma StepExpects(u: Monitor.Setup, m: Monitor.MState, step: Monitor.MStep, x: nat, taken: seq<SourceEntry>)
    returns (more: seq<SourceEntry>)
    requires u.writers != [] && Cluster.WellFormed(u.cluster, m.cluster) && Monitor.MEnabled(u, m, step)
    requires x < |m.workers| && Expects(m.workers[x].activity, taken)
    ensures more == if step == Monitor.Start(x) && m.workers[x].todo[0].isRead && m.workers[x].todo[0].key in m.truth
                    then [m.truth[m.workers[x].todo[0].key]] else []
    ensures x < |Monitor.MApply(u, m, step).workers|
    ensures Expects(Monitor.MApply(u, m, step).workers[x].activity, taken + more)
    ensures AllExpected(StepOutcome(u, m, step, x), taken)
  {
    more := if step == Monitor.Start(x) && m.workers[x].todo[0].isRead && m.workers[x].todo[0].key in m.truth
            then [m.truth[m.workers[x].todo[0].key]] else [];
    OneWorkerMoves(u, m, step);
    match step
    case Net(_) =>
    case Start(_) =>
    case IssueWrite(_, _) =>
    case IssueRead(_, _) =>
    case Finish(_) =>
    case GiveUp(_, _) =>
  }

  /** In every run, what a read is compared with is the truth as it was when that worker
      started a read. */
  lemma {:induction false} ExpectationsAreTruth(u: Monitor.Setup, m: Monitor.MState, steps: seq<Monitor.MStep>, x: nat,
                                                taken: seq<SourceEntry>)
    requires Monitor.MLegal(u, m, steps) && x < |m.workers| && Expects(m.workers[x].activity, taken)
    ensures AllExpected(OutcomesOf(u, m, steps, x), taken + TakenDown(u, m, steps, x))
    decreases |steps|
  {
    if steps != [] {
      var m1 := Monitor.MApply(u, m, steps[0]);
      var more := StepExpects(u, m, steps[0], x, taken);
      ExpectationsAreTruth(u, m1, steps[1..], x, taken + more);
      Regrouped(taken, more, TakenDown(u, m1, steps[1..], x));
    }
  }

  lemma Regrouped<T>(x: seq<T>, y: seq<T>, z: seq<T>)
    ensures (x + y) + z == x + (y + z)
  {
  }

  lemma LeaderBooks(c: LeaderFollower.LeaderConfig, l: LeaderFollower.LState, steps: seq<LeaderFollower.LStep>, x: nat)
    requires LeaderFollower.LLegal(c, l, steps) && x < |l.m.workers|
    ensures Monitor.MLegal(LeaderFollower.SetupOf(c), l.m, LeaderFollower.Forget(steps))
    ensures x < |LeaderFollower.LExec(c, l, steps).m.workers|
    ensures Booked(l.m.workers[x].tally, LeaderFollower.LExec(c, l, steps).m.workers[x].tally,
                   BooksOf(OutcomesOf(LeaderFollower.SetupOf(c), l.m, LeaderFollower.Forget(steps), x)))
  {
    LeaderFollower.LeaderFollowerRefines(c, l, steps);
    ClusterBooks(LeaderFollower.SetupOf(c), l.m, LeaderFollower.Forget(steps), x);
  }

  lemma InitKept(u: Monitor.Setup, chunks: seq<seq<PlanItem>>)
    ensures AllKept(chunks, Monitor.MInit(u, chunks).workers)
  {
    forall x | 0 <= x < |chunks| ensures Kept(chunks[x], Monitor.MInit(u, chunks).workers[x]) {
      MidwayStarts(ZERO, chunks[x]);
    }
  }

  lemma DoneAccounts(chunks: seq<seq<PlanItem>>, workers: seq<Monitor.Worker>)
    requires AllKept(chunks, workers) && forall x | 0 <= x < |workers| :: Done(workers[x])
    ensures forall x | 0 <= x < |chunks| :: Accounts(Tallies(workers)[x], chunks[x])
  {
    forall x | 0 <= x < |chunks| ensures Accounts(Tallies(workers)[x], chunks[x]) {
      assert Kept(chunks[x], workers[x]) && Done(workers[x]);
      MidwayEnds(workers[x].tally, chunks[x]);
    }
  }

  /** The accounting of a whole leader-follower run, semaphore and all. */
  lemma LeaderRunAccounting(c: LeaderFollower.LeaderConfig, plan: seq<PlanItem>, chunks: seq<seq<PlanItem>>,
                            steps: seq<LeaderFollower.LStep>, start: Tally)
    returns (workers: seq<Monitor.Worker>, t: Tally)
    requires LeaderFollower.LLegal(c, LeaderFollower.LInit(c, chunks), steps) && Flatten(chunks) == plan
             && AllZero(start)
    requires forall x | 0 <= x < |LeaderFollower.LExec(c, LeaderFollower.LInit(c, chunks), steps).m.workers| ::
               Done(LeaderFollower.LExec(c, LeaderFollower.LInit(c, chunks), steps).m.workers[x])
    ensures workers == LeaderFollower.LExec(c, LeaderFollower.LInit(c, chunks), steps).m.workers
    ensures t == MergeAll(start, Tallies(workers)) && Accounts(t, plan)
    ensures AddsUp(t, Tallies(workers)) && t.staleReads == Monitor.TotalStale(workers)
    ensures t.staleReads <= t.comparableReads && t.comparableReads + t.failedReads <= t.totalReads
    ensures |t.failureCounts| == t.failedReads + t.failedWrites
  {
    LeaderFollower.LeaderFollowerRefines(c, LeaderFollower.LInit(c, chunks), steps);
    workers, t := ClusterRunAccounting(LeaderFollower.SetupOf(c), plan, chunks, LeaderFollower.Forget(steps), start);
  }

  // ----- Against the message queue

  ghost predicate QKept(plan: seq<PlanItem>, w: QueueMonitor.Worker) {
    LoadTest.Midway(w.tally, plan, w.todo, w.activity.Reading?, w.activity.Writing?)
  }

  ghost predicate QAllKept(plans: seq<seq<PlanItem>>, workers: seq<QueueMonitor.Worker>) {
    |workers| == |plans| && forall x | 0 <= x < |workers| :: QKept(plans[x], workers[x])
  }

  lemma QStartKept(m: QueueMonitor.QMState, x: nat, plan: seq<PlanItem>)
    requires x < |m.workers| && m.workers[x].todo != [] && m.workers[x].activity.Idle? && QKept(plan, m.workers[x])
    ensures QKept(plan, QueueMonitor.Started(m, x).workers[x])
  {
    MidwayBegins(m.workers[x].tally, plan, m.workers[x].todo);
  }

  lemma QReceivedKept(w: QueueMonitor.Worker, plan: seq<PlanItem>)
    requires w.activity.Reading? && w.activity.served.Some? && QKept(plan, w)
    ensures QKept(plan, QueueMonitor.Received(w))
  {
    var a := w.activity;
    MidwayReads(w.tally, plan, w.todo, a.key, a.follower, a.expected, QueueMonitor.ReplyOf(a.served.value.entry));
  }

  lemma QAbandonedKept(w: QueueMonitor.Worker, kind: FailureType, plan: seq<PlanItem>)
    requires QKept(plan, w)
    ensures QKept(plan, QueueMonitor.Abandoned(w, kind))
  {
    match w.activity
    case Writing(key, value, _) => MidwayWrites(w.tally, plan, w.todo, key, QueueMonitor.PRODUCER_PORT,
                                                WriteFailed(kind));
    case Reading(key, expected, f, _) => MidwayReads(w.tally, plan, w.todo, key, f, expected, ReadFailed(kind));
    case _ =>
  }

  lemma QConfirmedKept(w: QueueMonitor.Worker, plan: seq<PlanItem>)
    requires w.activity.Writing? && w.activity.logged.Some? && QKept(plan, w)
    ensures var reply := WriteOk(true, w.activity.logged.value);
            LoadTest.Midway(AfterWrite(w.tally, w.activity.key, QueueMonitor.PRODUCER_PORT, reply), plan, w.todo,
                            false, false)
  {
    MidwayWrites(w.tally, plan, w.todo, w.activity.key, QueueMonitor.PRODUCER_PORT,
                 WriteOk(true, w.activity.logged.value));
  }

  lemma QOneWorkerMoves(t: Queue.Topic, m: QueueMonitor.QMState, step: QueueMonitor.QMStep)
    requires Queue.Sized(t, m.queue) && QueueMonitor.QMEnabled(t, m, step)
    ensures var m' := QueueMonitor.QMApply(t, m, step);
            && |m'.workers| == |m.workers|
            && forall y | 0 <= y < |m.workers| && (step.Net? || y != step.x) :: m'.workers[y] == m.workers[y]
  {
  }

  lemma QStepKept(t: Queue.Topic, m: QueueMonitor.QMState, step: QueueMonitor.QMStep, plans: seq<seq<PlanItem>>)
    requires Queue.Sized(t, m.queue) && QueueMonitor.QMEnabled(t, m, step) && QAllKept(plans, m.workers)
    ensures QAllKept(plans, QueueMonitor.QMApply(t, m, step).workers)
  {
    QOneWorkerMoves(t, m, step);
    var m' := QueueMonitor.QMApply(t, m, step);
    forall y | 0 <= y < |m'.workers| ensures QKept(plans[y], m'.workers[y]) {
      assert QKept(plans[y], m.workers[y]);
      if !step.Net? && y == step.x {
        QMovedKept(t, m, step, plans[y]);
      }
    }
  }

  lemma QMovedKept(t: Queue.Topic, m: QueueMonitor.QMState, step: QueueMonitor.QMStep, plan: seq<PlanItem>)
    requires Queue.Sized(t, m.queue) && QueueMonitor.QMEnabled(t, m, step) && !step.Net?
             && QKept(plan, m.workers[step.x])
    ensures step.x < |QueueMonitor.QMApply(t, m, step).workers|
            && QKept(plan, QueueMonitor.QMApply(t, m, step).workers[step.x])
  {
    match step
    case Start(x) => QStartKept(m, x, plan);
    case Confirmed(x) => QConfirmedKept(m.workers[x], plan);
    case Answered(x) => QReceivedKept(m.workers[x], plan);
    case GiveUp(x, kind) => QAbandonedKept(m.workers[x], kind, plan);
    case _ =>
  }

  lemma {:induction false} QRunKept(t: Queue.Topic, m: QueueMonitor.QMState, steps: seq<QueueMonitor.QMStep>,
                                    plans: seq<seq<PlanItem>>)
    requires QueueMonitor.QMLegal(t, m, steps) && QAllKept(plans, m.workers)
    ensures QAllKept(plans, QueueMonitor.QMExec(t, m, steps).workers)
    decreases |steps|
  {
    if steps != [] {
      QStepKept(t, m, steps[0], plans);
      QRunKept(t, QueueMonitor.QMApply(t, m, steps[0]), steps[1..], plans);
    }
  }

  function QTallies(workers: seq<QueueMonitor.Worker>): (tallies: seq<Tally>)
    ensures |tallies| == |workers| && forall x | 0 <= x < |workers| :: tallies[x] == workers[x].tally
  {
    seq(|workers|, x requires 0 <= x < |workers| => workers[x].tally)
  }

  ghost predicate QDone(w: QueueMonitor.Worker) {
    w.todo == [] && w.activity.Idle?
  }

  /** The accounting of a whole run against the queue. */
  lemma QueueRunAccounting(topic: Queue.Topic, followers: nat, plan: seq<PlanItem>, chunks: seq<seq<PlanItem>>,
                           steps: seq<QueueMonitor.QMStep>, start: Tally)
    returns (workers: seq<QueueMonitor.Worker>, t: Tally)
    requires QueueMonitor.QMLegal(topic, QueueMonitor.QMInit(topic, followers, chunks), steps)
             && Flatten(chunks) == plan && AllZero(start)
    requires forall x | 0 <= x < |QueueMonitor.QMExec(topic, QueueMonitor.QMInit(topic, followers, chunks),
                                                      steps).workers| ::
               QDone(QueueMonitor.QMExec(topic, QueueMonitor.QMInit(topic, followers, chunks), steps).workers[x])
    ensures workers == QueueMonitor.QMExec(topic, QueueMonitor.QMInit(topic, followers, chunks), steps).workers
    ensures t == MergeAll(start, QTallies(workers)) && Accounts(t, plan) && AddsUp(t, QTallies(workers))
    ensures t.staleReads <= t.comparableReads && t.comparableReads + t.failedReads <= t.totalReads
    ensures |t.failureCounts| == t.failedReads + t.failedWrites
  {
    var m := QueueMonitor.QMInit(topic, followers, chunks);
    QInitKept(topic, followers, chunks);
    QRunKept(topic, m, steps, chunks);
    workers := QueueMonitor.QMExec(topic, m, steps).workers;
    QDoneAccounts(chunks, workers);
    t := RunAccounting(plan, chunks, QTallies(workers), start);
  }

  lemma QInitKept(topic: Queue.Topic, followers: nat, chunks: seq<seq<PlanItem>>)
    ensures QAllKept(chunks, QueueMonitor.QMInit(topic, followers, chunks).workers)
  {
    forall x | 0 <= x < |chunks| ensures QKept(chunks[x], QueueMonitor.QMInit(topic, followers, chunks).workers[x]) {
      MidwayStarts(ZERO, chunks[x]);
    }
  }

  lemma QDoneAccounts(chunks: seq<seq<PlanItem>>, workers: seq<QueueMonitor.Worker>)
    requires QAllKept(chunks, workers) && forall x | 0 <= x < |workers| :: QDone(workers[x])
    ensures forall x | 0 <= x < |chunks| :: Accounts(QTallies(workers)[x], chunks[x])
  {
    forall x | 0 <= x < |chunks| ensures Accounts(QTallies(workers)[x], chunks[x]) {
      assert QKept(chunks[x], workers[x]) && QDone(workers[x]);
      MidwayEnds(workers[x].tally, chunks[x]);
    }
  }

  function QOutcomeFor(a: QueueMonitor.Activity, written: WriteReply, got: ReadReply): seq<Outcome> {
    match a
    case Writing(_, _, _) => [Wrote(written)]
    case Reading(_, expected, _, _) => [Got(expected, got)]
    case _ => []
  }

  /** What worker `x` is told by one step. */
  ghost function QStepOutcome(t: Queue.Topic, m: QueueMonitor.QMState, step: QueueMonitor.QMStep, x: nat): seq<Outcome>
    requires Queue.Sized(t, m.queue) && QueueMonitor.QMEnabled(t, m, step)
  {
    match step
    case Confirmed(y) => if y == x then [Wrote(WriteOk(true, m.workers[x].activity.logged.value))] else []
    case Answered(y) =>
      if y == x then
        [Got(m.workers[x].activity.expected, QueueMonitor.ReplyOf(m.workers[x].activity.served.value.entry))]
      else []
    case GiveUp(y, kind) => if y == x then QOutcomeFor(m.workers[x].activity, WriteFailed(kind), ReadFailed(kind))
        else []
    case _ => []
  }

  ghost function QOutcomesOf(t: Queue.Topic, m: QueueMonitor.QMState, steps: seq<QueueMonitor.QMStep>,
                             x: nat): seq<Outcome>
    requires QueueMonitor.QMLegal(t, m, steps)
    decreases |steps|
  {
    if steps == [] then []
    else QStepOutcome(t, m, steps[0], x) + QOutcomesOf(t, QueueMonitor.QMApply(t, m, steps[0]), steps[1..], x)
  }

  lemma QStepBooks(t: Queue.Topic, m: QueueMonitor.QMState, step: QueueMonitor.QMStep, x: nat)
    requires Queue.Sized(t, m.queue) && QueueMonitor.QMEnabled(t, m, step) && x < |m.workers|
    ensures x < |QueueMonitor.QMApply(t, m, step).workers|
    ensures Booked(m.workers[x].tally, QueueMonitor.QMApply(t, m, step).workers[x].tally,
                   BooksOf(QStepOutcome(t, m, step, x)))
  {
    QOneWorkerMoves(t, m, step);
    var outcome := QStepOutcome(t, m, step, x);
    assert outcome != [] ==> outcome[1..] == [];
  }

  /** The same of every run against the queue. */
  lemma {:induction false} QueueBooks(t: Queue.Topic, m: QueueMonitor.QMState, steps: seq<QueueMonitor.QMStep>, x: nat)
    requires QueueMonitor.QMLegal(t, m, steps) && x < |m.workers|
    ensures x < |QueueMonitor.QMExec(t, m, steps).workers|
    ensures Booked(m.workers[x].tally, QueueMonitor.QMExec(t, m, steps).workers[x].tally,
                   BooksOf(QOutcomesOf(t, m, steps, x)))
    decreases |steps|
  {
    if steps != [] {
      var m1 := QueueMonitor.QMApply(t, m, steps[0]);
      QStepBooks(t, m, steps[0], x);
      QueueBooks(t, m1, steps[1..], x);
      BooksAdd(QStepOutcome(t, m, steps[0], x), QOutcomesOf(t, m1, steps[1..], x));
    }
  }

  /** The value a step draws, if it starts a write. */
  ghost function QDrawn(t: Queue.Topic, m: QueueMonitor.QMState, step: QueueMonitor.QMStep): seq<int>
    requires Queue.Sized(t, m.queue) && QueueMonitor.QMEnabled(t, m, step)
  {
    if step.Start? && !m.workers[step.x].todo[0].isRead then
      var a := QueueMonitor.QMApply(t, m, step).workers[step.x].activity;
      if a.Writing? then [a.value] else []
    else []
  }

  ghost function QDrawnIn(t: Queue.Topic, m: QueueMonitor.QMState, steps: seq<QueueMonitor.QMStep>): seq<int>
    requires QueueMonitor.QMLegal(t, m, steps)
    decreases |steps|
  {
    if steps == [] then []
    else QDrawn(t, m, steps[0]) + QDrawnIn(t, QueueMonitor.QMApply(t, m, steps[0]), steps[1..])
  }

  lemma QDrawnOne(t: Queue.Topic, m: QueueMonitor.QMState, step: QueueMonitor.QMStep)
    requires Queue.Sized(t, m.queue) && QueueMonitor.QMEnabled(t, m, step)
    ensures var m', drawn := QueueMonitor.QMApply(t, m, step), QDrawn(t, m, step);
            && |drawn| == (if step.Start? && !m.workers[step.x].todo[0].isRead then 1 else 0)
            && m'.counter == m.counter + |drawn| && (drawn != [] ==> drawn == [m.counter])
  {
  }

  /** So do the writes of a run against the queue. */
  lemma {:induction false} QDrawsAreConsecutive(t: Queue.Topic, m: QueueMonitor.QMState,
                                                steps: seq<QueueMonitor.QMStep>)
    requires QueueMonitor.QMLegal(t, m, steps)
    ensures Counted(QDrawnIn(t, m, steps), m.counter)
    decreases |steps|
  {
    if steps != [] {
      var m1 := QueueMonitor.QMApply(t, m, steps[0]);
      QDrawnOne(t, m, steps[0]);
      QDrawsAreConsecutive(t, m1, steps[1..]);
      OneCounted(QDrawn(t, m, steps[0]), QDrawnIn(t, m1, steps[1..]), m.counter);
    }
  }

  ghost predicate Counted(drawn: seq<int>, counter: nat) {
    forall i: nat | i < |drawn| :: drawn[i] == counter + i
  }

  lemma OneCounted(head: seq<int>, rest: seq<int>, counter: nat)
    requires |head| <= 1 && Counted(rest, counter + |head|) && (head != [] ==> head == [counter])
    ensures Counted(head + rest, counter)
  {
    forall i: nat | i < |head + rest| ensures (head + rest)[i] == counter + i {
      if i >= |head| {
        var j: nat := i - |head|;
        assert (head + rest)[i] == rest[j];
      }
    }
  }

  /** The truth entries worker `x` takes down in a run against the queue. */
  ghost function QTakenDown(t: Queue.Topic, m: QueueMonitor.QMState, steps: seq<QueueMonitor.QMStep>,
                            x: nat): seq<SourceEntry>
    requires QueueMonitor.QMLegal(t, m, steps)
    decreases |steps|
  {
    if steps == [] then []
    else
      (if steps[0] == QueueMonitor.Start(x) && m.workers[x].todo[0].isRead && m.workers[x].todo[0].key in m.truth
       then [m.truth[m.workers[x].todo[0].key]] else [])
      + QTakenDown(t, QueueMonitor.QMApply(t, m, steps[0]), steps[1..], x)
  }

  ghost predicate QExpects(a: QueueMonitor.Activity, taken: seq<SourceEntry>) {
    a.Reading? ==> a.expected in taken
  }

  lemma QStepExpects(t: Queue.Topic, m: QueueMonitor.QMState, step: QueueMonitor.QMStep, x: nat,
                     taken: seq<SourceEntry>)
    returns (more: seq<SourceEntry>)
    requires Queue.Sized(t, m.queue) && QueueMonitor.QMEnabled(t, m, step)
    requires x < |m.workers| && QExpects(m.workers[x].activity, taken)
    ensures more ==
            if step == QueueMonitor.Start(x) && m.workers[x].todo[0].isRead && m.workers[x].todo[0].key in m.truth
            then [m.truth[m.workers[x].todo[0].key]] else []
    ensures x < |QueueMonitor.QMApply(t, m, step).workers|
    ensures QExpects(QueueMonitor.QMApply(t, m, step).workers[x].activity, taken + more)
    ensures AllExpected(QStepOutcome(t, m, step, x), taken)
  {
    more := if step == QueueMonitor.Start(x) && m.workers[x].todo[0].isRead && m.workers[x].todo[0].key in m.truth
            then [m.truth[m.workers[x].todo[0].key]] else [];
    QOneWorkerMoves(t, m, step);
  }

  /** The same of every run against the queue. */
  lemma {:induction false} QExpectationsAreTruth(t: Queue.Topic, m: QueueMonitor.QMState,
                                                 steps: seq<QueueMonitor.QMStep>, x: nat,
                                                 taken: seq<SourceEntry>)
    requires QueueMonitor.QMLegal(t, m, steps) && x < |m.workers| && QExpects(m.workers[x].activity, taken)
    ensures AllExpected(QOutcomesOf(t, m, steps, x), taken + QTakenDown(t, m, steps, x))
    decreases |steps|
  {
    if steps != [] {
      var m1 := QueueMonitor.QMApply(t, m, steps[0]);
      var more := QStepExpects(t, m, steps[0], x, taken);
      QExpectationsAreTruth(t, m1, steps[1..], x, taken + more);
      Regrouped(taken, more, QTakenDown(t, m1, steps[1..], x));
    }
  }
}
