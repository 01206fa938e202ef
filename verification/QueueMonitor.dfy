/** The load test running beside the message queue: what a stale read says about the lag
    of the follower that served it. */
module QueueMonitor {
  import opened Versions
  import opened Storage
  import opened Queue
  import opened QueueLag
  import LoadTest

  /** What a follower answered for a key, with the true lag of the key's partition, and the
      offset the process started from there, at the moment it answered. */
  datatype Served = Served(key: Key, follower: nat, entry: Option<VersionedValue>, lag: int, start: nat)

  /** A sampled total lag. Beside it, the true lags added up: as they were when the end
      offsets were read, and each as it was when its partition's committed offset was. */
  datatype Sample = Sample(reported: int, trueAtEnds: int, trueAtCommits: int)

  datatype Activity =
    | Idle
    | Writing(key: Key, value: Value, logged: Option<real>)
    | Reading(key: Key, expected: LoadTest.SourceEntry, follower: nat, served: Option<Served>)
    | Querying(follower: nat)
    | Sampling(follower: nat, ends: seq<nat>, atEnds: seq<int>, atCommits: seq<int>, lags: seq<int>)

  /** `evidence` and `samples` run beside the worker's stale events. */
  datatype Worker = Worker(todo: seq<LoadTest.PlanItem>, tally: LoadTest.Tally, activity: Activity,
                           evidence: seq<Served>, samples: seq<Option<Sample>>)

  datatype QMState = QMState(queue: QState, truth: LoadTest.Truth, counter: nat, workers: seq<Worker>)

  datatype QMStep =
    | Net(step: QStep)
    | Start(x: nat)
    | Publish(x: nat, timestamp: real, nodeId: string)
    | Confirmed(x: nat)
    | Serve(x: nat)
    | Answered(x: nat)
    | GiveUp(x: nat, kind: LoadTest.FailureType)
    | ReadEnds(x: nat)
    | ReadCommitted(x: nat)
    | SampleDone(x: nat)
    | SampleFails(x: nat)

  const PRODUCER_PORT := 8200

  function QMInit(t: Topic, followers: nat, plans: seq<seq<LoadTest.PlanItem>>): QMState {
    QMState(QInit(t, followers), map[], 0,
            seq(|plans|, x requires 0 <= x < |plans| => Worker(plans[x], LoadTest.ZERO, Idle, [], [])))
  }

  function PublishStep(a: Activity, timestamp: real, nodeId: string): QStep
    requires a.Writing?
  {
    Produce(a.key, a.value, timestamp, nodeId)
  }

  function ReplyOf(entry: Option<VersionedValue>): LoadTest.ReadReply {
    if entry.Some? then LoadTest.ReadFound(entry.value.timestamp) else LoadTest.ReadMissing
  }

  /** The true lags of a follower, partition by partition. */
  function TrueLags(s: QState, f: nat): (lags: seq<int>)
    requires f < |s.followers| && |s.followers[f].committed| == |s.logs|
    ensures |lags| == |s.logs| && forall p | 0 <= p < |lags| :: lags[p] == TrueLag(s, s.followers[f], p)
  {
    seq(|s.logs|, p requires 0 <= p < |s.logs| => TrueLag(s, s.followers[f], p))
  }

  ghost predicate Caller(m: QMState, x: nat) { x < |m.workers| }

  ghost predicate QMEnabled(t: Topic, m: QMState, step: QMStep)
    requires Sized(t, m.queue)
  {
    match step
    case Net(inner) => QEnabled(t, m.queue, inner)
    case Start(x) =>
      && Caller(m, x) && m.workers[x].activity.Idle? && m.workers[x].todo != []
      && (m.workers[x].todo[0].isRead ==> m.workers[x].todo[0].target < |m.queue.followers|)
    case Publish(x, ts, id) =>
      && Caller(m, x) && m.workers[x].activity.Writing? && m.workers[x].activity.logged.None?
      && QEnabled(t, m.queue, PublishStep(m.workers[x].activity, ts, id))
    case Confirmed(x) => Caller(m, x) && m.workers[x].activity.Writing? && m.workers[x].activity.logged.Some?
    case Serve(x) =>
      && Caller(m, x) && m.workers[x].activity.Reading? && m.workers[x].activity.served.None?
      && m.workers[x].activity.follower < |m.queue.followers| && t.route(m.workers[x].activity.key) < t.partitions
    case Answered(x) => Caller(m, x) && m.workers[x].activity.Reading? && m.workers[x].activity.served.Some?
    case GiveUp(x, kind) => Caller(m, x) && (m.workers[x].activity.Writing? || m.workers[x].activity.Reading?)
    case ReadEnds(x) =>
      Caller(m, x) && m.workers[x].activity.Querying? && m.workers[x].activity.follower < |m.queue.followers|
    case ReadCommitted(x) =>
      && Caller(m, x) && m.workers[x].activity.Sampling? && m.workers[x].activity.follower < |m.queue.followers|
      && |m.workers[x].activity.lags| < t.partitions == |m.workers[x].activity.ends|
    case SampleDone(x) =>
      && Caller(m, x) && m.workers[x].activity.Sampling? && m.workers[x].activity.follower < |m.queue.followers|
      && |m.workers[x].activity.lags| == t.partitions
    case SampleFails(x) => Caller(m, x) && (m.workers[x].activity.Querying? || m.workers[x].activity.Sampling?)
  }

  function Started(m: QMState, x: nat): QMState
    requires x < |m.workers| && m.workers[x].todo != []
  {
    var item := m.workers[x].todo[0];
    var worker := m.workers[x].(todo := m.workers[x].todo[1..], tally := LoadTest.BeginItem(m.workers[x].tally, item));
    if !item.isRead then
      m.(counter := m.counter + 1, workers := m.workers[x := worker.(activity := Writing(item.key, m.counter, None))])
    else if item.key !in m.truth then m.(workers := m.workers[x := worker])
    else m.(workers := m.workers[x := worker.(activity := Reading(item.key, m.truth[item.key], item.target, None))])
  }

  /** The answer of a read: a stale one is recorded, and the follower's lag is asked for. */
  function Received(w: Worker): Worker
    requires w.activity.Reading? && w.activity.served.Some?
  {
    var a := w.activity;
    var reply := ReplyOf(a.served.value.entry);
    var tally := LoadTest.AfterRead(w.tally, a.key, a.follower, a.expected, reply);
    if LoadTest.OlderThan(reply, a.expected) then
      w.(tally := tally, evidence := w.evidence + [a.served.value], activity := Querying(a.follower))
    else w.(tally := tally, activity := Idle)
  }

  function Abandoned(w: Worker, kind: LoadTest.FailureType): Worker {
    match w.activity
    case Writing(key, value, _) =>
      w.(tally := LoadTest.AfterWrite(w.tally, key, PRODUCER_PORT, LoadTest.WriteFailed(kind)), activity := Idle)
    case Reading(key, expected, f, _) =>
      w.(tally := LoadTest.AfterRead(w.tally, key, f, expected, LoadTest.ReadFailed(kind)), activity := Idle)
    case _ => w
  }

  /** What follower `f` answers for `k` now. */
  function AnswerOf(t: Topic, s: QState, f: nat, k: Key): Served
    requires f < |s.followers| && t.route(k) < |s.logs|
    requires t.route(k) < |s.followers[f].committed| && t.route(k) < |s.followers[f].start|
  {
    var w, p := s.followers[f], t.route(k);
    Served(k, f, Lookup(w.store, k), TrueLag(s, w, p), w.start[p])
  }

  ghost function QMApply(t: Topic, m: QMState, step: QMStep): QMState
    requires Sized(t, m.queue) && QMEnabled(t, m, step)
  {
    match step
    case Net(inner) => m.(queue := QApply(t, m.queue, inner))
    case Start(x) => Started(m, x)
    case Publish(x, ts, id) =>
      var a := m.workers[x].activity;
      m.(queue := QApply(t, m.queue, PublishStep(a, ts, id)),
         workers := m.workers[x := m.workers[x].(activity := Writing(a.key, a.value, Some(ts)))])
    case Confirmed(x) =>
      var a := m.workers[x].activity;
      var reply := LoadTest.WriteOk(true, a.logged.value);
      m.(truth := LoadTest.TruthAfterWrite(m.truth, a.key, a.value, reply),
         workers := m.workers[x := m.workers[x].(
           tally := LoadTest.AfterWrite(m.workers[x].tally, a.key, PRODUCER_PORT, reply), activity := Idle)])
    case Serve(x) =>
      var a := m.workers[x].activity;
      var served := AnswerOf(t, m.queue, a.follower, a.key);
      m.(workers := m.workers[x := m.workers[x].(activity := Reading(a.key, a.expected, a.follower, Some(served)))])
    case Answered(x) => m.(workers := m.workers[x := Received(m.workers[x])])
    case GiveUp(x, kind) => m.(workers := m.workers[x := Abandoned(m.workers[x], kind)])
    case ReadEnds(x) =>
      var f := m.workers[x].activity.follower;
      var ends := seq(t.partitions, p requires 0 <= p < t.partitions => |m.queue.logs[p]|);
      m.(workers := m.workers[x := m.workers[x].(activity := Sampling(f, ends, TrueLags(m.queue, f), [], []))])
    case ReadCommitted(x) =>
      var a := m.workers[x].activity;
      var p := |a.lags|;
      var lag := a.ends[p] - CommittedOffset(m.queue.followers[a.follower], p);
      var actual := TrueLag(m.queue, m.queue.followers[a.follower], p);
      var sampling := Sampling(a.follower, a.ends, a.atEnds, a.atCommits + [actual], a.lags + [lag]);
      m.(workers := m.workers[x := m.workers[x].(activity := sampling)])
    case SampleDone(x) =>
      var a := m.workers[x].activity;
      var sample := Sample(Sum(a.lags), Sum(a.atEnds), Sum(a.atCommits));
      m.(workers := m.workers[x := m.workers[x].(samples := m.workers[x].samples + [Some(sample)], activity := Idle)])
    case SampleFails(x) =>
      m.(workers := m.workers[x := m.workers[x].(samples := m.workers[x].samples + [None], activity := Idle)])
  }

  ghost predicate QMLegal(t: Topic, m: QMState, steps: seq<QMStep>)
    decreases |steps|
  {
    && Sized(t, m.queue)
    && (steps == [] || (QMEnabled(t, m, steps[0]) && QMLegal(t, QMApply(t, m, steps[0]), steps[1..])))
  }

  ghost function QMExec(t: Topic, m: QMState, steps: seq<QMStep>): QMState
    requires QMLegal(t, m, steps)
    decreases |steps|
  {
    if steps == [] then m else QMExec(t, QMApply(t, m, steps[0]), steps[1..])
  }

  // ----- The invariant

  /** A stale answer of a process that began at the start of the log came with lag. */
  ghost predicate Explained(expected: real, served: Served) {
    Outdated(served.entry, expected) && served.start == 0 ==> served.lag >= 1
  }

  ghost predicate SamplingOk(s: QState, f: nat, ends: seq<nat>, atEnds: seq<int>, atCommits: seq<int>, lags: seq<int>) {
    && f < |s.followers| && |ends| == |atEnds| == |s.logs| == |s.followers[f].committed|
    && |atCommits| == |lags| <= |ends|
    && (forall p | 0 <= p < |ends| :: ends[p] <= |s.logs[p]|)
    && (forall p | 0 <= p < |ends| :: ends[p] - atEnds[p] <= CommittedOffset(s.followers[f], p))
    && (forall p | 0 <= p < |lags| :: lags[p] <= atEnds[p] && lags[p] <= atCommits[p])
  }

  ghost predicate ActivityOk(t: Topic, s: QState, a: Activity) {
    match a
    case Idle => true
    case Writing(key, value, logged) => logged.Some? ==> Logged(t, s.logs, key, value, logged.value)
    case Reading(key, expected, f, served) =>
      && f < |s.followers| && Logged(t, s.logs, key, expected.value, expected.timestamp)
      && (served.Some? ==> Explained(expected.timestamp, served.value)
                           && served.value.key == key && served.value.follower == f)
    case Querying(f) => f < |s.followers|
    case Sampling(f, ends, atEnds, atCommits, lags) => SamplingOk(s, f, ends, atEnds, atCommits, lags)
  }

  /** The evidence is about the stale event: its key, the follower it names, and an answer
      older than expected, or none. */
  ghost predicate Accompanies(served: Served, event: LoadTest.StaleEvent) {
    && served.key == event.key && served.follower == event.node
    && Outdated(served.entry, event.expected)
    && event.actual == (if served.entry.Some? then Some(served.entry.value.timestamp) else None)
  }

  ghost predicate RecordsOk(w: Worker) {
    && w.tally.staleReads == |w.tally.staleEvents| == |w.evidence|
    && |w.samples| + (if w.activity.Querying? || w.activity.Sampling? then 1 else 0) == |w.evidence|
    && (forall i | 0 <= i < |w.evidence| ::
          Explained(w.tally.staleEvents[i].expected, w.evidence[i])
              && Accompanies(w.evidence[i], w.tally.staleEvents[i]))
    && (forall i | 0 <= i < |w.samples| :: Conservative(w.samples[i]))
  }

  /** A sample never overstates the lag, at the first reading or at the later ones. */
  ghost predicate Conservative(sample: Option<Sample>) {
    sample.Some? ==>
      sample.value.reported <= sample.value.trueAtEnds && sample.value.reported <= sample.value.trueAtCommits
  }

  ghost predicate QMInv(t: Topic, m: QMState) {
    && QInv(t, m.queue)
    && (forall k | k in m.truth :: Logged(t, m.queue.logs, k, m.truth[k].value, m.truth[k].timestamp))
    && (forall x | 0 <= x < |m.workers| :: ActivityOk(t, m.queue, m.workers[x].activity))
    && (forall x | 0 <= x < |m.workers| :: RecordsOk(m.workers[x]))
  }

  lemma ActivityStays(t: Topic, s: QState, step: QStep, a: Activity)
    requires QInv(t, s) && Sized(t, s) && QEnabled(t, s, step) && ActivityOk(t, s, a)
    ensures ActivityOk(t, QApply(t, s, step), a)
  {
    var s' := QApply(t, s, step);
    QInvStep(t, s, step);
    match a
    case Idle =>
    case Writing(key, value, logged) =>
      if logged.Some? { LoggedStays(t, s.logs, s'.logs, key, value, logged.value); }
    case Reading(key, expected, f, served) => LoggedStays(t, s.logs, s'.logs, key, expected.value, expected.timestamp);
    case Querying(f) =>
    case Sampling(f, ends, atEnds, atCommits, lags) =>
      assert FollowerOk(t, s'.logs, s'.followers[f]);
      forall p | 0 <= p < |ends|
        ensures CommittedOffset(s.followers[f], p) <= CommittedOffset(s'.followers[f], p)
      {
        CommitRises(t, s, step, f, p);
      }
  }

  // ----- One lemma a step

  /** Replacing one worker and leaving the rest as they are. */
  lemma OneWorker(t: Topic, m: QMState, x: nat, w: Worker)
    requires QMInv(t, m) && x < |m.workers|
    requires ActivityOk(t, m.queue, w.activity) && RecordsOk(w)
    ensures QMInv(t, m.(workers := m.workers[x := w]))
  {
  }

  lemma NetKeeps(t: Topic, m: QMState, step: QStep)
    requires QMInv(t, m) && Sized(t, m.queue) && QEnabled(t, m.queue, step)
    ensures QMInv(t, m.(queue := QApply(t, m.queue, step)))
  {
    var s' := QApply(t, m.queue, step);
    QInvStep(t, m.queue, step);
    forall k | k in m.truth ensures Logged(t, s'.logs, k, m.truth[k].value, m.truth[k].timestamp) {
      LoggedStays(t, m.queue.logs, s'.logs, k, m.truth[k].value, m.truth[k].timestamp);
    }
    forall x | 0 <= x < |m.workers| ensures ActivityOk(t, s', m.workers[x].activity) {
      ActivityStays(t, m.queue, step, m.workers[x].activity);
    }
  }

  lemma StartKeeps(t: Topic, m: QMState, x: nat)
    requires QMInv(t, m) && Sized(t, m.queue) && QMEnabled(t, m, Start(x))
    ensures QMInv(t, Started(m, x))
  {
    var item := m.workers[x].todo[0];
    var base := m.(counter := if item.isRead then m.counter else m.counter + 1);
    assert RecordsOk(m.workers[x]);
    OneWorker(t, base, x, Started(m, x).workers[x]);
  }

  lemma PublishKeeps(t: Topic, m: QMState, x: nat, ts: real, id: string)
    requires QMInv(t, m) && Sized(t, m.queue) && QMEnabled(t, m, Publish(x, ts, id))
    ensures QMInv(t, QMApply(t, m, Publish(x, ts, id)))
  {
    var a := m.workers[x].activity;
    var step := PublishStep(a, ts, id);
    var m1 := m.(queue := QApply(t, m.queue, step));
    NetKeeps(t, m, step);
    var p := t.route(a.key);
    assert Carries(m1.queue.logs[p][|m.queue.logs[p]|], a.key, a.value, ts);
    assert RecordsOk(m.workers[x]);
    OneWorker(t, m1, x, m.workers[x].(activity := Writing(a.key, a.value, Some(ts))));
  }

  lemma ConfirmedKeeps(t: Topic, m: QMState, x: nat)
    requires QMInv(t, m) && Sized(t, m.queue) && QMEnabled(t, m, Confirmed(x))
    ensures QMInv(t, QMApply(t, m, Confirmed(x)))
  {
    var a := m.workers[x].activity;
    assert ActivityOk(t, m.queue, a) && RecordsOk(m.workers[x]);
    var m' := QMApply(t, m, Confirmed(x));
    var m1 := m.(truth := m'.truth);
    assert QMInv(t, m1);
    OneWorker(t, m1, x, m'.workers[x]);
  }

  lemma ServeKeeps(t: Topic, m: QMState, x: nat)
    requires QMInv(t, m) && Sized(t, m.queue) && QMEnabled(t, m, Serve(x))
    ensures QMInv(t, QMApply(t, m, Serve(x)))
  {
    var a := m.workers[x].activity;
    assert ActivityOk(t, m.queue, a) && RecordsOk(m.workers[x]);
    var served := QMApply(t, m, Serve(x)).workers[x].activity.served.value;
    StaleMeansLag(t, m.queue, a.follower, a.key, a.expected.value, a.expected.timestamp);
    OneWorker(t, m, x, m.workers[x].(activity := Reading(a.key, a.expected, a.follower, Some(served))));
  }

  /** The heart of it: a message logged before the read, and not yet consumed by a process
      that began at the start of the log, is uncommitted as well. */
  lemma StaleMeansLag(t: Topic, s: QState, f: nat, k: Key, value: Value, ts: real)
    requires QInv(t, s) && f < |s.followers| && Logged(t, s.logs, k, value, ts)
    ensures FollowerOk(t, s.logs, s.followers[f])
    ensures var w, p := s.followers[f], t.route(k);
            Outdated(Lookup(w.store, k), ts) && w.start[p] == 0 ==> TrueLag(s, w, p) >= 1
  {
    OutdatedIff(t, s, f, k, ts);
    var w, p := s.followers[f], t.route(k);
    assert CommitsFollow(w, p);
    var i :| 0 <= i < |s.logs[p]| && Carries(s.logs[p][i], k, value, ts);
    assert FreshEnough(s.logs[p][i], k, ts);
  }

  lemma AnsweredKeeps(t: Topic, m: QMState, x: nat)
    requires QMInv(t, m) && Sized(t, m.queue) && QMEnabled(t, m, Answered(x))
    ensures QMInv(t, QMApply(t, m, Answered(x)))
  {
    var w := m.workers[x];
    assert ActivityOk(t, m.queue, w.activity) && RecordsOk(w);
    ReceivedOk(w);
    OneWorker(t, m, x, Received(w));
  }

  lemma ReceivedOk(w: Worker)
    requires RecordsOk(w) && w.activity.Reading? && w.activity.served.Some?
    requires Explained(w.activity.expected.timestamp, w.activity.served.value)
    requires w.activity.served.value.key == w.activity.key && w.activity.served.value.follower == w.activity.follower
    ensures RecordsOk(Received(w))
  {
    var w' := Received(w);
    forall i | 0 <= i < |w'.evidence|
      ensures Explained(w'.tally.staleEvents[i].expected, w'.evidence[i])
      ensures Accompanies(w'.evidence[i], w'.tally.staleEvents[i])
    {
      if i < |w.evidence| {
        assert w'.evidence[i] == w.evidence[i] && w'.tally.staleEvents[i] == w.tally.staleEvents[i];
      }
    }
  }

  lemma GiveUpKeeps(t: Topic, m: QMState, x: nat, kind: LoadTest.FailureType)
    requires QMInv(t, m) && Sized(t, m.queue) && QMEnabled(t, m, GiveUp(x, kind))
    ensures QMInv(t, QMApply(t, m, GiveUp(x, kind)))
  {
    assert RecordsOk(m.workers[x]);
    OneWorker(t, m, x, Abandoned(m.workers[x], kind));
  }

  lemma ReadEndsKeeps(t: Topic, m: QMState, x: nat)
    requires QMInv(t, m) && Sized(t, m.queue) && QMEnabled(t, m, ReadEnds(x))
    ensures QMInv(t, QMApply(t, m, ReadEnds(x)))
  {
    assert RecordsOk(m.workers[x]);
    OneWorker(t, m, x, QMApply(t, m, ReadEnds(x)).workers[x]);
  }

  lemma ReadCommittedKeeps(t: Topic, m: QMState, x: nat)
    requires QMInv(t, m) && Sized(t, m.queue) && QMEnabled(t, m, ReadCommitted(x))
    ensures QMInv(t, QMApply(t, m, ReadCommitted(x)))
  {
    var w := m.workers[x];
    assert ActivityOk(t, m.queue, w.activity) && RecordsOk(w);
    var a := w.activity;
    var w' := QMApply(t, m, ReadCommitted(x)).workers[x];
    assert SamplingOk(m.queue, a.follower, a.ends, a.atEnds, w'.activity.atCommits, w'.activity.lags);
    OneWorker(t, m, x, w');
  }

  lemma SampleDoneKeeps(t: Topic, m: QMState, x: nat)
    requires QMInv(t, m) && Sized(t, m.queue) && QMEnabled(t, m, SampleDone(x))
    ensures QMInv(t, QMApply(t, m, SampleDone(x)))
  {
    var w := m.workers[x];
    assert ActivityOk(t, m.queue, w.activity) && RecordsOk(w);
    SumAtMost(w.activity.lags, w.activity.atEnds);
    SumAtMost(w.activity.lags, w.activity.atCommits);
    OneWorker(t, m, x, QMApply(t, m, SampleDone(x)).workers[x]);
  }

  lemma SampleFailsKeeps(t: Topic, m: QMState, x: nat)
    requires QMInv(t, m) && Sized(t, m.queue) && QMEnabled(t, m, SampleFails(x))
    ensures QMInv(t, QMApply(t, m, SampleFails(x)))
  {
    var w := m.workers[x];
    assert RecordsOk(w);
    OneWorker(t, m, x, w.(samples := w.samples + [None], activity := Idle));
  }

  lemma QMInvStep(t: Topic, m: QMState, step: QMStep)
    requires QMInv(t, m) && Sized(t, m.queue) && QMEnabled(t, m, step)
    ensures QMInv(t, QMApply(t, m, step))
  {
    match step
    case Net(inner) => NetKeeps(t, m, inner);
    case Start(x) => StartKeeps(t, m, x);
    case Publish(x, ts, id) => PublishKeeps(t, m, x, ts, id);
    case Confirmed(x) => ConfirmedKeeps(t, m, x);
    case Serve(x) => ServeKeeps(t, m, x);
    case Answered(x) => AnsweredKeeps(t, m, x);
    case GiveUp(x, kind) => GiveUpKeeps(t, m, x, kind);
    case ReadEnds(x) => ReadEndsKeeps(t, m, x);
    case ReadCommitted(x) => ReadCommittedKeeps(t, m, x);
    case SampleDone(x) => SampleDoneKeeps(t, m, x);
    case SampleFails(x) => SampleFailsKeeps(t, m, x);
  }

  lemma {:induction false} QMRunKeepsInv(t: Topic, m: QMState, steps: seq<QMStep>)
    requires QMInv(t, m) && QMLegal(t, m, steps)
    ensures QMInv(t, QMExec(t, m, steps))
    decreases |steps|
  {
    if steps != [] {
      QMInvStep(t, m, steps[0]);
      QMRunKeepsInv(t, QMApply(t, m, steps[0]), steps[1..]);
    }
  }

  /** In every run, whatever the workers, producers, followers, commits and restarts do:
      each read counted as stale and served by a process that began at the start of the
      key's partition was served while that partition had true lag at least 1; every stale
      event gets one lag sample (one may be on its way), and no sample overstates the lag
      at either of the moments it was read at. */
  lemma StalenessImpliesLag(t: Topic, followers: nat, plans: seq<seq<LoadTest.PlanItem>>, steps: seq<QMStep>, x: nat)
    requires ValidTopic(t) && QMLegal(t, QMInit(t, followers, plans), steps)
    requires x < |QMExec(t, QMInit(t, followers, plans), steps).workers|
    ensures var w := QMExec(t, QMInit(t, followers, plans), steps).workers[x];
            && w.tally.staleReads == |w.tally.staleEvents| == |w.evidence|
            && (forall i | 0 <= i < |w.evidence| :: Accompanies(w.evidence[i], w.tally.staleEvents[i]))
            && (forall i | 0 <= i < |w.evidence| :: w.evidence[i].start == 0 ==> w.evidence[i].lag >= 1)
            && 0 <= |w.evidence| - |w.samples| <= 1
            && (forall i | 0 <= i < |w.samples| :: Conservative(w.samples[i]))
  {
    var m := QMInit(t, followers, plans);
    QInvInit(t, followers);
    QMRunKeepsInv(t, m, steps);
    var w := QMExec(t, m, steps).workers[x];
    assert RecordsOk(w);
    forall i | 0 <= i < |w.evidence| ensures w.evidence[i].start == 0 ==> w.evidence[i].lag >= 1 {
      assert Explained(w.tally.staleEvents[i].expected, w.evidence[i]);
    }
  }

  // ----- A sample nothing interferes with is exact

  /** Partway through such a sample: the lags read are the true ones. */
  ghost predicate Exact(s: QState, a: Activity) {
    && a.Sampling? && a.follower < |s.followers| && |s.followers[a.follower].committed| == |s.logs|
    && |a.ends| == |s.logs| && (forall p | 0 <= p < |a.ends| :: a.ends[p] == |s.logs[p]|)
    && a.atEnds == TrueLags(s, a.follower) && |a.lags| <= |s.logs|
    && a.lags == a.atCommits == TrueLags(s, a.follower)[..|a.lags|]
  }

  lemma ReadOneExactly(t: Topic, m: QMState, x: nat) returns (m1: QMState)
    requires Sized(t, m.queue) && x < |m.workers| && Exact(m.queue, m.workers[x].activity)
    requires |m.workers[x].activity.lags| < t.partitions
    ensures QMEnabled(t, m, ReadCommitted(x)) && m1 == QMApply(t, m, ReadCommitted(x))
    ensures m1.queue == m.queue && |m1.workers| == |m.workers| && m1.workers[x].samples == m.workers[x].samples
    ensures Exact(m1.queue, m1.workers[x].activity)
    ensures m1.workers[x].activity.follower == m.workers[x].activity.follower
    ensures |m1.workers[x].activity.lags| == |m.workers[x].activity.lags| + 1
  {
    var a := m.workers[x].activity;
    var all, n := TrueLags(m.queue, a.follower), |a.lags|;
    m1 := QMApply(t, m, ReadCommitted(x));
    assert all[..n + 1] == all[..n] + [all[n]];
  }

  lemma {:induction false} FinishExactly(t: Topic, m: QMState, x: nat) returns (steps: seq<QMStep>, m': QMState)
    requires Sized(t, m.queue) && x < |m.workers| && Exact(m.queue, m.workers[x].activity)
    ensures QMLegal(t, m, steps) && m' == QMExec(t, m, steps) && |m'.workers| == |m.workers|
    ensures var total := Sum(TrueLags(m.queue, m.workers[x].activity.follower));
            m'.workers[x].samples == m.workers[x].samples + [Some(Sample(total, total, total))]
    decreases t.partitions - |m.workers[x].activity.lags|
  {
    var a := m.workers[x].activity;
    if |a.lags| == t.partitions {
      var all := TrueLags(m.queue, a.follower);
      assert all[..|all|] == all;
      steps := [SampleDone(x)];
      m' := QMApply(t, m, SampleDone(x));
      assert steps[1..] == [];
    } else {
      var m1 := ReadOneExactly(t, m, x);
      var rest;
      rest, m' := FinishExactly(t, m1, x);
      steps := [ReadCommitted(x)] + rest;
      assert steps[1..] == rest;
    }
  }

  /** Asked for the lag of a follower while nothing else goes on, the endpoint tells the true
      total. */
  lemma UndisturbedSampleIsExact(t: Topic, m: QMState, x: nat) returns (steps: seq<QMStep>, m': QMState)
    requires QMInv(t, m) && x < |m.workers| && m.workers[x].activity.Querying?
    ensures QMLegal(t, m, steps) && m' == QMExec(t, m, steps) && |m'.workers| == |m.workers|
    ensures var f := m.workers[x].activity.follower;
            && f < |m.queue.followers| && |m.queue.followers[f].committed| == |m.queue.logs|
            && var total := Sum(TrueLags(m.queue, f));
               m'.workers[x].samples == m.workers[x].samples + [Some(Sample(total, total, total))]
  {
    InvSized(t, m.queue);
    assert ActivityOk(t, m.queue, m.workers[x].activity);
    var f := m.workers[x].activity.follower;
    var m1 := QMApply(t, m, ReadEnds(x));
    assert TrueLags(m.queue, f)[..0] == [];
    var rest;
    rest, m' := FinishExactly(t, m1, x);
    steps := [ReadEnds(x)] + rest;
    assert steps[1..] == rest;
  }

  // ----- The evidence is what was served

  /** Everything worker `x` was served in a run, each as the follower had it at that moment. */
  ghost function ServedTo(t: Topic, m: QMState, steps: seq<QMStep>, x: nat): seq<Served>
    requires QMLegal(t, m, steps)
    decreases |steps|
  {
    if steps == [] then []
    else
      (if steps[0] == Serve(x) then
         [AnswerOf(t, m.queue, m.workers[x].activity.follower, m.workers[x].activity.key)]
       else [])
      + ServedTo(t, QMApply(t, m, steps[0]), steps[1..], x)
  }

  /** Whatever the worker has on record, or in hand, is in `seen`. */
  ghost predicate OnlySeen(w: Worker, seen: seq<Served>) {
    && (w.activity.Reading? && w.activity.served.Some? ==> w.activity.served.value in seen)
    && (forall i | 0 <= i < |w.evidence| :: w.evidence[i] in seen)
  }

  lemma StepOnlySeen(t: Topic, m: QMState, step: QMStep, x: nat, seen: seq<Served>)
    requires Sized(t, m.queue) && QMEnabled(t, m, step) && x < |m.workers| && OnlySeen(m.workers[x], seen)
    ensures x < |QMApply(t, m, step).workers|
    ensures step != Serve(x) ==> OnlySeen(QMApply(t, m, step).workers[x], seen)
    ensures step == Serve(x) ==>
              OnlySeen(QMApply(t, m, step).workers[x],
                       seen + [AnswerOf(t, m.queue, m.workers[x].activity.follower, m.workers[x].activity.key)])
  {
  }

  lemma {:induction false} RunOnlySeen(t: Topic, m: QMState, steps: seq<QMStep>, x: nat, seen: seq<Served>)
    requires QMLegal(t, m, steps) && x < |m.workers| && OnlySeen(m.workers[x], seen)
    ensures x < |QMExec(t, m, steps).workers|
    ensures OnlySeen(QMExec(t, m, steps).workers[x], seen + ServedTo(t, m, steps, x))
    decreases |steps|
  {
    if steps == [] {
      assert seen + [] == seen;
    } else {
      StepOnlySeen(t, m, steps[0], x, seen);
      var m1, rest := QMApply(t, m, steps[0]), ServedTo(t, QMApply(t, m, steps[0]), steps[1..], x);
      if steps[0] == Serve(x) {
        var answer := AnswerOf(t, m.queue, m.workers[x].activity.follower, m.workers[x].activity.key);
        RunOnlySeen(t, m1, steps[1..], x, seen + [answer]);
        assert (seen + [answer]) + rest == seen + ([answer] + rest);
      } else {
        RunOnlySeen(t, m1, steps[1..], x, seen);
        assert [] + rest == rest;
      }
    }
  }

  /** In every run, each piece of evidence beside a stale event is something the worker was
      served: the follower's entry, true lag and start at the moment it answered. */
  lemma EvidenceIsServed(t: Topic, followers: nat, plans: seq<seq<LoadTest.PlanItem>>, steps: seq<QMStep>, x: nat)
    requires QMLegal(t, QMInit(t, followers, plans), steps) && x < |plans|
    ensures x < |QMExec(t, QMInit(t, followers, plans), steps).workers|
    ensures forall e | e in QMExec(t, QMInit(t, followers, plans), steps).workers[x].evidence ::
              e in ServedTo(t, QMInit(t, followers, plans), steps, x)
  {
    RunOnlySeen(t, QMInit(t, followers, plans), steps, x, []);
    assert [] + ServedTo(t, QMInit(t, followers, plans), steps, x) ==
        ServedTo(t, QMInit(t, followers, plans), steps, x);
  }

  /** In every run each truth entry is a message in the log of its key's partition, with that
      value and timestamp. */
  lemma TruthIsLogged(t: Topic, followers: nat, plans: seq<seq<LoadTest.PlanItem>>, steps: seq<QMStep>, k: Key)
    requires ValidTopic(t) && QMLegal(t, QMInit(t, followers, plans), steps)
    requires k in QMExec(t, QMInit(t, followers, plans), steps).truth
    ensures var m := QMExec(t, QMInit(t, followers, plans), steps);
            Logged(t, m.queue.logs, k, m.truth[k].value, m.truth[k].timestamp)
  {
    QInvInit(t, followers);
    QMRunKeepsInv(t, QMInit(t, followers, plans), steps);
  }

  // ----- Without restarts

  predicate RestartsFollower(step: QMStep) {
    step.Net? && step.step.Restart?
  }

  ghost predicate FromTheStart(s: QState) {
    forall f, p | 0 <= f < |s.followers| && 0 <= p < |s.followers[f].start| :: s.followers[f].start[p] == 0
  }

  ghost predicate ServedFromTheStart(w: Worker) {
    && (w.activity.Reading? && w.activity.served.Some? ==> w.activity.served.value.start == 0)
    && (forall i | 0 <= i < |w.evidence| :: w.evidence[i].start == 0)
  }

  ghost predicate NeverRestarted(m: QMState) {
    FromTheStart(m.queue) && forall x | 0 <= x < |m.workers| :: ServedFromTheStart(m.workers[x])
  }

  lemma QueueStepFromTheStart(t: Topic, s: QState, step: QStep)
    requires Sized(t, s) && QEnabled(t, s, step) && !step.Restart? && FromTheStart(s)
    ensures FromTheStart(QApply(t, s, step))
  {
    var s' := QApply(t, s, step);
    forall f | 0 <= f < |s'.followers| ensures s'.followers[f].start == s.followers[f].start {
    }
  }

  lemma StepNeverRestarts(t: Topic, m: QMState, step: QMStep)
    requires Sized(t, m.queue) && QMEnabled(t, m, step) && !RestartsFollower(step) && NeverRestarted(m)
    ensures NeverRestarted(QMApply(t, m, step))
  {
    if step.Net? {
      QueueStepFromTheStart(t, m.queue, step.step);
    } else {
      if step.Publish? {
        QueueStepFromTheStart(t, m.queue, PublishStep(m.workers[step.x].activity, step.timestamp, step.nodeId));
      }
      assert ServedFromTheStart(m.workers[step.x]);
    }
  }

  lemma {:induction false} RunNeverRestarts(t: Topic, m: QMState, steps: seq<QMStep>)
    requires QMLegal(t, m, steps) && NeverRestarted(m)
    requires forall i | 0 <= i < |steps| :: !RestartsFollower(steps[i])
    ensures NeverRestarted(QMExec(t, m, steps))
    decreases |steps|
  {
    if steps != [] {
      assert !RestartsFollower(steps[0]);
      StepNeverRestarts(t, m, steps[0]);
      RunNeverRestarts(t, QMApply(t, m, steps[0]), steps[1..]);
    }
  }

  /** Unless a follower was restarted, every stale read was served with its partition
      behind. */
  lemma StaleOnlyWhenBehind(t: Topic, followers: nat, plans: seq<seq<LoadTest.PlanItem>>, steps: seq<QMStep>, x: nat)
    requires ValidTopic(t) && QMLegal(t, QMInit(t, followers, plans), steps)
    requires forall i | 0 <= i < |steps| :: !RestartsFollower(steps[i])
    requires x < |QMExec(t, QMInit(t, followers, plans), steps).workers|
    ensures var w := QMExec(t, QMInit(t, followers, plans), steps).workers[x];
            && w.tally.staleReads == |w.tally.staleEvents| == |w.evidence|
            && forall i | 0 <= i < |w.evidence| :: Accompanies(w.evidence[i], w.tally.staleEvents[i])
                && w.evidence[i].lag >= 1
  {
    StalenessImpliesLag(t, followers, plans, steps, x);
    var m := QMInit(t, followers, plans);
    assert forall f | 0 <= f < followers :: m.queue.followers[f] == NewFollower(t.partitions);
    RunNeverRestarts(t, m, steps);
    assert ServedFromTheStart(QMExec(t, QMInit(t, followers, plans), steps).workers[x]);
  }

  // ----- Lag of one message is enough

  ghost predicate Reaches(t: Topic, m0: QMState, steps: seq<QMStep>, m: QMState) {
    QMLegal(t, m0, steps) && m == QMExec(t, m0, steps) && QMInv(t, m)
  }

  lemma {:induction false} ReachesOn(t: Topic, m0: QMState, steps: seq<QMStep>, m: QMState, step: QMStep)
    returns (m': QMState)
    requires Reaches(t, m0, steps, m) && Sized(t, m.queue) && QMEnabled(t, m, step)
    ensures m' == QMApply(t, m, step) && Sized(t, m'.queue)
    ensures Reaches(t, m0, steps + [step], m')
    decreases |steps|
  {
    m' := QMApply(t, m, step);
    QMInvStep(t, m, step);
    InvSized(t, m'.queue);
    if steps == [] {
      assert [step][1..] == [];
    } else {
      assert (steps + [step])[1..] == steps[1..] + [step];
      var m2 := ReachesOn(t, QMApply(t, m0, steps[0]), steps[1..], m, step);
    }
  }

  /** One write, one read of it at one follower. */
  function WriteThenRead(k: Key, target: nat): seq<LoadTest.PlanItem> {
    [LoadTest.PlanItem(false, k, 0), LoadTest.PlanItem(true, k, target)]
  }

  lemma WriteConfirmed(t: Topic, followers: nat, k: Key, target: nat) returns (steps: seq<QMStep>, m: QMState)
    requires ValidTopic(t) && target < followers
    ensures Reaches(t, QMInit(t, followers, [WriteThenRead(k, target)]), steps, m) && Sized(t, m.queue)
    ensures m.queue.followers == QInit(t, followers).followers && |m.queue.logs[t.route(k)]| == 1
    ensures m.truth == map[k := LoadTest.SourceEntry(0, 1.0)] && |m.workers| == 1
    ensures m.workers[0].todo == WriteThenRead(k, target)[1..] && m.workers[0].activity.Idle?
    ensures m.workers[0].evidence == [] && m.workers[0].tally.staleReads == 0
  {
    var m0 := QMInit(t, followers, [WriteThenRead(k, target)]);
    QInvInit(t, followers);
    InvSized(t, m0.queue);
    steps := [];
    var m1 := ReachesOn(t, m0, [], m0, Start(0));
    var m2 := ReachesOn(t, m0, [] + [Start(0)], m1, Publish(0, 1.0, "producer"));
    assert m2.workers[0].activity == Writing(k, 0, Some(1.0));
    m := ReachesOn(t, m0, [] + [Start(0)] + [Publish(0, 1.0, "producer")], m2, Confirmed(0));
    steps := [] + [Start(0)] + [Publish(0, 1.0, "producer")] + [Confirmed(0)];
  }

  /** The bound is met: whatever the topic and however many followers, a read at any of them can be stale
      with its partition exactly one message behind. */
  lemma StaleWithLagOne(t: Topic, followers: nat, k: Key, target: nat) returns (steps: seq<QMStep>, m: QMState)
    requires ValidTopic(t) && target < followers
    ensures QMLegal(t, QMInit(t, followers, [WriteThenRead(k, target)]), steps)
    ensures m == QMExec(t, QMInit(t, followers, [WriteThenRead(k, target)]), steps)
    ensures |m.workers| == 1 && m.workers[0].tally.staleReads == 1
    ensures m.workers[0].evidence == [Served(k, target, None, 1, 0)]
  {
    var m0 := QMInit(t, followers, [WriteThenRead(k, target)]);
    var m1;
    steps, m1 := WriteConfirmed(t, followers, k, target);
    var w := m1.queue.followers[target];
    assert w == NewFollower(t.partitions);
    var m2 := ReachesOn(t, m0, steps, m1, Start(0));
    var m3 := ReachesOn(t, m0, steps + [Start(0)], m2, Serve(0));
    m := ReachesOn(t, m0, steps + [Start(0)] + [Serve(0)], m3, Answered(0));
    steps := steps + [Start(0)] + [Serve(0)] + [Answered(0)];
  }
}
