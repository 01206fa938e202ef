/** The follower process and the producer, as the code that runs: the consume loop over a
    store, the lag computation, and the publishing of one write. */
module QueueFollower {
  import opened Versions
  import opened Storage
  import opened Queue
  import opened QueueLag

  /** One message as the consumer hands it over. */
  datatype Message = Message(partition: nat, offset: nat, value: Record)

  /** The consumer's side of the broker: where each partition was last committed. */
  class Consumer {
    var committed: map<nat, nat>

    constructor ()
      ensures committed == map[]
    {
      committed := map[];
    }

    method Commit(partition: nat, offset: nat)
      modifies this
      ensures committed == old(committed)[partition := offset]
    {
      committed := committed[partition := offset];
    }
  }

  /** A malformed message is dropped; a well-formed one is put, and may lose. */
  method ApplyMessage(raw: Record, storage: KVStore) returns (result: Option<bool>)
    modifies storage
    ensures storage.data == ApplyRecord(old(storage.data), raw)
    ensures result == if raw.Malformed? then None else Some(Accepts(old(storage.data), raw.key, raw.version))
  {
    match raw
    case Malformed => return None;
    case Entry(key, version) =>
      var applied := storage.Put(key, version.value, version.timestamp, version.nodeId);
      return Some(applied);
  }

  function Replayed(store: Store, messages: seq<Message>): Store
    decreases |messages|
  {
    if messages == [] then store else Replayed(ApplyRecord(store, messages[0].value), messages[1..])
  }

  function CommittedThrough(committed: map<nat, nat>, messages: seq<Message>): map<nat, nat>
    decreases |messages|
  {
    if messages == [] then committed
    else CommittedThrough(committed[messages[0].partition := messages[0].offset + 1], messages[1..])
  }

  /** How many messages the loop commits, if the commit of message `commitFails` raises. */
  function CommittedCount(messages: seq<Message>, commitFails: Option<nat>): nat {
    if commitFails.Some? && commitFails.value < |messages| then commitFails.value else |messages|
  }

  /** How many it applies: one more, if a commit raises. */
  function AppliedCount(messages: seq<Message>, commitFails: Option<nat>): nat {
    if CommittedCount(messages, commitFails) < |messages| then CommittedCount(messages, commitFails) + 1 else |messages|
  }

  /** Message by message: apply, then commit. `commitFails` is the message, if any, whose
      commit raises; that ends the loop with the message applied and not committed. */
  method ConsumeLoop(messages: seq<Message>, commitFails: Option<nat>, storage: KVStore, consumer: Consumer)
    modifies storage, consumer
    ensures storage.data == Replayed(old(storage.data), messages[..AppliedCount(messages, commitFails)])
    ensures consumer.committed ==
            CommittedThrough(old(consumer.committed), messages[..CommittedCount(messages, commitFails)])
  {
    var i := 0;
    while i < |messages|
      invariant 0 <= i <= |messages|
      invariant commitFails.Some? ==> i <= commitFails.value
      invariant storage.data == Replayed(old(storage.data), messages[..i])
      invariant consumer.committed == CommittedThrough(old(consumer.committed), messages[..i])
    {
      var message := messages[i];
      assert messages[..i + 1] == messages[..i] + [message];
      ReplayedSnoc(old(storage.data), old(consumer.committed), messages[..i], message);
      var result := ApplyMessage(message.value, storage);
      if commitFails == Some(i) {
        return;
      }
      consumer.Commit(message.partition, message.offset + 1);
      i := i + 1;
    }
    assert messages[..|messages|] == messages;
  }

  lemma {:induction false} ReplayedSnoc(store: Store, committed: map<nat, nat>, messages: seq<Message>, m: Message)
    ensures Replayed(store, messages + [m]) == ApplyRecord(Replayed(store, messages), m.value)
    ensures CommittedThrough(committed, messages + [m]) ==
            CommittedThrough(committed, messages)[m.partition := m.offset + 1]
    decreases |messages|
  {
    if messages == [] {
      assert (messages + [m])[1..] == [];
    } else {
      assert (messages + [m])[1..] == messages[1..] + [m];
      ReplayedSnoc(ApplyRecord(store, messages[0].value), committed[messages[0].partition := messages[0].offset + 1],
                   messages[1..], m);
    }
  }

  // ----- The loop as a run of the step system

  /** What a broker hands one consumer: for each partition, consecutive messages of its log
      from the consumer's position on; partitions interleave freely. */
  ghost predicate Fetched(logs: seq<seq<Record>>, position: seq<nat>, messages: seq<Message>)
    decreases |messages|
  {
    messages == [] ||
    (var m := messages[0];
     && m.partition < |logs| && m.partition < |position|
     && m.offset == position[m.partition] && m.offset < |logs[m.partition]| && m.value == logs[m.partition][m.offset]
     && Fetched(logs, position[m.partition := m.offset + 1], messages[1..]))
  }

  function Sooner(commitFails: Option<nat>): Option<nat> {
    if commitFails.Some? && commitFails.value > 0 then Some(commitFails.value - 1) else commitFails
  }

  function LoopSteps(f: nat, messages: seq<Message>, commitFails: Option<nat>): seq<QStep>
    decreases |messages|
  {
    if messages == [] then []
    else if commitFails == Some(0) then [ApplyNext(f, messages[0].partition), CommitFails(f)]
    else [ApplyNext(f, messages[0].partition), Commit(f)] + LoopSteps(f, messages[1..], Sooner(commitFails))
  }

  ghost predicate SameCommits(committed: map<nat, nat>, w: Follower) {
    forall p | 0 <= p < |w.committed| :: w.committed[p] == if p in committed then Some(committed[p]) else None
  }

  lemma HandleOne(t: Topic, s: QState, f: nat, m: Message, committed: map<nat, nat>) returns (s': QState)
    requires QInv(t, s) && f < |s.followers| && s.followers[f].phase.Fetching?
    requires FollowerOk(t, s.logs, s.followers[f]) && SameCommits(committed, s.followers[f])
    requires m.partition < |s.logs| && m.offset == s.followers[f].position[m.partition]
    requires m.offset < |s.logs[m.partition]| && m.value == s.logs[m.partition][m.offset]
    ensures Sized(t, s) && QEnabled(t, s, ApplyNext(f, m.partition))
    ensures var s1 := QApply(t, s, ApplyNext(f, m.partition));
            Sized(t, s1) && QEnabled(t, s1, Commit(f)) && s' == QApply(t, s1, Commit(f))
    ensures QInv(t, s') && s'.logs == s.logs && |s'.followers| == |s.followers|
    ensures s'.followers[f].phase.Fetching? && s'.followers[f].store == ApplyRecord(s.followers[f].store, m.value)
    ensures s'.followers[f].position == s.followers[f].position[m.partition := m.offset + 1]
    ensures SameCommits(committed[m.partition := m.offset + 1], s'.followers[f])
  {
    InvSized(t, s);
    var s1 := QApply(t, s, ApplyNext(f, m.partition));
    QInvStep(t, s, ApplyNext(f, m.partition));
    InvSized(t, s1);
    s' := QApply(t, s1, Commit(f));
    QInvStep(t, s1, Commit(f));
  }

  lemma TwoSteps(t: Topic, s: QState, a: QStep, b: QStep, rest: seq<QStep>)
    requires Sized(t, s) && QEnabled(t, s, a)
    requires Sized(t, QApply(t, s, a)) && QEnabled(t, QApply(t, s, a), b)
    requires QLegal(t, QApply(t, QApply(t, s, a), b), rest)
    ensures QLegal(t, s, [a, b] + rest)
    ensures QExec(t, s, [a, b] + rest) == QExec(t, QApply(t, QApply(t, s, a), b), rest)
  {
    var steps := [a, b] + rest;
    assert steps[1..] == [b] + rest && steps[1..][1..] == rest;
    assert steps[1..][0] == b;
    assert QLegal(t, QApply(t, s, a), steps[1..]);
  }

  /** The message whose commit raises: applied, not committed, and the loop is over. */
  lemma FailOne(t: Topic, s: QState, f: nat, m: Message, committed: map<nat, nat>) returns (s': QState)
    requires QInv(t, s) && f < |s.followers| && s.followers[f].phase.Fetching?
    requires FollowerOk(t, s.logs, s.followers[f]) && SameCommits(committed, s.followers[f])
    requires m.partition < |s.logs| && m.offset == s.followers[f].position[m.partition]
    requires m.offset < |s.logs[m.partition]| && m.value == s.logs[m.partition][m.offset]
    ensures QLegal(t, s, [ApplyNext(f, m.partition), CommitFails(f)])
    ensures s' == QExec(t, s, [ApplyNext(f, m.partition), CommitFails(f)])
    ensures QInv(t, s') && s'.logs == s.logs && |s'.followers| == |s.followers|
    ensures s'.followers[f].phase == Stopped(m.partition)
    ensures s'.followers[f].store == ApplyRecord(s.followers[f].store, m.value)
    ensures SameCommits(committed, s'.followers[f])
  {
    InvSized(t, s);
    var s1 := QApply(t, s, ApplyNext(f, m.partition));
    QInvStep(t, s, ApplyNext(f, m.partition));
    InvSized(t, s1);
    s' := QApply(t, s1, CommitFails(f));
    QInvStep(t, s1, CommitFails(f));
    InvSized(t, s');
    TwoSteps(t, s, ApplyNext(f, m.partition), CommitFails(f), []);
    assert [ApplyNext(f, m.partition), CommitFails(f)] + [] == [ApplyNext(f, m.partition), CommitFails(f)];
  }

  /** The loop after its first message, in terms of the loop after the rest. */
  lemma FirstHandled(store: Store, committed: map<nat, nat>, messages: seq<Message>, commitFails: Option<nat>)
    requires messages != [] && commitFails != Some(0)
    ensures var m, rest, later := messages[0], messages[1..], Sooner(commitFails);
            && Replayed(store, messages[..AppliedCount(messages, commitFails)])
               == Replayed(ApplyRecord(store, m.value), rest[..AppliedCount(rest, later)])
            && CommittedThrough(committed, messages[..CommittedCount(messages, commitFails)])
               == CommittedThrough(committed[m.partition := m.offset + 1], rest[..CommittedCount(rest, later)])
            && (AppliedCount(messages, commitFails) > CommittedCount(messages, commitFails)
                <==> AppliedCount(rest, later) > CommittedCount(rest, later))
  {
    var rest, later := messages[1..], Sooner(commitFails);
    assert messages[..AppliedCount(messages, commitFails)][1..] == rest[..AppliedCount(rest, later)];
    assert messages[..CommittedCount(messages, commitFails)][1..] == rest[..CommittedCount(rest, later)];
  }

  /** How the step system has the follower when the loop is done: the store and the commits
      are the loop's, and it is fetching on, or stopped at the message whose commit raised. */
  ghost predicate EndsAs(store: Store, committed: map<nat, nat>, messages: seq<Message>, commitFails: Option<nat>,
                         w': Follower) {
    var applied, done := AppliedCount(messages, commitFails), CommittedCount(messages, commitFails);
    && w'.store == Replayed(store, messages[..applied])
    && SameCommits(CommittedThrough(committed, messages[..done]), w')
    && w'.phase == (if applied > done then Stopped(messages[done].partition) else Fetching)
  }

  lemma EndsAsFirst(store: Store, committed: map<nat, nat>, messages: seq<Message>, commitFails: Option<nat>,
                    w': Follower)
    requires messages != [] && commitFails != Some(0)
    requires var m := messages[0];
             EndsAs(ApplyRecord(store, m.value), committed[m.partition := m.offset + 1], messages[1..],
                    Sooner(commitFails), w')
    ensures EndsAs(store, committed, messages, commitFails, w')
  {
    FirstHandled(store, committed, messages, commitFails);
  }

  lemma EndsAsFailed(store: Store, committed: map<nat, nat>, messages: seq<Message>, w': Follower)
    requires messages != [] && w'.store == ApplyRecord(store, messages[0].value)
    requires SameCommits(committed, w') && w'.phase == Stopped(messages[0].partition)
    ensures EndsAs(store, committed, messages, Some(0), w')
  {
    assert messages[..1][1..] == [];
    assert messages[..0] == [];
  }

  /** What the loop leaves in the store and in the broker, whether or not a commit raises, is
      what the step system has after the corresponding run; so everything proved of reachable
      followers holds of it. */
  lemma {:induction false} LoopIsRun(t: Topic, s: QState, f: nat, messages: seq<Message>, commitFails: Option<nat>,
                                     committed: map<nat, nat>)
    returns (s': QState)
    requires QInv(t, s) && f < |s.followers| && s.followers[f].phase.Fetching?
    requires Fetched(s.logs, s.followers[f].position, messages) && SameCommits(committed, s.followers[f])
    ensures QLegal(t, s, LoopSteps(f, messages, commitFails)) && s' == QExec(t, s, LoopSteps(f, messages, commitFails))
    ensures QInv(t, s') && s'.logs == s.logs && f < |s'.followers|
    ensures EndsAs(s.followers[f].store, committed, messages, commitFails, s'.followers[f])
    decreases |messages|
  {
    InvSized(t, s);
    if messages == [] {
      s' := s;
    } else if commitFails == Some(0) {
      var m := messages[0];
      assert FollowerOk(t, s.logs, s.followers[f]);
      s' := FailOne(t, s, f, m, committed);
      EndsAsFailed(s.followers[f].store, committed, messages, s'.followers[f]);
    } else {
      var m := messages[0];
      assert FollowerOk(t, s.logs, s.followers[f]);
      var s1 := HandleOne(t, s, f, m, committed);
      s' := LoopIsRun(t, s1, f, messages[1..], Sooner(commitFails), committed[m.partition := m.offset + 1]);
      TwoSteps(t, s, ApplyNext(f, m.partition), Commit(f), LoopSteps(f, messages[1..], Sooner(commitFails)));
      EndsAsFirst(s.followers[f].store, committed, messages, commitFails, s'.followers[f]);
    }
  }

  // ----- Lag

  datatype PartitionLag = PartitionLag(partition: nat, endOffset: nat, committedOffset: Option<nat>, lag: int)

  predicate Ascending(ps: seq<nat>) {
    forall i, j | 0 <= i < j < |ps| :: ps[i] < ps[j]
  }

  lemma LeastExists(s: set<nat>) returns (least: nat)
    requires s != {}
    ensures least in s && forall p | p in s :: least <= p
  {
    var first: nat :| first in s;
    least := first;
    var rest := s - {first};
    if rest != {} {
      var other := LeastExists(rest);
      if other < first { least := other; }
    }
    forall p | p in s ensures least <= p {
      assert p == first || p in rest;
    }
  }

  method Sorted(s: set<nat>) returns (ps: seq<nat>)
    ensures Ascending(ps) && (forall p :: p in ps <==> p in s)
  {
    ps := [];
    var left := s;
    while left != {}
      invariant left <= s && Ascending(ps)
      invariant forall p :: p in ps <==> p in s && p !in left
      invariant forall p, q | p in ps && q in left :: p < q
      decreases |left|
    {
      ghost var least := LeastExists(left);
      var p :| p in left && forall q | q in left :: p <= q;
      assert forall i | 0 <= i < |ps| :: ps[i] in ps;
      ps := ps + [p];
      left := left - {p};
    }
  }

  function LagOf(p: nat, endOffset: nat, committed: Option<nat>): PartitionLag {
    PartitionLag(p, endOffset, committed, endOffset - (if committed.Some? then committed.value else 0))
  }

  /** One entry a partition assigned, in order, each computed from that partition's numbers. */
  ghost predicate LagsFrom(assignment: set<nat>, endOffsets: map<nat, nat>, committedLater: map<nat, Option<nat>>,
                           result: seq<PartitionLag>)
    requires assignment <= endOffsets.Keys && assignment <= committedLater.Keys
  {
    && (forall p :: p in assignment <==> exists i :: 0 <= i < |result| && result[i].partition == p)
    && (forall i, j | 0 <= i < j < |result| :: result[i].partition < result[j].partition)
    && (forall i | 0 <= i < |result| :: result[i].partition in assignment
          && result[i] == LagOf(result[i].partition, endOffsets[result[i].partition],
                                committedLater[result[i].partition]))
  }

  /** End offsets are read once; each committed offset is read afterwards, in turn. One
      entry a partition, in order; nothing assigned gives no entries at all. */
  method ComputeLag(assignment: set<nat>, endOffsets: map<nat, nat>, committedLater: map<nat, Option<nat>>)
    returns (result: seq<PartitionLag>)
    requires assignment <= endOffsets.Keys && assignment <= committedLater.Keys
    ensures LagsFrom(assignment, endOffsets, committedLater, result)
  {
    result := [];
    if assignment == {} {
      return;
    }
    var order := Sorted(assignment);
    var i := 0;
    while i < |order|
      invariant 0 <= i <= |order| && |result| == i
      invariant forall j | 0 <= j < i ::
                  order[j] in assignment && result[j] == LagOf(order[j], endOffsets[order[j]], committedLater[order[j]])
    {
      var p := order[i];
      assert p in order;
      var committed := committedLater[p];
      var lag: int := endOffsets[p];
      if committed.Some? {
        lag := lag - committed.value;
      }
      result := result + [PartitionLag(p, endOffsets[p], committed, lag)];
      i := i + 1;
    }
    forall p ensures p in assignment <==> exists i :: 0 <= i < |result| && result[i].partition == p {
      if p in assignment {
        assert p in order;
        var i :| 0 <= i < |order| && order[i] == p;
        assert result[i].partition == p;
      }
    }
  }

  function LagsOf(result: seq<PartitionLag>): seq<int> {
    seq(|result|, i requires 0 <= i < |result| => result[i].lag)
  }

  datatype LagAnswer = NotStarted | Lag(totalLag: int, partitions: seq<PartitionLag>)

  /** Before a consumer exists the answer is an error, not a zero. */
  method GetLag(started: bool, assignment: set<nat>, endOffsets: map<nat, nat>, committedLater: map<nat, Option<nat>>)
    returns (answer: LagAnswer)
    requires assignment <= endOffsets.Keys && assignment <= committedLater.Keys
    ensures answer.NotStarted? <==> !started
    ensures answer.Lag? ==> LagsFrom(assignment, endOffsets, committedLater, answer.partitions)
    ensures answer.Lag? ==> answer.totalLag == Sum(LagsOf(answer.partitions))
    ensures answer.Lag? && assignment == {} ==> answer.totalLag == 0
  {
    if !started {
      return NotStarted;
    }
    var partitions := ComputeLag(assignment, endOffsets, committedLater);
    var total := 0;
    var i := 0;
    while i < |partitions|
      invariant 0 <= i <= |partitions| && total == Sum(LagsOf(partitions)[..i])
    {
      assert LagsOf(partitions)[..i + 1] == LagsOf(partitions)[..i] + [partitions[i].lag];
      total := total + partitions[i].lag;
      i := i + 1;
    }
    assert LagsOf(partitions)[..|partitions|] == LagsOf(partitions);
    assert partitions != [] ==> partitions[0].partition in assignment;
    return Lag(total, partitions);
  }

  lemma {:induction false} AscendingIsIdentity(ps: seq<nat>, n: nat)
    requires Ascending(ps) && forall p: nat :: p in ps <==> p < n
    ensures |ps| == n && forall i | 0 <= i < n :: ps[i] == i
    decreases |ps|
  {
    if ps == [] {
      assert n > 0 ==> n - 1 in ps;
    } else {
      var last := |ps| - 1;
      assert ps[last] in ps;
      assert n - 1 in ps;
      var at :| 0 <= at < |ps| && ps[at] == n - 1;
      assert at == last;
      var init := ps[..last];
      forall p: nat ensures p in init <==> p < n - 1 {
        if p < n - 1 {
          assert p in ps;
          var i :| 0 <= i < |ps| && ps[i] == p;
          assert init[i] == p;
        }
        if p in init {
          var i :| 0 <= i < |init| && init[i] == p;
          assert ps[i] in ps;
        }
      }
      AscendingIsIdentity(init, n - 1);
    }
  }

  /** The offsets the endpoint reads of follower `f`: end offsets in `s`, then the committed
      offset of each partition `p` in `readings[p]`. */
  ghost predicate OffsetsRead(t: Topic, s: QState, f: nat, readings: seq<QState>, endOffsets: map<nat, nat>,
                              committedLater: map<nat, Option<nat>>) {
    && |s.logs| == |readings| == t.partitions
    && forall p: nat | p < t.partitions ::
         && p in endOffsets && p in committedLater && endOffsets[p] == |s.logs[p]|
         && f < |readings[p].followers| && p < |readings[p].followers[f].committed|
         && committedLater[p] == readings[p].followers[f].committed[p]
  }

  /** The consumer is assigned the whole topic, as the only one of its group. */
  ghost predicate WholeTopic(t: Topic, assignment: set<nat>) {
    forall p: nat :: p in assignment <==> p < t.partitions
  }

  /** What the endpoint computes from such offsets is a lag report, so its lags and their
      total mean exactly what lag reports mean. */
  lemma ComputedIsLagReport(t: Topic, s: QState, f: nat, readings: seq<QState>, runs: seq<seq<QStep>>,
                            assignment: set<nat>, endOffsets: map<nat, nat>, committedLater: map<nat, Option<nat>>,
                            result: seq<PartitionLag>)
    requires QInv(t, s) && f < |s.followers| && |runs| == t.partitions
    requires OffsetsRead(t, s, f, readings, endOffsets, committedLater)
    requires forall p | 0 <= p < t.partitions :: QLegal(t, s, runs[p]) && readings[p] == QExec(t, s, runs[p])
    requires WholeTopic(t, assignment) && assignment <= endOffsets.Keys && assignment <= committedLater.Keys
    requires LagsFrom(assignment, endOffsets, committedLater, result)
    ensures LagReport(t, s, f, readings, runs, LagsOf(result))
    ensures (forall p | 0 <= p < t.partitions :: LagsOf(result)[p] <= 0)
            <==> (forall p | 0 <= p < t.partitions :: HandledSince(s, readings[p], f, p))
    ensures Sum(LagsOf(result)) == 0 ==>
              ((forall p | 0 <= p < t.partitions :: HandledSince(s, readings[p], f, p))
               <==> (forall p | 0 <= p < t.partitions :: LagsOf(result)[p] >= 0))
  {
    var ps := PartitionsOf(result);
    forall p: nat ensures p in ps <==> p < t.partitions {
      if p in assignment {
        var i :| 0 <= i < |result| && result[i].partition == p;
        assert ps[i] == p;
      }
    }
    AscendingIsIdentity(ps, t.partitions);
    forall p | 0 <= p < t.partitions ensures LagsOf(result)[p] == ReportedLag(s, readings[p], f, p) {
      assert ps[p] == p;
      assert result[p].partition == p;
    }
    LagReportMeaning(t, s, f, readings, runs, LagsOf(result));
  }

  function PartitionsOf(result: seq<PartitionLag>): (ps: seq<nat>)
    ensures |ps| == |result| && forall i | 0 <= i < |ps| :: ps[i] == result[i].partition
  {
    seq(|result|, i requires 0 <= i < |result| => result[i].partition)
  }

  // ----- The producer

  /** What became of one publish: a `KafkaError` says nothing about whether the message
      got into the log. */
  datatype Publish = Acknowledged | LoggedUnacknowledged | Refused

  datatype ProducerAnswer = Confirmed(applied: bool, timestamp: real) | Unconfirmed

  class Broker {
    const topic: Topic
    var logs: seq<seq<Record>>

    constructor (topic: Topic)
      ensures this.topic == topic && logs == seq(topic.partitions, p requires 0 <= p < topic.partitions => [])
    {
      this.topic := topic;
      logs := seq(topic.partitions, p requires 0 <= p < topic.partitions => []);
    }

    ghost predicate Valid()
      reads this
    {
      ValidTopic(topic) && |logs| == topic.partitions
    }

    /** A write is answered as applied only if it is logged, at the end of its key's
        partition, under the stamp the answer carries; an error may or may not have
        logged it. No other partition changes and nothing logged moves. */
    method PutKey(key: Key, value: Value, timestamp: real, nodeId: string, outcome: Publish)
      returns (answer: ProducerAnswer)
      requires Valid()
      modifies this
      ensures Valid()
      ensures var p := topic.route(key);
              logs == if outcome.Refused? then old(logs)
                      else old(logs)[p := old(logs)[p] + [BuildMessage(key, value, timestamp, nodeId)]]
      ensures answer == if outcome.Acknowledged? then Confirmed(true, timestamp) else Unconfirmed
      ensures answer.Confirmed? ==> Logged(topic, logs, key, value, answer.timestamp)
      ensures LogsGrow(old(logs), logs)
    {
      var message := BuildMessage(key, value, timestamp, nodeId);
      var p := topic.route(key);
      AppendGrows(logs, p, message);
      SameLogs(logs);
      if outcome.Refused? {
        return Unconfirmed;
      }
      logs := logs[p := logs[p] + [message]];
      assert Carries(logs[p][|logs[p]| - 1], key, value, timestamp);
      if outcome.LoggedUnacknowledged? {
        return Unconfirmed;
      }
      return Confirmed(true, timestamp);
    }
  }

  /** The follower reads back exactly the write the producer stamped. */
  function BuildMessage(key: Key, value: Value, timestamp: real, nodeId: string): (message: Record)
    ensures forall store: Store ::
            ApplyRecord(store, message) == PutStore(store, key, VersionedValue(value, timestamp, nodeId))
  {
    Entry(key, VersionedValue(value, timestamp, nodeId))
  }
}
