/** The message-queue strategy: a partitioned log, followers that apply a message and then
    commit its offset, and the lag they report. */
module Queue {
  import opened Versions
  import opened Storage

  /** A log entry either parses as a versioned write or does not. */
  datatype Record = Entry(key: Key, version: VersionedValue) | Malformed

  /** Keys are hashed to partitions; `route` stands for that fixed choice. */
  datatype Topic = Topic(partitions: nat, route: Key -> nat)

  ghost predicate ValidTopic(t: Topic) {
    t.partitions > 0 && forall k :: t.route(k) < t.partitions
  }

  /** What the consume loop is in the middle of. */
  datatype Phase = Fetching | Applied(partition: nat) | Stopped(partition: nat)

  /** One follower process. `start` is where this process began in each partition. */
  datatype Follower = Follower(start: seq<nat>, position: seq<nat>, committed: seq<Option<nat>>, store: Store,
                               phase: Phase)

  datatype QState = QState(logs: seq<seq<Record>>, followers: seq<Follower>)

  datatype QStep =
    | Produce(key: Key, value: Value, timestamp: real, nodeId: string)
    | Garbage(partition: nat)
    | ApplyNext(f: nat, partition: nat)
    | Commit(f: nat)
    | CommitFails(f: nat)
    | Restart(f: nat)

  function CommittedOffset(w: Follower, p: nat): nat
    requires p < |w.committed|
  {
    if w.committed[p].Some? then w.committed[p].value else 0
  }

  function NewFollower(partitions: nat): Follower {
    Follower(seq(partitions, p requires 0 <= p < partitions => 0), seq(partitions, p requires 0 <= p < partitions => 0),
             seq(partitions, p requires 0 <= p < partitions => None), map[], Fetching)
  }

  function QInit(t: Topic, followers: nat): QState {
    QState(seq(t.partitions, p requires 0 <= p < t.partitions => []),
           seq(followers, f requires 0 <= f < followers => NewFollower(t.partitions)))
  }

  function ApplyRecord(store: Store, record: Record): Store {
    match record
    case Entry(k, v) => PutStore(store, k, v)
    case Malformed => store
  }

  ghost predicate Sized(t: Topic, s: QState) {
    && |s.logs| == t.partitions
    && forall f | 0 <= f < |s.followers| ::
         |s.followers[f].start| == |s.followers[f].position| == |s.followers[f].committed| == t.partitions
  }

  ghost predicate QEnabled(t: Topic, s: QState, step: QStep) {
    match step
    case Produce(key, value, timestamp, nodeId) => t.route(key) < t.partitions
    case Garbage(p) => p < t.partitions
    case ApplyNext(f, p) =>
      && f < |s.followers| && p < t.partitions && s.followers[f].phase.Fetching?
      && p < |s.followers[f].position| && p < |s.logs| && s.followers[f].position[p] < |s.logs[p]|
    case Commit(f) => f < |s.followers| && s.followers[f].phase.Applied?
        && s.followers[f].phase.partition < t.partitions
    case CommitFails(f) => f < |s.followers| && s.followers[f].phase.Applied?
    case Restart(f) => f < |s.followers|
  }

  /** A new process of the same follower: an empty store, and consumption resumes at the
      committed offsets, or at the beginning where nothing was ever committed. */
  function Restarted(w: Follower): Follower {
    var from := seq(|w.committed|, p requires 0 <= p < |w.committed| => CommittedOffset(w, p));
    Follower(from, from, w.committed, map[], Fetching)
  }

  ghost function QApply(t: Topic, s: QState, step: QStep): QState
    requires Sized(t, s) && QEnabled(t, s, step)
  {
    match step
    case Produce(key, value, timestamp, nodeId) =>
      var p := t.route(key);
      s.(logs := s.logs[p := s.logs[p] + [Entry(key, VersionedValue(value, timestamp, nodeId))]])
    case Garbage(p) => s.(logs := s.logs[p := s.logs[p] + [Malformed]])
    case ApplyNext(f, p) =>
      var w := s.followers[f];
      s.(followers := s.followers[f := w.(
           store := ApplyRecord(w.store, s.logs[p][w.position[p]]),
           position := w.position[p := w.position[p] + 1],
           phase := Applied(p))])
    case Commit(f) =>
      var w := s.followers[f];
      s.(followers := s.followers[f := w.(
           committed := w.committed[w.phase.partition := Some(w.position[w.phase.partition])],
           phase := Fetching)])
    case CommitFails(f) =>
      s.(followers := s.followers[f := s.followers[f].(phase := Stopped(s.followers[f].phase.partition))])
    case Restart(f) => s.(followers := s.followers[f := Restarted(s.followers[f])])
  }

  ghost predicate QLegal(t: Topic, s: QState, steps: seq<QStep>)
    decreases |steps|
  {
    && Sized(t, s)
    && (steps == [] || (QEnabled(t, s, steps[0]) && QLegal(t, QApply(t, s, steps[0]), steps[1..])))
  }

  ghost function QExec(t: Topic, s: QState, steps: seq<QStep>): QState
    requires QLegal(t, s, steps)
    decreases |steps|
  {
    if steps == [] then s else QExec(t, QApply(t, s, steps[0]), steps[1..])
  }

  // ----- The invariant

  /** The well-formed writes of `k` in a stretch of log, in log order. */
  function WritesOf(records: seq<Record>, k: Key): seq<VersionedValue>
    decreases |records|
  {
    if records == [] then []
    else
      var last := records[|records| - 1];
      WritesOf(records[..|records| - 1], k) + (if last.Entry? && last.key == k then [last.version] else [])
  }

  lemma {:induction false} WritesOfContains(records: seq<Record>, k: Key, i: nat)
    requires i < |records| && records[i].Entry? && records[i].key == k
    ensures records[i].version in WritesOf(records, k)
    decreases |records|
  {
    if i < |records| - 1 {
      WritesOfContains(records[..|records| - 1], k, i);
    }
  }

  ghost predicate Routed(t: Topic, log: seq<Record>, p: nat) {
    forall i | 0 <= i < |log| && log[i].Entry? :: t.route(log[i].key) == p
  }

  /** Messages applied but not committed: at most the one the loop is on. */
  ghost predicate CommitsFollow(w: Follower, p: nat)
    requires p < |w.position| == |w.committed|
  {
    w.position[p] == CommittedOffset(w, p) + (if !w.phase.Fetching? && w.phase.partition == p then 1 else 0)
  }

  ghost predicate PositionsOk(logs: seq<seq<Record>>, w: Follower) {
    && |w.start| == |w.position| == |w.committed| == |logs|
    && (!w.phase.Fetching? ==> w.phase.partition < |logs|)
    && (forall p | 0 <= p < |logs| :: w.start[p] <= w.position[p] <= |logs[p]|)
    && (forall p | 0 <= p < |logs| :: CommitsFollow(w, p))
  }

  /** Per key, the store is the LWW fold of that key's writes from where the process
      started to where it has got to, and nothing else. */
  ghost predicate StoreIsFold(t: Topic, logs: seq<seq<Record>>, w: Follower)
    requires PositionsOk(logs, w) && |logs| == t.partitions && ValidTopic(t)
  {
    forall k :: Lookup(w.store, k) == Join(WritesOf(Consumed(t, logs, w, k), k))
  }

  ghost function Consumed(t: Topic, logs: seq<seq<Record>>, w: Follower, k: Key): seq<Record>
    requires PositionsOk(logs, w) && |logs| == t.partitions && ValidTopic(t)
  {
    var p := t.route(k);
    logs[p][w.start[p]..w.position[p]]
  }

  ghost predicate FollowerOk(t: Topic, logs: seq<seq<Record>>, w: Follower) {
    ValidTopic(t) && |logs| == t.partitions && PositionsOk(logs, w) && StoreIsFold(t, logs, w)
  }

  ghost predicate QInv(t: Topic, s: QState) {
    && ValidTopic(t) && |s.logs| == t.partitions
    && (forall p | 0 <= p < |s.logs| :: Routed(t, s.logs[p], p))
    && (forall f | 0 <= f < |s.followers| :: FollowerOk(t, s.logs, s.followers[f]))
  }

  lemma InvSized(t: Topic, s: QState)
    requires QInv(t, s)
    ensures Sized(t, s)
  {
    forall f | 0 <= f < |s.followers|
      ensures |s.followers[f].start| == |s.followers[f].position| == |s.followers[f].committed| == t.partitions
    {
      assert FollowerOk(t, s.logs, s.followers[f]);
    }
  }

  ghost predicate LogsGrow(logs: seq<seq<Record>>, later: seq<seq<Record>>) {
    && |logs| == |later|
    && forall p | 0 <= p < |logs| :: |logs[p]| <= |later[p]| && later[p][..|logs[p]|] == logs[p]
  }

  lemma GrowthKeepsFollower(t: Topic, logs: seq<seq<Record>>, later: seq<seq<Record>>, w: Follower)
    requires FollowerOk(t, logs, w) && LogsGrow(logs, later)
    ensures FollowerOk(t, later, w)
  {
    forall k ensures Consumed(t, later, w, k) == Consumed(t, logs, w, k) {
      var p := t.route(k);
      assert later[p][..|logs[p]|] == logs[p];
      assert later[p][w.start[p]..w.position[p]] == logs[p][w.start[p]..w.position[p]];
    }
  }

  lemma AppendGrows(logs: seq<seq<Record>>, p: nat, r: Record)
    requires p < |logs|
    ensures LogsGrow(logs, logs[p := logs[p] + [r]])
  {
    assert (logs[p] + [r])[..|logs[p]|] == logs[p];
    forall q | 0 <= q < |logs| && q != p ensures logs[q][..|logs[q]|] == logs[q] {
    }
  }

  /** Applying the next message of `p` extends the fold of every key by exactly it. */
  lemma ApplyKeepsFollower(t: Topic, logs: seq<seq<Record>>, w: Follower, p: nat)
    requires FollowerOk(t, logs, w) && p < |logs| && Routed(t, logs[p], p)
    requires w.phase.Fetching? && w.position[p] < |logs[p]|
    ensures FollowerOk(t, logs, w.(store := ApplyRecord(w.store, logs[p][w.position[p]]),
                                   position := w.position[p := w.position[p] + 1], phase := Applied(p)))
  {
    var r := logs[p][w.position[p]];
    var w' := w.(store := ApplyRecord(w.store, r), position := w.position[p := w.position[p] + 1], phase := Applied(p));
    forall q | 0 <= q < |logs| ensures CommitsFollow(w', q) {
      assert CommitsFollow(w, q);
    }
    assert PositionsOk(logs, w');
    forall k ensures Lookup(w'.store, k) == Join(WritesOf(Consumed(t, logs, w', k), k)) {
      assert Lookup(w.store, k) == Join(WritesOf(Consumed(t, logs, w, k), k));
      if t.route(k) == p {
        assert Consumed(t, logs, w', k) == Consumed(t, logs, w, k) + [r];
        ExtendFold(w.store, Consumed(t, logs, w, k), r, k);
      } else {
        assert Consumed(t, logs, w', k) == Consumed(t, logs, w, k);
        if r.Entry? { PutRaises(w.store, r.key, r.version); }
      }
    }
  }

  lemma ExtendFold(store: Store, records: seq<Record>, r: Record, k: Key)
    requires Lookup(store, k) == Join(WritesOf(records, k))
    ensures Lookup(ApplyRecord(store, r), k) == Join(WritesOf(records + [r], k))
  {
    var all := records + [r];
    assert all[..|all| - 1] == records && all[|all| - 1] == r;
    var before := WritesOf(records, k);
    assert WritesOf(all, k) == before + (if r.Entry? && r.key == k then [r.version] else []);
    if r.Entry? && r.key == k {
      PutRaises(store, r.key, r.version);
      JoinAppendOne(before, r.version);
    } else {
      assert before + [] == before;
      if r.Entry? { PutRaises(store, r.key, r.version); }
    }
  }

  lemma RestartKeepsFollower(t: Topic, logs: seq<seq<Record>>, w: Follower)
    requires FollowerOk(t, logs, w)
    ensures FollowerOk(t, logs, Restarted(w))
  {
    var w' := Restarted(w);
    forall p | 0 <= p < |logs| ensures CommitsFollow(w', p) && w'.start[p] <= w'.position[p] <= |logs[p]| {
      assert CommitsFollow(w, p);
    }
    forall k ensures Lookup(w'.store, k) == Join(WritesOf(Consumed(t, logs, w', k), k)) {
      assert Consumed(t, logs, w', k) == [];
    }
  }

  lemma CommitKeepsFollower(t: Topic, logs: seq<seq<Record>>, w: Follower)
    requires FollowerOk(t, logs, w) && w.phase.Applied?
    ensures FollowerOk(t, logs,
                       w.(committed := w.committed[w.phase.partition := Some(w.position[w.phase.partition])],
                          phase := Fetching))
  {
    var p := w.phase.partition;
    var w' := w.(committed := w.committed[p := Some(w.position[p])], phase := Fetching);
    forall q | 0 <= q < |logs| ensures CommitsFollow(w', q) {
      assert CommitsFollow(w, q);
    }
    assert PositionsOk(logs, w');
    forall k ensures Lookup(w'.store, k) == Join(WritesOf(Consumed(t, logs, w', k), k)) {
      assert Consumed(t, logs, w', k) == Consumed(t, logs, w, k);
    }
  }

  lemma StopKeepsFollower(t: Topic, logs: seq<seq<Record>>, w: Follower)
    requires FollowerOk(t, logs, w) && w.phase.Applied?
    ensures FollowerOk(t, logs, w.(phase := Stopped(w.phase.partition)))
  {
    var w' := w.(phase := Stopped(w.phase.partition));
    forall q | 0 <= q < |logs| ensures CommitsFollow(w', q) {
      assert CommitsFollow(w, q);
    }
    assert PositionsOk(logs, w');
    forall k ensures Lookup(w'.store, k) == Join(WritesOf(Consumed(t, logs, w', k), k)) {
      assert Consumed(t, logs, w', k) == Consumed(t, logs, w, k);
    }
  }

  lemma QInvStep(t: Topic, s: QState, step: QStep)
    requires QInv(t, s) && Sized(t, s) && QEnabled(t, s, step)
    ensures QInv(t, QApply(t, s, step)) && LogsGrow(s.logs, QApply(t, s, step).logs)
  {
    var s' := QApply(t, s, step);
    match step
    case Produce(key, value, timestamp, nodeId) =>
      AppendGrows(s.logs, t.route(key), Entry(key, VersionedValue(value, timestamp, nodeId)));
      forall f | 0 <= f < |s.followers| ensures FollowerOk(t, s'.logs, s'.followers[f]) {
        GrowthKeepsFollower(t, s.logs, s'.logs, s.followers[f]);
      }
    case Garbage(p) =>
      AppendGrows(s.logs, p, Malformed);
      forall f | 0 <= f < |s.followers| ensures FollowerOk(t, s'.logs, s'.followers[f]) {
        GrowthKeepsFollower(t, s.logs, s'.logs, s.followers[f]);
      }
    case ApplyNext(f, p) =>
      ApplyKeepsFollower(t, s.logs, s.followers[f], p);
      SameLogs(s.logs);
    case Commit(f) =>
      CommitKeepsFollower(t, s.logs, s.followers[f]);
      SameLogs(s.logs);
    case CommitFails(f) =>
      StopKeepsFollower(t, s.logs, s.followers[f]);
      SameLogs(s.logs);
    case Restart(f) =>
      RestartKeepsFollower(t, s.logs, s.followers[f]);
      SameLogs(s.logs);
  }

  lemma SameLogs(logs: seq<seq<Record>>)
    ensures LogsGrow(logs, logs)
  {
    forall p | 0 <= p < |logs| ensures logs[p][..|logs[p]|] == logs[p] {
    }
  }

  lemma QInvInit(t: Topic, followers: nat)
    requires ValidTopic(t)
    ensures QInv(t, QInit(t, followers))
  {
    var s := QInit(t, followers);
    forall f | 0 <= f < |s.followers| ensures FollowerOk(t, s.logs, s.followers[f]) {
      var w := NewFollower(t.partitions);
      assert forall p | 0 <= p < |s.logs| :: CommitsFollow(w, p);
      assert PositionsOk(s.logs, w);
      forall k ensures Lookup(w.store, k) == Join(WritesOf(Consumed(t, s.logs, w, k), k)) {
        assert Consumed(t, s.logs, w, k) == [];
      }
    }
  }

  lemma {:induction false} QRunKeepsInv(t: Topic, s: QState, steps: seq<QStep>)
    requires QInv(t, s) && QLegal(t, s, steps)
    ensures QInv(t, QExec(t, s, steps)) && LogsGrow(s.logs, QExec(t, s, steps).logs)
    decreases |steps|
  {
    if steps == [] {
      SameLogs(s.logs);
    } else {
      var s1 := QApply(t, s, steps[0]);
      QInvStep(t, s, steps[0]);
      QRunKeepsInv(t, s1, steps[1..]);
      GrowthComposes(s.logs, s1.logs, QExec(t, s, steps).logs);
    }
  }

  lemma GrowthComposes(a: seq<seq<Record>>, b: seq<seq<Record>>, d: seq<seq<Record>>)
    requires LogsGrow(a, b) && LogsGrow(b, d)
    ensures LogsGrow(a, d)
  {
    forall p | 0 <= p < |a| ensures |a[p]| <= |d[p]| && d[p][..|a[p]|] == a[p] {
      assert d[p][..|a[p]|] == d[p][..|b[p]|][..|a[p]|];
    }
  }

  /** Whatever the interleaving of producers, partitions, commits and restarts: throughout
      one process's life a follower's store is, per key, the in-order LWW fold of that
      key's well-formed messages from where the process started to its position, and its
      position is at most one message, in one partition, ahead of what it committed. */
  lemma FollowerIsFold(t: Topic, followers: nat, steps: seq<QStep>, f: nat)
    requires ValidTopic(t) && QLegal(t, QInit(t, followers), steps)
             && f < |QExec(t, QInit(t, followers), steps).followers|
    ensures var s := QExec(t, QInit(t, followers), steps);
            && |s.logs| == t.partitions && PositionsOk(s.logs, s.followers[f])
            && StoreIsFold(t, s.logs, s.followers[f])
  {
    QInvInit(t, followers);
    QRunKeepsInv(t, QInit(t, followers), steps);
    var s := QExec(t, QInit(t, followers), steps);
    assert FollowerOk(t, s.logs, s.followers[f]);
  }

  /** Confluence: followers that consumed the same stretch of each partition hold the same
      store, values included, however differently they interleaved the partitions. */
  lemma FollowersAgree(t: Topic, s: QState, f: nat, g: nat)
    requires QInv(t, s) && f < |s.followers| && g < |s.followers|
    requires s.followers[f].start == s.followers[g].start && s.followers[f].position == s.followers[g].position
    ensures s.followers[f].store == s.followers[g].store
  {
    var a, b := s.followers[f], s.followers[g];
    assert FollowerOk(t, s.logs, a) && FollowerOk(t, s.logs, b);
    forall k ensures Lookup(a.store, k) == Lookup(b.store, k) {
      assert Consumed(t, s.logs, a, k) == Consumed(t, s.logs, b, k);
    }
    SameLookupsSameStore(a.store, b.store);
  }

  lemma SameLookupsSameStore(a: Store, b: Store)
    requires forall k :: Lookup(a, k) == Lookup(b, k)
    ensures a == b
  {
    forall k ensures k in a <==> k in b {
      assert Lookup(a, k) == Lookup(b, k);
    }
    forall k | k in a ensures a[k] == b[k] {
      assert Lookup(a, k) == Lookup(b, k);
    }
  }

  // ----- Reads

  /** Some message of `k` with that value and timestamp is in the log. */
  ghost predicate Logged(t: Topic, logs: seq<seq<Record>>, k: Key, value: Value, ts: real) {
    && t.route(k) < |logs|
    && exists i :: 0 <= i < |logs[t.route(k)]| && Carries(logs[t.route(k)][i], k, value, ts)
  }

  predicate Carries(r: Record, k: Key, value: Value, ts: real) {
    r.Entry? && r.key == k && r.version.value == value && r.version.timestamp == ts
  }

  predicate FreshEnough(r: Record, k: Key, ts: real) {
    r.Entry? && r.key == k && r.version.timestamp >= ts
  }

  predicate Outdated(entry: Option<VersionedValue>, ts: real) {
    entry.None? || entry.value.timestamp < ts
  }

  lemma LoggedStays(t: Topic, logs: seq<seq<Record>>, later: seq<seq<Record>>, k: Key, value: Value, ts: real)
    requires Logged(t, logs, k, value, ts) && LogsGrow(logs, later)
    ensures Logged(t, later, k, value, ts)
  {
    var p := t.route(k);
    var i :| 0 <= i < |logs[p]| && Carries(logs[p][i], k, value, ts);
    assert later[p][..|logs[p]|][i] == later[p][i];
  }

  lemma {:induction false} WritesOfFrom(records: seq<Record>, k: Key, v: VersionedValue) returns (i: nat)
    requires v in WritesOf(records, k)
    ensures i < |records| && records[i].Entry? && records[i].key == k && records[i].version == v
    decreases |records|
  {
    var n := |records| - 1;
    if records[n].Entry? && records[n].key == k && records[n].version == v {
      i := n;
    } else {
      i := WritesOfFrom(records[..n], k, v);
    }
  }

  /** A follower's answer for `k` is older than `ts`, or missing, exactly when no message
      of `k` at least that recent lies between where it started and where it has got to. */
  lemma OutdatedIff(t: Topic, s: QState, f: nat, k: Key, ts: real)
    requires QInv(t, s) && f < |s.followers|
    ensures FollowerOk(t, s.logs, s.followers[f])
    ensures var w, p := s.followers[f], t.route(k);
            Outdated(Lookup(w.store, k), ts) <==>
              (forall i | w.start[p] <= i < w.position[p] :: !FreshEnough(s.logs[p][i], k, ts))
  {
    var w, p := s.followers[f], t.route(k);
    assert FollowerOk(t, s.logs, w);
    var seen := Consumed(t, s.logs, w, k);
    JoinCovers(WritesOf(seen, k));
    if Outdated(Lookup(w.store, k), ts) {
      forall i | w.start[p] <= i < w.position[p] ensures !FreshEnough(s.logs[p][i], k, ts) {
        assert seen[i - w.start[p]] == s.logs[p][i];
        if s.logs[p][i].Entry? && s.logs[p][i].key == k {
          WritesOfContains(seen, k, i - w.start[p]);
          assert Covers(Lookup(w.store, k), s.logs[p][i].version);
        }
      }
    } else {
      var i := WritesOfFrom(seen, k, Lookup(w.store, k).value);
      assert FreshEnough(s.logs[p][w.start[p] + i], k, ts);
    }
  }
}
