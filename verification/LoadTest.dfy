/** The load test's bookkeeping: its record of confirmed writes, its counters, and how a
    plan is divided among workers. */
module LoadTest {
  import opened Versions
  import opened Topology

  /** One precomputed request; `target` picks the node a read goes to. */
  datatype PlanItem = PlanItem(isRead: bool, key: Key, target: nat)

  datatype SourceEntry = SourceEntry(value: Value, timestamp: real)

  type Truth = map<Key, SourceEntry>

  function RecordTruth(truth: Truth, key: Key, value: Value, timestamp: real): Truth {
    if key !in truth || timestamp > truth[key].timestamp then truth[key := SourceEntry(value, timestamp)]
    else truth
  }

  class SourceOfTruth {
    var entries: Truth

    constructor ()
      ensures entries == map[]
    {
      entries := map[];
    }

    /** Keeps the newest confirmed timestamp, so completions out of order cannot lower it. */
    method Record(key: Key, value: Value, timestamp: real)
      modifies this
      ensures entries == RecordTruth(old(entries), key, value, timestamp)
      ensures entries == if key in old(entries) && old(entries)[key].timestamp >= timestamp then old(entries)
                         else old(entries)[key := SourceEntry(value, timestamp)]
      ensures key in entries && entries[key].timestamp >= timestamp
      ensures forall k | k in old(entries) :: k in entries && entries[k].timestamp >= old(entries)[k].timestamp
    {
      if key !in entries || timestamp > entries[key].timestamp {
        entries := entries[key := SourceEntry(value, timestamp)];
      }
    }

    method Snapshot(key: Key) returns (entry: Option<SourceEntry>)
      ensures entry == if key in entries then Some(entries[key]) else None
    {
      entry := if key in entries then Some(entries[key]) else None;
    }
  }

  datatype Operation = ReadOp | WriteOp

  datatype FailureType = Non2xx | Timeout | ConnectionError | OtherError

  datatype StaleEvent = StaleEvent(key: Key, node: Port, expected: real, actual: Option<real>)

  datatype FailureEvent = FailureEvent(operation: Operation, kind: FailureType, key: Key, node: Port)

  /** The counters of one worker, or of a whole run once merged. */
  datatype Tally = Tally(
    totalRequests: nat, totalReads: nat, totalWrites: nat,
    comparableReads: nat, staleReads: nat, staleEvents: seq<StaleEvent>,
    failedReads: nat, failedWrites: nat,
    failureCounts: multiset<(Operation, FailureType)>, failureEvents: seq<FailureEvent>)

  const ZERO := Tally(0, 0, 0, 0, 0, [], 0, 0, multiset{}, [])

  /** What a worker sees come back: an exception or an unexpected status, or an answer. */
  datatype WriteReply = WriteFailed(kind: FailureType) | WriteOk(applied: bool, timestamp: real)
  datatype ReadReply = ReadFailed(kind: FailureType) | ReadMissing | ReadFound(timestamp: real)

  function FailTally(t: Tally, op: Operation, kind: FailureType, key: Key, node: Port): Tally {
    var counted := if op.ReadOp? then t.(failedReads := t.failedReads + 1) else t.(failedWrites := t.failedWrites + 1);
    counted.(failureCounts := t.failureCounts + multiset{(op, kind)},
             failureEvents := t.failureEvents + [FailureEvent(op, kind, key, node)])
  }

  function StaleTally(t: Tally, key: Key, node: Port, expected: SourceEntry, actual: Option<real>): Tally {
    t.(staleReads := t.staleReads + 1,
       staleEvents := t.staleEvents + [StaleEvent(key, node, expected.timestamp, actual)])
  }

  function BeginItem(t: Tally, item: PlanItem): Tally {
    var counted := t.(totalRequests := t.totalRequests + 1);
    if item.isRead then counted.(totalReads := t.totalReads + 1) else counted.(totalWrites := t.totalWrites + 1)
  }

  function AfterWrite(t: Tally, key: Key, node: Port, reply: WriteReply): Tally {
    match reply
    case WriteFailed(kind) => FailTally(t, WriteOp, kind, key, node)
    case WriteOk(_, _) => t
  }

  /** Only an answered and applied write is recorded as truth. */
  function TruthAfterWrite(truth: Truth, key: Key, value: Value, reply: WriteReply): Truth {
    if reply.WriteOk? && reply.applied then RecordTruth(truth, key, value, reply.timestamp) else truth
  }

  function AfterRead(t: Tally, key: Key, node: Port, expected: SourceEntry, reply: ReadReply): Tally {
    match reply
    case ReadFailed(kind) => FailTally(t, ReadOp, kind, key, node)
    case ReadMissing =>
      StaleTally(t.(comparableReads := t.comparableReads + 1), key, node, expected, None)
    case ReadFound(ts) =>
      var compared := t.(comparableReads := t.comparableReads + 1);
      if ts < expected.timestamp then StaleTally(compared, key, node, expected, Some(ts)) else compared
  }

  function MergeTally(a: Tally, b: Tally): Tally {
    Tally(a.totalRequests + b.totalRequests, a.totalReads + b.totalReads, a.totalWrites + b.totalWrites,
          a.comparableReads + b.comparableReads, a.staleReads + b.staleReads, a.staleEvents + b.staleEvents,
          a.failedReads + b.failedReads, a.failedWrites + b.failedWrites,
          a.failureCounts + b.failureCounts, a.failureEvents + b.failureEvents)
  }

  predicate SameRequests(a: Tally, b: Tally) {
    a.totalRequests == b.totalRequests && a.totalReads == b.totalReads && a.totalWrites == b.totalWrites
  }

  predicate SameComparisons(a: Tally, b: Tally) {
    a.comparableReads == b.comparableReads && a.staleReads == b.staleReads && a.staleEvents == b.staleEvents
  }

  predicate SameFailures(a: Tally, b: Tally) {
    && a.failedReads == b.failedReads && a.failedWrites == b.failedWrites
    && a.failureCounts == b.failureCounts && a.failureEvents == b.failureEvents
  }

  class Stats {
    var tally: Tally

    constructor ()
      ensures tally == ZERO
    {
      tally := ZERO;
    }

    method RecordFailure(op: Operation, kind: FailureType, key: Key, node: Port)
      modifies this
      ensures tally == FailTally(old(tally), op, kind, key, node)
      ensures tally.failedReads == old(tally.failedReads) + (if op == ReadOp then 1 else 0)
      ensures tally.failedWrites == old(tally.failedWrites) + (if op == WriteOp then 1 else 0)
      ensures tally.failureCounts == old(tally.failureCounts) + multiset{(op, kind)}
      ensures tally.failureEvents == old(tally.failureEvents) + [FailureEvent(op, kind, key, node)]
      ensures SameRequests(tally, old(tally)) && SameComparisons(tally, old(tally))
    {
      if op.ReadOp? {
        tally := tally.(failedReads := tally.failedReads + 1);
      } else {
        tally := tally.(failedWrites := tally.failedWrites + 1);
      }
      tally := tally.(failureCounts := tally.failureCounts[(op, kind) := tally.failureCounts[(op, kind)] + 1]);
      tally := tally.(failureEvents := tally.failureEvents + [FailureEvent(op, kind, key, node)]);
    }

    method RecordStale(key: Key, node: Port, expected: SourceEntry, actual: Option<real>)
      modifies this
      ensures tally == StaleTally(old(tally), key, node, expected, actual)
      ensures tally.staleReads == old(tally.staleReads) + 1
      ensures tally.staleEvents == old(tally.staleEvents) + [StaleEvent(key, node, expected.timestamp, actual)]
      ensures tally.comparableReads == old(tally.comparableReads)
      ensures SameRequests(tally, old(tally)) && SameFailures(tally, old(tally))
    {
      tally := tally.(staleReads := tally.staleReads + 1);
      tally := tally.(staleEvents := tally.staleEvents + [StaleEvent(key, node, expected.timestamp, actual)]);
    }

    /** Adds another worker's counters to these and its logs behind these; what balanced
        before balances after. */
    method Merge(other: Stats)
      modifies this
      ensures tally == MergeTally(old(tally), old(other.tally))
      ensures tally.totalRequests == old(tally.totalRequests) + old(other.tally.totalRequests)
      ensures tally.totalReads == old(tally.totalReads) + old(other.tally.totalReads)
      ensures tally.totalWrites == old(tally.totalWrites) + old(other.tally.totalWrites)
      ensures tally.comparableReads == old(tally.comparableReads) + old(other.tally.comparableReads)
      ensures tally.staleReads == old(tally.staleReads) + old(other.tally.staleReads)
      ensures tally.staleEvents == old(tally.staleEvents) + old(other.tally.staleEvents)
      ensures tally.failedReads == old(tally.failedReads) + old(other.tally.failedReads)
      ensures tally.failedWrites == old(tally.failedWrites) + old(other.tally.failedWrites)
      ensures tally.failureCounts == old(tally.failureCounts) + old(other.tally.failureCounts)
      ensures tally.failureEvents == old(tally.failureEvents) + old(other.tally.failureEvents)
      ensures old(Balanced(tally)) && old(Balanced(other.tally)) ==> Balanced(tally)
      ensures other != this ==> other.tally == old(other.tally)
    {
      ghost var mine := tally;
      var theirs := other.tally;
      tally := tally.(totalRequests := tally.totalRequests + theirs.totalRequests,
                      totalReads := tally.totalReads + theirs.totalReads,
                      totalWrites := tally.totalWrites + theirs.totalWrites);
      tally := tally.(comparableReads := tally.comparableReads + theirs.comparableReads,
                      staleReads := tally.staleReads + theirs.staleReads,
                      staleEvents := tally.staleEvents + theirs.staleEvents);
      tally := tally.(failedReads := tally.failedReads + theirs.failedReads,
                      failedWrites := tally.failedWrites + theirs.failedWrites,
                      failureCounts := tally.failureCounts + theirs.failureCounts,
                      failureEvents := tally.failureEvents + theirs.failureEvents);
      MergeKeepsBalance(mine, theirs);
    }
  }

  lemma MergeKeepsBalance(a: Tally, b: Tally)
    ensures Balanced(a) && Balanced(b) ==> Balanced(MergeTally(a, b))
  {
    if Balanced(a) && Balanced(b) {
      MergeBalanced(a, b);
    }
  }

  /** Round-robin choice of the write coordinator. */
  class NodeRotation {
    const nodes: seq<Port>
    var index: nat

    constructor (nodes: seq<Port>)
      ensures this.nodes == nodes && index == 0
    {
      this.nodes := nodes;
      index := 0;
    }

    method NextNode() returns (node: Port)
      requires nodes != []
      modifies this
      ensures node == Draw(nodes, old(index)) && index == old(index) + 1
    {
      node := nodes[index % |nodes|];
      index := index + 1;
    }
  }

  function Draw(nodes: seq<Port>, index: nat): Port
    requires nodes != []
  {
    nodes[index % |nodes|]
  }

  /** From wherever the rotation stands, as many draws as there are nodes go round the list
      once: from some place to its end, and on from its beginning. */
  lemma RotationVisitsAll(nodes: seq<Port>, from: nat, draws: seq<Port>)
    requires nodes != [] && |draws| == |nodes|
    requires forall k | 0 <= k < |draws| :: draws[k] == Draw(nodes, from + k)
    ensures draws == nodes[from % |nodes|..] + nodes[..from % |nodes|]
    ensures multiset(draws) == multiset(nodes)
  {
    var m := from % |nodes|;
    forall k | 0 <= k < |nodes| ensures draws[k] == (nodes[m..] + nodes[..m])[k] {
      DrawAt(nodes, from, m, k);
    }
    assert nodes == nodes[..m] + nodes[m..];
  }

  lemma DrawAt(nodes: seq<Port>, from: nat, m: nat, k: nat)
    requires nodes != [] && m == from % |nodes| && k < |nodes|
    ensures Draw(nodes, from + k) == (nodes[m..] + nodes[..m])[k]
  {
    var n := |nodes|;
    assert from == (from / n) * n + m;
    if m + k < n {
      ModIs(from + k, n, from / n, m + k);
    } else {
      Distributes(from / n, -1, n);
      ModIs(from + k, n, from / n + 1, m + k - n);
    }
  }

  lemma ModIs(a: nat, n: nat, q: nat, r: nat)
    requires n > 0 && r < n && a == q * n + r
    ensures a % n == r
  {
    var d := a / n - q;
    assert a == (a / n) * n + a % n;
    Distributes(a / n, q, n);
    NoSmallMultiple(d, n);
  }

  lemma Distributes(x: int, y: int, n: int)
    ensures (x - y) * n == x * n - y * n
  {
  }

  lemma NoSmallMultiple(d: int, n: int)
    requires n > 0 && -n < d * n < n
    ensures d == 0
  {
    if d >= 1 {
      AtLeastItself(d, n);
    } else if d <= -1 {
      AtLeastItself(-d, n);
      Distributes(0, d, n);
    }
  }

  lemma AtLeastItself(d: int, n: int)
    requires d >= 1 && n > 0
    ensures d * n >= n
  {
    Distributes(d, 1, n);
    assert (d - 1) * n >= 0;
  }

  method DoWrite(stats: Stats, truth: SourceOfTruth, key: Key, value: Value, node: Port, reply: WriteReply)
    modifies stats, truth
    ensures stats.tally == AfterWrite(old(stats.tally), key, node, reply)
    ensures truth.entries == TruthAfterWrite(old(truth.entries), key, value, reply)
    ensures reply.WriteFailed? || !reply.applied ==> truth.entries == old(truth.entries)
    ensures reply.WriteOk? && reply.applied ==>
              && key in truth.entries && truth.entries[key].timestamp >= reply.timestamp
              && (truth.entries[key] == SourceEntry(value, reply.timestamp) || truth.entries == old(truth.entries))
    ensures stats.tally.failedWrites == old(stats.tally.failedWrites) + (if reply.WriteFailed? then 1 else 0)
    ensures reply.WriteOk? ==> stats.tally == old(stats.tally)
    ensures SameRequests(stats.tally, old(stats.tally)) && SameComparisons(stats.tally, old(stats.tally))
    ensures stats.tally.failedReads == old(stats.tally.failedReads)
    ensures stats.tally.failureEvents == old(stats.tally.failureEvents)
              + (if reply.WriteFailed? then [FailureEvent(WriteOp, reply.kind, key, node)] else [])
    ensures stats.tally.failureCounts == old(stats.tally.failureCounts)
              + (if reply.WriteFailed? then multiset{(WriteOp, reply.kind)} else multiset{})
  {
    match reply
    case WriteFailed(kind) =>
      stats.RecordFailure(WriteOp, kind, key, node);
    case WriteOk(applied, timestamp) =>
      if applied {
        truth.Record(key, value, timestamp);
      }
  }

  /** Missing, or with a timestamp below the expected one. */
  predicate OlderThan(reply: ReadReply, expected: SourceEntry) {
    match reply
    case ReadFailed(_) => false
    case ReadMissing => true
    case ReadFound(timestamp) => timestamp < expected.timestamp
  }

  /** The truth is looked at before the request is sent; without an entry none is sent. */
  method DoRead(stats: Stats, truth: SourceOfTruth, key: Key, node: Port, reply: ReadReply)
    modifies stats
    ensures stats.tally == if key !in truth.entries then old(stats.tally)
                           else AfterRead(old(stats.tally), key, node, truth.entries[key], reply)
    ensures var before, after, asked := old(stats.tally), stats.tally, key in truth.entries;
            && after.comparableReads == before.comparableReads + (if asked && !reply.ReadFailed? then 1 else 0)
            && after.staleReads == before.staleReads + (if asked && OlderThan(reply, truth.entries[key]) then 1 else 0)
            && after.failedReads == before.failedReads + (if asked && reply.ReadFailed? then 1 else 0)
            && after.failedWrites == before.failedWrites && SameRequests(after, before)
            && after.staleEvents == before.staleEvents
                 + (if asked && OlderThan(reply, truth.entries[key])
                    then [StaleEvent(key, node, truth.entries[key].timestamp,
                                     if reply.ReadFound? then Some(reply.timestamp) else None)]
                    else [])
            && after.failureEvents == before.failureEvents
                 + (if asked && reply.ReadFailed? then [FailureEvent(ReadOp, reply.kind, key, node)] else [])
            && after.failureCounts == before.failureCounts
                 + (if asked && reply.ReadFailed? then multiset{(ReadOp, reply.kind)} else multiset{})
  {
    var expected := truth.Snapshot(key);
    if expected.None? {
      return;
    }
    match reply
    case ReadFailed(kind) =>
      stats.RecordFailure(ReadOp, kind, key, node);
    case ReadMissing =>
      stats.tally := stats.tally.(comparableReads := stats.tally.comparableReads + 1);
      stats.RecordStale(key, node, expected.value, None);
    case ReadFound(timestamp) =>
      stats.tally := stats.tally.(comparableReads := stats.tally.comparableReads + 1);
      if timestamp < expected.value.timestamp {
        stats.RecordStale(key, node, expected.value, Some(timestamp));
      }
  }

  // ----- One worker's run

  /** A write some other worker got confirmed. */
  datatype Confirmed = Confirmed(key: Key, value: Value, timestamp: real)

  /** What the rest of the world contributes to one item: what other workers recorded since
      this worker's last item, and the replies. */
  datatype Turn = Turn(others: seq<Confirmed>, node: Port, value: Value, writeReply: WriteReply, readReply: ReadReply)

  datatype Progress = Progress(tally: Tally, truth: Truth)

  function Recorded(truth: Truth, others: seq<Confirmed>): Truth
    decreases |others|
  {
    if others == [] then truth
    else Recorded(RecordTruth(truth, others[0].key, others[0].value, others[0].timestamp), others[1..])
  }

  method Meanwhile(truth: SourceOfTruth, others: seq<Confirmed>)
    modifies truth
    ensures truth.entries == Recorded(old(truth.entries), others)
  {
    var i := 0;
    while i < |others|
      invariant 0 <= i <= |others|
      invariant Recorded(truth.entries, others[i..]) == Recorded(old(truth.entries), others)
    {
      assert others[i..][1..] == others[i + 1..];
      truth.Record(others[i].key, others[i].value, others[i].timestamp);
      i := i + 1;
    }
  }

  function RunItem(p: Progress, item: PlanItem, turn: Turn): Progress {
    var begun, truth := BeginItem(p.tally, item), Recorded(p.truth, turn.others);
    if !item.isRead then
      Progress(AfterWrite(begun, item.key, turn.node, turn.writeReply),
               TruthAfterWrite(truth, item.key, turn.value, turn.writeReply))
    else if item.key !in truth then Progress(begun, truth)
    else Progress(AfterRead(begun, item.key, turn.node, truth[item.key], turn.readReply), truth)
  }

  function RunChunk(p: Progress, chunk: seq<PlanItem>, turns: seq<Turn>): Progress
    requires |turns| == |chunk|
    decreases |chunk|
  {
    if chunk == [] then p else RunChunk(RunItem(p, chunk[0], turns[0]), chunk[1..], turns[1..])
  }

  lemma RunChunkTakes(p: Progress, chunk: seq<PlanItem>, turns: seq<Turn>, i: nat)
    requires |turns| == |chunk| && i < |chunk|
    ensures RunChunk(p, chunk[i..], turns[i..]) ==
            RunChunk(RunItem(p, chunk[i], turns[i]), chunk[i + 1..], turns[i + 1..])
  {
    assert chunk[i..][1..] == chunk[i + 1..] && turns[i..][1..] == turns[i + 1..];
  }

  /** No entry is lost and none gets older. */
  ghost predicate TruthRises(earlier: Truth, later: Truth) {
    forall k | k in earlier :: k in later && later[k].timestamp >= earlier[k].timestamp
  }

  /** One round of the worker's loop. */
  method DoItem(stats: Stats, truth: SourceOfTruth, item: PlanItem, turn: Turn)
    modifies stats, truth
    ensures Progress(stats.tally, truth.entries) == RunItem(Progress(old(stats.tally), old(truth.entries)), item, turn)
  {
    Meanwhile(truth, turn.others);
    stats.tally := stats.tally.(totalRequests := stats.tally.totalRequests + 1);
    if item.isRead {
      stats.tally := stats.tally.(totalReads := stats.tally.totalReads + 1);
      DoRead(stats, truth, item.key, turn.node, turn.readReply);
    } else {
      stats.tally := stats.tally.(totalWrites := stats.tally.totalWrites + 1);
      DoWrite(stats, truth, item.key, turn.value, turn.node, turn.writeReply);
    }
  }

  /** The worker's statistics and what it leaves in the shared truth: its items in order,
      other workers' records in between. The statistics account for exactly its chunk. */
  method RunWorker(chunk: seq<PlanItem>, turns: seq<Turn>, truth: SourceOfTruth) returns (stats: Stats)
    requires |turns| == |chunk|
    modifies truth
    ensures fresh(stats)
    ensures Progress(stats.tally, truth.entries) == RunChunk(Progress(ZERO, old(truth.entries)), chunk, turns)
    ensures Accounts(stats.tally, chunk) && TruthRises(old(truth.entries), truth.entries)
    ensures forall k | k in truth.entries ::
              (k in old(truth.entries) && old(truth.entries)[k] == truth.entries[k])
              || FromChunk(chunk, turns, k, truth.entries[k])
    ensures forall n | 0 <= n < |chunk| && !chunk[n].isRead && turns[n].writeReply.WriteOk?
            && turns[n].writeReply.applied ::
              chunk[n].key in truth.entries && truth.entries[chunk[n].key].timestamp >= turns[n].writeReply.timestamp
  {
    stats := new Stats();
    var i := 0;
    while i < |chunk|
      invariant 0 <= i <= |chunk| && fresh(stats)
      invariant RunChunk(Progress(stats.tally, truth.entries), chunk[i..], turns[i..])
                == RunChunk(Progress(ZERO, old(truth.entries)), chunk, turns)
    {
      RunChunkTakes(Progress(stats.tally, truth.entries), chunk, turns, i);
      DoItem(stats, truth, chunk[i], turns[i]);
      i := i + 1;
    }
    ChunkAccounts(Progress(ZERO, old(truth.entries)), chunk, turns);
    ChunkTruthRises(Progress(ZERO, old(truth.entries)), chunk, turns);
    ChunkRecordsWrites(Progress(ZERO, old(truth.entries)), chunk, turns);
    forall k | k in truth.entries
      ensures (k in old(truth.entries) && old(truth.entries)[k] == truth.entries[k])
              || FromChunk(chunk, turns, k, truth.entries[k])
    {
      ChunkTruthFrom(Progress(ZERO, old(truth.entries)), chunk, turns, k);
    }
  }

  predicate RecordedBy(others: seq<Confirmed>, k: Key, entry: SourceEntry) {
    exists i :: 0 <= i < |others| && others[i] == Confirmed(k, entry.value, entry.timestamp)
  }

  predicate WrittenBy(item: PlanItem, turn: Turn, k: Key, entry: SourceEntry) {
    && !item.isRead && item.key == k && turn.writeReply == WriteOk(true, entry.timestamp) && turn.value == entry.value
  }

  /** The entry is an applied write of the chunk, with the value written, or another
      worker's. */
  ghost predicate FromChunk(chunk: seq<PlanItem>, turns: seq<Turn>, k: Key, entry: SourceEntry)
    requires |turns| == |chunk|
  {
    exists n :: 0 <= n < |chunk| && (WrittenBy(chunk[n], turns[n], k, entry) || RecordedBy(turns[n].others, k, entry))
  }

  lemma {:induction false} RecordedFrom(truth: Truth, others: seq<Confirmed>, k: Key)
    requires k in Recorded(truth, others)
    ensures var entry := Recorded(truth, others)[k]; (k in truth && truth[k] == entry) || RecordedBy(others, k, entry)
    decreases |others|
  {
    if others != [] {
      var first, rest := others[0], others[1..];
      var truth1 := RecordTruth(truth, first.key, first.value, first.timestamp);
      RecordedFrom(truth1, rest, k);
      var entry := Recorded(truth, others)[k];
      if RecordedBy(rest, k, entry) {
        var i :| 0 <= i < |rest| && rest[i] == Confirmed(k, entry.value, entry.timestamp);
        assert others[i + 1] == rest[i];
      } else if !(k in truth && truth[k] == entry) {
        assert others[0] == Confirmed(k, entry.value, entry.timestamp);
      }
    }
  }

  lemma ItemTruthFrom(p: Progress, item: PlanItem, turn: Turn, k: Key)
    requires k in RunItem(p, item, turn).truth
    ensures var entry := RunItem(p, item, turn).truth[k];
            (k in p.truth && p.truth[k] == entry) || WrittenBy(item, turn, k, entry)
                || RecordedBy(turn.others, k, entry)
  {
    if k in Recorded(p.truth, turn.others) {
      RecordedFrom(p.truth, turn.others, k);
    }
  }

  /** Every truth entry afterwards was there before, or comes from the chunk. */
  lemma {:induction false} ChunkTruthFrom(p: Progress, chunk: seq<PlanItem>, turns: seq<Turn>, k: Key)
    requires |turns| == |chunk| && k in RunChunk(p, chunk, turns).truth
    ensures var entry := RunChunk(p, chunk, turns).truth[k];
            (k in p.truth && p.truth[k] == entry) || FromChunk(chunk, turns, k, entry)
    decreases |chunk|
  {
    if chunk != [] {
      var p1, entry := RunItem(p, chunk[0], turns[0]), RunChunk(p, chunk, turns).truth[k];
      ChunkTruthFrom(p1, chunk[1..], turns[1..], k);
      if FromChunk(chunk[1..], turns[1..], k, entry) {
        var n :| 0 <= n < |chunk[1..]| && (WrittenBy(chunk[1..][n], turns[1..][n], k, entry)
                                           || RecordedBy(turns[1..][n].others, k, entry));
        assert chunk[n + 1] == chunk[1..][n] && turns[n + 1] == turns[1..][n];
      } else {
        ItemTruthFrom(p, chunk[0], turns[0], k);
      }
    }
  }

  /** Every applied write of the chunk is in the truth afterwards, or something newer is. */
  lemma {:induction false} ChunkRecordsWrites(p: Progress, chunk: seq<PlanItem>, turns: seq<Turn>)
    requires |turns| == |chunk|
    ensures var truth := RunChunk(p, chunk, turns).truth;
            forall n | 0 <= n < |chunk| && !chunk[n].isRead && turns[n].writeReply.WriteOk?
                && turns[n].writeReply.applied ::
              chunk[n].key in truth && truth[chunk[n].key].timestamp >= turns[n].writeReply.timestamp
    decreases |chunk|
  {
    if chunk != [] {
      var p1 := RunItem(p, chunk[0], turns[0]);
      ChunkRecordsWrites(p1, chunk[1..], turns[1..]);
      ChunkTruthRises(p1, chunk[1..], turns[1..]);
      var truth := RunChunk(p, chunk, turns).truth;
      forall n | 0 <= n < |chunk| && !chunk[n].isRead && turns[n].writeReply.WriteOk? && turns[n].writeReply.applied
        ensures chunk[n].key in truth && truth[chunk[n].key].timestamp >= turns[n].writeReply.timestamp
      {
        if n > 0 {
          assert chunk[1..][n - 1] == chunk[n] && turns[1..][n - 1] == turns[n];
        }
      }
    }
  }

  lemma {:induction false} RecordedRises(truth: Truth, others: seq<Confirmed>)
    ensures TruthRises(truth, Recorded(truth, others))
    decreases |others|
  {
    if others != [] {
      RecordedRises(RecordTruth(truth, others[0].key, others[0].value, others[0].timestamp), others[1..]);
    }
  }

  lemma {:induction false} ChunkTruthRises(p: Progress, chunk: seq<PlanItem>, turns: seq<Turn>)
    requires |turns| == |chunk|
    ensures TruthRises(p.truth, RunChunk(p, chunk, turns).truth)
    decreases |chunk|
  {
    if chunk != [] {
      RecordedRises(p.truth, turns[0].others);
      ChunkTruthRises(RunItem(p, chunk[0], turns[0]), chunk[1..], turns[1..]);
    }
  }

  // ----- Accounting

  function KindSeq(events: seq<FailureEvent>): (ks: seq<(Operation, FailureType)>)
    ensures |ks| == |events|
    ensures forall i | 0 <= i < |ks| :: ks[i] == (events[i].operation, events[i].kind)
  {
    seq(|events|, i requires 0 <= i < |events| => (events[i].operation, events[i].kind))
  }

  /** How many of the logged failures were of operation `op`. */
  function OfOperation(events: seq<FailureEvent>, op: Operation): nat {
    |set i: int | 0 <= i < |events| && events[i].operation == op|
  }

  lemma OfOperationSnoc(events: seq<FailureEvent>, e: FailureEvent, op: Operation)
    ensures OfOperation(events + [e], op) == OfOperation(events, op) + (if e.operation == op then 1 else 0)
  {
    var before := set i: int | 0 <= i < |events| && events[i].operation == op;
    var after := set i: int | 0 <= i < |events + [e]| && (events + [e])[i].operation == op;
    assert after == before + (if e.operation == op then {|events|} else {});
  }

  ghost predicate RequestsBalanced(t: Tally) {
    && t.totalRequests == t.totalReads + t.totalWrites
    && t.staleReads == |t.staleEvents| && t.staleReads <= t.comparableReads
    && t.comparableReads + t.failedReads <= t.totalReads
    && t.failedWrites <= t.totalWrites
  }

  ghost predicate FailuresOk(failedReads: nat, failedWrites: nat, counts: multiset<(Operation, FailureType)>,
                             events: seq<FailureEvent>) {
    && |events| == failedReads + failedWrites
    && counts == multiset(KindSeq(events))
    && OfOperation(events, ReadOp) == failedReads
    && OfOperation(events, WriteOp) == failedWrites
  }

  ghost predicate FailuresBalanced(t: Tally) {
    FailuresOk(t.failedReads, t.failedWrites, t.failureCounts, t.failureEvents)
  }

  /** The counters tell one consistent story. */
  ghost predicate Balanced(t: Tally) {
    RequestsBalanced(t) && FailuresBalanced(t)
  }

  /** The failure counts sum to the failures. */
  lemma FailureCountsSum(t: Tally)
    requires Balanced(t)
    ensures |t.failureCounts| == t.failedReads + t.failedWrites
  {
    assert |multiset(KindSeq(t.failureEvents))| == |KindSeq(t.failureEvents)|;
  }

  function ReadsIn(plan: seq<PlanItem>): nat
    decreases |plan|
  {
    if plan == [] then 0 else (if plan[0].isRead then 1 else 0) + ReadsIn(plan[1..])
  }

  lemma KindsAppend(xs: seq<FailureEvent>, ys: seq<FailureEvent>)
    ensures multiset(KindSeq(xs + ys)) == multiset(KindSeq(xs)) + multiset(KindSeq(ys))
  {
    assert KindSeq(xs + ys) == KindSeq(xs) + KindSeq(ys);
  }

  lemma {:induction false} OfOperationAppend(xs: seq<FailureEvent>, ys: seq<FailureEvent>, op: Operation)
    ensures OfOperation(xs + ys, op) == OfOperation(xs, op) + OfOperation(ys, op)
    decreases |ys|
  {
    if |ys| == 0 {
      assert xs + ys == xs;
    } else {
      var init, last := ys[..|ys| - 1], ys[|ys| - 1];
      assert ys == init + [last] && xs + ys == (xs + init) + [last];
      OfOperationAppend(xs, init, op);
      OfOperationSnoc(init, last, op);
      OfOperationSnoc(xs + init, last, op);
    }
  }

  lemma OneMoreFailure(failedReads: nat, failedWrites: nat, counts: multiset<(Operation, FailureType)>,
                       events: seq<FailureEvent>, e: FailureEvent)
    requires FailuresOk(failedReads, failedWrites, counts, events)
    ensures FailuresOk(if e.operation.ReadOp? then failedReads + 1 else failedReads,
                       if e.operation.ReadOp? then failedWrites else failedWrites + 1,
                       counts + multiset{(e.operation, e.kind)}, events + [e])
  {
    OfOperationSnoc(events, e, ReadOp);
    OfOperationSnoc(events, e, WriteOp);
    assert KindSeq(events + [e]) == KindSeq(events) + [(e.operation, e.kind)];
  }

  lemma ReadFailureCounted(t: Tally, kind: FailureType, key: Key, node: Port)
    requires FailuresBalanced(t)
    ensures FailuresBalanced(FailTally(t, ReadOp, kind, key, node))
  {
    OneMoreFailure(t.failedReads, t.failedWrites, t.failureCounts, t.failureEvents,
                   FailureEvent(ReadOp, kind, key, node));
  }

  lemma WriteFailureCounted(t: Tally, kind: FailureType, key: Key, node: Port)
    requires FailuresBalanced(t)
    ensures FailuresBalanced(FailTally(t, WriteOp, kind, key, node))
  {
    OneMoreFailure(t.failedReads, t.failedWrites, t.failureCounts, t.failureEvents,
                   FailureEvent(WriteOp, kind, key, node));
  }

  /** Statistics that account for exactly these items. */
  ghost predicate Accounts(t: Tally, items: seq<PlanItem>) {
    Balanced(t) && t.totalRequests == |items| && t.totalReads == ReadsIn(items)
  }

  /** A worker partway: the items before `todo` are accounted for, except that a read or a
      write that is under way may yet fail or be compared. */
  ghost predicate Midway(t: Tally, plan: seq<PlanItem>, todo: seq<PlanItem>, reading: bool, writing: bool) {
    && t.totalRequests + |todo| == |plan| && t.totalReads + ReadsIn(todo) == ReadsIn(plan)
    && t.totalRequests == t.totalReads + t.totalWrites
    && t.staleReads == |t.staleEvents| && t.staleReads <= t.comparableReads
    && t.comparableReads + t.failedReads + (if reading then 1 else 0) <= t.totalReads
    && t.failedWrites + (if writing then 1 else 0) <= t.totalWrites
    && FailuresBalanced(t)
  }

  lemma MidwayStarts(t: Tally, plan: seq<PlanItem>)
    requires AllZero(t)
    ensures Midway(t, plan, plan, false, false)
  {
    AllZeroBalanced(t);
  }

  lemma MidwayBegins(t: Tally, plan: seq<PlanItem>, todo: seq<PlanItem>)
    requires Midway(t, plan, todo, false, false) && todo != []
    ensures Midway(BeginItem(t, todo[0]), plan, todo[1..], todo[0].isRead, !todo[0].isRead)
    ensures Midway(BeginItem(t, todo[0]), plan, todo[1..], false, false)
  {
  }

  lemma MidwayReads(t: Tally, plan: seq<PlanItem>, todo: seq<PlanItem>, key: Key, node: Port, expected: SourceEntry,
                    reply: ReadReply)
    requires Midway(t, plan, todo, true, false)
    ensures Midway(AfterRead(t, key, node, expected, reply), plan, todo, false, false)
  {
    if reply.ReadFailed? {
      ReadFailureCounted(t, reply.kind, key, node);
    }
  }

  lemma MidwayWrites(t: Tally, plan: seq<PlanItem>, todo: seq<PlanItem>, key: Key, node: Port, reply: WriteReply)
    requires Midway(t, plan, todo, false, true)
    ensures Midway(AfterWrite(t, key, node, reply), plan, todo, false, false)
  {
    if reply.WriteFailed? {
      WriteFailureCounted(t, reply.kind, key, node);
    }
  }

  lemma MidwayEnds(t: Tally, plan: seq<PlanItem>)
    requires Midway(t, plan, [], false, false)
    ensures Accounts(t, plan)
  {
  }

  ghost predicate AllZero(t: Tally) {
    && t.totalRequests == 0 && t.totalReads == 0 && t.totalWrites == 0
    && t.comparableReads == 0 && t.staleReads == 0 && t.staleEvents == []
    && t.failedReads == 0 && t.failedWrites == 0 && t.failureCounts == multiset{} && t.failureEvents == []
  }

  lemma AllZeroBalanced(t: Tally)
    requires AllZero(t)
    ensures Balanced(t)
  {
    assert KindSeq(t.failureEvents) == [];
  }

  lemma ItemKeepsMidway(p: Progress, plan: seq<PlanItem>, todo: seq<PlanItem>, turn: Turn)
    requires Midway(p.tally, plan, todo, false, false) && todo != []
    ensures Midway(RunItem(p, todo[0], turn).tally, plan, todo[1..], false, false)
  {
    var item, begun, truth := todo[0], BeginItem(p.tally, todo[0]), Recorded(p.truth, turn.others);
    MidwayBegins(p.tally, plan, todo);
    if !item.isRead {
      MidwayWrites(begun, plan, todo[1..], item.key, turn.node, turn.writeReply);
    } else if item.key in truth {
      MidwayReads(begun, plan, todo[1..], item.key, turn.node, truth[item.key], turn.readReply);
    }
  }

  lemma {:induction false} ChunkKeepsMidway(p: Progress, plan: seq<PlanItem>, todo: seq<PlanItem>, turns: seq<Turn>)
    requires Midway(p.tally, plan, todo, false, false) && |turns| == |todo|
    ensures Midway(RunChunk(p, todo, turns).tally, plan, [], false, false)
    decreases |todo|
  {
    if todo != [] {
      ItemKeepsMidway(p, plan, todo, turns[0]);
      ChunkKeepsMidway(RunItem(p, todo[0], turns[0]), plan, todo[1..], turns[1..]);
    }
  }

  lemma ChunkAccounts(p: Progress, chunk: seq<PlanItem>, turns: seq<Turn>)
    requires AllZero(p.tally) && |turns| == |chunk|
    ensures Accounts(RunChunk(p, chunk, turns).tally, chunk)
  {
    MidwayStarts(p.tally, chunk);
    ChunkKeepsMidway(p, chunk, chunk, turns);
    MidwayEnds(RunChunk(p, chunk, turns).tally, chunk);
  }

  lemma MergeBalanced(a: Tally, b: Tally)
    requires Balanced(a) && Balanced(b)
    ensures Balanced(MergeTally(a, b))
  {
    KindsAppend(a.failureEvents, b.failureEvents);
    OfOperationAppend(a.failureEvents, b.failureEvents, ReadOp);
    OfOperationAppend(a.failureEvents, b.failureEvents, WriteOp);
  }

  // ----- Dividing the plan

  function Flatten<T>(chunks: seq<seq<T>>): seq<T>
    decreases |chunks|
  {
    if chunks == [] then [] else Flatten(chunks[..|chunks| - 1]) + chunks[|chunks| - 1]
  }

  /** Exactly `numWorkers` contiguous chunks, in order, none more than one item longer
      than another, the longer ones first. */
  method SplitPlan(plan: seq<PlanItem>, numWorkers: int) returns (chunks: seq<seq<PlanItem>>)
    requires numWorkers >= 1
    ensures |chunks| == numWorkers
    ensures Flatten(chunks) == plan
    ensures forall i | 0 <= i < |chunks| ::
              |chunks[i]| == |plan| / numWorkers + (if i < |plan| % numWorkers then 1 else 0)
    ensures forall i, j | 0 <= i < j < |chunks| :: 0 <= |chunks[i]| - |chunks[j]| <= 1
  {
    var base, remainder := |plan| / numWorkers, |plan| % numWorkers;
    DivMod(|plan|, numWorkers);
    chunks := [];
    var start := 0;
    var i := 0;
    while i < numWorkers
      invariant 0 <= i <= numWorkers && |chunks| == i
      invariant start == Start(base, remainder, i)
      invariant 0 <= start <= |plan|
      invariant Flatten(chunks) == plan[..start]
      invariant forall j | 0 <= j < i :: |chunks[j]| == base + (if j < remainder then 1 else 0)
    {
      var size := base + (if i < remainder then 1 else 0);
      StartsWithin(numWorkers, base, remainder, i);
      assert plan[..start] + plan[start..start + size] == plan[..start + size];
      FlattenSnoc(chunks, plan[start..start + size]);
      chunks := chunks + [plan[start..start + size]];
      start := start + size;
      i := i + 1;
    }
    assert plan[..|plan|] == plan;
  }

  lemma FlattenSnoc<T>(chunks: seq<seq<T>>, last: seq<T>)
    ensures Flatten(chunks + [last]) == Flatten(chunks) + last
  {
    assert (chunks + [last])[..|chunks|] == chunks;
  }

  lemma DivMod(total: nat, n: nat)
    requires n >= 1
    ensures n * (total / n) + total % n == total && 0 <= total % n < n && total / n >= 0
  {
  }

  /** Where chunk `i` starts. */
  ghost function Start(base: nat, remainder: nat, i: nat): nat {
    i * base + (if i < remainder then i else remainder)
  }

  lemma StartsWithin(n: nat, base: nat, remainder: nat, i: nat)
    requires i < n && remainder < n
    ensures Start(base, remainder, 0) == 0
    ensures Start(base, remainder, i + 1) == Start(base, remainder, i) + base + (if i < remainder then 1 else 0)
    ensures Start(base, remainder, i + 1) <= n * base + remainder
    ensures Start(base, remainder, n) == n * base + remainder
  {
    assert (i + 1) * base == i * base + base;
    assert n * base == (i + 1) * base + (n - i - 1) * base;
    assert (n - i - 1) * base >= 0;
  }

  /** Merging the workers' statistics, one after the other. */
  function MergeAll(start: Tally, tallies: seq<Tally>): Tally
    decreases |tallies|
  {
    if tallies == [] then start
    else MergeTally(MergeAll(start, tallies[..|tallies| - 1]), tallies[|tallies| - 1])
  }

  lemma {:induction false} ReadsInAppend(xs: seq<PlanItem>, ys: seq<PlanItem>)
    ensures ReadsIn(xs + ys) == ReadsIn(xs) + ReadsIn(ys)
    decreases |xs|
  {
    if xs == [] {
      assert xs + ys == ys;
    } else {
      assert (xs + ys)[1..] == xs[1..] + ys;
      ReadsInAppend(xs[1..], ys);
    }
  }

  lemma MergeAccounts(a: Tally, done: seq<PlanItem>, b: Tally, more: seq<PlanItem>)
    requires Accounts(a, done) && Accounts(b, more)
    ensures Accounts(MergeTally(a, b), done + more)
  {
    MergeBalanced(a, b);
    ReadsInAppend(done, more);
  }

  lemma {:induction false} MergedAccounts(start: Tally, tallies: seq<Tally>, chunks: seq<seq<PlanItem>>)
    requires AllZero(start) && |tallies| == |chunks|
    requires forall i | 0 <= i < |chunks| :: Accounts(tallies[i], chunks[i])
    ensures Accounts(MergeAll(start, tallies), Flatten(chunks))
    decreases |chunks|
  {
    if chunks == [] {
      AllZeroBalanced(start);
    } else {
      var n := |chunks| - 1;
      MergedAccounts(start, tallies[..n], chunks[..n]);
      MergeAccounts(MergeAll(start, tallies[..n]), Flatten(chunks[..n]), tallies[n], chunks[n]);
    }
  }

  function Sum(counts: seq<nat>): nat
    decreases |counts|
  {
    if counts == [] then 0 else Sum(counts[..|counts| - 1]) + counts[|counts| - 1]
  }

  /** One column of the workers' books. */
  function Column(tallies: seq<Tally>, field: Tally -> nat): (column: seq<nat>)
    ensures |column| == |tallies| && forall i | 0 <= i < |column| :: column[i] == field(tallies[i])
  {
    seq(|tallies|, i requires 0 <= i < |tallies| => field(tallies[i]))
  }

  function Logs<T>(tallies: seq<Tally>, log: Tally -> seq<T>): (logs: seq<seq<T>>)
    ensures |logs| == |tallies| && forall i | 0 <= i < |logs| :: logs[i] == log(tallies[i])
  {
    seq(|tallies|, i requires 0 <= i < |tallies| => log(tallies[i]))
  }

  /** A field that merging adds up is, after all merges, what it was plus its column's sum. */
  lemma {:induction false} MergedColumn(start: Tally, tallies: seq<Tally>, field: Tally -> nat)
    requires forall a, b :: field(MergeTally(a, b)) == field(a) + field(b)
    ensures field(MergeAll(start, tallies)) == field(start) + Sum(Column(tallies, field))
    decreases |tallies|
  {
    if tallies != [] {
      var init := tallies[..|tallies| - 1];
      MergedColumn(start, init, field);
      var column := Column(tallies, field);
      assert column[..|column| - 1] == Column(init, field);
    }
  }

  lemma {:induction false} MergedLog<T>(start: Tally, tallies: seq<Tally>, log: Tally -> seq<T>)
    requires forall a, b :: log(MergeTally(a, b)) == log(a) + log(b)
    ensures log(MergeAll(start, tallies)) == log(start) + Flatten(Logs(tallies, log))
    decreases |tallies|
  {
    if tallies != [] {
      var init := tallies[..|tallies| - 1];
      MergedLog(start, init, log);
      var logs := Logs(tallies, log);
      assert logs[..|logs| - 1] == Logs(init, log);
      Concatenated(log(start), Flatten(Logs(init, log)), log(tallies[|tallies| - 1]));
    }
  }

  lemma Concatenated<T>(x: seq<T>, y: seq<T>, z: seq<T>)
    ensures (x + y) + z == x + (y + z)
  {
  }

  /** The merged statistics are the workers' added up, and their logs one behind another. */
  ghost predicate AddsUp(t: Tally, tallies: seq<Tally>) {
    && t.comparableReads == Sum(Column(tallies, (w: Tally) => w.comparableReads))
    && t.staleReads == Sum(Column(tallies, (w: Tally) => w.staleReads))
    && t.failedReads == Sum(Column(tallies, (w: Tally) => w.failedReads))
    && t.failedWrites == Sum(Column(tallies, (w: Tally) => w.failedWrites))
    && t.staleEvents == Flatten(Logs(tallies, (w: Tally) => w.staleEvents))
    && t.failureEvents == Flatten(Logs(tallies, (w: Tally) => w.failureEvents))
  }

  lemma MergedAddsUp(start: Tally, tallies: seq<Tally>)
    requires AllZero(start)
    ensures AddsUp(MergeAll(start, tallies), tallies)
  {
    MergedColumn(start, tallies, (w: Tally) => w.comparableReads);
    MergedColumn(start, tallies, (w: Tally) => w.staleReads);
    MergedColumn(start, tallies, (w: Tally) => w.failedReads);
    MergedColumn(start, tallies, (w: Tally) => w.failedWrites);
    MergedLog(start, tallies, (w: Tally) => w.staleEvents);
    MergedLog(start, tallies, (w: Tally) => w.failureEvents);
  }

  /** When every worker has accounted for its chunk of a divided plan, the merged statistics
      account for the plan: every planned request once, as the read or write it was; stale
      reads among the comparable ones, comparable and failed reads among the reads, and the
      failure counts summing to the failures. */
  lemma RunAccounting(plan: seq<PlanItem>, chunks: seq<seq<PlanItem>>, tallies: seq<Tally>, start: Tally)
    returns (t: Tally)
    requires Flatten(chunks) == plan && |tallies| == |chunks| && AllZero(start)
    requires forall i | 0 <= i < |chunks| :: Accounts(tallies[i], chunks[i])
    ensures t == MergeAll(start, tallies) && Accounts(t, plan)
    ensures t.totalRequests == |plan| == t.totalReads + t.totalWrites && t.totalReads == ReadsIn(plan)
    ensures t.staleReads <= t.comparableReads && t.comparableReads + t.failedReads <= t.totalReads
    ensures |t.failureCounts| == t.failedReads + t.failedWrites
    ensures AddsUp(t, tallies)
  {
    MergedAddsUp(start, tallies);
    MergedAccounts(start, tallies, chunks);
    t := MergeAll(start, tallies);
    FailureCountsSum(t);
  }
}
