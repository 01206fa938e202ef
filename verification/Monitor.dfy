/** The load test running beside the cluster it measures, as one step system. */
module Monitor {
  import opened Versions
  import opened Storage
  import opened Topology
  import opened Handlers
  import opened Cluster
  import opened ClusterSafety
  import opened Quorum
  import opened LoadTest

  /** Every worker writes with quorum `w`, rotating over `writers`, and reads with quorum
      `r` at the planned one of `readers`. */
  datatype Setup = Setup(cluster: Config, w: int, r: int, writers: seq<Port>, readers: seq<Port>)

  ghost predicate ValidSetup(u: Setup) {
    && ValidConfig(u.cluster)
    && 1 <= u.w <= |u.cluster.nodes| && 1 <= u.r <= |u.cluster.nodes|
    && u.writers != []
    && (forall i | 0 <= i < |u.writers| :: u.writers[i] in Members(u.cluster))
    && (forall i | 0 <= i < |u.readers| :: u.readers[i] in Members(u.cluster))
  }

  /** What a worker is waiting for; `request` is absent while its request is on the way. */
  datatype Activity =
    | Idle
    | Writing(key: Key, value: Value, node: Port, request: Option<nat>)
    | Reading(key: Key, expected: SourceEntry, node: Port, request: Option<nat>)

  datatype Worker = Worker(todo: seq<PlanItem>, tally: Tally, activity: Activity)

  datatype MState = MState(cluster: State, truth: Truth, counter: nat, rotation: nat, workers: seq<Worker>)

  /** `Net` is any step of the cluster, requests of unrelated clients included; the rest
      are the workers'. A worker may give up on a request at any time, and the cluster
      carries on with it regardless. */
  datatype MStep =
    | Net(step: Step)
    | Start(x: nat)
    | IssueWrite(x: nat, timestamp: real)
    | IssueRead(x: nat, chosen: set<Port>)
    | Finish(x: nat)
    | GiveUp(x: nat, kind: FailureType)

  function WriteReplyOf(response: Response): WriteReply {
    match response
    case PutOk(applied, timestamp) => WriteOk(applied, timestamp)
    case _ => WriteFailed(Non2xx)
  }

  function ReadReplyOf(response: Response): ReadReply {
    match response
    case Found(v) => ReadFound(v.timestamp)
    case NotFound => ReadMissing
    case _ => ReadFailed(Non2xx)
  }

  ghost function MInit(u: Setup, plans: seq<seq<PlanItem>>): MState {
    MState(Init(u.cluster), map[], 0, 0, seq(|plans|, x requires 0 <= x < |plans| => Worker(plans[x], ZERO, Idle)))
  }

  ghost predicate MEnabled(u: Setup, m: MState, step: MStep) {
    match step
    case Net(inner) => Enabled(u.cluster, m.cluster, inner)
    case Start(x) =>
      && x < |m.workers| && m.workers[x].activity.Idle? && m.workers[x].todo != []
      && (m.workers[x].todo[0].isRead ==> m.workers[x].todo[0].target < |u.readers|)
    case IssueWrite(x, timestamp) =>
      && x < |m.workers| && m.workers[x].activity.Writing? && m.workers[x].activity.request.None?
      && Enabled(u.cluster, m.cluster, PutStep(u, m.workers[x].activity, timestamp))
    case IssueRead(x, chosen) =>
      && x < |m.workers| && m.workers[x].activity.Reading? && m.workers[x].activity.request.None?
      && Enabled(u.cluster, m.cluster, GetStep(u, m.workers[x].activity, chosen))
    case Finish(x) =>
      && x < |m.workers| && !m.workers[x].activity.Idle? && m.workers[x].activity.request.Some?
      && m.workers[x].activity.request.value < |m.cluster.requests|
      && m.cluster.requests[m.workers[x].activity.request.value].status.Answered?
    case GiveUp(x, kind) => x < |m.workers| && !m.workers[x].activity.Idle?
  }

  function PutStep(u: Setup, a: Activity, timestamp: real): Step
    requires a.Writing?
  {
    BeginPut(a.node, a.key, a.value, timestamp, u.w)
  }

  function GetStep(u: Setup, a: Activity, chosen: set<Port>): Step
    requires a.Reading?
  {
    BeginGet(a.node, a.key, u.r, chosen)
  }

  /** Take the next planned item: draw a value and a coordinator for a write; for a read,
      snapshot the truth first and skip the request if there is nothing to compare with. */
  ghost function Started(u: Setup, m: MState, x: nat): MState
    requires u.writers != [] && MEnabled(u, m, Start(x))
  {
    var item := m.workers[x].todo[0];
    var worker := m.workers[x].(todo := m.workers[x].todo[1..], tally := BeginItem(m.workers[x].tally, item));
    if !item.isRead then
      var node := u.writers[m.rotation % |u.writers|];
      m.(counter := m.counter + 1, rotation := m.rotation + 1,
         workers := m.workers[x := worker.(activity := Writing(item.key, m.counter, node, None))])
    else if item.key !in m.truth then m.(workers := m.workers[x := worker])
    else
      m.(workers := m.workers[x := worker.(activity := Reading(item.key, m.truth[item.key], u.readers[item.target],
                                                               None))])
  }

  /** The worker has an answer, or an exception. */
  function Settled(m: MState, x: nat, written: WriteReply, got: ReadReply): MState
    requires x < |m.workers|
  {
    var worker := m.workers[x];
    match worker.activity
    case Idle => m
    case Writing(key, value, node, _) =>
      m.(truth := TruthAfterWrite(m.truth, key, value, written),
         workers := m.workers[x := worker.(activity := Idle, tally := AfterWrite(worker.tally, key, node, written))])
    case Reading(key, expected, node, _) =>
      m.(workers := m.workers[x := worker.(activity := Idle,
                                           tally := AfterRead(worker.tally, key, node, expected, got))])
  }

  /** The request is now the coordinator's number `i`. */
  function Issued(a: Activity, i: nat): Activity {
    match a
    case Idle => Idle
    case Writing(key, value, node, _) => Writing(key, value, node, Some(i))
    case Reading(key, expected, node, _) => Reading(key, expected, node, Some(i))
  }

  ghost function MApply(u: Setup, m: MState, step: MStep): MState
    requires u.writers != [] && WellFormed(u.cluster, m.cluster) && MEnabled(u, m, step)
  {
    match step
    case Net(inner) => m.(cluster := Apply(u.cluster, m.cluster, inner))
    case Start(x) => Started(u, m, x)
    case IssueWrite(x, timestamp) =>
      m.(cluster := Apply(u.cluster, m.cluster, PutStep(u, m.workers[x].activity, timestamp)),
         workers := m.workers[x := m.workers[x].(activity := Issued(m.workers[x].activity, |m.cluster.requests|))])
    case IssueRead(x, chosen) =>
      m.(cluster := Apply(u.cluster, m.cluster, GetStep(u, m.workers[x].activity, chosen)),
         workers := m.workers[x := m.workers[x].(activity := Issued(m.workers[x].activity, |m.cluster.requests|))])
    case Finish(x) =>
      var response := m.cluster.requests[m.workers[x].activity.request.value].status.response;
      Settled(m, x, WriteReplyOf(response), ReadReplyOf(response))
    case GiveUp(x, kind) => Settled(m, x, WriteFailed(kind), ReadFailed(kind))
  }

  /** The cluster step a step of the whole performs, if any. */
  ghost function Induced(u: Setup, m: MState, step: MStep): Option<Step>
    requires MEnabled(u, m, step)
  {
    match step
    case Net(inner) => Some(inner)
    case IssueWrite(x, timestamp) => Some(PutStep(u, m.workers[x].activity, timestamp))
    case IssueRead(x, chosen) => Some(GetStep(u, m.workers[x].activity, chosen))
    case _ => None
  }

  ghost predicate MLegal(u: Setup, m: MState, steps: seq<MStep>)
    decreases |steps|
  {
    && u.writers != [] && WellFormed(u.cluster, m.cluster)
    && (steps == [] || (MEnabled(u, m, steps[0]) && MLegal(u, MApply(u, m, steps[0]), steps[1..])))
  }

  ghost function MExec(u: Setup, m: MState, steps: seq<MStep>): MState
    requires MLegal(u, m, steps)
    decreases |steps|
  {
    if steps == [] then m else MExec(u, MApply(u, m, steps[0]), steps[1..])
  }

  // ----- The invariant of the whole

  /** The least version with timestamp `ts`: covering it means being at least that recent. */
  function Floor(ts: real): VersionedValue {
    VersionedValue(0, ts, "")
  }

  lemma FloorMeansTimestamp(v: VersionedValue, ts: real)
    ensures AtLeast(v, Floor(ts)) <==> v.timestamp >= ts
  {
  }

  /** At least `w` nodes hold something as recent as `ts`. */
  ghost predicate HeldSince(stores: map<Port, Store>, k: Key, ts: real, w: int) {
    |Holders(stores, k, Floor(ts))| >= w
  }

  ghost predicate TruthHeld(u: Setup, m: MState) {
    forall k | k in m.truth && k !in m.cluster.deleted :: HeldSince(m.cluster.stores, k, m.truth[k].timestamp, u.w)
  }

  ghost predicate ActivityOk(u: Setup, s: State, a: Activity) {
    match a
    case Idle => true
    case Writing(key, value, node, request) =>
      request.Some? ==>
        && request.value < |s.requests|
        && var q := s.requests[request.value];
           q.op.Write? && q.key == key && q.quorum == u.w && q.op.version.value == value
    case Reading(key, expected, node, request) =>
      if request.None? then key !in s.deleted ==> HeldSince(s.stores, key, expected.timestamp, u.w)
      else
        && request.value < |s.requests|
        && var q := s.requests[request.value];
           && q.op.Read? && q.key == key && q.quorum == u.r
           && (key !in s.deleted ==> HeldSince(q.before, key, expected.timestamp, u.w))
  }

  /** Only reads of deleted keys were ever counted as stale. */
  ghost predicate StaleOnlyIfDeleted(deleted: set<Key>, t: Tally) {
    t.staleReads == |t.staleEvents| && forall i | 0 <= i < |t.staleEvents| :: t.staleEvents[i].key in deleted
  }

  ghost predicate MInv(u: Setup, m: MState) {
    && ValidSetup(u) && Inv(u.cluster, m.cluster)
    && TruthHeld(u, m)
    && (forall x | 0 <= x < |m.workers| :: ActivityOk(u, m.cluster, m.workers[x].activity))
    && (forall x | 0 <= x < |m.workers| :: StaleOnlyIfDeleted(m.cluster.deleted, m.workers[x].tally))
  }

  lemma HeldSinceRises(earlier: map<Port, Store>, later: map<Port, Store>, deleted: set<Key>, k: Key, ts: real, w: int)
    requires Rises(earlier, later, deleted) && k !in deleted && HeldSince(earlier, k, ts, w)
    ensures HeldSince(later, k, ts, w)
  {
    HoldersRise(earlier, later, deleted, k, Floor(ts));
  }

  lemma ActivityStaysOk(u: Setup, s: State, step: Step, a: Activity)
    requires Inv(u.cluster, s) && Enabled(u.cluster, s, step) && ActivityOk(u, s, a)
    ensures ActivityOk(u, Apply(u.cluster, s, step), a)
  {
    var s' := Apply(u.cluster, s, step);
    StepRises(u.cluster, s, step);
    StepContinues(u.cluster, s, step);
    OnlySubjectChanges(u.cluster, s, step);
    if !a.Idle? && a.request.Some? {
      assert Continues(s.requests[a.request.value], s'.requests[a.request.value]);
    }
    if a.Reading? && a.request.None? && a.key !in s'.deleted {
      HeldSinceRises(s.stores, s'.stores, s'.deleted, a.key, a.expected.timestamp, u.w);
    }
  }

  /** Any cluster step, whoever caused it, keeps the workers' side of the invariant. */
  lemma ClusterStepKeeps(u: Setup, m: MState, step: Step)
    requires MInv(u, m) && Enabled(u.cluster, m.cluster, step)
    ensures MInv(u, m.(cluster := Apply(u.cluster, m.cluster, step)))
  {
    var s, s' := m.cluster, Apply(u.cluster, m.cluster, step);
    InvStep(u.cluster, s, step);
    StepRises(u.cluster, s, step);
    forall k | k in m.truth && k !in s'.deleted ensures HeldSince(s'.stores, k, m.truth[k].timestamp, u.w) {
      HeldSinceRises(s.stores, s'.stores, s'.deleted, k, m.truth[k].timestamp, u.w);
    }
    forall x | 0 <= x < |m.workers| ensures ActivityOk(u, s', m.workers[x].activity) {
      ActivityStaysOk(u, s, step, m.workers[x].activity);
    }
  }

  /** What an answered write proves about the cluster at that moment. */
  lemma AnsweredWriteHeld(u: Setup, m: MState, i: nat)
    requires MInv(u, m) && i < |m.cluster.requests|
    requires var q := m.cluster.requests[i];
             && q.op.Write? && q.quorum == u.w && q.key !in m.cluster.deleted
             && q.status.Answered? && q.status.response.PutOk?
    ensures var q := m.cluster.requests[i];
            HeldSince(m.cluster.stores, q.key, q.status.response.timestamp, u.w)
  {
    var s, q := m.cluster, m.cluster.requests[i];
    AckedWriteIsHeld(u.cluster, s, i);
    assert RequestOk(s.stores.Keys, q);
    var v := q.op.version;
    FloorMeansTimestamp(v, v.timestamp);
    forall n | n in Holders(s.stores, q.key, v) ensures n in Holders(s.stores, q.key, Floor(v.timestamp)) {
      AtLeastTransitive(s.stores[n][q.key], v, Floor(v.timestamp));
    }
    SubsetCount(Holders(s.stores, q.key, v), Holders(s.stores, q.key, Floor(v.timestamp)));
  }

  /** What an answered read proves: with overlapping quorums it cannot look stale. */
  lemma AnsweredReadNotStale(u: Setup, m: MState, j: nat, expected: SourceEntry)
    requires MInv(u, m) && u.w + u.r > |u.cluster.nodes|
    requires j < |m.cluster.requests|
    requires var q := m.cluster.requests[j];
             && q.op.Read? && q.quorum == u.r && q.key !in m.cluster.deleted
             && q.status.Answered? && HeldSince(q.before, q.key, expected.timestamp, u.w)
    ensures !OlderThan(ReadReplyOf(m.cluster.requests[j].status.response), expected)
  {
    var q := m.cluster.requests[j];
    if !q.status.response.Unavailable? {
      ReadIsFresh(u.cluster, m.cluster, j, Floor(expected.timestamp));
      FloorMeansTimestamp(q.status.response.version, expected.timestamp);
    }
  }

  lemma SettledKeeps(u: Setup, m: MState, x: nat, written: WriteReply, got: ReadReply)
    requires MInv(u, m) && x < |m.workers|
    requires var a := m.workers[x].activity;
             && (a.Writing? && written.WriteOk? && a.key !in m.cluster.deleted ==>
                   HeldSince(m.cluster.stores, a.key, written.timestamp, u.w))
             && (a.Reading? && a.key !in m.cluster.deleted ==> !OlderThan(got, a.expected))
    ensures MInv(u, Settled(m, x, written, got))
  {
    var m', t := Settled(m, x, written, got), m.workers[x].tally;
    assert StaleOnlyIfDeleted(m.cluster.deleted, t);
    assert StaleOnlyIfDeleted(m.cluster.deleted, m'.workers[x].tally);
    forall k | k in m'.truth && k !in m.cluster.deleted
      ensures HeldSince(m.cluster.stores, k, m'.truth[k].timestamp, u.w)
    {
    }
  }

  lemma FinishKeeps(u: Setup, m: MState, x: nat)
    requires MInv(u, m) && MEnabled(u, m, Finish(x)) && u.w + u.r > |u.cluster.nodes|
    ensures MInv(u, MApply(u, m, Finish(x)))
  {
    var a := m.workers[x].activity;
    assert ActivityOk(u, m.cluster, a);
    var i := a.request.value;
    var q := m.cluster.requests[i];
    if a.key !in m.cluster.deleted {
      if a.Writing? && q.status.response.PutOk? {
        AnsweredWriteHeld(u, m, i);
      }
      if a.Reading? {
        AnsweredReadNotStale(u, m, i, a.expected);
      }
    }
    SettledKeeps(u, m, x, WriteReplyOf(q.status.response), ReadReplyOf(q.status.response));
  }

  lemma StartKeeps(u: Setup, m: MState, x: nat)
    requires MInv(u, m) && MEnabled(u, m, Start(x))
    ensures MInv(u, MApply(u, m, Start(x)))
  {
    var m' := MApply(u, m, Start(x));
    assert StaleOnlyIfDeleted(m.cluster.deleted, m.workers[x].tally);
    assert ActivityOk(u, m.cluster, m'.workers[x].activity);
  }

  lemma IssueKeeps(u: Setup, m: MState, step: MStep)
    requires MInv(u, m) && MEnabled(u, m, step) && (step.IssueWrite? || step.IssueRead?)
    ensures MInv(u, MApply(u, m, step))
  {
    var inner := Induced(u, m, step).value;
    var m', m1 := MApply(u, m, step), m.(cluster := Apply(u.cluster, m.cluster, inner));
    ClusterStepKeeps(u, m, inner);
    IssuedOk(u, m, step);
    ActivityReplaced(u, m1, step.x, Issued(m.workers[step.x].activity, |m.cluster.requests|));
    assert m' == m1.(workers := m'.workers);
  }

  lemma IssuedOk(u: Setup, m: MState, step: MStep)
    requires MInv(u, m) && MEnabled(u, m, step) && (step.IssueWrite? || step.IssueRead?)
    ensures ActivityOk(u, Apply(u.cluster, m.cluster, Induced(u, m, step).value),
                       Issued(m.workers[step.x].activity, |m.cluster.requests|))
  {
    var inner := Induced(u, m, step).value;
    StepRises(u.cluster, m.cluster, inner);
    assert ActivityOk(u, m.cluster, m.workers[step.x].activity);
  }

  lemma ActivityReplaced(u: Setup, m: MState, x: nat, a: Activity)
    requires MInv(u, m) && x < |m.workers| && ActivityOk(u, m.cluster, a)
    ensures MInv(u, m.(workers := m.workers[x := m.workers[x].(activity := a)]))
  {
    assert StaleOnlyIfDeleted(m.cluster.deleted, m.workers[x].tally);
  }

  lemma MInvStep(u: Setup, m: MState, step: MStep)
    requires MInv(u, m) && MEnabled(u, m, step) && u.w + u.r > |u.cluster.nodes|
    ensures MInv(u, MApply(u, m, step))
  {
    match step
    case Net(inner) => ClusterStepKeeps(u, m, inner);
    case Start(x) => StartKeeps(u, m, x);
    case IssueWrite(x, timestamp) => IssueKeeps(u, m, step);
    case IssueRead(x, chosen) => IssueKeeps(u, m, step);
    case Finish(x) => FinishKeeps(u, m, x);
    case GiveUp(x, kind) => SettledKeeps(u, m, x, WriteFailed(kind), ReadFailed(kind));
  }

  lemma {:induction false} MRunKeepsInv(u: Setup, m: MState, steps: seq<MStep>)
    requires MInv(u, m) && MLegal(u, m, steps) && u.w + u.r > |u.cluster.nodes|
    ensures MInv(u, MExec(u, m, steps))
    decreases |steps|
  {
    if steps != [] {
      MInvStep(u, m, steps[0]);
      MRunKeepsInv(u, MApply(u, m, steps[0]), steps[1..]);
    }
  }

  /** Stale reads counted by all workers together. */
  function TotalStale(workers: seq<Worker>): nat
    decreases |workers|
  {
    if workers == [] then 0 else workers[0].tally.staleReads + TotalStale(workers[1..])
  }

  lemma {:induction false} NoneStale(workers: seq<Worker>)
    requires forall x | 0 <= x < |workers| :: workers[x].tally.staleReads == 0
    ensures TotalStale(workers) == 0
    decreases |workers|
  {
    if workers != [] {
      NoneStale(workers[1..]);
    }
  }

  lemma StaleNeedsDelete(deleted: set<Key>, t: Tally)
    requires StaleOnlyIfDeleted(deleted, t)
    ensures t.staleReads > 0 ==> deleted != {}
  {
    if t.staleReads > 0 {
      assert t.staleEvents[0].key in deleted;
    }
  }

  lemma MInvInit(u: Setup, plans: seq<seq<PlanItem>>)
    requires ValidSetup(u)
    ensures MInv(u, MInit(u, plans))
  {
    InvInit(u.cluster);
  }

  /** With w + r > N the load test never counts a stale read on a key that no one deleted:
      for any plans, any number of workers, any interleaving, and any failures on the way.
      Without deletes it counts none at all. */
  lemma NoStaleReads(u: Setup, plans: seq<seq<PlanItem>>, steps: seq<MStep>)
    requires ValidSetup(u) && u.w + u.r > |u.cluster.nodes|
    requires MLegal(u, MInit(u, plans), steps)
    ensures var m := MExec(u, MInit(u, plans), steps);
            && (forall x, i | 0 <= x < |m.workers| && 0 <= i < |m.workers[x].tally.staleEvents| ::
                  m.workers[x].tally.staleEvents[i].key in m.cluster.deleted)
            && (m.cluster.deleted == {} ==> TotalStale(m.workers) == 0)
  {
    MInvInit(u, plans);
    MRunKeepsInv(u, MInit(u, plans), steps);
    var m := MExec(u, MInit(u, plans), steps);
    if m.cluster.deleted == {} {
      forall x | 0 <= x < |m.workers| ensures m.workers[x].tally.staleReads == 0 {
        StaleNeedsDelete(m.cluster.deleted, m.workers[x].tally);
      }
      NoneStale(m.workers);
    }
  }
}
