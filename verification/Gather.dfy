/** Fan-out and waiting: the loop that every quorum write, quorum read and replicated
    write goes through, and the answers the handlers compute from what it collects. */
module Gather {
  import opened Versions
  import opened Topology

  /** A contacted peer's task; `counts` says whether its result is an ack / a response. */
  datatype Task = Running | Finished(counts: bool, value: Option<VersionedValue>)

  /** A counting result. The code keeps only the value; the sender is a history tag. */
  datatype Reply = Reply(from: Port, value: Option<VersionedValue>)

  /** What one turn of the waiting loop meets. */
  datatype Wake = DeadlinePassed | WaitTimedOut | Woken(done: seq<Port>) | Cancelled

  datatype Exit = LoopDone | GaveUp | Interrupted

  ghost predicate AllFinished(results: map<Port, Task>, ps: seq<Port>) {
    forall i | 0 <= i < |ps| :: ps[i] in results && results[ps[i]].Finished?
  }

  /** The counting results among `done`, in that order. */
  function Counting(results: map<Port, Task>, done: seq<Port>): seq<Reply>
    requires AllFinished(results, done)
    decreases |done|
  {
    if done == [] then []
    else
      (if results[done[0]].counts then [Reply(done[0], results[done[0]].value)] else [])
      + Counting(results, done[1..])
  }

  /** A wait hands back sends that were pending and have finished, each once, and never
      nothing. Sends it does not hand back may be running still. */
  ghost predicate ScheduleFits(results: map<Port, Task>, pending: set<Port>, schedule: seq<Wake>)
    decreases |schedule|
  {
    schedule != [] && schedule[0].Woken? ==>
      && schedule[0].done != []
      && NoDuplicates(schedule[0].done)
      && Elements(schedule[0].done) <= pending
      && AllFinished(results, schedule[0].done)
      && ScheduleFits(results, pending - Elements(schedule[0].done), schedule[1..])
  }

  /** How many batches the loop takes in, and why it stops. */
  ghost function Loop(results: map<Port, Task>, pending: set<Port>, got: nat, needed: int, schedule: seq<Wake>)
    : (r: (seq<Port>, Exit))
    requires ScheduleFits(results, pending, schedule)
    decreases |schedule|
  {
    if pending == {} || got >= needed then ([], LoopDone)
    else if schedule == [] then ([], GaveUp)
    else match schedule[0]
      case DeadlinePassed => ([], GaveUp)
      case WaitTimedOut => ([], GaveUp)
      case Cancelled => ([], Interrupted)
      case Woken(done) =>
        var rest := Loop(results, pending - Elements(done), got + |Counting(results, done)|, needed, schedule[1..]);
        (done + rest.0, rest.1)
  }

  lemma {:induction false} CountingAppend(results: map<Port, Task>, xs: seq<Port>, ys: seq<Port>)
    requires AllFinished(results, xs) && AllFinished(results, ys)
    ensures AllFinished(results, xs + ys)
    ensures Counting(results, xs + ys) == Counting(results, xs) + Counting(results, ys)
    decreases |xs|
  {
    var all := xs + ys;
    assert AllFinished(results, all);
    if xs == [] {
      assert all == ys;
    } else {
      assert all[0] == xs[0] && all[1..] == xs[1..] + ys;
      CountingAppend(results, xs[1..], ys);
      var head := if results[xs[0]].counts then [Reply(xs[0], results[xs[0]].value)] else [];
      assert Counting(results, all) == head + Counting(results, all[1..]);
      assert Counting(results, xs) == head + Counting(results, xs[1..]);
    }
  }

  lemma {:induction false} CountingSenders(results: map<Port, Task>, done: seq<Port>)
    requires AllFinished(results, done)
    ensures |Counting(results, done)| <= |done|
    ensures forall r | r in Counting(results, done) ::
              r.from in done && results[r.from] == Finished(true, r.value)
    ensures forall p | p in done && results[p].counts :: Reply(p, results[p].value) in Counting(results, done)
    decreases |done|
  {
    if done != [] {
      CountingSenders(results, done[1..]);
    }
  }

  lemma {:induction false} CountingDistinct(results: map<Port, Task>, done: seq<Port>)
    requires AllFinished(results, done) && NoDuplicates(done)
    ensures forall i, j | 0 <= i < j < |Counting(results, done)| ::
              Counting(results, done)[i].from != Counting(results, done)[j].from
    decreases |done|
  {
    if done != [] {
      CountingDistinct(results, done[1..]);
      CountingSenders(results, done[1..]);
      var rest := Counting(results, done[1..]);
      forall r | r in rest ensures r.from != done[0] {
        assert r.from in done[1..];
      }
    }
  }

  /** On every exit each task was taken in once or is still pending, and the loop ends of
      its own accord exactly when enough results count or no task is left. */
  lemma {:induction false} LoopConserves(results: map<Port, Task>, pending: set<Port>, got: nat, needed: int,
                                         schedule: seq<Wake>)
    requires ScheduleFits(results, pending, schedule)
    ensures var r := Loop(results, pending, got, needed, schedule);
            && NoDuplicates(r.0) && Elements(r.0) <= pending
            && AllFinished(results, r.0)
            && (r.1.LoopDone? <==> got + |Counting(results, r.0)| >= needed || Elements(r.0) == pending)
    decreases |schedule|
  {
    assert Elements<Port>([]) == {};
    if pending != {} && got < needed && schedule != [] && schedule[0].Woken? {
      var done := schedule[0].done;
      var left, got' := pending - Elements(done), got + |Counting(results, done)|;
      var rest := Loop(results, left, got', needed, schedule[1..]).0;
      LoopConserves(results, left, got', needed, schedule[1..]);
      CountingAppend(results, done, rest);
      ElementsAppend(done, rest);
      NoDuplicatesAppend(done, rest);
    }
  }

  /** Nothing is taken in beyond need: if anything was taken in, the loop was still short
      of `needed` before its last batch. */
  lemma {:induction false} LoopStopsInTime(results: map<Port, Task>, pending: set<Port>, got: nat, needed: int,
                                           schedule: seq<Wake>)
    returns (cut: nat)
    requires ScheduleFits(results, pending, schedule)
    requires Loop(results, pending, got, needed, schedule).0 != []
    ensures var consumed := Loop(results, pending, got, needed, schedule).0;
            && cut < |consumed|
            && AllFinished(results, consumed[..cut])
            && got + |Counting(results, consumed[..cut])| < needed
            && exists n | 0 <= n < |schedule| :: schedule[n] == Woken(consumed[cut..])
    decreases |schedule|
  {
    var done := schedule[0].done;
    var left, got' := pending - Elements(done), got + |Counting(results, done)|;
    var rest := Loop(results, left, got', needed, schedule[1..]).0;
    var consumed := done + rest;
    if rest == [] {
      cut := 0;
      assert consumed[..0] == [] && consumed[0..] == done;
      assert schedule[0] == Woken(consumed[cut..]);
    } else {
      var c := LoopStopsInTime(results, left, got', needed, schedule[1..]);
      cut := |done| + c;
      CountingAppend(results, done, rest[..c]);
      assert consumed[..cut] == done + rest[..c];
      assert consumed[cut..] == rest[c..];
      var n :| 0 <= n < |schedule[1..]| && schedule[1..][n] == Woken(rest[c..]);
      assert schedule[n + 1] == Woken(consumed[cut..]);
    }
  }

  lemma NoDuplicatesAppend(xs: seq<Port>, ys: seq<Port>)
    requires NoDuplicates(xs) && NoDuplicates(ys) && Elements(xs) !! Elements(ys)
    ensures NoDuplicates(xs + ys)
  {
    forall i, j | 0 <= i < j < |xs + ys| ensures (xs + ys)[i] != (xs + ys)[j] {
      if i < |xs| <= j {
        assert xs[i] in Elements(xs) && ys[j - |xs|] in Elements(ys);
      }
    }
  }

  /** The loop's state after `turn` batches, `consumed` being what they held. */
  ghost predicate Midway(results: map<Port, Task>, tasks: set<Port>, needed: int, schedule: seq<Wake>,
                         turn: nat, consumed: seq<Port>)
    requires ScheduleFits(results, tasks, schedule)
  {
    && turn <= |schedule|
    && AllFinished(results, consumed)
    && ScheduleFits(results, tasks - Elements(consumed), schedule[turn..])
    && var rest := Loop(results, tasks - Elements(consumed), |Counting(results, consumed)|, needed, schedule[turn..]);
       Loop(results, tasks, 0, needed, schedule) == (consumed + rest.0, rest.1)
  }

  lemma MidwayStart(results: map<Port, Task>, tasks: set<Port>, needed: int, schedule: seq<Wake>)
    requires ScheduleFits(results, tasks, schedule)
    ensures Midway(results, tasks, needed, schedule, 0, [])
  {
    assert schedule[0..] == schedule;
    assert tasks - Elements<Port>([]) == tasks;
    assert Loop(results, tasks, 0, needed, schedule).0 == [] + Loop(results, tasks, 0, needed, schedule).0;
  }

  lemma LoopTakesBatch(results: map<Port, Task>, pending: set<Port>, got: nat, needed: int, schedule: seq<Wake>,
                       turn: nat)
    requires turn < |schedule| && schedule[turn].Woken? && ScheduleFits(results, pending, schedule[turn..])
    requires pending != {} && got < needed
    ensures var done := schedule[turn].done;
            && AllFinished(results, done) && ScheduleFits(results, pending - Elements(done), schedule[turn + 1..])
            && var rest := Loop(results, pending - Elements(done), got + |Counting(results, done)|, needed,
                                schedule[turn + 1..]);
               Loop(results, pending, got, needed, schedule[turn..]) == (done + rest.0, rest.1)
  {
    assert schedule[turn..][0] == schedule[turn];
    assert schedule[turn..][1..] == schedule[turn + 1..];
  }

  lemma MidwayAdvance(results: map<Port, Task>, tasks: set<Port>, needed: int, schedule: seq<Wake>,
                      turn: nat, consumed: seq<Port>)
    requires ScheduleFits(results, tasks, schedule)
    requires Midway(results, tasks, needed, schedule, turn, consumed)
    requires turn < |schedule| && schedule[turn].Woken?
    requires tasks - Elements(consumed) != {} && |Counting(results, consumed)| < needed
    ensures var done := schedule[turn].done;
            && AllFinished(results, done)
            && Counting(results, consumed + done) == Counting(results, consumed) + Counting(results, done)
            && Elements(consumed + done) == Elements(consumed) + Elements(done)
            && Midway(results, tasks, needed, schedule, turn + 1, consumed + done)
  {
    var done, pending, got := schedule[turn].done, tasks - Elements(consumed), |Counting(results, consumed)|;
    LoopTakesBatch(results, pending, got, needed, schedule, turn);
    CountingAppend(results, consumed, done);
    ElementsAppend(consumed, done);
    MidwayMoves(results, tasks, needed, schedule, turn, consumed, done, pending - Elements(done),
                got + |Counting(results, done)|);
  }

  lemma MidwayMoves(results: map<Port, Task>, tasks: set<Port>, needed: int, schedule: seq<Wake>,
                    turn: nat, consumed: seq<Port>, done: seq<Port>, pending: set<Port>, got: nat)
    requires ScheduleFits(results, tasks, schedule)
    requires turn < |schedule| && AllFinished(results, consumed + done)
    requires pending == tasks - Elements(consumed + done) && got == |Counting(results, consumed + done)|
    requires ScheduleFits(results, pending, schedule[turn + 1..])
    requires var rest := Loop(results, pending, got, needed, schedule[turn + 1..]);
             Loop(results, tasks, 0, needed, schedule) == (consumed + (done + rest.0), rest.1)
    ensures Midway(results, tasks, needed, schedule, turn + 1, consumed + done)
  {
    var rest := Loop(results, pending, got, needed, schedule[turn + 1..]);
    assert consumed + (done + rest.0) == (consumed + done) + rest.0;
  }

  lemma MidwayStop(results: map<Port, Task>, tasks: set<Port>, needed: int, schedule: seq<Wake>,
                   turn: nat, consumed: seq<Port>)
    requires ScheduleFits(results, tasks, schedule)
    requires Midway(results, tasks, needed, schedule, turn, consumed)
    requires tasks - Elements(consumed) == {} || |Counting(results, consumed)| >= needed
             || turn == |schedule| || !schedule[turn].Woken?
    ensures Loop(results, tasks, 0, needed, schedule) == (consumed,
              if tasks - Elements(consumed) == {} || |Counting(results, consumed)| >= needed then LoopDone
              else if turn < |schedule| && schedule[turn].Cancelled? then Interrupted
              else GaveUp)
  {
    if turn < |schedule| {
      assert schedule[turn..][0] == schedule[turn];
    }
    assert consumed + [] == consumed;
  }

  /** The inner loop: keep the results that count. */
  method CountingOf(results: map<Port, Task>, done: seq<Port>) returns (replies: seq<Reply>)
    requires AllFinished(results, done)
    ensures replies == Counting(results, done)
  {
    replies := [];
    var i := 0;
    while i < |done|
      invariant 0 <= i <= |done|
      invariant AllFinished(results, done[..i]) && replies == Counting(results, done[..i])
    {
      assert done[..i + 1] == done[..i] + [done[i]];
      CountingAppend(results, done[..i], [done[i]]);
      if results[done[i]].counts {
        replies := replies + [Reply(done[i], results[done[i]].value)];
      }
      i := i + 1;
    }
    assert done[..|done|] == done;
  }

  datatype TaskId = TaskId(request: nat, peer: Port)

  function TasksOf(request: nat, peers: set<Port>): set<TaskId> {
    set p | p in peers :: TaskId(request, p)
  }

  /** The waiting loop of the quorum coordinator. */
  class QuorumCoordinator {
    var background: set<TaskId>

    constructor ()
      ensures background == {}
    {
      background := {};
    }

    /** Whatever ends the wait, even cancellation, every task not taken in is handed to
        `background`, so no unfinished task loses its only reference. */
    method Gather(request: nat, peers: set<Port>, results: map<Port, Task>, needed: int, schedule: seq<Wake>)
      returns (collected: seq<Reply>, exit: Exit)
      requires ScheduleFits(results, peers, schedule)
      modifies this
      ensures var r := Loop(results, peers, 0, needed, schedule);
              && AllFinished(results, r.0)
              && collected == Counting(results, r.0)
              && exit == r.1
              && background == old(background) + TasksOf(request, peers - Elements(r.0))
    {
      var pending := peers;
      collected := [];
      exit := LoopDone;
      var turn := 0;
      ghost var consumed: seq<Port> := [];
      MidwayStart(results, peers, needed, schedule);
      while pending != {} && |collected| < needed
        invariant Midway(results, peers, needed, schedule, turn, consumed)
        invariant pending == peers - Elements(consumed)
        invariant collected == Counting(results, consumed)
        invariant exit.LoopDone? && background == old(background)
        decreases pending
      {
        if turn == |schedule| || schedule[turn].DeadlinePassed? || schedule[turn].WaitTimedOut? {
          exit := GaveUp;
          break;
        }
        if schedule[turn].Cancelled? {
          MidwayStop(results, peers, needed, schedule, turn, consumed);
          exit := Interrupted;
          break;
        }
        var done := schedule[turn].done;
        assert done[0] in Elements(done);
        MidwayAdvance(results, peers, needed, schedule, turn, consumed);
        var batch := CountingOf(results, done);
        collected := collected + batch;
        pending := pending - Elements(done);
        consumed := consumed + done;
        turn := turn + 1;
      }
      MidwayStop(results, peers, needed, schedule, turn, consumed);
      background := HandOff(background, request, pending);
    }

    /** The done-callback of a handed-off task. */
    method Discard(task: TaskId)
      modifies this
      ensures background == old(background) - {task}
    {
      background := background - {task};
    }
  }

  /** Adds what is still pending to a background set. */
  method HandOff(background: set<TaskId>, request: nat, pending: set<Port>) returns (held: set<TaskId>)
    ensures held == background + TasksOf(request, pending)
  {
    held := background;
    var left := pending;
    while left != {}
      invariant left <= pending
      invariant held == background + TasksOf(request, pending - left)
    {
      var p := AnyPort(left);
      held := held + {TaskId(request, p)};
      assert pending - (left - {p}) == (pending - left) + {p};
      left := left - {p};
    }
    assert pending - left == pending;
  }

  method AnyPort(s: set<Port>) returns (p: Port)
    requires s != {}
    ensures p in s
  {
    ghost var some := AnyOf(s);
    p :| p in s;
  }

  /** The waiting loop of the leader's replicator: the same loop, counting acks only. */
  class Replicator {
    var background: set<TaskId>

    constructor ()
      ensures background == {}
    {
      background := {};
    }

    /** Unlike the coordinator's loop, the hand-off is not in a `finally`: a cancelled
        wait drops the references to the pending tasks. */
    method Replicate(request: nat, followers: set<Port>, results: map<Port, Task>, ackRequired: int,
                     schedule: seq<Wake>)
      returns (acked: nat, exit: Exit)
      requires ScheduleFits(results, followers, schedule)
      modifies this
      ensures var r := Loop(results, followers, 0, ackRequired, schedule);
              && AllFinished(results, r.0)
              && acked == |Counting(results, r.0)|
              && exit == r.1
              && background == if exit.Interrupted? then old(background)
                               else old(background) + TasksOf(request, followers - Elements(r.0))
    {
      var pending := followers;
      acked := 0;
      exit := LoopDone;
      var turn := 0;
      ghost var consumed: seq<Port> := [];
      MidwayStart(results, followers, ackRequired, schedule);
      while pending != {} && acked < ackRequired
        invariant Midway(results, followers, ackRequired, schedule, turn, consumed)
        invariant pending == followers - Elements(consumed)
        invariant acked == |Counting(results, consumed)|
        invariant exit.LoopDone? && background == old(background)
        decreases pending
      {
        if turn == |schedule| || schedule[turn].DeadlinePassed? || schedule[turn].WaitTimedOut? {
          exit := GaveUp;
          break;
        }
        if schedule[turn].Cancelled? {
          MidwayStop(results, followers, ackRequired, schedule, turn, consumed);
          return acked, Interrupted;
        }
        var done := schedule[turn].done;
        assert done[0] in Elements(done);
        MidwayAdvance(results, followers, ackRequired, schedule, turn, consumed);
        var batch := CountingOf(results, done);
        acked := acked + |batch|;
        pending := pending - Elements(done);
        consumed := consumed + done;
        turn := turn + 1;
      }
      MidwayStop(results, followers, ackRequired, schedule, turn, consumed);
      background := HandOff(background, request, pending);
    }
  }
}
