# Replication strategies: a verified model

This project models a small replicated key-value store and the load tests that measure it,
and proves what its three replication strategies do and do not guarantee.

- **Leaderless quorum.** Any node coordinates. A PUT is stored locally, sent to every peer and
  answered once w-1 peers acknowledge; a GET reads locally and asks exactly r-1 peers. The model
  is a step system (`Cluster`): delivery of a message, delivery of its answer, loss, and giving up
  are separate steps, so a send that "failed" may still have been applied, and floods outlive the
  requests that started them.
- **Leader-follower.** The leader waits for `ack_required` followers; a semaphore bounds the POSTs
  outstanding. Forgetting the semaphore leaves a run of the leaderless system with one writer,
  w = `ack_required` + 1 and r = 1 (`LeaderFollowerRefines`), so the safety results carry over.
- **Message queue.** A producer appends to per-partition logs; followers apply a message, then
  commit its offset; lag is computed from two numbers read at different moments.
- **Load test.** The workers, their record of confirmed writes and their counters run beside each
  strategy as one combined step system, so "the test measures zero stale reads" is a statement
  about all runs.
- **Results document.** The string function by which several scripts share one file.

All of it rests on last-write-wins stores (`Versions`, `Storage`): a strict order, total on
(timestamp, node id) stamps, and a store that is the join of what was put to it.

The central statements are exact. A quorum pair is safe over every run if and only if
w + r > N. The load test counts no stale read in any delete-free run if and only if w + r > N
(leaderless), or if and only if every follower must ack (leader-follower). In any one state a
GET can miss a version if and only if its coordinator and r-1 others lack it. A reported
total lag of 0 means "everything handled" if and only if no partition's lag is negative. An
updated section reads back if and only if its markers were both absent or in order before, and
the new content does not hold the section's end marker.

Where the repository's prose says more than its code does, the code is modelled.
`common/models.py:51-54` wants every node to land on the same winner of any two versions; the
code does so for versions with different stamps, and keeps whichever came first when stamps tie
(`TiedWritesDiverge`, `ArrivalOrderIrrelevantIff`). A total lag of 0 does not by itself mean caught
up (`ZeroTotalCanHideBacklog`), and a restarted follower can have no lag and no data
(`RestartForgets`). `replace_section` promises to leave other sections untouched and to replace
rather than append; it does so exactly on the texts that `OthersKeptIff`, `ReadBackIff` and
`LastWriteWinsIff` describe. `from_dict` accepts any list of ports, and a coordinator has N-1
peers only if its own port is listed exactly once (`PeersAreAllOthersIff`), so the quorum results
assume distinct ports.

How the layers connect: the classes and methods (`KVStore`, `QuorumCoordinator`, `Replicator`,
`LeaderlessNode`, `LeaderNode`, `SourceOfTruth`, `Stats`, the consume loop, the producer) are
proved against specification functions; the step systems use those same functions;
`GatherIsRun`, `PutIsRun` and `GetIsRun` (leaderless), `LeaderPutIsRun` (leader) and `LoopIsRun`
(queue follower) show that whatever these loops and handlers do, with the steps of everything
else in between, is a run of the step system made of just those steps and turns in that order;
`RunIsGather` shows that the steps do nothing the loop would not.

## Model

| member | source | states |
|---|---|---|
| Versions.NewerIsStrictTotalOnStamps | common/models.py:43-59 | `is_newer_than` is irreflexive, asymmetric and transitive, and two versions that are not newer than each other have equal stamps |
| Versions.StringGreaterIff | common/models.py:58-59 | the node-id tiebreak is the lexicographic order by character, the greater id being the one that goes on where the other ends or differs first with a greater character |
| Versions.NewerIff | common/models.py:56-59 | the newer version is the one with the later timestamp, or at equal timestamps with the greater node id in that order |
| Versions.StringTrichotomy | common/models.py:58-59 | that order decides every pair of different ids one way only |
| Storage.KVStore.Put | common/storage.py:36-62 | accepted exactly if the slot is empty, the timestamp later, or equal with the greater node id; then the slot holds exactly this write, otherwise nothing changes; either way the slot covers the write and no slot gets older |
| Storage.KVStore.Delete | common/storage.py:64-75 | removes the slot and leaves no trace of its version; true exactly if it was there |
| Storage.KVStore.Get | common/storage.py:31-34 | the stored version, or none |
| Storage.PutRaises | common/storage.py:50-62 | a put never lowers any slot, covers the write, and touches one slot only |
| Storage.JoinIsFirstMaximum | common/storage.py:50-62 | folding puts in arrival order leaves the earliest of the versions nothing else beats |
| Storage.SameWritesSameStamp | common/storage.py:50-62 | order and duplicates of puts do not affect the stamp a slot ends with |
| Storage.ArrivalOrderIrrelevantIff | common/storage.py:53-60 | the value a slot ends with is independent of arrival order exactly when the winning stamp carries one value |
| Topology.PeersInOrder | leaderless/node.py:259-266 | `peers_excluding` keeps exactly the nodes with another port, each where it stood, in the order listed |
| Topology.PeersAreAllOthersIff | leaderless/node.py:217-234 | a coordinator has N-1 peers exactly when its own port is listed exactly once |
| Topology.PeersOfMember | leaderless/node.py:259-266 | with distinct ports and the own port listed, the peers are the other N-1 nodes, each once |
| Topology.QuorumsIntersect | leaderless/node.py:53-64 | two sets of nodes whose sizes exceed N share a node |
| Gather.QuorumCoordinator.Gather | leaderless/node.py:411-435 | what is collected, why the loop ended, and that every send not taken in, finished or still running, is handed to the background set, on every exit, cancellation included; pending strictly shrinks |
| Gather.LoopConserves | leaderless/node.py:416-435 | each send is taken in once or left pending, only finished ones are taken in, and the loop ends by itself exactly when enough count or none is left |
| Gather.LoopStopsInTime | leaderless/node.py:417-429 | the collected surplus comes from one batch only: before the last batch the loop was still short |
| Gather.CountingSenders | leaderless/node.py:426-429 | the collected list is the counting results of the sends taken in, all of them and nothing else |
| Gather.CountingOf | leaderless/node.py:426-429 | one batch's counting results, in order |
| Gather.Replicator.Replicate | leader_follower/leader.py:321-346 | the ack count and hand-off of the leader's wait; a cancelled wait, having no `finally`, hands nothing off |
| Handlers.ResolveRead | leaderless/node.py:628-636 | the winner is one of the collected entries, none beats it, and "not found" means that no response holds the key |
| Handlers.ResolveIsNewest | leaderless/node.py:628-636 | the same, of the specification that all runs use |
| Handlers.ResolveStampIndependent | leaderless/node.py:628-636 | the stamp answered depends neither on response order nor on which responses were empty |
| Handlers.LeaderlessNode.PutKey | leaderless/node.py:565-600 | 422 out of range; 200 with the local verdict and timestamp exactly if at least w-1 acks count, surplus included, otherwise 503; the write is stored locally before the wait and whatever the answer; leftover sends go to the background |
| Handlers.LeaderlessNode.GetKey | leaderless/node.py:602-641 | the 422, 503, 404 and 200 answers from the local entry and the collected ones; leftover sends go to the background; the store is not changed |
| Nodes.NodeApp.Replicate | common/server.py:196-206 | a replicated write keeps its stamp, and delivering it again is rejected |
| Nodes.NodeApp.PutKey | common/server.py:181-188 | a client's write is stamped with this node's clock and id |
| Nodes.NodeApp.DeleteKey | common/server.py:190-194 | after a delete every version of the key is accepted again |
| Nodes.PutTwice | common/storage.py:50-62 | a version once put is never accepted again, after any number of further puts |
| Nodes.LeaderNode.PutKey | leader_follower/leader.py:433-457 | local write first; 200 with the local verdict and timestamp exactly if at least `ack_required` acks count, surplus included, otherwise 503; and if the wait ended by itself a 503 means every follower was heard from |
| CoordinatorRuns.GatherIsRun | leaderless/node.py:411-435 | from any point of its wait, with any other steps between its turns and any of its sends still running when it leaves, the loop is a run of cluster steps, made of just those steps and its own turns in order, that ends with exactly what the loop computes |
| CoordinatorRuns.RunIsGather | leaderless/node.py:411-435 | conversely, in every cluster run a request that gets past its wait has been collected, answered or aborted as the loop would on the batches it was handed, and its background holds exactly what was handed off and is unfinished |
| CoordinatorRuns.PutIsRun | leaderless/node.py:576-600 | a PUT handler, from its local write to its answer or cancellation, with any other steps in between, is that run: same store after the write, same answer and background |
| CoordinatorRuns.GetIsRun | leaderless/node.py:612-641 | so is a GET handler: same answer and background |
| CoordinatorRuns.ReadsChangeNothing | leaderless/node.py:602-641 | no step of a read, its messages included, changes what any node holds |
| LeaderRuns.LGatherIsRun | leader_follower/leader.py:321-346 | the leader's wait, with slots being taken, POSTs delivered and other writes in between, is a run of the leader-follower system made of just those steps and its own turns in order |
| LeaderRuns.LeaderPutIsRun | leader_follower/leader.py:433-457 | so is the leader's PUT: its write is stored, one send a follower is queued, and the answer is its handler's |
| ClusterSafety.InvStep | leaderless/node.py:323-526 | every step keeps: acks only from messages that arrived, no responder counted twice, no unfinished send dropped, writes landed where they arrived, reads at least as new as the stores were when they began |
| ClusterSafety.StepRises | common/storage.py:50-62 | no step other than a delete lowers what any node holds |
| ClusterSafety.OnlySubjectChanges | leaderless/node.py:366-435 | a step changes at most one request, and only it |
| Quorum.QuorumFreshness | leaderless/node.py:53-64 | in every run without a delete of the key: a PUT answered 200 before a GET began, w + r > N, GET not 503, then the GET is not 404 and its version is not older than the PUT's |
| Quorum.DurableHolders | leaderless/node.py:437-480 | from a 200 on, at least w nodes, the coordinator among them, hold something as new as the write, `applied: False` acks included, and holders are never lost |
| Quorum.AckedWriteIsHeld | leaderless/node.py:576-600 | at the moment of the 200 that is already so |
| Quorum.WriteAnswerIff | leaderless/node.py:589-600 | in every run an answered write was a 200 with its own timestamp and verdict exactly if at least w-1 acks had been collected, otherwise a 503 |
| Quorum.ReadIsFresh | leaderless/node.py:602-641 | a read that is answered is as new as anything that more than N - r nodes held when it began |
| Tightness.QuorumGuaranteeIff | leaderless/node.py:53-64 | no run misses an acked write if and only if w + r > N, for every N, w and r |
| Tightness.MissedReadExists | leaderless/node.py:60-64 | with w + r <= N, for any two coordinators, a run that acks at one and answers 404 at the other |
| Tightness.StaleReadPossibleIff | leaderless/node.py:312-364 | in any state, in the runs from it that change no store, whatever else they do, a GET can miss a version if and only if its coordinator and at least r-1 other nodes lack it |
| Provenance.NoInventedData | common/server.py:181-206 | everything stored, replied or answered for a key was stamped by an earlier PUT of it with that value, timestamp and node id, 503s included |
| Provenance.StoreIsJoin | common/storage.py:36-62 | in every run a node holds the LWW join of the versions put to it, in arrival order, since it last deleted the key |
| Provenance.SameReceivedSameStamp | common/storage.py:36-62 | nodes given the same set of versions agree on the stamp, and on the value if the winning stamp is unambiguous |
| Drain.InternalStepDecreases | leaderless/node.py:430-433 | every delivery, loss, finish, batch and departure uses up outstanding work |
| Drain.DrainBound | leaderless/node.py:430-433 | without new requests a run is no longer than the work outstanding at its start |
| Drain.DrainProgress | leaderless/node.py:416-433 | while work is outstanding some step is possible that loses no message and fails only a send whose message was already lost |
| Drain.Convergence | leaderless/node.py:345-347 | once drained with nothing lost, all nodes agree on every undeleted key's stamp, which covers every write, for any w and r; on values too if the winning stamp carries one |
| Drain.ConvergenceReachable | leaderless/node.py:48-51 | any run that lost nothing can be continued, with no new request and no delete, by delivering and answering everything, to a state with nothing outstanding where all nodes cover every write and agree |
| Drain.TiedWritesDiverge | common/models.py:56-59 | two PUTs stamped alike at one coordinator can leave two nodes with different values, and no run of deliveries and answers from there changes either |
| LeaderFollower.LeaderFollowerRefines | leader_follower/leader.py:300-346 | every leader-follower run, its semaphore forgotten, is a run of the quorum system with w = ack_required + 1 and r = 1 |
| LeaderFollower.LInvStep | leader_follower/leader.py:377-385 | every step keeps: a send is queued, holds a slot, or has released it, and slots add up |
| LeaderFollower.BoundedFanOut | leader_follower/leader.py:197-197 | in every run at most 256 follower POSTs are outstanding across all writes; sends queued, outstanding and resolved add up to writes times followers |
| LeaderStaleness.LeaderFollowerStalenessIff | README.md:167-173 | the load test counts no stale read in any delete-free run if and only if every follower must ack |
| LeaderStaleness.FullySynchronousNeverStale | experiments/staleness_load_test.py:151-244 | with `ack_required` equal to the number of followers: no stale read, in any run |
| LeaderStaleness.PartlySynchronousCanBeStale | leader_follower/leader.py:321-346 | with any smaller `ack_required`, a run through the semaphore that counts a stale read |
| LeaderStaleness.LDrainProgress | leader_follower/leader.py:377-385 | a full semaphore never deadlocks: while work is outstanding a slot can be taken, a POST delivered or answered, or one whose message was already lost given up |
| LeaderStaleness.LInternalStepDecreases | leader_follower/leader.py:342-346 | acquiring a slot, delivering and finishing all use up outstanding work |
| LeaderStaleness.FollowersConverge | leader_follower/leader.py:342-346 | any run that lost nothing can be continued, with no new request and no delete, by delivering and answering every send; then nothing is outstanding and all nodes cover every write and agree, `ack_required = 0` included |
| LoadTest.SourceOfTruth.Record | experiments/_load_test_common.py:204-208 | the entry becomes this value and timestamp exactly if there was none or an older one; completions out of order never lower it |
| LoadTest.Stats.RecordFailure | experiments/_load_test_common.py:289-314 | one more failure of that operation and of that kind, and one log entry naming both, the key and the node; every other counter stays |
| LoadTest.Stats.RecordStale | experiments/_load_test_common.py:317-352 | one more stale read and one log entry with the expected and the actual timestamp; every other counter stays |
| LoadTest.Stats.Merge | experiments/_load_test_common.py:257-267 | each counter becomes the sum of both, each log this one followed by the other; the other is unchanged, and what balanced before balances after |
| LoadTest.DoWrite | experiments/staleness_load_test.py:151-191 | a failure is counted and logged with its kind; an unapplied answer leaves the truth alone; an applied one is in the truth afterwards, or something at least as new was |
| LoadTest.DoRead | experiments/staleness_load_test.py:194-244 | with no truth entry nothing happens; otherwise a failure is counted as one, every answer is comparable, and stale exactly if it is a 404 or older than the truth was before the request; all other counters stay |
| LoadTest.RunWorker | experiments/staleness_load_test.py:247-271 | statistics and shared truth are those of the items in order with other workers' records in between; the statistics account for exactly the chunk; each applied write is in the truth afterwards or something newer is; every truth entry was there before, or is such a write with its value, or another worker's; none is lost or gets older |
| LoadTest.NodeRotation.NextNode | experiments/leaderless_staleness_load_test.py:174-190 | each draw is the node the rotation stands at, and moves it on by one |
| LoadTest.RotationVisitsAll | experiments/leaderless_staleness_load_test.py:174-190 | any N consecutive draws visit every node once, in list order from some place round to it |
| LoadTest.SplitPlan | experiments/_load_test_common.py:149-163 | exactly as many contiguous chunks as workers, concatenating to the plan, sizes differing by at most 1, longer ones first |
| LoadTest.RunAccounting | experiments/_load_test_common.py:215-267 | once every worker accounts for its chunk, merged totals equal the plan, reads and writes as planned; comparable, stale and failed counts are the sums over the workers and the logs their concatenations; stale <= comparable, comparable + failed reads <= reads, failure counts sum to the failures |
| Accounting.ClusterRunAccounting | experiments/leaderless_staleness_load_test.py:213-359 | in every run of the combined system against a quorum cluster, that holds of the workers when all are done, and the merged stale reads are all the stale reads of the run |
| Accounting.LeaderRunAccounting | experiments/staleness_load_test.py:151-271 | and in every leader-follower run, semaphore included |
| Accounting.QueueRunAccounting | experiments/mq_staleness_load_test.py:192-301 | and in every run against the queue |
| Accounting.StepKept | experiments/staleness_load_test.py:256-269 | every step of the combined system keeps each worker's counters balanced with what it has done and has under way |
| Accounting.ClusterBooks | experiments/leaderless_staleness_load_test.py:269-330 | in every run, a worker's comparable reads are exactly its answered reads that had a truth entry, its stale reads those answered with nothing or something older, its failures those it was told of |
| Accounting.LeaderBooks | experiments/staleness_load_test.py:194-244 | the same in every leader-follower run |
| Accounting.QueueBooks | experiments/mq_staleness_load_test.py:226-276 | the same in every run against the queue |
| Accounting.ExpectationsAreTruth | experiments/leaderless_staleness_load_test.py:269-330 | in every run, what a read is compared with is the truth entry as it was when that worker started a read |
| Accounting.QExpectationsAreTruth | experiments/mq_staleness_load_test.py:226-276 | the same in every run against the queue |
| Accounting.DrawsAreConsecutive | experiments/leaderless_staleness_load_test.py:213-225 | in every run the writes draw consecutive values, no two the same, and go round the coordinators in order |
| Accounting.QDrawsAreConsecutive | experiments/mq_staleness_load_test.py:192-223 | in every run against the queue too the writes draw consecutive values |
| LoadTest.MergeBalanced | experiments/_load_test_common.py:257-267 | merging keeps the counters consistent |
| Monitor.MInvStep | experiments/leaderless_staleness_load_test.py:213-359 | every step keeps: each truth entry is held by w nodes, each pending comparison was so when its read began, only reads of deleted keys were counted stale |
| MonitorTruth.TruthIsConfirmed | experiments/leaderless_staleness_load_test.py:213-266 | in every run, for any w and r, each truth entry is a PUT of its key, with that value and timestamp, that was answered 200 and applied |
| Monitor.NoStaleReads | README.md:182-190 | with w + r > N: any plans, workers, interleaving, failures and 503s, no stale read of a key nobody deleted |
| MonitorTight.LeaderlessStalenessIff | README.md:182-190 | the load test counts no stale read in any delete-free run if and only if w + r > N |
| MonitorTight.StaleRunExists | README.md:182-190 | otherwise one write and one read suffice for the count to be 1 |
| Queue.FollowerIsFold | message_queue/follower.py:179-245 | throughout a follower process's life its store is, per key, the in-order LWW fold of the key's well-formed messages from where the process started to its position, at most one message ahead of its commits |
| Queue.QInvStep | message_queue/follower.py:206-245 | every produce, malformed message, apply, commit, failed commit and restart keeps that |
| Queue.FollowersAgree | message_queue/follower.py:234-245 | followers with the same start and position hold identical stores, values included, however partitions interleaved |
| Queue.OutdatedIff | message_queue/follower.py:179-203 | an answer is missing or older than a timestamp exactly when no message of the key that recent lies between the process's start and position |
| QueueLag.ReportedLagIsLowerBound | message_queue/follower.py:159-176 | a partition's reported lag is at most the true lag at either reading, short of the first by what was committed and of the second by what was produced in between |
| QueueLag.SumAdds | message_queue/follower.py:315-316 | the total of one lag is that lag, and of two stretches of partitions both totals together |
| QueueLag.LagReportMeaning | message_queue/follower.py:159-176 | every lag is at most 0 if and only if everything logged at the first reading was handled; a total of 0 says so if and only if no lag is negative |
| QueueLag.ZeroTotalCanHideBacklog | message_queue/follower.py:315-316 | a reachable state and readings with total lag 0 and an unhandled message |
| QueueLag.RestartForgets | message_queue/follower.py:262-291 | a restarted follower can have true lag 0 and lack a logged key |
| QueueLag.CommitsNeverRegress | message_queue/follower.py:244-245 | no run lowers a committed offset |
| QueueFollower.ApplyMessage | message_queue/follower.py:179-203 | a malformed message changes nothing and gives none; a well-formed one is put, with the store's verdict |
| QueueFollower.ConsumeLoop | message_queue/follower.py:206-245 | store and commits after the loop; if a commit raises, exactly one message is applied and not committed |
| QueueFollower.LoopIsRun | message_queue/follower.py:234-245 | over whatever the broker fetched, and whether or not a commit raises, the loop is a run of the step system with the same store and commits, stopped where it stopped |
| QueueFollower.ComputeLag | message_queue/follower.py:139-176 | one entry per assigned partition, in ascending order, each end offset minus committed offset or 0; none if nothing is assigned |
| QueueFollower.GetLag | message_queue/follower.py:306-316 | an error before the consumer exists; otherwise the entries, each computed from its partition's two offsets, and their sum, 0 when nothing is assigned |
| QueueFollower.ComputedIsLagReport | message_queue/follower.py:159-176 | for the offsets of the states read, what the endpoint computes is a lag report, so its lags and total mean what `LagReportMeaning` says |
| QueueFollower.Broker.PutKey | message_queue/producer.py:142-174 | a confirmed write is the last message of its key's partition under the stamp answered; an error may or may not have logged it; nothing else moves |
| QueueFollower.BuildMessage | message_queue/producer.py:88-99 | applying the message puts exactly the write that was stamped |
| QueueMonitor.StalenessImpliesLag | experiments/mq_staleness_load_test.py:226-276 | in every run, each stale event is accompanied by what the follower it names answered for its key; if that process began at offset 0 on the key's partition, the true lag there was at least 1; each stale event gets one lag sample, which overstates at neither reading |
| QueueMonitor.StaleOnlyWhenBehind | experiments/mq_staleness_load_test.py:226-276 | so in every run without a restart, every stale read counted was served with true lag at least 1 on the key's partition |
| QueueMonitor.StaleMeansLag | message_queue/follower.py:234-245 | a logged message missing from the answer of a process that began at offset 0 is uncommitted |
| QueueMonitor.TruthIsLogged | experiments/mq_staleness_load_test.py:192-223 | in every run each truth entry is a logged message of its key, with that value and timestamp |
| QueueMonitor.EvidenceIsServed | experiments/mq_staleness_load_test.py:226-276 | in every run the evidence beside a stale event is what a follower answered the worker, with its true lag and start at that moment |
| QueueMonitor.UndisturbedSampleIsExact | message_queue/follower.py:159-176 | asked while nothing else goes on, the endpoint tells the true total lag |
| QueueMonitor.StaleWithLagOne | experiments/mq_staleness_load_test.py:226-276 | for every topic, any number of followers and each of them, a run with a stale read there at lag exactly 1 |
| QueueMonitor.QMInvStep | experiments/mq_staleness_load_test.py:192-301 | every step of workers, producers and followers keeps truth logged and evidence and samples in step with the stale count |
| ResultsDoc.StripIs | experiments/_results_doc.py:65-65 | the stripped content is the stretch of the content with only space around it and none at its own ends, and nothing else is |
| ResultsDoc.ReplaceIs | experiments/_results_doc.py:63-79 | the new text, branch by branch: the section, with the stripped content on lines of its own, in the markers' place; or behind the text without its trailing newlines and a blank line; or alone if there was nothing but space |
| ResultsDoc.ReadBackIff | experiments/_results_doc.py:63-79 | for every text and content, what is read back is the stripped content on lines of its own if and only if both markers were absent or in order and the content does not hold the section's end marker |
| ResultsDoc.LastWriteWinsIff | experiments/_results_doc.py:63-79 | for every text and contents, a second update erases the first if and only if the same holds of the text and the first content; with equal contents, idempotence |
| ResultsSections.OthersKeptIff | experiments/_results_doc.py:50-60 | on any text, nested and overlapping sections included, another section whose markers are not in the new content reads as before if and only if the update appends or the section survives what is overwritten, told by where its markers come first |
| ResultsSections.UntouchedSurvivesIff | experiments/_results_doc.py:50-60 | when what is overwritten holds neither of its markers, it survives if and only if it is not wrapped around it, or what is overwritten is what is written |
| ResultsSections.UpdateRefines | experiments/_results_doc.py:63-79 | on a rendered document the update is the render of the document-level update: rewrite in place, or append after dropping trailing newlines, or replace a blank document |
| ResultsSections.ReadRefines | experiments/_results_doc.py:63-79 | what is read of the text is what the document says, for every section |
| ResultsSections.EachReadsItsLast | experiments/_results_doc.py:1-12 | from no file, after any history of updates by any writers, each section reads back the content last written, stripped and on lines of its own, and a section never written is absent |

## Left out

- HTTP, FastAPI, pydantic, JSON and connection pools: a send is delivered or lost, its answer counted or not; a malformed response is an answer that does not count.
- Real time: deadlines, delays and polling are choices of the step or of the schedule passed in; percentages and latencies are not modelled.
- Kafka itself: partitions are append-only logs with offsets from 0 and a fixed routing of keys; rebalancing, retention and topic administration are not part of this model.
- Node restarts, except of a queue follower, and operator calls straight to `/internal/replicate` or to a queue follower's PUT: no guarantee is stated for them.
- Deletes of the key in question: the results say which keys were ever deleted and claim nothing about those; deletes of other keys stay in the model.
- Client shutdown (`is_closed` in `_send`): such a send is like any other that failed.
- LeaderFollower.BoundedFanOut: releasing the slot and finishing the send are one step, although the code parses the response in between; order of waiting is not modelled.
- LeaderFollower.LeaderFollowerRefines: in the step system an interrupted leader wait hands its sends to the background as the coordinator's does; the code drops its references there, which `Replicator.Replicate` shows.
- Values are integers and timestamps reals; the proofs use only equality of values and the order of timestamps, with no NaN.
- The order in which tasks of one batch are taken is the schedule's; sends carry their peer as a history tag.
- Handlers.LeaderlessNode: peers are a set of ports, so a port listed twice is contacted once; the code's list keeps it twice. `PeersInOrder` and `PeersAreAllOthersIff` speak of the list.
- LoadTest.RunWorker: what other workers record between two of its items is an input; their interleaving inside one item is left to the combined systems of `Monitor` and `QueueMonitor`.
- LoadTest.SplitPlan: asks for at least one worker; the original divides by zero for none.
- LoadTest.Stats.RecordStale: keeps key, node and the two timestamps; wall-clock times, status codes and details of events are not kept, and nodes are named by port.
- Drawing a value, a coordinator and a plan item is one step of the combined system; no lock is modelled inside it.
- Seeded plan generation, percentiles, summaries, files of results, command lines, YAML, validators, logging and process spawning.
- `replace_route`, and which defaults of w and r apply when the query names none: the handlers take the resolved number.
- QueueMonitor.StalenessImpliesLag: while a follower samples its lag, its assignment is the whole topic; the empty assignment during start-up is in `GetLag`.
- ResultsDoc.Replace: file encodings and newline translation on reading and writing.
