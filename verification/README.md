# A verified model of the incident pipeline

QIDS detects suspicious traffic, verifies it with a quantum model, assesses its risk, defends
against it and keeps an incident log. This project models the parts of it in which order, state
and arithmetic matter, and proves what they guarantee:

* **Delivery** (`Messages`, `WorkerProtocol`, `StreamWorker`, `Pipeline*`, `Backoff`, `Drain*`,
  `ServiceHandlers`): the consume loop of the stream workers as imperative code, proved to follow
  an automaton of Redis calls; the six-stream chain as a transition system of any number of such
  automata, in which every call may raise with or without effect, workers may die between any two
  calls, and idempotency keys may expire; and the crash-free and crash-bounded drain of one stream.
* **Incidents** (`IncidentContracts`, `Lifecycle`, `Escalation`, `EventStore`, `IncidentLog`,
  `IncidentIndexes`, `IncidentHistory`, `IncidentCaches`, `IncidentJournal`, `IncidentManager`,
  `IncidentWorker`, `IncidentSessions`, `RestartWitnesses`, `ConcurrentProcessing`, `FilingOrder`,
  `ConcurrentFiling`): the append-only event log, what a recording adds to it, the manager's caches over it, redelivery with a crash at any append,
  whole sessions with restarts, and concurrent callers.
* **Defense** (`DefenseActions`, `SimulatedState`, `DefenseEngine`, `DefenseMetrics`,
  `DefenseRuns`): actions on shared mutable objects, snapshots by copying, verification, retries,
  rollback, and any sequence of calls.
* **Routing** (`CircuitBreaker`, `RoutingContracts`, `QuantumJobs`, `QuantumRouter`, `RouterRuns`,
  `HalfOpen`): the breaker, the retry loop of a job, the router's decisions, its counters under
  interleaving, and when a half-open breaker can recover.
* **Hybrid decision and risk** (`HybridEngine`, `RiskEngine`, `HybridPipeline`) over exact reals,
  and the run-length and counting features (`ApplicationFeatures`).

Code that changes objects step by step is modelled by classes and methods over the heap; what the
methods compute is stated by functions, and the theorems are lemmas about those functions and about
runs. Redis commands, file appends, clocks, detectors and verifiers are parameters that may answer
anything their interface allows.

Where the code does less than its comments or its design promise, the model follows the code, and
the difference is a theorem:

* The breaker hears of a job only when a waiting caller resolves it (`router.py:221-228`), not in
  the job as `get_result` says. A half-open breaker can therefore still recover exactly while some
  call admitted earlier may report (`HalfOpen.RecoversExactly`); a trial whose caller stops waiting,
  or raises for want of a timeout, strands the backend exactly when there is no such call
  (`HalfOpen.AbandonedTrial`), and under any settings a run from the start leads there
  (`HalfOpen.StuckIsReachable`). `ServiceHandlers.PendingIsBuried`: an event whose wait ran out in
  the quantum worker fails every attempt in the risk worker and is dead-lettered.
* A `RoutingDecision` may claim success with a failed result; its validation does not rule that out
  as `hybrid_engine.py:124` says (`HybridEngine.ContractAllowsFailedSuccess`); the router does.
* The header of `risk_engine.py` says that uncertainty by itself never reaches HIGH, and that the
  threat evidence alone must carry the score there. The first holds under the shipped policy, but
  not under every policy that loading accepts: `RiskEngine.UncertaintyAlone` gives the exact
  condition, `RiskEngine.ExchangedPolicy` a policy that fails it. The second fails under the shipped
  policy (`RiskEngine.ShippedPolicy`); `RiskEngine.CarriedExactly` says for which evidence,
  `RiskEngine.CarriedByUncertainty` for which policies.
* With rollback switched off a failed defense is not all-or-nothing; `DefenseActions.WithoutRollback`
  says exactly from which states it still is. A fault-free ISOLATE fails exactly when the target
  has no session left (`DefenseRuns.CleanCall`).
* A live manager is not always what a restart over its log would rebuild. Snapshots and correlation
  index always are, as long as calls come one after the other; the sample index and the repeat
  counts exactly under the conditions of `IncidentCaches.MirrorsExactly`
  (`IncidentSessions.RestartAfterSession` for whole sessions), and
  `RestartWitnesses.RedeliveryDiverges` is a history of redeliveries after a crash that fails both.
  With concurrent callers the correlation index agrees exactly when each key's recordings finish in
  the order in which they began (`ConcurrentFiling.CorrelationOrder`, failed by the run of
  `ConcurrentFiling.Overtaken`).

Check everything with `dafny verify dfyconfig.toml`.

## Model

| member | source | states |
|---|---|---|
| WorkerProtocol.ConformsThen | src/runtime/stream_worker.py:104-162 | call sequences of consecutive entries compose: a worker that followed the protocol up to a point and from there on followed it throughout |
| WorkerProtocol.EntryConforms | src/runtime/stream_worker.py:104-162 | the exchanges of one entry, to its end, follow the protocol of a worker |
| WorkerProtocol.RetriedExactly | src/runtime/stream_worker.py:104-162 | an entry is requeued or buried exactly when its handler, the publication, the mark, or the acknowledgement after the mark raised; it is acknowledged once, last of all, when it comes to a regular end, and never otherwise |
| WorkerProtocol.CallsAreOwn | src/runtime/stream_worker.py:104-162 | every call made for an entry is about its own id, message and position; a retry is its copy while retries remain, a dead letter itself otherwise |
| StreamWorkers.StreamWorker.ProcessEntry | src/runtime/stream_worker.py:104-143 | whatever Redis and the handler answer, and wherever they raise, one entry is dealt with in exactly the protocol's order of calls; only a failure outside the guarded part escapes |
| StreamWorkers.StreamWorker.Attempt | src/runtime/stream_worker.py:117-128 | publish, then mark, then acknowledge; an exception in any of them skips the rest and leads to failure handling |
| StreamWorkers.StreamWorker.HandleFailure | src/runtime/stream_worker.py:145-162 | requeue with one more retry while retries remain, bury otherwise, and acknowledge only after that |
| StreamWorkers.StreamWorker.ProcessBatch | src/runtime/stream_worker.py:98-102 | a batch is processed in the order it was delivered, entry after entry, stopping at an escaped exception |
| StreamWorkers.StreamWorker.RunOnce | src/runtime/stream_worker.py:88-102 | exactly one read, its whole batch processed by the protocol; the answer says whether the read delivered anything |
| StreamWorkers.StreamWorker.RecoverPending | src/runtime/stream_worker.py:166-186 | the scan ends; unless something raises, its claims go on from one another's cursors from the start of the stream to an empty or last one, and the ids it returns are exactly those handed out, in order |
| StreamWorkers.StreamWorker.RunForever | src/runtime/stream_worker.py:190-201 | rounds of one whole recovery scan and one read, all of it by the protocol, until the given number of rounds or a stop from outside |
| PipelineSafety.StepKeepsInv | src/runtime/stream_worker.py:104-186 | every step of every worker, an ingest, a start, a crash at any point and a key expiry keep the invariant of the whole chain |
| PipelineSafety.ReachableInv | src/runtime/stream_worker.py:88-201 | the invariant holds in every state any run from the empty streams reaches |
| PipelineSafety.AckedIsResolved | src/runtime/stream_worker.py:122-128 | an acknowledged entry was processed, dead-lettered, or superseded by a later entry of the same event |
| PipelineSafety.Accounted | src/runtime/stream_worker.py:145-162 | following the copies of an event forward always ends at a live entry, a key that was set, or a dead letter |
| PipelineSafety.NoLoss | src/runtime/stream_worker.py:104-186 | with any number of workers, crashes between any two calls and expiring keys, every event ever put on a stage's stream is live, ever marked processed, or dead-lettered |
| PipelineSafety.NoFalseVerdict | src/runtime/stream_worker.py:121-128 | an event is marked only when its result is on the next stream, and buried only as an entry of the stream with all its retries used up |
| PipelineSafety.NoIncidentLost | src/runtime/services/traffic_gateway.py:38-53 | every ingested incident is live at some stage, dead-lettered, or has an incident.updated message |
| PipelineSafety.ParentOf | src/runtime/services/quantum_worker.py:58-74 | every message of a later stream has an entry of the previous stream as its cause, with the same correlation and incident ids |
| PipelineSafety.Ancestry | src/runtime/services/defense_worker.py:59-68 | the chain of causes goes back stream by stream to a message without a cause |
| PipelineSafety.OneRoot | src/runtime/services/traffic_gateway.py:38-53 | every message descends from one ingest, and all ingested entries of its incident are copies of that one event |
| PipelineDuplicates.ResultsAfter | src/runtime/stream_worker.py:121-122 | the number of results published for an event changes only when a worker of the stage publishes for it, and then by one |
| PipelineDuplicates.StepKeepsBound | src/runtime/stream_worker.py:107-128 | each step of a stage with one consumer at a time keeps the bound on published results, a fault raising it by one |
| PipelineDuplicates.DuplicateBound | src/runtime/stream_worker.py:107-128 | one sequential consumer without key expiry publishes at most one result per event, plus one for each crash and each publish or mark that raised |
| PipelineDuplicates.ExactlyOnce | src/runtime/stream_worker.py:107-128 | without such faults a processed event has exactly one result |
| Drain.FinishEntry | src/runtime/stream_worker.py:104-162 | with Redis infallible, the automaton's whole effect on the broker, in each of its four outcomes |
| Drain.MeasureFalls | src/runtime/stream_worker.py:145-157 | the sum of remaining attempts over live entries falls with every entry served |
| Drain.FateIsFirstSuccess | src/runtime/stream_worker.py:145-157 | an event is processed exactly when one of its permitted attempts succeeds, after as many handler calls as it takes to the first success, and buried after all of them otherwise |
| Drain.FateBackoff | src/runtime/stream_worker.py:147-148 | the time slept for an event is the geometric sum over its failed retries, also in closed form by seconds, multiplier and calls, and at most the whole sum |
| Backoffs.DelayGrows | src/runtime/stream_worker.py:147 | the first wait is the configured one, each further wait the one before times the multiplier |
| Backoffs.DelaysSum | src/runtime/stream_worker.py:147 | the waits of consecutive retries add up to the geometric sum: multiplier - 1 times it is seconds times the difference of the two powers of the multiplier |
| Drain.ShippedBackoff | config/runtime_policy.json:23-27 | a handler that always raises costs four calls and 3.5 seconds of waiting |
| Drain.ServeKeepsBalance | src/runtime/stream_worker.py:104-162 | at every moment, what an event has cost plus what its live copy will cost is its fate; settled events have exactly one verdict |
| Drain.Consumer.ProcessNext | src/runtime/stream_worker.py:104-162 | one entry, run imperatively, changes the broker as the automaton does and the accounts as the policy says |
| Drain.EmptyStream | src/runtime/stream_worker.py:190-198 | a crash-free consumer empties a stream of distinct events within the initial measure, and each event is processed or buried, never both, at exactly the cost of its fate |
| DrainWithCrashes.Interrupted | src/runtime/stream_worker.py:104-162 | a crash after any number of calls leaves the broker untouched, marked, requeued or buried with the entry still pending, or finished |
| DrainWithCrashes.EnoughCalls | src/runtime/stream_worker.py:104-162 | given enough calls the interrupted automaton is the finished one |
| DrainWithCrashes.FinishWorks | src/runtime/stream_worker.py:104-162 | an entry served to its end leaves strictly less work |
| DrainWithCrashes.DrainThrough | src/runtime/stream_worker.py:104-186 | with finitely many crashes, at any calls, whichever pending entry is served next and however each attempt ends, serving still comes to an end, by crashes left and then work left, and every event is then processed or dead-lettered |
| ServiceHandlers.NewMessage | src/runtime/message_helpers.py:24-43 | a handler's message carries the ids of the one it answers, names it as its cause, and starts with no retries |
| ServiceHandlers.QuantumHandle | src/runtime/services/quantum_worker.py:58-74 | the decision sent on is ready for the risk worker unless the wait ran out, and then it is pending |
| ServiceHandlers.RiskHandle | src/runtime/services/risk_worker.py:41-56 | the handler answers exactly when a hybrid decision can be built from what it received |
| ServiceHandlers.PendingIsBuried | src/runtime/services/risk_worker.py:41-56 | a resolved decision is processed at the first attempt; a pending one fails all of them and is dead-lettered |
| EventStores.DedupFaithful | src/incident/event_store.py:96-108 | loading loses no event id |
| EventStores.DedupDistinct | src/incident/event_store.py:96-108 | loading keeps each event id once |
| EventStores.JsonlEventStore.LoadFromDisk | src/incident/event_store.py:96-108 | the in-memory list and id set after loading are those of the file |
| EventStores.JsonlEventStore.Append | src/incident/event_store.py:110-118 | a known id is refused and changes nothing; a new event goes to file and memory; a crash leaves the log with or without it |
| EventStores.JsonlEventStore.ReadAll | src/incident/event_store.py:120-124 | all events in append order, or those of one correlation id |
| IncidentLog.ReconstructSnapshot | src/incident/incident_state.py:52-94 | the loop yields the incident's replay: last state, first and last time, ids in order, escalation reasons; nothing when it has no events |
| IncidentLog.ReplayShows | src/incident/incident_state.py:52-94 | the replay shows when the incident was first and last seen, its key, state and events in order; it has nothing exactly without events, and raises exactly for an escalated state without a reason |
| IncidentLog.OwnWithKey | src/incident/incident_manager.py:209-213 | replaying an incident from the events of its correlation key alone gives the replay of the whole log |
| IncidentLog.SoundReplay | src/incident/incident_state.py:85-94 | every incident of a log in which escalated states were entered by escalation events has a valid snapshot |
| IncidentLog.CountsUnique | src/incident/correlation.py:66-84 | the log determines the repeat tracker |
| EscalationRules.EvaluateEscalation | src/incident/escalation.py:48-78 | it escalates exactly when some enabled rule's condition holds, with or without a defense result |
| EscalationRules.CausesExact | src/incident/escalation.py:57-76 | a cause is listed exactly when its rule is enabled and its condition holds |
| EscalationRules.EscalationMonotone | src/incident/escalation.py:48-78 | graver findings or more repetitions never take an escalation back |
| IncidentContracts.TransitionsAdvance | src/contracts/incident.py:37-45 | states only move forward; a verdict is reached only from mitigation or recovery, recovery only from mitigation; exactly the two verdicts have no way out |
| Lifecycle.LifecycleIsLegal | src/incident/incident_manager.py:307-381 | for every evidence tuple the recorded facts are a connected legal walk from DETECTED to RESOLVED or ESCALATED |
| Lifecycle.LifecycleShape | src/incident/incident_manager.py:307-381 | one detection, first; one terminal event, last; everything between is neither and stays in open states |
| Lifecycle.LifecycleRecords | src/incident/incident_manager.py:307-381 | for every evidence tuple each type of event is recorded exactly as often as the evidence calls for: verification completed or failed, recovery, rollback, and verdict |
| Lifecycle.LifecycleInPlace | src/incident/incident_manager.py:307-381 | the events come in the order of the phases |
| Lifecycle.LifecycleStates | src/incident/incident_manager.py:307-381 | each type of event is recorded in the state it belongs to |
| IncidentJournal.DeliveryTells | src/incident/incident_manager.py:307-381 | a whole delivery adds to the incident's own events, of each type, exactly as many as the evidence calls for |
| IncidentJournal.VerdictShown | src/incident/incident_state.py:52-94 | afterwards the snapshot is escalated exactly with causes, and lists those causes and no others |
| IncidentJournal.RecordingTells | src/incident/incident_manager.py:375-386 | verdict and reasons of the snapshot are those of the rules that hold for evidence, policy and repeat count |
| IncidentHistory.DeliveryKeepsGood | src/runtime/services/incident_worker.py:75-102 | a delivery, cut short at any append or not, keeps the log consistent: keys, explained escalations, one verdict per ended incident and none before |
| IncidentHistory.AtMostOneVerdict | src/runtime/services/incident_worker.py:75-102 | over any deliveries with crashes and restarts an incident has at most one terminal event, and has one exactly when its replayed state is terminal |
| IncidentHistory.AfterVerdictOnlySkips | src/runtime/services/incident_worker.py:75-88 | after its verdict an incident's state never changes and deliveries append only idempotent skips |
| IncidentIndexes.CorrelationIndexAfter | src/incident/incident_manager.py:386-392 | further events of an incident leave the correlation index alone, or put a new incident at the end of its key's list |
| IncidentIndexes.SampleIndexExactly | src/incident/incident_manager.py:393-394 | after an incident's verdict the live sample index is the rebuilt one exactly when its sample is named and no finished incident that first appears later has it |
| IncidentIndexes.CountsAfterNew | src/incident/correlation.py:54-59 | a new incident raises its key's count by one and no other |
| IncidentCaches.LifecycleRecorded | src/incident/incident_manager.py:386-389 | after a complete lifecycle the replay shows the verdict and only this incident's snapshot changed |
| IncidentCaches.MirrorsExactly | src/incident/incident_manager.py:307-396 | after the whole lifecycle of any incident without a verdict, new or redelivered, snapshots and correlation index are again what a rebuild from the log would give, and the sample index and the counts are exactly under the stated conditions |
| IncidentCaches.CorrelationExactly | src/incident/incident_manager.py:387-392 | filing an incident again changes nothing, so the live correlation index always is the rebuilt one |
| IncidentCaches.SkipMirrored | src/incident/incident_manager.py:198-213 | so they are after an idempotent skip |
| IncidentCaches.CountsExactly | src/incident/incident_manager.py:307-308 | the live repeat counts agree with the log after a lifecycle exactly when the incident had no detection in the log before |
| IncidentManagers.IncidentManager.constructor | src/incident/incident_manager.py:106-110 | a manager over any consistent store starts with the snapshots, indexes and counts of its log |
| IncidentManagers.IncidentManager.BuildTracker | src/incident/correlation.py:66-84 | the rebuilt counts are the numbers of distinct detected incidents per key |
| IncidentManagers.IncidentManager.RebuildSnapshots | src/incident/incident_manager.py:114-145 | the two passes yield the log's snapshots, correlation index in order of first appearance, and sample index |
| IncidentManagers.IncidentManager.Emit | src/incident/incident_manager.py:182-196 | an event is refused exactly when it changes state along no edge of the table; otherwise the log gains that event at the clock's next reading, unless the process dies first |
| IncidentManagers.IncidentManager.RecordQuantum | src/incident/incident_manager.py:315-338 | the verification phase records its facts in order; completed events exactly after a successful verification, failed ones exactly after an unsuccessful one, neither when quantum is not invoked |
| IncidentManagers.IncidentManager.RecordRecovery | src/incident/incident_manager.py:353-373 | the recovery phase is recorded exactly when recovery was attempted, with its outcome, and the rollback exactly when there was one |
| IncidentManagers.IncidentManager.RecordVerdict | src/incident/incident_manager.py:371-381 | the last event resolves or escalates, with the causes that hold |
| IncidentManagers.IncidentManager.RecordFullLifecycle | src/incident/incident_manager.py:275-396 | it never raises; what reaches the log is a prefix of the lifecycle, all of it unless the process dies; the log then tells what the evidence says and the snapshot is judged by the rules; snapshots and correlation index then agree with the log, all four structures exactly under the condition of MirrorsExactly |
| IncidentManagers.IncidentManager.UpdateCaches | src/incident/incident_manager.py:386-396 | the snapshot is the replay of the full log, and the indexes file the incident under its key and sample |
| IncidentManagers.IncidentManager.AppendIdempotentSkip | src/incident/incident_manager.py:198-213 | one skip event, the incident's state unchanged, all caches still in agreement |
| IncidentManagers.IncidentManager.GetIncident | src/incident/incident_manager.py:149-150 | the cached answer is the replay of the log |
| IncidentManagers.IncidentManager.AnswerKnown | src/incident/incident_manager.py:236-243 | a sample whose indexed incident has a verdict is answered with that incident and one skip event; otherwise nothing changes |
| IncidentManagers.IncidentManager.RunFullChain | src/incident/incident_manager.py:253-273 | when the chain raises nothing is recorded; otherwise the fresh incident gets its whole lifecycle, or a prefix if the process dies |
| IncidentManagers.IncidentManager.Process | src/incident/incident_manager.py:217-251 | a sample with an incident is skipped by one event that keeps its state, one in flight refused, any other gets a fresh incident with its whole lifecycle; the in-flight mark is gone afterwards, and the caches agree with the log except exactly after recording a sample without a name |
| IncidentManagers.Restart | src/incident/incident_manager.py:106-145 | a manager restarted over the file of a consistent one has equal snapshots, correlation index, sample index and repeat counts |
| IncidentWorkers.IncidentWorker.Handle | src/runtime/services/incident_worker.py:65-108 | a message is a delivery: skipped exactly when the log already held a verdict, its lifecycle recorded otherwise; the reply shows the state the log now has; caches that agreed with the log still do exactly after a skip or under the condition of MirrorsExactly |
| IncidentWorkers.Supervise | src/runtime/services/incident_worker.py:65-108 | any messages, deaths and restarts run through the worker give a history of deliveries, and no incident two verdicts |
| IncidentWorkers.KthIncident | src/incident/incident_manager.py:307-381 | the k-th distinct incident of a key names the repeat threshold in its verdict exactly when the rule is enabled and k has reached it |
| IncidentSessions.Serve | src/runtime/services/incident_worker.py:65-108 | a sample or a message serves its own incident or one the log knows; a tidy request keeps all caches in agreement with the log |
| IncidentSessions.MessageCounts | src/incident/incident_manager.py:307-308 | a completed message moves the live count away from the log's, by one, exactly when it brings again an incident detected before that has no verdict |
| IncidentSessions.Session | src/incident/incident_manager.py:217-251 | any samples and messages with deaths and restarts anywhere: no incident has two verdicts, a live manager has the log's snapshots and correlation index, agrees with the log altogether when every request since its start was tidy, and has counts above the log's by exactly the redetections since then |
| IncidentSessions.RestartAfterSession | src/incident/incident_manager.py:106-145 | restarting after such a session gives equal snapshots and correlation index, equal sample index and counts when every request since the start was tidy, and lowers each key's count by exactly its redetections |
| RestartWitnesses.CutShortIsDelivery | src/incident/incident_manager.py:310-311 | a process that dies right after the first event leaves a detection without a verdict, counted under its key |
| RestartWitnesses.RedeliveryDiverges | src/incident/incident_manager.py:393-394 | for any two incidents of one sample and key: one cut short, the other recorded whole after a restart, the first redelivered; the live index names the first, a rebuilt one the second, and the live count is 3 instead of 2 |
| RestartWitnesses.NamelessDiverges | src/incident/incident_manager.py:128-130 | one whole lifecycle of a sample without a name puts the empty name into the live index, which a rebuild leaves out |
| ConcurrentProcessing.StepKeepsInv | src/incident/incident_manager.py:236-251 | every interleaved step keeps marks, index and created incidents in agreement |
| ConcurrentProcessing.Exclusive | src/incident/incident_manager.py:236-251 | at most one thread works on a sample at a time, and a sample is marked exactly while one does |
| ConcurrentProcessing.OneIncidentPerSample | src/incident/incident_manager.py:389-394 | in a manager's lifetime at most one incident is created for a sample, none if it had one before |
| ConcurrentProcessing.LaterCallsReturn | src/incident/incident_manager.py:236-246 | once indexed, a sample's every later call returns that incident; before, a call is refused exactly when another thread works on the sample |
| FilingOrder.GroupedExactly | src/incident/incident_manager.py:132-141 | the same incidents filed in two orders give the same correlation index exactly when each key's incidents come in the same order |
| ConcurrentFiling.StepKeepsFiled | src/incident/incident_manager.py:389-394 | in every interleaving each created incident is filed once or about to be, by its own thread |
| ConcurrentFiling.CorrelationOrder | src/incident/incident_manager.py:390-392 | once all concurrent callers are done, the live correlation index is the one a rebuild would give exactly when, within each key, recordings finished in the order in which they began |
| ConcurrentFiling.Overtaken | src/incident/incident_manager.py:390-392 | for any two samples of one key a run in which the second recording overtakes the first and the live index has them in reverse |
| ConcurrentFiling.SampleIndexAgrees | src/incident/incident_manager.py:393-394 | once all concurrent callers are done, the live sample index is the one a rebuild would give, whatever the interleaving |
| DefenseActions.HealingConverges | src/defense/simulated_executor.py:70-114 | any number of faulty applications and then a clean one leave exactly what one clean application leaves |
| DefenseActions.AttemptsOutcome | src/defense/recovery.py:57-67 | attempts succeed exactly at the first achieving one, and then leave what a first-try success would |
| DefenseActions.AllOrNothing | src/defense/recovery.py:57-83 | with rollback on, a call ends in the verified intended state or in the state before it, whatever the faults |
| DefenseActions.WithoutRollback | src/defense/recovery.py:69-70 | with rollback off, the same holds for all faults exactly from the states listed |
| DefenseActions.BlockWithoutRollbackLeavesLimit | src/defense/simulated_executor.py:108-110 | a failed block without rollback leaves the rate limit behind |
| DefenseActions.SettledKeeps | src/defense/simulated_executor.py:70-114 | no protection of a target is taken back by a call |
| DefenseActions.SettledTouchesOnly | src/defense/simulated_executor.py:70-114 | whatever the faults, a call changes only the fields its action may touch, field by field; isolating loses no session |
| DefenseActions.CleanSets | src/defense/simulated_executor.py:70-90 | what each field shows after a clean application, in terms of the action |
| DefenseActions.FaultyDoesHalf | src/defense/simulated_executor.py:94-114 | a faulty application leaves every field as before, except for its half of the action, which it leaves as a clean one would |
| DefenseActions.ReachedExactly | src/defense/verification.py:30-52 | verification accepts exactly the states in which a clean application would change nothing more, with a suspended session for an isolation, and increased monitoring even of an unmonitored target |
| DefenseActions.ActiveExactly | src/defense/safety_validator.py:28-42 | an action comes into force exactly by a clean application of itself, and rate limiting also by a block |
| SimulatedNetwork.SourceState.ApplyFull | src/defense/simulated_executor.py:70-90 | the in-place effect of each action, which touches no field but the action's own |
| SimulatedNetwork.SourceState.ApplyPartial | src/defense/simulated_executor.py:94-114 | the in-place effect of a faulty application, which touches no field but the action's own |
| SimulatedNetwork.SimulatedNetworkState.Snapshot | src/defense/simulated_state.py:57-60 | a fresh copy that later changes of the network do not reach, of the default state for an unknown target |
| SimulatedNetwork.SimulatedNetworkState.Restore | src/defense/simulated_state.py:62-65 | every field back, of whichever target the snapshot was, in a new object that the snapshot does not share; all other targets keep object and values |
| SimulatedNetwork.SimulatedDefenseExecutor.Execute | src/defense/simulated_executor.py:31-49 | one attempt changes only its target, by the full or the partial effect as the fault set says; unknown actions raise and change nothing |
| SimulatedNetwork.SimulatedDefenseExecutor.Rollback | src/defense/simulated_executor.py:51-66 | the target has the snapshot's values again, other targets are untouched |
| SimulatedNetwork.Verify | src/defense/verification.py:30-66 | verified exactly when the target exists and shows the action's intended state; an unknown action raises exactly for an existing target |
| SimulatedNetwork.VerifyRollback | src/defense/verification.py:69-88 | confirmed exactly when every field matches the snapshot |
| DefenseEngines.Validate | src/defense/safety_validator.py:50-117 | allowed exactly when all eight checks hold; the recorded checks are true, and the false one is the first to fail |
| DefenseEngines.RetryAll | src/defense/recovery.py:55-67 | retries go on until one verifies or exactly the configured number is used up |
| DefenseEngines.AttemptRecovery | src/defense/recovery.py:39-83 | self-healed exactly when a retry verified; otherwise rolled back exactly when allowed and reversible, to the pre-action snapshot |
| DefenseEngines.AnswerMeans | src/defense/defense_engine.py:88-150 | status, health, recovery and rollback of an answer by the position of the first attempt that succeeds among those permitted; nothing else is reported |
| DefenseEngines.DefenseEngine.Remediate | src/defense/defense_engine.py:69-81 | recovery runs exactly when the first attempt does not verify, and the target ends in the state the attempts and the rollback determine |
| DefenseEngines.DefenseEngine.Process | src/defense/defense_engine.py:48-86 | result, target state and metrics of a call are determined by policy, request, state and faults; only the action's own fields of the target change; other targets keep objects and values; a rejected call changes nothing |
| DefenseEngines.HandleRisk | src/runtime/services/defense_worker.py:49-67 | the counter difference reports a rollback exactly when this call rolled back |
| DefenseMetrics.CountersConserved | src/defense/metrics.py:41-75 | decisions = executed + rejected, executed = healthy + failed, recoveries = failed verifications = their successes + failures |
| DefenseMetrics.CountersCount | src/defense/metrics.py:41-75 | whatever is recorded, each counter counts the entries it is named after |
| DefenseRuns.Session | src/defense/defense_engine.py:48-86 | the engine over its heap realises exactly the runs the theorems below are about |
| DefenseRuns.RunCounts | src/defense/metrics.py:41-75 | after any run the counters balance, and each has counted the calls it is named after, by action, status, recovery and rollback |
| DefenseRuns.CallIsAllOrNothing | src/defense/defense_engine.py:48-86 | within any run, with rollback on, a call reaches its verified state or leaves the target as it was; no other target changes |
| DefenseRuns.CallTouchesOnly | src/defense/defense_engine.py:48-86 | each call of a run changes only its own action's fields of its own target, and answers by the first success among one attempt and the configured retries |
| DefenseRuns.EveryChangeHasItsCall | src/defense/simulated_executor.py:70-114 | in any run from the empty network every protection a target shows, and every session it lost or had suspended, goes back to an earlier call of an action that does that, on it |
| DefenseRuns.ProtectionStays | src/defense/simulated_executor.py:70-114 | between any two points of a run no protection of any target is taken back |
| DefenseRuns.AtMostOnce | src/defense/safety_validator.py:28-42 | an action other than MONITOR that was executed on a target is rejected ever after, as healthy when nothing else is wrong, and changes nothing |
| DefenseRuns.SessionsAccounted | src/defense/simulated_executor.py:78-88 | active and suspended sessions are at most one, and none only behind a block or termination |
| DefenseRuns.CleanCall | src/defense/verification.py:38-42 | an allowed call with a fault-free first attempt succeeds at once, except exactly an ISOLATE without a session to suspend |
| DefenseRuns.CleanCallSucceeds | src/defense/defense_engine.py:128-133 | in any run from the empty network an allowed fault-free call on a target neither blocked nor terminated ends EXECUTED, HEALTHY, NOT_ATTEMPTED, in the fully applied state |
| DefenseRuns.IsolateAfterBlockFails | src/defense/verification.py:38-42 | isolating a blocked target fails although nothing is at fault |
| CircuitBreaker.QuantumCircuitBreaker.AllowRequest | src/routing/circuit_breaker.py:57-86 | admission as the backend's own record says; no other backend's record changes |
| CircuitBreaker.QuantumCircuitBreaker.RecordSuccess | src/routing/circuit_breaker.py:88-97 | a success closes a half-open breaker as good as new, clears the failures of a closed one, and does nothing to an open one |
| CircuitBreaker.QuantumCircuitBreaker.RecordFailure | src/routing/circuit_breaker.py:99-111 | a failure reopens a half-open breaker, counts in a closed one and opens it at the threshold, and does nothing to an open one |
| CircuitBreaker.BreakerInvariant | src/routing/circuit_breaker.py:57-111 | in every run HALF_OPEN has its trial claimed, and CLOSED has counted the failures since the last success, fewer than the threshold |
| CircuitBreaker.OpensExactly | src/routing/circuit_breaker.py:107-111 | a closed breaker opens on exactly the threshold-th failure since the last success |
| CircuitBreaker.OpensOnlyOnFailure | src/routing/circuit_breaker.py:57-111 | a closed breaker admits everybody, and only a failure opens it, at that moment |
| CircuitBreaker.ClosesExactly | src/routing/circuit_breaker.py:88-106 | the breaker closes exactly on a success reported to a half-open one, and reopens exactly on a failure reported to one, from then on |
| CircuitBreaker.WaitsExactly | src/routing/circuit_breaker.py:72-84 | an open breaker turns half-open exactly on a request after its cooldown and hears no report; a half-open one admits nobody else |
| CircuitBreaker.CooldownBetweenTrials | src/routing/circuit_breaker.py:72-84 | with a monotone clock the k-th request let through since the breaker tripped comes no earlier than k cooldowns after it |
| RoutingContracts.EvaluateRouting | src/routing/policy.py:93-121 | quantum is invoked exactly when some threshold is crossed, and the reasons are the crossed ones; another combination mode raises |
| QuantumJobs.RunJob | src/routing/worker.py:51-128 | it succeeds exactly when one of the permitted attempts does, after the attempts up to the first success; durations add up; a failure has a reason, timeout exactly by its error text |
| QuantumJobs.SpentFromFront | src/routing/worker.py:69-108 | a job's time is its first attempt's and that of the rest |
| QuantumJobs.TimeoutReason | src/routing/worker.py:119-120 | a genuine timeout always counts as one, a raised exception never |
| QuantumRouters.QuantumRouter.Route | src/routing/router.py:79-176 | refused exactly for an unknown mode or an admitted backend without a timeout; not invoked exactly without a crossed threshold, pending exactly if the breaker admits, circuit-open fallback otherwise; decisions are valid and show the breaker as it was found, job ids fresh, counters and breaker changed accordingly |
| QuantumRouters.QuantumRouter.ResolveDecision | src/routing/router.py:216-258 | a finished job's decision is valid and ready for the hybrid engine, success or fallback as the job ended, and only now the breaker is told |
| QuantumRouters.QuantumRouter.RouteAndWait | src/routing/router.py:189-214 | status, result, reason, breaker and counters are exactly those that thresholds, breaker and the job's end determine; every decision is valid, and one that is not pending satisfies all that the hybrid engine assumes |
| QuantumRouters.CostMeans | src/routing/metrics.py:32-57 | a call counts one event, its invocation unless turned away, its outcome if it has one, and its fallback under its own reason |
| RouterRuns.StepConserves | src/routing/metrics.py:32-57 | every single counter update of every interleaved call keeps all conservation laws, with what calls in progress still owe |
| RouterRuns.CountersConserved | src/routing/metrics.py:32-57 | candidates = invocations + open circuits, invocations = successes + failures + unresolved, fallbacks = sum of reasons = failures + open circuits, for any interleaving and any abandoned waits |
| RouterRuns.RunCounts | src/routing/metrics.py:32-57 | in every interleaved run each counter is the number of moments it is named after, timeouts and exhausted retries told apart |
| HalfOpen.StuckForever | src/routing/router.py:207-212 | from a half-open breaker with no call left to report it never leaves that state and no call is ever admitted again |
| HalfOpen.RecoversExactly | src/routing/circuit_breaker.py:72-111 | a half-open breaker can still leave that state exactly when some call admitted earlier may report |
| HalfOpen.CanCloseExactly | src/routing/circuit_breaker.py:88-97 | a half-open breaker can close again, now or after further trials, exactly when some call may report |
| HalfOpen.TrialClosesExactly | src/routing/circuit_breaker.py:88-97 | the trial under way can close it without another one exactly when some call may still report a success |
| HalfOpen.AbandonedTrial | src/routing/router.py:141-152 | when the caller of a trial stops waiting, or raises for want of a configured timeout, the backend is stranded exactly if no other call may report |
| HalfOpen.StuckIsReachable | src/routing/router.py:207-212 | under any settings a run from the empty system leads to the stranded state |
| HybridEngine.RaisesExactly | src/hybrid/hybrid_engine.py:49-59 | building raises exactly for a pending decision, another sample, or a success with a failed result |
| HybridEngine.ContractAllowsFailedSuccess | src/contracts/routing_decision.py:59-78 | the decision's own validation admits a success with a failed result |
| HybridEngine.BuiltIsSound | src/hybrid/hybrid_engine.py:70-177 | every built decision is valid; conflict and fallback never occur together; a change by quantum is recorded exactly when quantum was used and the prediction differs |
| HybridEngine.BuiltIsWordOf | src/hybrid/hybrid_engine.py:121-177 | a built decision takes the quantum prediction exactly when the answer is sure enough, the larger confidence on agreement, and otherwise that of the side it takes; an override is recorded exactly when the predictions differ and the threshold is met; the quantum answer is copied as given |
| HybridEngine.StatusMeans | src/hybrid/hybrid_engine.py:8-24 | normal, confirmed and uncertain mean, each in both directions, what they are documented to mean |
| HybridPipelines.HybridCountersConserved | src/hybrid/metrics.py:38-65 | invocations = successes + failures, successes = agreements + disagreements, changes at most disagreements, over any built samples |
| HybridPipelines.LabelsCount | src/hybrid/metrics.py:38-65 | predictions and risk levels are counted under their own names |
| HybridPipelines.AnswersCount | src/hybrid/metrics.py:38-65 | successes, fallbacks, agreements, disagreements and changes each count the samples they are named after |
| HybridPipelines.HybridPipeline.Process | src/hybrid/pipeline.py:34-40 | decision and assessment are valid and counted together, or nothing is counted; prediction and confidence are those of the side the decision takes |
| RiskEngine.AssessRisk | src/hybrid/risk_engine.py:49-145 | all scores in the unit interval, the level is the score's, raised to the floor exactly for a confirmed attack scored below it, and a reason is listed exactly when it applies |
| RiskEngine.LevelCounts | src/hybrid/risk_engine.py:35-42 | the level counts the thresholds that the score has reached |
| RiskEngine.FloorExactly | src/hybrid/risk_engine.py:98-105 | the floor moves a level exactly for an attack that is confirmed and scored below it, and then to the floor itself |
| RiskEngine.ClampsIdle | src/hybrid/risk_engine.py:71-94 | with non-negative weights summing to one no clamp changes a value |
| RiskEngine.ScoreMonotone | src/hybrid/risk_engine.py:71-96 | more evidence of any kind never lowers score or level |
| RiskEngine.UncertaintyBound | src/hybrid/risk_engine.py:79-93 | for a built decision uncertainty adds at most its weight times (disagreement's share + the larger of conflict and fallback) |
| RiskEngine.UncertaintyAlone | src/hybrid/risk_engine.py:6-13 | over all decisions that can be built, uncertainty without threat evidence never reaches HIGH exactly when its largest contribution is below the HIGH threshold |
| RiskEngine.ExchangedPolicy | src/hybrid/risk_policy.py:41-43 | a policy that loading accepts under which a decision without threat evidence reaches HIGH |
| RiskEngine.CarriedExactly | src/hybrid/risk_engine.py:9-13 | the score is HIGH without the threat evidence carrying it there exactly when the threshold lies above the threat share and not above the sum of both shares |
| RiskEngine.CarriedByUncertainty | src/hybrid/risk_engine.py:9-13 | some decision that can be built does this exactly when the policy's largest shares, with a conflict or with a fallback, allow it |
| RiskEngine.ShippedPolicy | config/risk_policy.json:2-22 | under the shipped policy uncertainty alone stays below HIGH, but an unconfirmed attack with a threat share of 0.4425 reaches it |
| RiskEngine.CriticalExactly | src/hybrid/risk_engine.py:96-105 | with a floor of at most HIGH a level is CRITICAL exactly when the unclamped score reaches the threshold |
| ApplicationFeatures.LongestRun | src/agents/application_features.py:164-172 | the loop returns the length of the longest run of consecutive failures |
| ApplicationFeatures.RunAgainstFailures | src/agents/application_features.py:155-173 | the longest run is at most the number of failures, and equal exactly when they are contiguous |
| ApplicationFeatures.AuthFeatures | src/agents/application_features.py:102-106 | burst at most failure rate, equal exactly when the failures are contiguous; both zero without authentication |
| ApplicationFeatures.AuthMembers | src/agents/application_features.py:102-106 | the selected observations are exactly the authentications of the window |
| ApplicationFeatures.AuthConcat | src/agents/application_features.py:102-106 | in their order |
| ApplicationFeatures.RatioMeans | src/agents/application_features.py:103-106 | a rate times its window is the count it stands for |
| ApplicationFeatures.CountRepeated | src/agents/application_features.py:140-145 | repeated plus distinct endpoints make up the window |
| ApplicationFeatures.DistinctAgainstSwitches | src/agents/application_features.py:125-129 | a window visits at most one endpoint more than it switches |
| ApplicationFeatures.SwitchesConcat | src/agents/application_features.py:125-129 | two windows in a row switch as often as each, and once more where they meet at different endpoints |
| ApplicationFeatures.EndpointFeatures | src/agents/application_features.py:125-146 | the two rates are those counts over their windows, within their documented ranges |

## Left out

- StreamWorkers.StreamWorker.RunForever: does not model the unbounded loop without max_iterations, because every method here terminates; a run of any finite length is covered.
- StreamWorkers.StreamWorker.RecoverPending: does not state that every pending entry is reclaimed, because the scan stops at the first empty batch; that the scan ends assumes that stream positions are bounded while it runs.
- Drain.Consumer.ProcessNext: does not model idle polling and the block time of a read, which change nothing.
- Payloads, timestamps, JSON encoding and malformed stream entries: messages are identities, causes, types and retry counts.
- Redis itself, its networking and the consumer-group setup: each stream command is one atomic step with its documented meaning.
- Idempotency time-to-live values: keys may expire at any moment, or never where a bound assumes so.
- src/runtime/event_store_redis.py: its append is three separate commands; the locked stores are modelled.
- The in-memory event store: it is the JSON-lines store without the file.
- IncidentLog.ReconstructSnapshot: does not model events whose states are None, which nothing in the repository records.
- The reason texts of lifecycle events: the fixed ones are one non-empty sentence.
- Incident metrics and their durations: counters beside the log that nothing reads back.
- Store failures other than process death: an append that raises would be one more way to stop a lifecycle.
- IncidentManagers.IncidentManager.Process: does not model concurrent callers, which are a transition system of their own; that one leaves out the snapshots' contents and the repeat counts, which are per incident and under a lock.
- ConcurrentProcessing.OneIncidentPerSample: does not model a lifecycle that raises half-way, because recording never does unless the store fails.
- Concurrent calls of one defense engine: the code gives it no lock; calls are modelled one after the other.
- Audit records and logging: they copy what the results already say.
- ThreadPoolExecutor, the job queue and its waiting times: a job is submitted and later resolved, or never.
- QuantumRouters.QuantumRouter.Route: does not model latencies, signal values and threshold snapshots, which are only copied into the decision.
- Wall-clock reading and sleeping: clock readings are parameters, sleeps are counted or summed.
- RiskEngine.ClampsIdle: does not model rounding or the tolerance of the weight check, because scores are exact reals here; non-negative weights are assumed where loading checks only the sums.
- ApplicationFeatures.EndpointFeatures: does not model sorting, rates over time, entropy and latency features, which are library arithmetic; windows come in sequence order.
- Classical and quantum models, training, agents, the API, the dashboard, configuration files and dataset handling.
