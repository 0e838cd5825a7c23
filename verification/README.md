# Verification of tellyq's durable queue and evidence core

tellyq plays a queue of videos on a Cast receiver from an owner process that may crash at any time.
Three things must hold together: a durable journal of intents and outcomes, a policy that folds an
untrusted stream of receiver events into claims, and an owner that acts on both. This project models
them and proves what they promise.

- **The journal** (`QueueRecords`, `QueueJournal`, `QueueStore`): the rows of a queue, the check that
  every reload runs, and each transaction twice: statement by statement in the class
  `SQLiteQueueStore`, and as a function from rows to rows. `JournalInvariant` proves that guards and
  reload check agree, `RolledBackWrites` exhibits the two transactions where they do not,
  `QueueHistory` that nothing recorded is ever unwound, `NativeChain` the shape of native queues.
  `JournalReload` and `TransactionEffects` say by position what the check accepts and what each
  transaction writes, and that every latch is set over every run.
- **The executors** (`QueueExecution`, `QueueExecutor`, `OverlappingCalls`, `FreshCalls`,
  `ReplyJournal`): prepare, claim, invoke once, record. The class is the straight-line code; the state
  machine interleaves any number of such calls with each other, with crashes at every store boundary
  and with all other store calls. `FreshCalls` is when a call does invoke, `ReplyJournal` what the
  journal then says about the reply.
- **The evidence policy** (`Policy`, `PolicyTrace`, `EvidenceTable`, `NaturalEnd`, `SessionExits`,
  `CompletionValidity`): samples become claims. `EvidenceTable` is the policy claim by claim; a
  completion is traced back to what must have been delivered (`PolicyTrace`) and follows from it
  (`NaturalEnd`).
- **Native observation** (`NativeTracking`, `NativeReadiness`, `NativeObservation`): a second,
  stricter tracker around the policy, what makes it ready, and its agreement with the journal's
  adoption guards.
- **Decisions** (`DecisionMaterial`, `QueuePolicy`, `DecisionTable`, `QueueDriving`,
  `SettlementIdentities`): the pure queue decision, exactly when it proposes what, its identities, and
  its agreement with the journal over whole runs.
- **Hand-over** (`Handoff`, `ReleaseReadiness`, `PlaybackTask`, `OwnerStarts`, `NativeTask`,
  `NativeSends`, `NativeAttention`): the sticky veto after an end, when a successor may start and when
  it does, and what a native owner watches, sends, adopts and stops.
- **The adapter** (`CastMessages`, `CastBackend`, `WireObservations`, `IdentityHistory`, `CastDrain`,
  `MetadataStructure`): untrusted messages and what an observation says of them, bounded summaries
  that answer like the unbounded ones, exactly-once delivery, gap-free numbering.
- **The owner thread** (`RunnerProtocol`, `RunnerOrder`, `SessionRunner`): clients and worker as
  atomic critical sections under one condition, and the order of service.

Conventions. Frozen records are datatypes and fields that Python excludes from equality are dropped.
Monotonic times are reals, wall-clock times are integers, identities are strings. An exception is an
`Err`; an operation that raises leaves its caller with what it had. Clocks, replies, other threads and
other processes are parameters, so every theorem holds for all of them. Uniqueness across queues is a
set of keys held elsewhere in the database.

## Findings

Where the code does not do what its guards or comments suggest, the exact condition is proved.

- Staging a native successor only requires an application identity to be present; the reload also
  requires it to be nonempty. A staging for the application "" passes every guard and is rolled back
  (`JournalInvariant.StagedKeeps`, `RolledBackWrites.EmptyApplicationRollsBack`).
- Recording that the receiver refused an enqueue passes its guards after the successor was adopted,
  and is then rolled back (`JournalInvariant.NativeTransitionKeeps`,
  `RolledBackWrites.LateRefusalRollsBack`).
- A duplicate call is meant to return history only. Two overlapping calls for one command that both
  read the journal before either prepared are not told apart: when the first dies right after
  journaling its intent, the second takes that intent for its own and invokes it. It is still invoked
  at most once (`OverlappingCalls.OverlapInvokes`, `OverlappingCalls.OverlappingDuplicateInvokes`).
- A gap that ends in a matching heartbeat leaves `receiver_playback_confirmed` set without the history
  that confirmed it; the native tracker invalidates on every gap and does not have this case
  (`PolicyTrace.ConfirmedWithoutHistory`, `PolicyTrace.GapLeavesTheClaim`,
  `NativeTracking.NotedKeeps`).
- Two timely samples of progress do not always confirm playback: the witness of progress stays while
  playback stalls, so an older one can be too old at the second sample. If nothing else confirms the
  playback, its natural end is then not recorded (`NaturalEnd.WitnessDecides`,
  `NaturalEnd.StalledWitnessHidesTheEnd`).
- A queue item whose identity is only white space can be created and proposed but never started
  (`QueueDriving.ReadyIsAccepted`, `QueueDriving.BlankItemNeverStarts`).

## Model

| member | source | states |
|---|---|---|
| QueueStore.SQLiteQueueStore.Create | tellyq/queue_store.py:436-449 | a new queue with a nonblank identity and distinct pending items; a taken identity conflicts |
| QueueStore.SQLiteQueueStore.Load | tellyq/queue_store.py:248-254 | committed rows are read back as they are, and the reload check never fails on them |
| QueueStore.SQLiteQueueStore.Changed | tellyq/queue_store.py:384-388 | the revision is bumped and the rows are committed exactly if their own reload accepts them |
| QueueStore.SQLiteQueueStore.PrepareStart | tellyq/queue_store.py:483-534 | one START transaction: duplicates return history, every guard refuses, and otherwise item, attempt, selection and PENDING command are written together |
| QueueStore.SQLiteQueueStore.PrepareStop | tellyq/queue_store.py:536-565 | one STOP transaction, which also latches cancellation |
| QueueStore.SQLiteQueueStore.PrepareControl | tellyq/queue_store.py:567-619 | one PAUSE, RESUME or RELEASE transaction on the selected attempt |
| QueueStore.SQLiteQueueStore.CancelQueue | tellyq/queue_store.py:639-650 | the cancellation latch is set once and stays |
| QueueStore.SQLiteQueueStore.Transition | tellyq/queue_store.py:682-730 | a strict PENDING to DISPATCHED claim, or an outcome of a dispatched command |
| QueueStore.SQLiteQueueStore.SettleAttempt | tellyq/queue_store.py:732-780 | an attempt and its item settle together under one recorded decision |
| QueueStore.SQLiteQueueStore.Recover | tellyq/queue_store.py:782-835 | an old owner is fenced: generation rises and dispatched work becomes uncertain |
| QueueStore.SQLiteQueueStore.PrepareNativeSuccessor | tellyq/queue_store.py:1111-1222 | one reservation of the next item together with its enqueue intent |
| QueueStore.SQLiteQueueStore.PrepareNativeClear | tellyq/queue_store.py:1224-1269 | one CLEAR intent for a reservation |
| QueueStore.SQLiteQueueStore.TransitionNative | tellyq/queue_store.py:1309-1358 | a native claim or outcome; uncertainty holds the queue |
| QueueStore.SQLiteQueueStore.AdoptNativeSuccessor | tellyq/queue_store.py:1360-1477 | an observed successor becomes the current attempt, on qualified progress only |
| QueueStore.SQLiteQueueStore.RecordNativeSessionExit | tellyq/queue_store.py:1479-1508 | a session exit is recorded once for a canceled queue |
| JournalInvariant.WriteIsAccepted | tellyq/queue_store.py:256-376 | from rows the reload accepts, every transaction whose guards pass writes rows that keep all keys and that the reload accepts again, except if and only if `RollsBack` |
| JournalInvariant.ApplyKeeps | tellyq/queue_store.py:384-388 | the reload after a write never decides anything beyond the guards, apart from those two cases |
| JournalInvariant.StagedKeeps | tellyq/queue_store.py:1111-1222 | staging is accepted by its reload if and only if the application identity is not the empty string |
| JournalInvariant.NativeTransitionKeeps | tellyq/queue_store.py:1309-1358 | a native outcome is accepted by its reload if and only if it is not a refusal of an adopted enqueue |
| JournalInvariant.AdoptionKeeps | tellyq/queue_store.py:1437-1477 | adoption keeps the native history consistent across items, attempts and reservations |
| JournalInvariant.RecoverKeeps | tellyq/queue_store.py:782-835 | recovery keeps the reload check, in both queue modes |
| JournalReload.ReloadsExactly | tellyq/queue_store.py:256-376 | a reload accepts keyed rows if and only if, by position, every reference leads to its row and what belongs together agrees: items, attempts, commands, reservations, operations and their states |
| TransactionEffects.TransactionDoes | tellyq/queue_store.py:483-1508 | every transaction is exactly a change, a repeat or a refusal: when it is let through, what it writes in every row and latch, and that nothing else changes, all in terms of the rows by position |
| TransactionEffects.CreationDoes | tellyq/queue_store.py:390-449 | a queue is created exactly for a nonblank identity and distinct pending items, with these rows |
| TransactionEffects.EverythingIsLatched | tellyq/queue_store.py:536-835 | over every run of calls from creation: a queue with any STOP, stopped or unattended work is canceled, and uncertain or unattended native work holds it |
| RolledBackWrites.EmptyApplicationRollsBack | tellyq/queue_store.py:1130-1134 | a concrete staging for application "" that passes every guard and is rolled back by its reload |
| RolledBackWrites.LateRefusalRollsBack | tellyq/queue_store.py:1289-1307 | a concrete refusal of an already adopted enqueue that cannot be recorded |
| QueueHistory.WriteContinues | tellyq/queue_store.py:682-835 | no transaction unwinds history: latches, generation, terminal intents, outcomes and decisions are permanent |
| QueueHistory.RunContinues | tellyq/queue_store.py:483-835 | the same over every run of committed and refused calls; a stopped attempt never finishes, and after a latch nothing but stops and clears leaves PENDING |
| NativeChain.WriteReleasesOnce | tellyq/queue_store.py:586-617 | no transaction gives an attempt a second RELEASE or releases an unfinished one |
| NativeChain.RunIsLawful | tellyq/queue_store.py:483-619 | over every run: durable rows, a chained native history, one RELEASE per attempt |
| NativeChain.NativeQueueShape | tellyq/queue_store.py:931-1017 | over every run of a native queue: at most one START, at most one outstanding reservation, and consecutive attempts joined by adopted reservations whose enqueue was sent |
| QueueExecution.ClaimSpends | tellyq/queue_store.py:691-730 | a claim succeeds only on a PENDING intent and uses it up |
| QueueExecution.AtMostOnce | tellyq/queue_execution.py:119-238 | in every interleaving of calls, duplicates, crashes, recovery and other store calls, no effect is invoked twice, and every invoked one was claimed |
| QueueExecution.InvokedAfterClaim | tellyq/queue_execution.py:177-221 | the step that invokes an effect finds its claim durable already |
| QueueExecution.AbandonedIsNeverInvoked | tellyq/queue_execution.py:134-137 | a journaled effect for which no running call owns or could still get a claim is never invoked by later calls |
| QueueExecution.CrashedClaimIsNeverInvoked | tellyq/queue_execution.py:177-221 | a call that dies after its claim leaves an effect that is never invoked, whatever other calls are under way |
| QueueExecution.CrashedIntentIsNeverInvoked | tellyq/native_queue_execution.py:118-173 | a call that dies before its claim leaves an intent that is never invoked later, a retry included, provided that no other call for it had read the journal before the intent was there |
| OverlappingCalls.OverlapInvokes | tellyq/queue_execution.py:133-221 | a call that had read the journal before the intent was there invokes it exactly if the intent is unclaimed, matches its request, stands at the revision and in the generation it expects, and can be claimed |
| OverlappingCalls.OverlappingDuplicateInvokes | tellyq/queue_execution.py:165-172 | a concrete run: two calls for one START overlap, the first dies after journaling its intent, and the second invokes it |
| QueueExecutor.QueueExecutor.Execute | tellyq/queue_execution.py:119-238 | the straight-line executor, run alone, leaves exactly the rows and invocations of that process; what it journals is ACKNOWLEDGED if and only if it invoked and was accepted, REJECTED if and only if it was refused, and UNCERTAIN otherwise |
| QueueExecutor.AloneIsAnExecution | tellyq/native_queue_execution.py:105-211 | that process is one of the executions the theorems above quantify over |
| QueueExecutor.AloneIsStraight | tellyq/native_queue_execution.py:151-211 | run alone, the process comes to an end and invokes at most once |
| FreshCalls.JournaledCanBeClaimed | tellyq/queue_store.py:682-730 | every intent that could be journaled can be claimed right away |
| FreshCalls.FreshCallInvokes | tellyq/queue_execution.py:119-238 | an undisturbed call invokes its effect if and only if the request is new and for these rows, its intent can be journaled, time does not run backwards and the guard allows it |
| FreshCalls.FreshCallRecords | tellyq/queue_execution.py:223-268 | an undisturbed call that was permitted leaves the answer in the journal, uncertain when there is none or the guard withheld it, or its claim if time runs backwards |
| ReplyJournal.WriteOutcome | tellyq/queue_store.py:702-730 | a transaction concludes an effect only by recording its outcome |
| ReplyJournal.JournalTellsReplies | tellyq/queue_execution.py:223-238 | over every execution in which only its calls record outcomes of an effect: ACKNOWLEDGED only if it was invoked and the receiver accepted it, REJECTED only if the receiver refused it |
| Policy.ChangesRaiseRevision | tellyq/domain/policy.py:59-84 | a refresh or sample that changes a snapshot raises its revision and never changes or revokes a completion |
| Policy.RedeliveryIsIdempotent | tellyq/domain/policy.py:224-249 | folding a batch twice at one instant equals folding it once |
| Policy.BatchIsSeen | tellyq/domain/policy.py:224-249 | after a batch every sample in it is refused for good |
| PolicyTrace.CompletionIsSound | tellyq/domain/policy.py:211-440 | a completion stands only on two accepted exact samples of ad-free progress followed, over consecutive samples of the same playback, by a finished one, before any stop |
| PolicyTrace.RunGrows | tellyq/domain/policy.py:177-208 | over every run a completion, a stop and a loss are permanent |
| PolicyTrace.BatchIsRun | tellyq/playback_task.py:331-336 | folding a batch is delivering its samples in their order, and it is refused only when one of them is |
| PolicyTrace.StoppedNeverEnds | tellyq/domain/policy.py:36-48 | once a stop was asked for, no sample records an end |
| PolicyTrace.ConfirmedWithoutHistory | tellyq/domain/policy.py:238-246 | the claim of playback outlives its history if and only if a matching heartbeat is accepted after a gap |
| PolicyTrace.GapLeavesTheClaim | tellyq/domain/policy.py:305-307 | a concrete run in which that happens |
| EvidenceTable.SampleTold | tellyq/domain/policy.py:211-440 | what one delivered sample makes of every field of a session: completion, ownership, release, witnesses, state and evidence, each by conditions on the sample and the snapshot before |
| EvidenceTable.CompletesExactly | tellyq/domain/policy.py:319-367 | a sample records a natural end if and only if it is the idle, finished, ad-free, exact or identified continuation of a confirmed playback of a session that was not stopped, and then with this evidence |
| EvidenceTable.ConfirmsExactly | tellyq/domain/policy.py:387-440 | playback is confirmed if and only if an exact playing sample advances, far enough and soon enough, from the witness of progress; the claim stands until the next sample that is more than a heartbeat |
| NaturalEnd.NaturalEndIsRecorded | tellyq/domain/policy.py:361-440 | two exact samples of progress, a continued viewing and its end complete the run at exactly that sample, with the evidence of it and of the last exact one, if playback was confirmed at the first or its witness is recent at the second |
| NaturalEnd.FreshViewingIsRecorded | tellyq/domain/policy.py:361-440 | from a fresh session: two timely samples of progress, the first still fresh at the second, and a continued viewing to its end complete the run there |
| NaturalEnd.WitnessDecides | tellyq/domain/policy.py:387-417 | with no other media in between, the end is recorded if and only if playback was confirmed at the first sample of progress or its witness is recent at the second |
| NaturalEnd.StalledWitnessHidesTheEnd | tellyq/domain/policy.py:387-404 | a concrete run: an earlier stalled witness is too old at the second timely sample of progress, and the end is not recorded |
| SessionExits.StopIsSeen | tellyq/domain/policy.py:257-294 | over every run: after a stop was asked for, an exit is the stop if and only if it is later than the boundary, and a loss otherwise |
| SessionExits.ReleaseIsSeen | tellyq/domain/policy.py:257-279 | over every run: after the release of a completed session was asked for and accepted, an exit confirms it if and only if it is later than the request, and is a loss otherwise |
| CompletionValidity.CompletionStaysValid | tellyq/domain/queue_policy.py:217-245 | every later snapshot of a run presents its completion as valid, under the same decision identity |
| CompletionValidity.FinishIsNeverRejected | tellyq/domain/queue_policy.py:431-436 | a persisted finish is never held as an invalid completion later |
| NativeTracking.NotedKeeps | tellyq/native_observation.py:150-228 | one event keeps tracker and policy in step; a surviving confirmation is fresh, exact and explicit |
| NativeTracking.ReadyRunQualifies | tellyq/native_observation.py:116-126 | over every run, readiness implies each playback condition of an adoption at that instant |
| NativeTracking.ReadySuccessorIsAdopted | tellyq/queue_store.py:1401-1429 | whenever the successor tracker is ready, the journal adopts what it observed |
| NativeTracking.RefusalIsFinal | tellyq/native_observation.py:136-148 | a contradiction is never undone by later events |
| NativeTracking.PairObserved | tellyq/native_observation.py:330-354 | both sessions are followed; the predecessor only grows and keeps its completion |
| NativeReadiness.NotedExactly | tellyq/native_observation.py:150-228 | one event of a native stream: ignored unless it is news, refused for a reason if and only if it contradicts the watch in that way, and otherwise followed, with its receiver and session as they must be |
| NativeReadiness.PairExactly | tellyq/native_observation.py:330-354 | predecessor and successor both see every event that is news, and a contradiction also ends the ownership of the predecessor |
| NativeReadiness.PlaythroughIsReady | tellyq/native_observation.py:116-228 | over a run: a heartbeat, a first sample and one of progress, with any heartbeats in between and nothing too old, make the tracker ready |
| NativeObservation.NativePlaybackTracker.ObserveOne | tellyq/native_observation.py:150-228 | the tracker object does exactly one step of the tracking function |
| NativeObservation.NativePlaybackTracker.Observe | tellyq/native_observation.py:230-237 | a batch between two refreshes; only time running backwards raises |
| NativeObservation.NativePlaybackTracker.IsReady | tellyq/native_observation.py:116-126 | readiness of the object, with the adoption evidence it implies |
| NativeObservation.NativeSuccessorTracker.Open | tellyq/native_observation.py:248-290 | a live predecessor that does not match the authorized scope is refused |
| NativeObservation.NativeSuccessorTracker.Reconnect | tellyq/native_observation.py:292-316 | a reconnect keeps at most a historical completion and no live evidence |
| NativeObservation.NativeSuccessorTracker.Observe | tellyq/native_observation.py:330-354 | both sessions advance together; the predecessor completion is never unmade |
| DecisionMaterial.MaterialIsUnambiguous | tellyq/domain/queue_policy.py:268-269 | the length-prefixed concatenation is injective on lists of arbitrary strings |
| QueuePolicy.DecisionsIdentifyWork | tellyq/domain/queue_policy.py:248-270 | equal decision identities mean the same queue, attempt and item, and the same skip, or a finish in the same session, of the same completion where the moments are told apart |
| QueuePolicy.CheckPendingLast | tellyq/domain/queue_policy.py:152-157 | the one-pass check accepts exactly the lists whose pending items come last |
| DecisionTable.ConsistentIsValid | tellyq/domain/queue_policy.py:122-187 | rows are consistent in the eyes of the policy if and only if, by position, every reference and count agrees |
| DecisionTable.PrecludedExactly | tellyq/domain/queue_policy.py:365-406 | nothing precludes a proposal if and only if the queue is not being stopped, is consistent, owned by the caller, undisturbed, and plays in the session that is given |
| DecisionTable.SettlesExactly | tellyq/domain/queue_policy.py:407-424 | a settlement is proposed if and only if nothing precludes it, the last attempt is current, its START is acknowledged, and there is a skip or a valid completion; it is SKIPPED if and only if a skip was asked for and FINISHED otherwise |
| DecisionTable.ReadyExactly | tellyq/domain/queue_policy.py:425-457 | an item is proposed if and only if the queue may move on, not everything is settled and the receiver is free; it is the first pending one |
| DecisionTable.CompleteExactly | tellyq/domain/queue_policy.py:440-449 | COMPLETE if and only if the queue may move on and every item is finished or skipped |
| DecisionTable.HoldsExactly | tellyq/domain/queue_policy.py:355-457 | a decision that proposes nothing holds the queue, and for which reason |
| QueueDriving.NewSettlementIsAccepted | tellyq/domain/queue_policy.py:398-424 | a proposed settlement under an identity that is not recorded yet passes all guards of the journal |
| SettlementIdentities.SettlementIsAccepted | tellyq/domain/queue_policy.py:248-270 | over every run of a database of queues, every settlement that is proposed passes all guards of the journal, uniqueness of its identity in and across queues included, and is committed |
| SettlementIdentities.ProposalIsNew | tellyq/domain/queue_policy.py:248-270 | the identity proposed next is recorded neither in its queue nor in any other |
| SettlementIdentities.WriteAttributes | tellyq/queue_store.py:732-780 | every transaction leaves each decision identity in the form of the policy attributable to the attempt that holds it |
| SettlementIdentities.OutcomesAreJustified | tellyq/domain/queue_policy.py:248-270 | over every run of the database, a finished attempt carries the identity of a valid completion of its session, a skipped one that of a skip, and neither can be read as the other |
| QueueDriving.ReadyIsAccepted | tellyq/domain/queue_policy.py:440-457 | every proposed item passes all guards of a start, if and only if its identity is not blank |
| QueueDriving.BlankItemNeverStarts | tellyq/queue_store.py:483-500 | a concrete queue whose only item is a blank: it is created, the item is proposed, and every attempt to start it is malformed |
| QueueDriving.DrivenIsValid | tellyq/domain/queue_policy.py:122-164 | durable rows of a driven queue satisfy the policy consistency check |
| QueueDriving.WriteDrives | tellyq/queue_store.py:505-534 | every transaction that starts items in order keeps that order and adds no work |
| QueueDriving.DrivenRun | tellyq/domain/queue_policy.py:122-164 | over every driven run the queue stays valid and starts its items once each, in list order |
| QueueDriving.ProposalsEnd | tellyq/domain/queue_policy.py:365-457 | over every driven run, at most two proposals per item are ever applied |
| QueueDriving.ProposalTakesWork | tellyq/domain/queue_policy.py:365-457 | each applied proposal strictly decreases the remaining work |
| QueueDriving.CompleteMeansDone | tellyq/domain/queue_policy.py:440-449 | COMPLETE means every item was attempted and finished or skipped under a decision |
| Handoff.TrackRelease | tellyq/handoff.py:235-275 | the loop computes the tracking function |
| Handoff.TrackingIsItsTrace | tellyq/handoff.py:235-275 | the first veto is exactly the first guard violation after the end, and blocked holds if and only if there is one |
| Handoff.RedeliveryChangesNothing | tellyq/handoff.py:257-262 | tracking a batch twice equals tracking it once, also when the snapshot has moved on in between |
| Handoff.BatchesCompose | tellyq/handoff.py:235-275 | neither how events are cut into batches nor how the snapshot of the session moves on between them matters |
| Handoff.StreamIsItsTrace | tellyq/handoff.py:235-275 | the trace specification holds over the whole stream of a session with evolving snapshots |
| Handoff.ReadyMeansQuiet | tellyq/handoff.py:278-371 | over a whole stream of batches with evolving snapshots, readiness means a fresh qualified end and contiguous, timely, undisturbed events from its batch on |
| ReleaseReadiness.ReadyExactly | tellyq/handoff.py:278-371 | a release is ready if and only if its authority is not blocked, the end stands, the newest receiver event says that the finished session still runs, and the newest media event is the ended media |
| ReleaseReadiness.StreamReadyExactly | tellyq/handoff.py:235-371 | over a whole stream of batches with evolving snapshots, readiness is equivalent to an end in some batch, quiet events ever since, and the newest events as above |
| ReleaseReadiness.HoldsExactly | tellyq/handoff.py:287-371 | why a release is held: the first fault of its authority and end, a missing event, or the first fault of the newest events |
| ReleaseReadiness.VetoExactly | tellyq/handoff.py:183-232 | an event is vetoed for a reason if and only if it breaks that guard and no earlier one |
| IdentityHistory.SixSuffice | tellyq/cast_backend.py:552-571 | at most six samples are kept |
| IdentityHistory.CompactionAnswersSame | tellyq/cast_backend.py:552-571 | one compaction keeps every answer |
| IdentityHistory.HistoryAnswersSame | tellyq/cast_backend.py:438-448 | over any stream with increasing times the kept samples answer every scope and boundary as the whole stream |
| CastBackend.GuardsSeeEveryTakeover | tellyq/cast_backend.py:314-326 | the effect guards answer as if everything since the last reset had been kept, over any calls, those that raised included |
| CastBackend.NeverDropped | tellyq/cast_backend.py:595-625 | an accepted event is never dropped as stale: it is translated, or raises exactly if the constructor of an observation refuses it |
| CastBackend.NumberingIsGapFree | tellyq/cast_backend.py:511-550 | over the whole life of a backend, whatever its connection delivers: no call raises, every accepted event yields its observation, and observations are numbered 1, 2, 3, ... with strictly increasing times |
| CastBackend.CallsCompose | tellyq/cast_backend.py:482-509 | however delivered events are cut into calls, the calls do what one call does with all of them |
| CastBackend.BatchIsNumbered | tellyq/cast_backend.py:511-550 | for any transport: one observation per accepted event without gaps, until an ill-formed event raises, if and only if there is one |
| CastBackend.NumbersOnlyIncrease | tellyq/cast_backend.py:511-550 | for any transport, over calls that go on after a raise: numbers and times only increase, and each raise costs exactly one number |
| CastBackend.CastBackend.FieldWitnesses | tellyq/cast_backend.py:562-570 | the backward scan finds the newest two different values of a field |
| CastBackend.CastBackend.RememberIdentity | tellyq/cast_backend.py:552-571 | the object keeps the compacted history, at most six samples |
| CastBackend.CastBackend.Normalize | tellyq/cast_backend.py:511-550 | the object numbers and translates a batch as the function does |
| CastMessages.EveryMessageIsWellFormed | tellyq/cast_messages.py:236-259 | whatever JSON arrives, the event it becomes satisfies every check of an observation |
| CastMessages.ReceiverIsWellFormed | tellyq/cast_messages.py:208-233 | a receiver event names both its application and its session, or neither |
| CastMessages.ExitAnswersPoll | tellyq/cast.py:147-190 | an exit is believed only as the timely answer to the pending poll, which it uses up |
| CastMessages.PollsAnswerOnce | tellyq/cast.py:83-190 | over every run of callbacks, each poll is answered by at most one exit |
| WireObservations.MessageBecomes | tellyq/cast_messages.py:208-259 | which event a message becomes, from its fields, and what is left of the pending poll |
| WireObservations.MediaShows | tellyq/cast_backend.py:626-692 | the observation of a media message: state, idle reason, position, duration, session, application, content, playback, ad flag, provider phase and identity update, each equivalent to conditions on the fields of the message and the newest receiver status |
| WireObservations.LifeReports | tellyq/cast_backend.py:511-692 | over the whole life of a backend, observation k shows the message of accepted event k, the newest receiver status that still stood then, and the generation of the last reset before it |
| WireObservations.AcceptsExactly | tellyq/cast_backend.py:511-535 | an event is accepted if and only if it has a finite instant, not in the future, later than everything accepted before |
| CastDrain.Connection.Drain | tellyq/cast.py:299-305 | the queue is emptied in order |
| CastDrain.Connection.HandOver | tellyq/cast.py:352-356 | every taken event is handed over exactly once until the queue is empty, and the last answer counts |
| CastDrain.Connection.Turn | tellyq/cast.py:336-372 | a turn accepts exactly if the last answer of the caller accepts, and only after the poll was retired and everything queued was handed over; a contradiction revokes the candidate |
| CastDrain.Connection.ObserveUntil | tellyq/cast.py:321-381 | the result is the concatenation of the batches given to the caller and everything queued by the end, in queue order |
| MetadataStructure.Structure | tellyq/youtube_metadata.py:86-141 | the shape, the entries and the summary of a metadata field |
| MetadataStructure.Walk | tellyq/youtube_metadata.py:113-141 | within the budget; truncated if and only if the tree has more than 128 nodes or is deeper than 6; otherwise exactly what a full walk finds |
| RunnerProtocol.EveryInterleaving | tellyq/runner.py:384-482 | in every interleaving: bounded mailbox, each ticket handled at most once, all tickets settled at the end, and an accepted stop handled unless something failed |
| RunnerProtocol.NothingLaunchesAfterCancel | tellyq/runner.py:324-344 | after cancellation is latched no start or resume ever leaves the mailbox |
| RunnerProtocol.StopRunsFirst | tellyq/runner.py:388-398 | a queued stop is the next command that runs, whatever clients do, and the worker does not leave before it without a failure |
| RunnerOrder.ServedInOrder | tellyq/runner.py:386-405 | in every interleaving, commands other than the stop are handed to the playback task in the order in which they were issued |
| RunnerOrder.CancelsExactly | tellyq/runner.py:324-335 | cancellation of an open runner latches and cancels exactly the starts and resumes that wait |
| RunnerOrder.MailboxIsServed | tellyq/runner.py:384-429 | a worker that is left alone serves the whole mailbox, in its order |
| RunnerOrder.SubmitExactly | tellyq/runner.py:287-308 | a command is issued if and only if it may be taken now, no waiting ticket has its identity, and there is room; a waiting ticket of the same command answers it, and everything else is refused without a change |
| RunnerOrder.StopExactly | tellyq/runner.py:346-360 | a stop is issued if and only if the runner is open, there is none yet and nothing waits under its identity; it cancels what would launch, and a known stop answers |
| RunnerOrder.WorkerEnds | tellyq/runner.py:406-482 | a worker that is shut down takes no further command, cancels everything queued, settles every ticket, and is stopped, or failed if closing failed |
| RunnerOrder.WaitingIsUnique | tellyq/runner.py:287-322 | in every interleaving the waiting tickets have different identities |
| SessionRunner.SessionRunner.SubmitCommand | tellyq/runner.py:287-308 | a bounded mailbox: known identities return their ticket, cancellation refuses launches |
| SessionRunner.SessionRunner.StopSession | tellyq/runner.py:346-360 | one priority stop for the whole life of the runner |
| SessionRunner.SessionRunner.CancelPendingCommands | tellyq/runner.py:324-335 | the latch is set and what must not run is canceled, in order |
| SessionRunner.SessionRunner.ShutdownSession | tellyq/runner.py:362-382 | everything pending is canceled and nothing more is accepted |
| SessionRunner.SessionRunner.ChooseNext | tellyq/runner.py:386-405 | stop first, then leaving, then a due step, then the oldest command |
| SessionRunner.SessionRunner.FinishCall | tellyq/runner.py:406-429 | the ticket of a call is handled or failed |
| SessionRunner.SessionRunner.EndWorker | tellyq/runner.py:468-482 | when the worker is gone every ticket is settled |
| PlaybackTask.FirstKeeps | tellyq/playback_task.py:461-478 | the explicit first START is decided only for the first item of a queue that was never started |
| PlaybackTask.SuccessorKeeps | tellyq/playback_task.py:562-613 | a hand-over is decided only after the previous attempt finished and its RELEASE was acknowledged |
| PlaybackTask.SuccessorsStartSafely | tellyq/playback_task.py:533-621 | over every run with crashes and replacement owners: list order, each later START after an acknowledged RELEASE of the finished attempt before it, and reaching the receiver only unblocked and idle |
| OwnerStarts.HandoverExactly | tellyq/playback_task.py:562-621 | an undisturbed owner hands over to an item if and only if its rows, session, release and receiver allow it, the journal takes the START and its claim, and the receiver is still idle; then the START reaches the receiver once |
| OwnerStarts.FirstStartExactly | tellyq/playback_task.py:433-486 | the same for the first item of a queue that was never started |
| OwnerStarts.AcceptedEventsGrant | tellyq/playback_task.py:322-340 | accepted events reach the session, and the end of a completed one grants its release, unblocked if and only if every later event was quiet |
| NativeTask.OwnersSendSafely | tellyq/native_task.py:270-402 | over every run of an owner and its replacements with crashes: what is sent was claimed on exactly the rows of its last check, through the session owned then, and is never sent again; all enqueues come from one owner; a stop that waited is carried out in time for exactly the selected attempt |
| NativeTask.EnqueueIsNext | tellyq/native_task.py:290-353 | an enqueue reaches the receiver behind the current attempt, through the session that plays it, with the content of the pending item right after it |
| NativeTask.RecoveryNeverEnqueues | tellyq/native_task.py:59-65 | once an owner recovers on a started queue, neither it nor any later owner enqueues |
| NativeTask.AdoptionIsExact | tellyq/native_task.py:231-255 | in every state of every run a ready successor is adopted if and only if the outstanding reservation is the one followed, its enqueue was sent, the clocks did not move on and the identities are free; no guard on identity or evidence can refuse |
| NativeTask.AwaitedIsSelected | tellyq/native_task.py:505-521 | the session that a waiting stop awaited plays the selected attempt |
| NativeTask.LatchedStays | tellyq/native_task.py:445-470 | in a canceled queue an outstanding reservation stays the last word, whatever is written |
| NativeTask.AdvanceKeeps | tellyq/native_task.py:321-348 | each store boundary of the executor keeps what the last check relies on |
| NativeSends.StagingSends | tellyq/native_task.py:290-353 | an undisturbed owner enqueues the next pending item if and only if it may be staged behind confirmed playback, can be addressed, and the journal takes the enqueue and its claim |
| NativeSends.ClearingSends | tellyq/native_task.py:366-405 | an undisturbed owner clears the outstanding reservation if and only if its session can be reached and addressed and the journal takes the clear and its claim |
| NativeSends.StopExactly | tellyq/native_task.py:445-478 | a stop is carried out at once through an owned session that is not released, or waits, if and only if the owner is between two sessions and the stop is not journaled |
| NativeSends.WaitingStopExactly | tellyq/native_task.py:491-524 | a waiting stop lapses, is carried out through the session that it waited for, or goes on waiting |
| NativeAttention.AttendsExactly | tellyq/native_task.py:96-130 | which events of a window count, when the connection is given up, and when trackers join |
| NativeAttention.ReopensExactly | tellyq/native_task.py:131-155 | a recovering owner watches the last attempt in its known session, nothing, or refuses |
| NativeAttention.RejoinsWhen | tellyq/native_task.py:156-191 | a sent outstanding reservation is followed afresh if and only if there is a connection and its pair can be watched |
| NativeAttention.FollowsWhen | tellyq/native_task.py:340-364 | a sent enqueue is followed if and only if its pair can be watched and its predecessor is live |
| NativeAttention.ConcludesExactly | tellyq/native_task.py:332-364 | after an enqueue: one that the journal shows as sent is followed, any other holds the queue |
| NativeAttention.AdoptionIsFor | tellyq/native_task.py:231-255 | an adoption is attempted if and only if the followed successor is ready, for the outstanding reservation and at the revision that was read |
| NativeAttention.StopCancels | tellyq/native_task.py:445-459 | a stop begins by canceling the queue, which is refused if and only if its revision moved on |

## Left out

- SQLite mechanics, the schema, file permissions, migration, JSON import and rows changed outside the
  program: a transaction either commits or rolls back, and keys are guards.
- The reload's checks of storage classes (integer width, timestamp text, time zones): the model's rows
  are typed.
- SHA-256, `isoformat` and `repr` are functions given from outside. `Faithful` takes the first two to
  be injective, which some renderings are (`QueuePolicy.SomeRenderingIsFaithful`); nothing is assumed
  of `repr`, and equal identities mean equal completions where it tells the two moments apart.
- Whether fresh UUIDs are fresh: identities are parameters, and a used one is refused.
- `application.py`: each use case may return any snapshot and observations, and performs its effect
  only through the checks that are modelled.
- Display evidence (`record_display`): it changes nothing but the revision.
- Native owner task (`native_task.py`): its methods may follow each other in any order; its settlements,
  holds and exit records are arbitrary calls on the journal, so the guard of `_record_exit` on the
  observed exit and the check of the receiver's capabilities are not modelled.
- A snapshot built by hand as a live predecessor whose latest sample is newer than its last ordered
  one; the policy builds none.
- The lock between a poll and the callback that answers it: each callback is one step, and the drain
  sees only whether a poll is open.
- Wire fields that nothing judges (titles, error reasons, shapes of break and item fields), the parsing
  of JSON and of URLs, and the rounding of large integers to doubles.
- Raw observation retention and the wall-clock stamp of events.
- Private field inventories of metadata, and containers shared inside one metadata value: decoded JSON
  is a tree.
- The runner's published read model (revision, view, pending count), wait timeouts and file locks.
- Tickets are values in a list of all tickets ever issued, not objects shared with callers.
- IPC, command line, controllers, diagnostics, discovery and device control: no property beyond the
  checks of each.
