# Verified core of the subnet runtime

The repository is an event-driven actor framework for subnet validators. This project models its
stateful cores in Dafny and proves statements about their whole runs.

| files | what they are about |
|---|---|
| `ContextLog`, `ContextRecovery`, `ContextFailures`, `ContextCorruption`, `ContextEffects`, `ContextLineage`, `ContextLocks`, `ContextStoreRuntime` | the event-sourced context store, its recovery, its tree of contexts, and the locking of parents |
| `TaskProtocol`, `TaskTokens`, `TaskTermination`, `TaskAttribution`, `TaskOutcomes`, `TaskRecords`, `TaskReasons`, `TaskProgress`, `TaskRouting`, `TaskActors` | one task run: retry, payload creation, routing, timestamping, executor, preparation, storage, dispatch |
| `Timestamper` | the timestamper's queue over all contexts |
| `EventBus`, `EventBusDelivery`, `EventBusIsolation`, `EventBusMessages`, `EventBusStop`, `EventBusRuntime`, `EventBusSteps` | the bus and the actor loops |
| `Wiring`, `WiringRuntime`, `FlowUnions` | pipes, flows and the aggregate of flows |
| `AsyncHttp`, `AsyncHttpCauses`, `AsyncHttpRuntime` | asynchronous HTTP requests and the threads that race on them |
| `Epochs`, `ChainBeats`, `TaskResultStore`, `Weighing` | epoch arithmetic, beats, the result store, the demo's weights |
| `RoundRobin` | round-robin routing |
| `StableSort`, `Modular`, `Options` | sorting, quotients, options |

The pattern is the same everywhere. The behaviour is a function or a step relation over values, with
every interleaving of the threads as a sequence of atomic steps. Where the program changes objects in
place, a class does so too, and its methods are proved against those functions. The theorems are about
the functions, so they hold of the classes.

Some conventions: abstract types stand for payloads, outputs and other opaque values. Fresh ids, clock
readings, the outcome of a network call and the iteration order of a set are parameters. A raised
exception is `None`, an outcome, or a choice of the step. Deep copies are values. Floats are reals.

Facts about the program that came out of the proofs:

- The store checks every delta after the entry is logged. No law of the diff library is assumed: runs in
  which that check never fails are recovered exactly. After a check that fails, recovery disagrees with the
  live store in that one context unless the delta changed nothing (`ContextRecovery.MismatchedMessage`,
  `ContextRecovery.MismatchedUserData`, `ContextRecovery.MismatchesHappen`); it never raises, and after any
  number of failures every other context is rebuilt exactly (`ContextFailures.RecoveryAfterFailures`).
- A thread may call `create_context` while it holds locks iff none of them is above a parent that it does
  not hold itself; otherwise it can deadlock with a single other thread (`ContextLocks.SafeIffInOrder`).
- The timestamper's queue is first come first served and empty after the first beat exactly as long as
  no flush raises. A flush raises iff some queued context has no readable start time; then the beat is
  taken, nothing is sent, the queue stays, and later outputs overtake it
  (`Timestamper.OvertakeAfterRaisedFlush`, `Timestamper.OvertakingHappens`).
- A record whose storer raises after storing it stays in the store and is never passed on; every other one
  leaves the task exactly once in a run that loses nothing (`TaskRecords.RecordsLeaveOnce`).
- The preparer's three guards can only fire if its pending slot was taken before the run.
- The callback documentation promises 202 for output that does not validate; the code answers 400, and
  the model follows the code.
- A submitted epoch can be queried and get a weight beat again if block numbers go back across an epoch
  (`ChainBeats.GoingBackQueriesAgain`).
- One more executor failure lowers a weight only if the hotkey has both scored and unscored successes.
- A merge of pipes that raises leaves those sources of the other graph in place that come before the
  conflict (`WiringRuntime.Pipes.Merge`, `WiringRuntime.FailedMergeLeavesPart`).

## Model

| member | source | states |
|---|---|---|
| `ContextRecovery.RecoveryRefinesLiveStore` | src/nexus/_internal/core/runtime/context_store.py:345-416 | After any run of creations, messages, user data, notes, completions and restarts from an empty store, recovery raises nothing and rebuilds exactly the uncompleted contexts with their payload, user data and parent snapshots, drops exactly the completed ones, and reports exactly each survivor's last message. |
| `ContextRecovery.ReplayIsPerContext` | src/nexus/_internal/core/runtime/context_store.py:347-409 | A sequence of entries replays without raising iff each context's own entries do alone, and then every context is what its own entries make of it. |
| `ContextRecovery.ReplayConfluent` | src/nexus/_internal/core/runtime/context_store.py:345-416 | Two interleavings that agree context by context recover the same store. |
| `ContextRecovery.LogEntriesProject` | src/nexus/_internal/core/runtime/context_store.py:622-627 | The step-sorted merge of all logs holds every context's entries in their log order. |
| `ContextRecovery.StepKeeps` | src/nexus/_internal/core/runtime/context_store.py:227-262 | One operation keeps the log of every context folding to its live state. |
| `ContextRecovery.CreateKeeps` | src/nexus/_internal/core/runtime/context_store.py:452-500 | So does the creation of a child of none, one, many or repeated parents. |
| `ContextRecovery.MismatchedMessage` | src/nexus/_internal/core/runtime/context_store.py:227-237 | A message whose delta fails the check is in the log already. Recovery then still succeeds and rebuilds every other context, gives this one the payload of the delta, and so agrees with the live store iff that delta changes nothing. |
| `ContextRecovery.MismatchedUserData` | src/nexus/_internal/core/runtime/context_store.py:239-248 | The same for user data; recovery agrees with the live store iff the key was there with the value that the delta makes. |
| `ContextRecovery.MismatchesHappen` | src/nexus/_internal/core/runtime/context_store.py:239-248 | Both happen, in a run of one fresh context and any diff library whose deltas all lead to one other value, and recovery differs from the live store. |
| `ContextFailures.RecoveryAfterFailures` | src/nexus/_internal/core/runtime/context_store.py:227-248 | After any run, however many delta checks failed in it, recovery raises nothing and rebuilds exactly every uncompleted context without a failed check since the last restart; of the others it rebuilds the parents and the last message, and no context is lost or revived. |
| `ContextFailures.StepFollows` | src/nexus/_internal/core/runtime/context_store.py:227-262 | Every operation, failing or not, keeps the live store equal to what the logs say but for the contents of the failed contexts; a restart ends the difference and never raises. |
| `ContextCorruption.ReplayAcceptsIff` | src/nexus/_internal/core/runtime/context_store.py:347-409 | Recovery raises iff the entries of some context are not a sane log: steps counted from zero without a gap, the context created at most once and before the first entry that needs it, and nothing after a completion. |
| `ContextEffects.RefusedIff` | src/nexus/_internal/core/runtime/context_store.py:259-262 | A call on a context is refused as unknown iff the store does not hold it, and as completed iff it does and it is; a refused call writes nothing. |
| `ContextEffects.AcceptedIsWritten` | src/nexus/_internal/core/runtime/context_store.py:227-257 | Any other call appends one entry to the log of its context, the one that its arguments and the live value make, and changes the live context to match, and nothing else; only a failed delta check leaves the live context alone. |
| `ContextEffects.CreationRefusedIff` | src/nexus/_internal/core/runtime/context_store.py:452-468 | A creation is refused as unknown iff some parent is, as completed iff all are known and some is, and then writes nothing. |
| `ContextEffects.ChildStarts` | src/nexus/_internal/core/runtime/context_store.py:470-476 | A child of one parent, repeated or not, starts with a copy of its payload and user data; a child of none or of several starts empty. |
| `ContextEffects.CreationIsWritten` | src/nexus/_internal/core/runtime/context_store.py:478-497 | A creation appends one entry to the log of every parent and starts the child's log with the parents, each once in the order of first occurrence, and, if there are any, the data it starts with and one snapshot per parent. |
| `ContextEffects.CompletionIsFinal` | src/nexus/_internal/core/runtime/context_store.py:254-262 | Once a completion has been answered, at every later point of any run the log of the context ends with it, every call on it and every child of it is refused and logs nothing, as completed while the process lives and as unknown after a restart, and recovery knows it as completed. |
| `ContextEffects.LastWrittenIsRead` | src/nexus/_internal/core/runtime/context_store.py:227-248 | In any run without failed checks a live context holds the payload of the last message and, for each key, the value set last. |
| `ContextEffects.LastMessageIff` | src/nexus/_internal/core/runtime/context_store.py:395-416 | The last message that recovery reports is the last one in the log. |
| `ContextRecovery.InterruptedCreation` | src/nexus/_internal/core/runtime/context_store.py:478-496 | If the process stops between the two log writes of a creation, recovery succeeds and rebuilds every live context and an empty child, which is the intended one iff it has no parents. |
| `ContextLineage.SnapshotsAreLogPrefixes` | src/nexus/_internal/core/runtime/context_store.py:452-497 | Every snapshot of a parent is the replay of that parent's log up to the one entry that names the child. |
| `ContextLineage.SnapshotsNeverChange` | src/nexus/_internal/core/runtime/context_store.py:198-207 | The snapshots of a live child stay the same for the rest of every run, restarts included. |
| `ContextLineage.TreeIsAcyclicRelation` | src/nexus/_internal/core/runtime/context_store.py:578-619 | Logged parents, fork entries and the persisted tree are one relation without duplicates and without cycles. |
| `ContextLocks.DeadlockFree` | src/nexus/_internal/core/runtime/context_store.py:84-125 | Threads that take the locks of arbitrary parent lists in sorted order, and may come with re-entrant locks of which none is above a parent that is not held itself: no lock has two holders, and while a thread is unfinished some thread can step. |
| `ContextLocks.BodyHoldsAllParents` | src/nexus/_internal/core/runtime/context_store.py:545-550 | A thread that comes to the end of its body holds the locks of all its parents then, and nobody else holds any of them. |
| `ContextLocks.SafeIffInOrder` | src/nexus/_internal/core/runtime/context_store.py:84-125 | The locks a thread comes with are safe among all threads in order iff none of them is above a parent that it does not hold; otherwise one thread more is enough for a reachable stuck state. |
| `ContextLocks.OwnContextIsSafe` | src/nexus/_internal/actors/task_result_dispatcher.py:112-148 | A handler that makes children of its own context is safe. |
| `ContextLocks.SchedulesEnd` | src/nexus/_internal/core/runtime/context_store.py:84-125 | No schedule is longer than the steps the threads have left. |
| `ContextLocks.LockOrderIsStrict` | src/nexus/_internal/core/runtime/context_store.py:547-548 | The lock order is strictly increasing and holds exactly the given ids. |
| `ContextLocks.OppositeOrdersDeadlock` | src/nexus/_internal/core/runtime/context_store.py:545-550 | Without the sorting two threads get stuck. |
| `ContextStoreRuntime.Context.AppendMessage` | src/nexus/_internal/core/runtime/context_store.py:227-237 | The class method does what the store function does, log before live state, with the same error. |
| `ContextStoreRuntime.Context.SetUserData` | src/nexus/_internal/core/runtime/context_store.py:239-248 | The same for user data. |
| `ContextStoreRuntime.Context.AppendUserNote` | src/nexus/_internal/core/runtime/context_store.py:250-252 | The same for notes. |
| `ContextStoreRuntime.Context.Complete` | src/nexus/_internal/core/runtime/context_store.py:254-257 | The same for completion; what a completion then means for the rest of the run is `ContextEffects.CompletionIsFinal`. |
| `ContextStoreRuntime.ContextStore.AppendEntry` | src/nexus/_internal/core/runtime/context_store.py:537-543 | An entry is logged iff the context exists and is not completed. |
| `ContextStoreRuntime.ContextStore.GetContext` | src/nexus/_internal/core/runtime/context_store.py:503-508 | A context is handed out iff the store holds it. |
| `ContextStoreRuntime.ContextStore.TakeSnapshots` | src/nexus/_internal/core/runtime/context_store.py:454-473 | All parents are looked up and checked before any is copied; the copies are the parents' live state. |
| `ContextStoreRuntime.ContextStore.CreateContext` | src/nexus/_internal/core/runtime/context_store.py:452-500 | The store after the call is the one of the creation function, and a context is returned iff it succeeds. |
| `ContextStoreRuntime.ContextStore.RecoverFrom` | src/nexus/_internal/core/runtime/context_store.py:325-425 | The recovery loop over mutable contexts computes the replay function; a raise anywhere is a raise of the whole. |
| `ContextStoreRuntime.InMemoryContextStorePersistence.AppendEntry` | src/nexus/_internal/core/runtime/context_store.py:566-576 | The entry gets the next step index of its context. |
| `ContextStoreRuntime.InMemoryContextStorePersistence.CreateContext` | src/nexus/_internal/core/runtime/context_store.py:578-619 | One entry in every parent log, the first entry of the child's log, and the tree, or nothing if a parent is unknown. |
| `ContextStoreRuntime.InMemoryContextStorePersistence.LogEntries` | src/nexus/_internal/core/runtime/context_store.py:622-627 | All entries in a stable sort by step index. |
| `TaskTokens.OneControlToken` | src/nexus/_internal/core/runtime/nexus_task.py:161-192 | One input, any user data, any interleaving: of all messages, armed timers, pending requests, queued outputs and terminal events, record copies aside, there is never a second one. |
| `TaskTokens.AtMostOneTerminalEvent` | src/nexus/_internal/actors/task_result_storer.py:202-213 | After an executor output or an error no other terminal event and nothing of the attempt is left, although a stored failure is sent on as two messages; that the first of them does go on is `TaskRecords.RecordsArePassedOn`. |
| `TaskTokens.TerminalEventsStay` | src/nexus/_internal/core/runtime/nexus_task.py:114-128 | A terminal event that was emitted is among the events of every later state. |
| `TaskTermination.RunsEnd` | src/nexus/_internal/actors/retry_strategy.py:109-123 | A run moves messages only a bounded number of times. |
| `TaskTermination.AttemptsBounded` | src/nexus/_internal/actors/retry_strategy.py:109-123 | At most max(1, max attempts minus attempts on record) attempts are issued, and exactly that many in a run that reports exhaustion. |
| `TaskTermination.StepDrops` | src/nexus/_internal/actors/retry_strategy.py:162-166 | A measure of the attempts left and the stages ahead drops at every step that moves a message. |
| `TaskAttribution.RecordsAreAttributed` | src/nexus/_internal/actors/executor_communicator/base_communicator.py:115-164 | Every stored record names the payload, target, start time and outcome of the attempt it is filed under, has a public output just when that attempt succeeded, and no attempt has two records. |
| `TaskAttribution.DispatchedIsStored` | src/nexus/_internal/actors/task_result_dispatcher.py:112-148 | What leaves the task as a record is stored under that kind, and an executor output is the public form of a stored success. |
| `TaskRecords.RecordsArePassedOn` | src/nexus/_internal/actors/task_result_storer.py:181-213 | In every run each stored record is on its way or has left the task at most once, and not at all if its storer raised after storing it; in a run that loses nothing it is exactly once. |
| `TaskRecords.RecordsLeaveOnce` | src/nexus/_internal/actors/task_result_dispatcher.py:112-148 | When such a run has nothing left to do, exactly the records whose storer did not raise have left the task, each in one result of its kind. |
| `TaskRecords.AnswersAreReported` | src/nexus/_internal/actors/task_result_preparer.py:122-173 | If moreover the converter and the storers do their work, every attempt that the executor answered with a failure, or with a success and a free slot, has one record, which leaves the task once, as a failure or a success as the answer says. |
| `TaskReasons.StampsAreReal` | src/nexus/_internal/actors/timestamper.py:244-262 | A stored record was stamped by a step of the run, an output that was handled or a beat that flushed, with the time of that step and the beat the task had then. |
| `TaskReasons.WaitsBeforeFlush` | src/nexus/_internal/actors/timestamper.py:158-192 | An output waits for its stamp only if no beat has flushed the queue in the whole run. |
| `TaskReasons.BeatIsLatest` | src/nexus/_internal/actors/timestamper.py:168-173 | The beat that outputs are stamped with is the last one of the run. |
| `TaskReasons.TerminalSaysWhy` | src/nexus/_internal/actors/task_result_preparer.py:122-173 | The one answer says how the last attempt came out: an output is a success with a free slot; the unexpected-type error is an exception of another kind and the duplicate error a success with a taken slot, and only these; a failure is a conversion that failed; exhaustion is none of the first two. |
| `TaskOutcomes.AttemptsGetOriginalInput` | src/nexus/_internal/actors/retry_strategy.py:162-166 | Every attempt starts from the first input the retry node saw. |
| `TaskOutcomes.GuardsNeedTakenSlot` | src/nexus/_internal/actors/task_result_preparer.py:149-212 | With a free pending slot the duplicate, missing and wrong-type branches are never taken; with a slot taken before the run no answer gets past the preparer. |
| `TaskOutcomes.LosslessRunAnswersOnce` | src/nexus/_internal/core/runtime/nexus_task.py:161-192 | A run that loses no message and has nothing left to do has emitted exactly one terminal event. |
| `TaskProgress.NeverStuck` | src/nexus/_internal/core/runtime/nexus_task.py:161-192 | As long as anything is left to do, some step that loses nothing lowers the measure that bounds the run. |
| `TaskProgress.LosslessRunsCanAnswer` | src/nexus/_internal/core/runtime/nexus_task.py:161-192 | Hence every run that has lost nothing so far can be continued, losing nothing, to a state with nothing left to do and exactly one terminal event. |
| `TaskOutcomes.FailingRunExhausts` | src/nexus/_internal/actors/retry_strategy.py:116-120 | If the executor never succeeds in a run that has lost nothing and has nothing left to do, the terminal event is the exhaustion error, after exactly the allowed number of attempts. |
| `TaskProgress.FailingRunsCanExhaust` | src/nexus/_internal/actors/retry_strategy.py:116-120 | Every run that has lost nothing and has seen no success can be continued to that end. |
| `TaskActors.RetryStrategyActor.HandleInput` | src/nexus/_internal/actors/retry_strategy.py:103-107 | The handler of the retry node for the input is the protocol's. |
| `TaskActors.RetryStrategyActor.HandleFailedAttempt` | src/nexus/_internal/actors/retry_strategy.py:109-123 | A timer is armed iff attempts are left; otherwise the error is sent. |
| `TaskActors.RetryStrategyActor.TriggerNextAttempt` | src/nexus/_internal/actors/retry_strategy.py:129-153 | The timer removes itself and issues the next attempt from the state in the context. |
| `TaskActors.CommunicatorActor.StoreInputInContext` | src/nexus/_internal/actors/executor_communicator/base_communicator.py:123-124 | The input is saved in the context. |
| `TaskActors.CommunicatorActor.ProcessedEvent` | src/nexus/_internal/actors/executor_communicator/base_communicator.py:140-164 | An answer is paired with the input saved when it comes. |
| `TaskActors.TaskResultPreparerActor.HandleTimestampedResult` | src/nexus/_internal/actors/task_result_preparer.py:122-173 | The three kinds of results, and the guard of the pending slot. |
| `TaskActors.TaskResultPreparerActor.HandleConvertedPublicOutput` | src/nexus/_internal/actors/task_result_preparer.py:175-215 | The pending result is taken out of the slot, or one of the two errors is sent. |
| `TaskActors.TaskResultPreparerActor.HandleConversionFailed` | src/nexus/_internal/actors/task_result_preparer.py:217-230 | The slot is cleared before the error goes on. |
| `TaskActors.NexusTask.constructor` | src/nexus/_internal/core/runtime/nexus_task.py:123-192 | The connections succeed, give every connected source exactly the sink of the protocol and no taps, and reach every sink but the entry; the endpoints marked as the task's own are exactly the sources that are not connected, the entry and the block beats; the exits are the own sources without the error output, none of them the default; the error output is the one source the internal flow does not list. |
| `TaskActors.NeuronRouterActor.Transform` | src/nexus/_internal/actors/neuron_router.py:143-196 | The handler of the router is the protocol's: the pick at the counter of the context, which goes up, or an error event if nothing is offered. |
| `Timestamper.TimestamperActor.HandleInput` | src/nexus/_internal/actors/timestamper.py:152-156 | The latest input sets the start time. |
| `Timestamper.TimestamperActor.HandleOutput` | src/nexus/_internal/actors/timestamper.py:158-166 | Before the first beat an output is queued, and the queue sheds exactly its entries of more than 300 seconds of age iff its head is one, raising iff some start time cannot be read; after it the output is stamped at once or lost if its start time cannot be read. |
| `Timestamper.TimestamperActor.DropIfFirstTooOld` | src/nexus/_internal/actors/timestamper.py:194-226 | Exactly the entries of more than 300 seconds of age go, iff the head is one and every start time can be read. |
| `Timestamper.TimestamperActor.EntriesWithinErrorThreshold` | src/nexus/_internal/actors/timestamper.py:228-242 | The drop loop keeps exactly the entries of at most 300 seconds of age, in order, and raises iff some start time cannot be read. |
| `Timestamper.TimestamperActor.HandleBlockBeat` | src/nexus/_internal/actors/timestamper.py:168-192 | A beat sends the whole queue and empties it, iff every start time can be read; otherwise it sends nothing and keeps the queue. |
| `Timestamper.YoungIsRecent` | src/nexus/_internal/actors/timestamper.py:228-242 | Filtering by the age test keeps every entry of at most 300 seconds of age, as often as it was there, and no other. |
| `Timestamper.RunIsSound` | src/nexus/_internal/actors/timestamper.py:152-192 | After any sequence of inputs, outputs and beats the books are sound: received is emitted, dropped, lost or queued. |
| `Timestamper.DroppedWasStale` | src/nexus/_internal/actors/timestamper.py:194-242 | An output is dropped in a run only if some check of the run found it more than 300 seconds old. |
| `Timestamper.OvertakeAfterRaisedFlush` | src/nexus/_internal/actors/timestamper.py:158-192 | After a beat whose flush raises, an output of any context with a start time is sent at once, ahead of the whole queue, which stays. |
| `Timestamper.OvertakingHappens` | src/nexus/_internal/actors/timestamper.py:158-192 | Such a queue comes about with two outputs and one missing start time. |
| `Timestamper.FlushKeeps` | src/nexus/_internal/actors/timestamper.py:175-192 | A flush keeps the books: received is emitted, dropped, lost or queued, and sent in the order received as long as no flush has raised. |
| `Timestamper.ReceiveEmitted` | src/nexus/_internal/actors/timestamper.py:165-166 | So does an output that is stamped at once. |
| `Timestamper.DropKeeps` | src/nexus/_internal/actors/timestamper.py:228-242 | So does a drop. |
| `EventBusDelivery.HandledIsPrefixOfPut` | src/nexus/_internal/core/runtime/event_bus.py:71-118 | On every connection the events handled at the sink are a prefix of those put on the bus from the source; nothing comes over a connection that does not exist. |
| `EventBusDelivery.DeliveriesCarryTheirEvent` | src/nexus/_internal/core/runtime/event_bus.py:111-118 | Every delivery carries the event at its place on the bus, and only taps go to another context. |
| `EventBusDelivery.StopDrains` | src/nexus/_internal/core/runtime/actor.py:56-95 | An actor that has exited has handled all it was ever sent, which on each of its connections is every event put on the bus before the stop request. |
| `EventBusMessages.EventsAreLogged` | src/nexus/_internal/core/runtime/event_bus.py:79-83 | In every run each context's log has gained, as messages, exactly the events on it that the bus has taken, in order, but for the last one if its append raised; and as long as the bus runs a live context holds the payload of the last event on it. |
| `EventBusStop.StopReachesOwners` | src/nexus/_internal/core/runtime/event_bus.py:75-77 | Once the bus has stopped, every actor that owns a sink has exited or has a stop signal in its queue. |
| `EventBusStop.OwnersEndDrained` | src/nexus/_internal/core/runtime/actor.py:56-95 | And it can be run to its end by rounds of its own alone, and has then handled on each connection exactly the events put before the stop request. |
| `EventBusIsolation.TapsAreIsolated` | src/nexus/_internal/core/runtime/event_bus.py:101-109 | While a tap delivery waits, its context is still a copy of the event's context as the fork saw it, no code outside the bus has been handed it, and no other tap delivery has it. |
| `EventBusIsolation.TapsHoldParentState` | src/nexus/_internal/core/runtime/event_bus.py:101-109 | The payload and user data of that copy are what the event's own context held at a point of the run at which no delivery of the event was in any queue yet, so before any of its handlers ran. |
| `EventBusIsolation.ForksComeFirst` | src/nexus/_internal/core/runtime/event_bus.py:101-109 | The copies of an event are made before the event is in any queue. |
| `EventBusIsolation.ChildCopiesParent` | src/nexus/_internal/core/runtime/context_store.py:470-474 | A child of one live parent starts with its payload and user data and one snapshot of it. |
| `EventBusRuntime.EventBus.LoopOnce` | src/nexus/_internal/core/runtime/event_bus.py:71-86 | One round of the loop: append, forks and puts, or the end after a stop request or an exception. |
| `EventBusRuntime.EventBus.PassMessageDownstream` | src/nexus/_internal/core/runtime/event_bus.py:88-109 | All forks first, then the primary, then the taps; an exception in a fork sends nothing. |
| `EventBusRuntime.EventBus.StopActors` | src/nexus/_internal/core/runtime/event_bus.py:75-77 | One stop signal per sink, to the actor that owns it. |
| `EventBusSteps.ForkSteps` | src/nexus/_internal/core/runtime/event_bus.py:101-104 | The fork loop is a run of the bus steps that nothing interrupts. |
| `EventBusSteps.SendSteps` | src/nexus/_internal/core/runtime/event_bus.py:106-109 | So is the loop of puts. |
| `EventBusSteps.EventSteps` | src/nexus/_internal/core/runtime/event_bus.py:71-109 | The whole pass of an event, from the append to the last put, leaves behind what the steps of the bus leave behind one after the other: the store with a child per tap, the delivery to the primary and then those to the taps; an exception ends the bus where it is raised. |
| `EventBusRuntime.Actor.LoopOnce` | src/nexus/_internal/core/runtime/actor.py:58-94 | One round of the actor loop: a stop signal ends it after the stop hook. The handler changes its context operation by operation; if the target and the context are known, no operation raises and the handler does not, exactly its events are put on the bus, after what is there; in every other case nothing is put, the changes made until then stay, and the loop goes on. Every message is marked as done. |
| `EventBusRuntime.Actor.Loop` | src/nexus/_internal/core/runtime/actor.py:56-95 | The whole loop handles exactly the messages in front of the first stop signal, one after the other from the store each one leaves, puts on the bus exactly what each of them sends, in order, and calls each hook once. |
| `EventBusRuntime.AnswerSends` | src/nexus/_internal/core/runtime/actor.py:67-94 | What a message sends: the events of its handler if the target is known, the context exists, every change is made and the handler does not raise, and nothing in every other case. |
| `EventBusSteps.ActorSteps` | src/nexus/_internal/core/runtime/actor.py:58-94 | A round with exactly the changes and the events that its message answers with is a run of the steps of the bus model. |
| `Wiring.AcceptedIffConsistent` | src/nexus/_internal/core/dsl/nodes.py:340-357 | A list of declarations is accepted iff each is nonempty, each source has at most one primary, and no primary is a tap of its source; the graph is then exactly the union. |
| `Wiring.OrderInsensitive` | src/nexus/_internal/core/dsl/nodes.py:364-384 | Every permutation of the declarations has the same outcome. |
| `Wiring.MergeCommutes` | src/nexus/_internal/core/dsl/nodes.py:359-362 | Merging is commutative, |
| `Wiring.MergeIdempotent` | src/nexus/_internal/core/dsl/nodes.py:359-362 | idempotent, |
| `Wiring.MergeAssociates` | src/nexus/_internal/core/dsl/nodes.py:359-362 | and associative, failures included. |
| `WiringRuntime.Pipes.Connect` | src/nexus/_internal/core/dsl/nodes.py:340-357 | The class method is the join, keeps the sources in the order of their first declaration, and changes nothing when it raises. |
| `WiringRuntime.Pipes.Merge` | src/nexus/_internal/core/dsl/nodes.py:359-362 | The merge loop is the merge. It raises iff some source does not join, and then exactly the sources of the other graph before that one have been merged in. |
| `WiringRuntime.FailedMergeLeavesPart` | src/nexus/_internal/core/dsl/nodes.py:359-362 | Two graphs whose merge raises and leaves a source of the other graph in place. |
| `WiringRuntime.Flow.Connect` | src/nexus/_internal/core/dsl/flow.py:130-142 | A connection keeps all endpoints in the flow's sets. |
| `WiringRuntime.Flow.ConnectTargets` | src/nexus/_internal/core/dsl/flow.py:144-161 | Targets without a default entry are refused before anything is connected; otherwise the flow becomes the source connected to their entries with all their graphs merged in, and the primary's exit is returned. |
| `WiringRuntime.Flow.constructor` | src/nexus/_internal/core/dsl/flow.py:58-78 | A node, sink or source becomes a flow of its own endpoints in which nothing is connected. |
| `WiringRuntime.Flow.Then` | src/nexus/_internal/core/dsl/flow.py:116-128 | Continuing the default exit raises and changes nothing without a target or an exit; otherwise it connects the targets, and the primary's exits become the flow's. |
| `WiringRuntime.Flow.ThenRoutes` | src/nexus/_internal/core/dsl/flow.py:102-115 | Continuing named exits connects route after route, raises at an unknown name, keeps the exits until all routes are connected, and then leaves none. |
| `FlowUnions.MergeIff` | src/nexus/_internal/core/dsl/nodes.py:359-362 | Two graphs merge iff the declarations behind both are consistent together, and the result is their union. |
| `FlowUnions.ConnectedIff` | src/nexus/_internal/core/dsl/flow.py:144-161 | Connecting a source to at most one primary and to taps succeeds iff there is a target, every target has an entry, and all that is declared in any of the flows is consistent with the connection; the flow then holds the graphs and endpoints of all of them, taps included, and has the exits of the primary, or none. |
| `FlowUnions.ContinuedIff` | src/nexus/_internal/core/dsl/flow.py:116-128 | The same for the default exit, which must exist. |
| `FlowUnions.RoutedIff` | src/nexus/_internal/core/dsl/flow.py:102-115 | Named exits are continued iff every route names an exit and can be connected and everything declared is consistent together; the graph is the union and no exit is left. |
| `WiringRuntime.Flow.Absorb` | src/nexus/_internal/core/dsl/flow.py:163-167 | Absorbing a flow is a merge and a union of the sets. |
| `WiringRuntime.Flow.AbsorbAll` | src/nexus/_internal/core/dsl/flow.py:156-159 | Absorbing several flows is merging all their graphs and taking the union of their sets, or an exception if any merge is one. |
| `WiringRuntime.Piping.AddFlow` | src/nexus/_internal/core/dsl/piping.py:25-28 | The same for the aggregate. |
| `AsyncHttp.ExactlyOneOutcome` | src/nexus/_internal/actors/executor_communicator/sender_loop_runtime.py:228-293 | In every interleaving, late puts and puts that complete before the dispatching thread gives up included, a registered request is pending without an outcome, taken by one thread that has still to emit, or emitted exactly once; an unknown id never gets an outcome. |
| `AsyncHttp.SweepSettles` | src/nexus/_internal/actors/executor_communicator/timeout_sweep_runtime.py:96-107 | After a sweep every request registered by then with its deadline reached has its outcome settled, for good. |
| `AsyncHttp.StaleCallbackIsIgnored` | src/nexus/_internal/actors/executor_communicator/callback_http_server_runtime.py:224-231 | A late, repeated or unknown callback changes nothing. |
| `AsyncHttp.ShutdownDrains` | src/nexus/_internal/actors/executor_communicator/sender_loop_runtime.py:509-511 | When all workers have stopped no stop signal is left, every send enqueued before any stop signal has been dealt with, and no worker owes an outcome. |
| `AsyncHttp.ClaimsStay` | src/nexus/_internal/actors/executor_communicator/sender_loop_runtime.py:470-489 | A settled outcome stays what it is. |
| `AsyncHttpCauses.OutcomesHaveCauses` | src/nexus/_internal/actors/executor_communicator/callback_http_server_runtime.py:224-258 | In every run each settled outcome was settled by a step that took the pending request: a processed output iff a callback carried no error and that valid output, the three callback failures by the flags of the body, a failed send by a worker, a timeout by a sweep after the deadline, any other failure by the dispatch. |
| `AsyncHttpCauses.CausesSettle` | src/nexus/_internal/actors/executor_communicator/sender_loop_runtime.py:470-489 | And the other way round: such a step that finds the request pending settles it as it says, for good. |
| `AsyncHttpCauses.PendingIsQueued` | src/nexus/_internal/actors/executor_communicator/sender_loop_runtime.py:228-293 | A request that is waited for has been put into the sender's queue or is just being put, and no request is put there twice. |
| `AsyncHttpRuntime.InMemoryPendingAsyncHttpRequestStore.Put` | src/nexus/_internal/actors/executor_communicator/pending_requests.py:70-74 | A duplicate id is refused. |
| `AsyncHttpRuntime.InMemoryPendingAsyncHttpRequestStore.Pop` | src/nexus/_internal/actors/executor_communicator/pending_requests.py:77-79 | The request, at most once. |
| `AsyncHttpRuntime.InMemoryPendingAsyncHttpRequestStore.PopExpired` | src/nexus/_internal/actors/executor_communicator/pending_requests.py:82-87 | Exactly the requests whose deadline has been reached, each once, and none of them stays. |
| `AsyncHttpRuntime.Communicator.Dispatch` | src/nexus/_internal/actors/executor_communicator/sender_loop_runtime.py:228-293 | The request is pending before it is enqueued, and failed at once if enqueueing fails. |
| `AsyncHttpRuntime.Communicator.FailPendingRequest` | src/nexus/_internal/actors/executor_communicator/sender_loop_runtime.py:470-489 | Whoever takes the request out emits; otherwise nothing happens. |
| `AsyncHttpRuntime.Communicator.SenderWorkerRound` | src/nexus/_internal/actors/executor_communicator/sender_loop_runtime.py:352-386 | A stop signal ends the worker, a failed send fails the request. |
| `AsyncHttpRuntime.Communicator.EnqueueStopSignals` | src/nexus/_internal/actors/executor_communicator/sender_loop_runtime.py:509-511 | One stop signal per worker behind what is queued. |
| `AsyncHttpRuntime.Communicator.ProcessCallback` | src/nexus/_internal/actors/executor_communicator/callback_http_server_runtime.py:215-258 | Status code and outcome of every kind of callback body, read off its flags; output that does not validate is answered with 400 and settled as a failure. |
| `AsyncHttpRuntime.Communicator.SweepRound` | src/nexus/_internal/actors/executor_communicator/timeout_sweep_runtime.py:96-107 | One timeout for every expired request, and none of them left. |
| `AsyncHttpRuntime.PopThenEmit` | src/nexus/_internal/actors/executor_communicator/sender_loop_runtime.py:480-484 | A pop and the emission that goes with it are what the thread code does in one go. |
| `AsyncHttpRuntime.DispatchSteps` | src/nexus/_internal/actors/executor_communicator/sender_loop_runtime.py:228-293 | A dispatch, enqueued or failed, is a run of the steps of the protocol that nothing interrupts. |
| `AsyncHttpRuntime.WorkerSteps` | src/nexus/_internal/actors/executor_communicator/sender_loop_runtime.py:352-386 | So is a round of a sender worker. |
| `AsyncHttpRuntime.CallbackSteps` | src/nexus/_internal/actors/executor_communicator/callback_http_server_runtime.py:215-258 | So is the handling of a callback. |
| `AsyncHttpRuntime.SweepSteps` | src/nexus/_internal/actors/executor_communicator/timeout_sweep_runtime.py:96-107 | So is a round of the sweep, with one emission for every request it has taken. |
| `Epochs.EpochIsWindow` | src/nexus/_internal/utils/chain.py:18-30 | The epoch holds the block, has tempo + 1 blocks and starts at an epoch start of the subnet. |
| `Epochs.EpochOfItsBlocks` | src/nexus/_internal/utils/chain.py:18-30 | An epoch is the epoch of exactly its own blocks. |
| `Epochs.EpochsTile` | src/nexus/_internal/utils/chain.py:18-30 | Epochs are disjoint, ordered and adjacent. |
| `Epochs.PreviousIsEpochBefore` | src/nexus/_internal/utils/types.py:27-47 | `previous` raises iff it would reach below block zero, and otherwise is the epoch before. |
| `ChainBeats.EpochBeatActor.Produce` | src/nexus/_internal/actors/chain_beat/epoch_beat.py:92-128 | The producer loop emits the epochs of the polls, leaving out repeats and failed polls. |
| `ChainBeats.EpochBeatsIncrease` | src/nexus/_internal/actors/chain_beat/epoch_beat.py:113-123 | If the polled block does not go back, the beats are increasing disjoint epochs, each at least the delay into its epoch, and every polled epoch has its beat. |
| `ChainBeats.LatestBeatIsPolled` | src/nexus/_internal/actors/chain_beat/epoch_beat.py:92-128 | In whatever order the polls come, after a poll that succeeds the latest beat is the epoch of 361 blocks that holds the delayed block, after one that fails it is what it was, and consecutive beats differ. |
| `ChainBeats.SetWeightsBeatActor.OnBlockBeat` | src/nexus/_internal/actors/chain_beat/set_weights_beat.py:134-178 | The guards, the query and the state change of one block; a beat iff the block is queried and the answer is not submitted, and no change of state on an error of the query. |
| `ChainBeats.BeatsKeepCooldown` | src/nexus/_internal/actors/chain_beat/set_weights_beat.py:144-148 | Consecutive beats are at least the cooldown apart, for any sequence of blocks. |
| `ChainBeats.BeatsPerEpoch` | src/nexus/_internal/actors/chain_beat/set_weights_beat.py:134-178 | With a cooldown of at least one an epoch gets at most (tempo - offset) / cooldown + 1 beats. |
| `ChainBeats.QueriesIff` | src/nexus/_internal/actors/chain_beat/set_weights_beat.py:134-178 | After any run a block is queried iff it is late enough in its epoch, far enough from the last beat, and the last success seen is not of its epoch. |
| `ChainBeats.BeatsIff` | src/nexus/_internal/actors/chain_beat/set_weights_beat.py:134-178 | At each position of a run a block gives a beat iff it is due, the last success seen is not of its epoch, and the answer is that weights are not submitted, so never on an error of the query; it is a success seen, and then the last one, iff the same holds and the answer is that they are. |
| `ChainBeats.NoQueryAfterSuccess` | src/nexus/_internal/actors/chain_beat/set_weights_beat.py:141-142 | Once an epoch is seen as submitted it is not queried again until another epoch's submission is seen. |
| `ChainBeats.NoQueryAfterSuccessInOrder` | src/nexus/_internal/actors/chain_beat/set_weights_beat.py:141-142 | Hence never again in a run whose blocks do not go back, wherever in it the success was seen. |
| `ChainBeats.GoingBackQueriesAgain` | src/nexus/_internal/actors/chain_beat/set_weights_beat.py:165-167 | For any two epochs: once the second one's success is seen, a block of the first, submitted one is queried again iff the block guards pass, and gets a beat if the answer has changed. |
| `ChainBeats.GoingBackHappens` | src/nexus/_internal/actors/chain_beat/set_weights_beat.py:165-167 | It happens with two epochs of two blocks. |
| `TaskResultStore.InMemoryTaskResultStore.AddSuccessfulTaskResult` | src/nexus/_internal/core/runtime/task_result_store.py:200-236 | A success with a public output is appended to its list and index; a raising note leaves it stored. |
| `TaskResultStore.InMemoryTaskResultStore.AddExecutorFailure` | src/nexus/_internal/core/runtime/task_result_store.py:239-271 | The same for executor failures. |
| `TaskResultStore.InMemoryTaskResultStore.GetTaskResult` | src/nexus/_internal/core/runtime/task_result_store.py:274-286 | The entry of an id in either list, or an exception iff there is none. |
| `TaskResultStore.InMemoryTaskResultStore.GetSuccessfulTasksForEpoch` | src/nexus/_internal/core/runtime/task_result_store.py:289-303 | The query is the stable block-sorted filter of the list. |
| `TaskResultStore.InMemoryTaskResultStore.GetExecutorFailuresForEpoch` | src/nexus/_internal/core/runtime/task_result_store.py:306-320 | The same for failures. |
| `TaskResultStore.InMemoryTaskResultStore.CountByHotkey` | src/nexus/_internal/core/runtime/task_result_store.py:152-170 | The counting loop over a query. |
| `TaskResultStore.AddKeeps` | src/nexus/_internal/core/runtime/task_result_store.py:223-236 | An add keeps the index equal to the entries of both lists, for every task. |
| `TaskResultStore.QueryIsChronological` | src/nexus/_internal/core/runtime/task_result_store.py:289-320 | A query returns exactly the entries of the epoch, oldest block first, and those of one block in the order in which they were added. |
| `TaskResultStore.EntryInExactlyOneEpoch` | src/nexus/_internal/core/runtime/task_result_store.py:298-303 | Of the epochs of one subnet and tempo exactly one query returns a given entry, as often as it was added. |
| `TaskResultStore.CountsAddUp` | src/nexus/_internal/core/runtime/task_result_store.py:152-170 | The counts are right for every hotkey and add up to the size of the query. |
| `Weighing.CollectScores` | demos/cat-images/cat_images/validator/weighing_algorithm.py:77-104 | The score loop yields the last valid score of every result, in chronological order. |
| `Weighing.LastScoreIff` | demos/cat-images/cat_images/validator/weighing_algorithm.py:77-104 | The score of a result is the one of the last validation that asks for it and scores it, where one that asks for a single result must return exactly that one; there is none iff no validation does. |
| `Weighing.LaterScoreWins` | demos/cat-images/cat_images/validator/weighing_algorithm.py:73-104 | Of two lists of validations the later one decides, unless it has no valid score. |
| `Weighing.Accumulate` | demos/cat-images/cat_images/validator/weighing_algorithm.py:106-125 | The accumulators hold the four numbers of every hotkey that occurs. |
| `Weighing.WeighingFunc` | demos/cat-images/cat_images/validator/weighing_algorithm.py:55-151 | The weights are those of the declarative formula over the mining results that the store holds for the previous epoch and the validations it holds for both epochs, oldest block first, for exactly the hotkeys that occur; an exception iff there is no previous epoch. |
| `Weighing.QueriesJoin` | demos/cat-images/cat_images/validator/weighing_algorithm.py:73-75 | The validation queries of both epochs, one after the other, are one chronological query over both. |
| `Weighing.OccursIffStored` | demos/cat-images/cat_images/validator/weighing_algorithm.py:70-125 | A hotkey gets a weight iff the store holds a success or a failure of it in the previous epoch. |
| `Weighing.WeightInRange` | demos/cat-images/cat_images/validator/weighing_algorithm.py:128-131 | A weight is between 0 and 100 per mining result. |
| `Weighing.FullyScoredWeightIsSum` | demos/cat-images/cat_images/validator/weighing_algorithm.py:128-131 | If every success is scored the weight is the sum of the scores. |
| `Weighing.FailureNeverRaises` | demos/cat-images/cat_images/validator/weighing_algorithm.py:120-131 | One more executor failure never raises a weight, and lowers it iff some success is scored and some is not. |
| `Weighing.MiningCountsAddUp` | demos/cat-images/cat_images/validator/weighing_algorithm.py:106-125 | The mining counts of all hotkeys add up to the number of mining records. |
| `RoundRobin.RoundRobinNeuronRouterActor.SelectNeuron` | src/nexus/_internal/actors/neuron_router.py:184-196 | The neuron at the position of the counter in the context's order, and the counter goes up; an empty list, and only that, raises and changes nothing. |
| `RoundRobin.OrderIgnoresInputOrder` | src/nexus/_internal/actors/neuron_router.py:213-216 | With distinct hotkeys the order does not depend on how the neurons come. |
| `RoundRobin.PicksAreFair` | src/nexus/_internal/actors/neuron_router.py:191-192 | Any k picks in a row fall on every position floor(k/n) or ceil(k/n) times. |
| `RoundRobin.RoutingIsFair` | src/nexus/_internal/actors/neuron_router.py:184-216 | Whatever the order in which each call is offered the n neurons, any k routings of a context in a row go to every neuron floor(k/n) or ceil(k/n) times. |
| `RoundRobin.NoRepeatWithinRound` | src/nexus/_internal/actors/neuron_router.py:184-216 | Nor does any neuron come twice within n routings in a row. |
| `TaskRouting.TargetsAreSelections` | src/nexus/_internal/actors/neuron_router.py:143-196 | In every run, whatever happens in it, the targets of the routed attempts, in attempt order, are the consecutive picks of the context's counter from where it stood before, each from the neurons offered then. |
| `TaskRouting.AttemptsHitDistinctNeurons` | src/nexus/_internal/actors/neuron_router.py:143-149 | As long as the same n neurons are offered, in whatever order, any n routed attempts of a task run in a row, the first n among them, go to different neurons. |
| `TaskRouting.AttemptsAreSpread` | src/nexus/_internal/actors/neuron_router.py:143-149 | Then every neuron gets, over the whole run, floor(k/n) or ceil(k/n) of the k routed attempts. |
| `StableSort.SortFilter` | src/nexus/_internal/core/runtime/context_store.py:622-627 | Sorting commutes with every filter, which is what makes the sort stable. |

## Left out

- HTTP servers and clients, TLS, Pylon, S3 and OpenRouter: only their outcomes are modelled, as choices of a step.
- deepdiff, pickle and pydantic: a diff and an apply function without assumed laws, and validation that accepts or rejects.
- Logging, thread start and join timeouts, and the lifecycle of runtimes and builders.
- The registry of lock objects and the try-lock that only logs: `ContextLocks` models acquire and release steps, and `ContextStoreRuntime` runs each call as one atomic step under its locks.
- A process that stops inside a creation is covered only by `ContextRecovery.InterruptedCreation`; runs make creation one atomic step.
- WiringRuntime.Flow.ConnectTargets: takes targets that have been made flows, by `Flow.constructor` if they were none, and that share no pipes with the receiver.
- EventBusRuntime.Actor.LoopOnce: counts the calls of the start and stop hooks; what a subclass does in them is not modelled, nor what a handler does to other contexts than its own.
- The task protocol and the event bus are two models: the protocol delivers a message by one step, the bus model proves that delivery is exact and in order.
- Taps of a task's sources on child contexts: they are isolated by `EventBusIsolation` and not followed inside the task.
- A user-data key that holds an object of a foreign type, except in the preparer's slot.
- The time until a retry timer or a sweep fires: timers fire and sweeps run at any moment.
- TaskTokens.OneControlToken: is about one input per context, because a second input to the retry node starts a second attempt.
- Starting a run again after a crash by sending the last messages anew.
- HTTP callbacks of the response store for REST entry points and of the facilitator's job store: simpler twins of the pending-request store.
- `AsyncHttp` assumes that emit callbacks do not raise.
- EventBusMessages.EventsAreLogged: says nothing of payloads once the bus has raised, because the last append may then have left its entry without the payload.
- TaskRecords.AnswersAreReported: leaves out answers that are exceptions of another kind, which are not stored, and successes that find the slot taken.
- RoundRobin.RoutingIsFair: is about calls that are offered the same set of neurons, because the order changes with the set. Hotkeys are distinct, as the keys of the mapping that the neurons are read from.
- TaskRouting.AttemptsHitDistinctNeurons: speaks of the attempts that reach the router; an attempt whose payload creation fails has no target.
- RoundRobin.RoundRobinNeuronRouterActor.SelectNeuron: does not fix the shuffle, because it is a parameter that rearranges and depends on the context alone.
- ChainBeats.EpochBeatActor.Produce: does not model waiting between polls or an unexpected exception, which ends the producer.
- Weighing.WeighingFunc: does not model the order of the returned mapping or the rounding of floats.
- The payload creators' own logic, routers other than the round-robin one, neuron filters, rendering of prompts, settings and the demo's user interface.
