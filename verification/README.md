# Verified models of the A2A Python SDK

This Dafny project models the parts of the SDK whose correctness is hardest to see from the code
and proves what they are meant to guarantee. `dafny verify dfyconfig.toml` checks all of it.

**The broadcast event queue and the active task** (`server/events/event_queue_v2.py`,
`server/agent_execution/active_task.py`). A source buffers events; a dispatcher lists the sinks for
each event and delivers it to every one of them, waiting for a full sink or evicting it; the source
and its sinks can be closed in two ways while all this goes on. An active task stacks two of these
queues around a producer, a consumer and any number of subscribers.

- `AsyncQueues` is the bounded queue underneath: a value, its conservation law, and the object that
  changes in place.
- `Broadcast` is the event queue as a transition system with one action for each piece of code
  between two `await` points. `BroadcastSafety` proves its invariant over every interleaving, and
  what follows for every run; `BroadcastChanges` says on the fields what each action changes.
  `GracefulClose` adds any number of concurrent `close` calls, `GracefulDelivery` what a graceful one
  guarantees to its sinks. `EventQueueV2` holds the classes; each method is proved to take exactly one
  action of `Broadcast`.
- `ActiveTaskFlow` puts two `Broadcast` states and the coroutines of the active task together,
  `FlowSafety` proves its protocol safe over every interleaving, `FlowHistory` tells from the steps of a
  run what the agent queue got and what every subscriber was shown. `Lifecycle` models starting,
  counting references and cleaning up, `LifecycleChanges` says on the fields what each of its steps
  changes, and `EventConsumers` is the consumer's choice between one message and task events.

**Canonical JSON and card signatures** (`utils/_jcs.py`, `utils/signing.py`).

- `Texts`, `Sorting`, `Utf16` and `Utf8` are Python text, `sorted` on byte keys, and encodings.
- `JcsNumbers` is the rewriting of float texts, proved equal to ECMAScript's Number::toString;
  `JcsDecimals` reads number texts back and ties them to the numbers they stand for.
- `JcsStrings` quotes and reads string literals. `Json` has the values, their normal form and its
  text; `JcsParser` a reader that inverts the text; `JcsWriter` the recursive writer and
  `canonicalize`; `JcsIdentity` the theorems that the text reads back as the value and determines it.
- `Cleaning` is `_clean_empty`, `Signing` the signer and the verifier around it.

**Smaller algorithms.** `BigIntegers` (large integers as strings), `PageToken`, `Sse` (parsing
server-sent events) and `InterfaceSelection` (how the client factory chooses an interface).

Four things proved here are less than one would expect from the code's documentation:

- A graceful close may return although an accepted event was never dispatched
  (`GracefulClose.ImmediateCloseOvertakesGraceful`). `GracefulClose.StoppedCompleteExactly` says when:
  if and only if an immediate close began with events still buffered, or a cancellation reached the
  dispatcher before everything was acknowledged.
- A subscriber whose tap or request is refused after it was counted is never uncounted, because both
  calls stand before the `try` (active_task.py:624-643), so the task is never cleaned up
  (`Lifecycle.RefusedSubscriberLeaks`). `Lifecycle.RefusedExactly` says when: if and only if the queue
  it needs is already shut and the task is not yet finished. `Lifecycle.CleanedUpExactly` says what
  else keeps a task from being cleaned up: when all is over, the callback was called if and only if
  the task is finished, no reference was leaked, and the last chance to look was not missed. It is
  missed when `aclose` finishes a task that was never started and nobody counts on
  (`Lifecycle.UnusedTaskIsNotCleanedUp`), and when the last one about to look is cancelled while
  waiting for the lock. A `start` cancelled while reading the stored task does not even finish it
  (`Lifecycle.CancelledSetupIsNotCleanedUp`).
- In the server's order of preference the factory gives up at the first binding the client knows,
  even if a later one has a usable interface (`InterfaceSelection.ServerOrderMissesAnInterface`, and
  `InterfaceSelection.ServerOrderStopsEarly` for the exact condition).
- The verifier's documentation promises success if at least one signature is valid (signing.py:107).
  That holds if and only if no signature before the first valid one raises anything but `PyJWTError`,
  such as an error of the key lookup (`Signing.VerifyCard`,
  `Signing.BrokenSignatureHidesValidOne`).

Notation: `_lock` sections without an `await` inside are single steps. Logs (ghost fields, or the
fields marked `log:`) record what the code does not keep and are never read by it. Text is a
sequence of code points, surrogates included.

## Model

| member | source | states |
|---|---|---|
| `AsyncQueues.Conservation` | src/a2a/server/events/event_queue_v2.py:403-413 | what was put in a queue is what is queued, dequeued and not acknowledged, acknowledged, or discarded; `join` is released exactly when everything put in and not discarded is acknowledged |
| `AsyncQueues.TakenIsPrefix` | src/a2a/server/events/event_queue_v2.py:403-408 | first in, first out: what was taken is a prefix of what was accepted, and the next item is the one after it |
| `AsyncQueues.PutConserves` | src/a2a/server/events/event_queue_v2.py:395-397 | a put, also a refused one, keeps the conservation law |
| `AsyncQueues.GetConserves` | src/a2a/server/events/event_queue_v2.py:403-408 | a get keeps the conservation law |
| `AsyncQueues.ShutdownConserves` | src/a2a/server/events/event_queue_v2.py:438-440 | a shutdown of either kind keeps the conservation law; an immediate one accounts for what it discards |
| `AsyncQueues.AsyncQueue.TryPut` | src/a2a/server/events/event_queue_v2.py:395-397 | one attempt of `put` changes the queue object as the queue value does, and reports stored, refused or blocked |
| `AsyncQueues.AsyncQueue.TryGet` | src/a2a/server/events/event_queue_v2.py:403-408 | one attempt of `get`: the oldest item, even after a graceful shutdown |
| `AsyncQueues.AsyncQueue.MarkDone` | src/a2a/server/events/event_queue_v2.py:410-413 | `task_done`, which fails exactly when nothing is unfinished |
| `AsyncQueues.AsyncQueue.ShutDownQueue` | src/a2a/server/events/event_queue_v2.py:438-440 | the item-by-item removal of an immediate shutdown leaves the queue the value-level shutdown describes |
| `BroadcastSafety.StepKeeps` | src/a2a/server/events/event_queue_v2.py:70-137 | every action of source, dispatcher, sinks and closers keeps the invariant: conservation on every queue, and each sink holding a slice of the dispatched events |
| `BroadcastSafety.RunKeeps` | src/a2a/server/events/event_queue_v2.py:114-137 | the invariant holds after every run |
| `BroadcastSafety.SinkHoldsSlice` | src/a2a/server/events/event_queue_v2.py:101-137 | in every run the events ever put in a sink are a contiguous slice of the source's accepted events, starting at the first whose snapshot lists the sink; an open, attached sink misses nothing |
| `BroadcastSafety.ClosedSinkFrozen` | src/a2a/server/events/event_queue_v2.py:430-445 | the slice ends when the sink closes: nothing is ever put in a closed sink, and it stays closed |
| `BroadcastSafety.ClosedSourceFrozen` | src/a2a/server/events/event_queue_v2.py:232-241 | once the source is closed no sink is ever added and no event accepted |
| `BroadcastSafety.DeliveryWaitsOnlyOnBackPressure` | src/a2a/server/events/event_queue_v2.py:89-112 | a delivery waits exactly when its sink is full, open and not `evict_on_full`; the unlocked check of an evicting sink stays true until the put |
| `BroadcastSafety.EvictingRoundFinishes` | src/a2a/server/events/event_queue_v2.py:119-137 | a round none of whose sinks may block can be finished by dispatcher steps alone, at most two for each undelivered sink |
| `BroadcastSafety.RoundIsBounded` | src/a2a/server/events/event_queue_v2.py:89-137 | in every interleaving with producers, consumers, closers and subscribers such a round stays free of back pressure, some delivery step is possible for each undelivered sink, and the delivery steps taken plus the work left never exceed the work at the start |
| `BroadcastSafety.WorkIsTwice` | src/a2a/server/events/event_queue_v2.py:119-137 | that work is at most two steps for each undelivered sink, and none exactly when the round is done |
| `BroadcastSafety.RoundGetsShorter` | src/a2a/server/events/event_queue_v2.py:101-112 | in such a round every undelivered sink has a step that reduces the work left, and the round stays free of back pressure |
| `BroadcastChanges.SinkClosesExactly` | src/a2a/server/events/event_queue_v2.py:101-111 | an open sink is closed by its own `close`, or by a delivery that finds it full if it was tapped with `evict_on_full`, and by nothing else |
| `BroadcastChanges.SinkChangesExactly` | src/a2a/server/events/event_queue_v2.py:395-440 | what is in a sink and how much of it is unacknowledged changes by the put of the event under delivery while the sink is open, by `get`, by `task_done`, and by being closed at once |
| `BroadcastChanges.SinkIsCreatedExactly` | src/a2a/server/events/event_queue_v2.py:232-241 | a sink comes into being by `tap` on an open source, empty, open, attached, with the bound and the policy asked for |
| `BroadcastChanges.AttachmentExactly` | src/a2a/server/events/event_queue_v2.py:232-246 | a sink is attached from its tap until it is removed |
| `BroadcastChanges.SourceChangesExactly` | src/a2a/server/events/event_queue_v2.py:248-287 | the buffered events, their unfinished count and the closed flag change by accepted events, the dispatcher and `close` |
| `BroadcastChanges.DispatcherMovesExactly` | src/a2a/server/events/event_queue_v2.py:114-137 | the dispatcher goes from `get` to a snapshot of the attached sinks, to the deliveries, to `task_done` and back; it ends when a closed queue has run dry, or cancelled |
| `BroadcastChanges.DeliveryMovesExactly` | src/a2a/server/events/event_queue_v2.py:101-112 | a delivery ends by the put, by detaching an evicted sink, or because the sink was closed; at its head it goes to eviction exactly if the sink is full and to be evicted |
| `BroadcastChanges.DispatcherGoesOnExactly` | src/a2a/server/events/event_queue_v2.py:114-137 | the dispatcher can go on except on an open empty queue, when every delivery under way is held up by a full sink not to be evicted, or after it stopped |
| `BroadcastChanges.UndisturbedSinkMissesNothing` | src/a2a/server/events/event_queue_v2.py:89-137 | in every run a sink that nobody closes and that is not `evict_on_full` is open, threw nothing away, and was given every event whose round is over and whose snapshot lists it |
| `GracefulClose.SystemStepKeeps` | src/a2a/server/events/event_queue_v2.py:269-317 | every step of any number of concurrent `close` calls, of the dispatcher's cancellation and of everything else keeps the invariant |
| `GracefulClose.GracefulCloseFinishesWork` | src/a2a/server/events/event_queue_v2.py:281-317 | `close(immediate=False)` returns only after every sink attached when it began has no unacknowledged event and is closed and detached, whatever else happened; and every accepted event was dispatched to the end exactly if no step of the run threw events away, as is the case when no close was immediate and nobody cancelled the dispatcher from outside |
| `GracefulClose.StoppedCompleteExactly` | src/a2a/server/events/event_queue_v2.py:269-317 | in every run, once dispatch has stopped, every accepted event was dispatched and acknowledged if and only if no immediate close began with events buffered and no cancellation reached the dispatcher with events unacknowledged |
| `GracefulClose.GracefulLosesNothing` | src/a2a/server/events/event_queue_v2.py:295-302 | graceful closes alone throw nothing away, however many of them interleave |
| `GracefulClose.ImmediateCloseEmptiesSinks` | src/a2a/server/events/event_queue_v2.py:289-294 | `close(immediate=True)` returns only after every sink attached when it began is closed, empty and detached and dispatch has stopped |
| `GracefulClose.CloserAnswersForAttached` | src/a2a/server/events/event_queue_v2.py:282-287 | the sinks a close answers for are those attached in its first step, whatever happens later |
| `GracefulClose.OutsideCancelEmptiesSource` | src/a2a/server/events/event_queue_v2.py:138-158 | a cancellation from outside closes and empties the source and ends dispatch |
| `GracefulClose.ImmediateCloseOvertakesGraceful` | src/a2a/server/events/event_queue_v2.py:169-208 | events are thrown away in some runs: one in which a graceful close returns and the accepted event was never dispatched |
| `GracefulDelivery.GracefulCloseDeliversAll` | src/a2a/server/events/event_queue_v2.py:269-317 | in every run without an immediate close or an outside cancellation: when `close(immediate=False)` returns, each sink it closed, unless evicted on full or closed or removed by someone else, was given every event the source accepted since its tap, threw none away, and had as many acknowledged |
| `EventQueueV2.EventQueueSource.EnqueueEvent` | src/a2a/server/events/event_queue_v2.py:248-255 | takes the enqueue action, drops the event of a closed source, or has to wait |
| `EventQueueV2.EventQueueSource.Tap` | src/a2a/server/events/event_queue_v2.py:210-241 | adds a fresh sink by the tap action; refuses on a closed source and for a size that is not positive |
| `EventQueueV2.EventQueueSource.RemoveSink` | src/a2a/server/events/event_queue_v2.py:243-246 | takes the remove action |
| `EventQueueV2.EventQueueSource.TakeEvent` | src/a2a/server/events/event_queue_v2.py:117 | the dispatcher's `get`: takes an event, ends on a drained closed queue, or waits |
| `EventQueueV2.EventQueueSource.TakeSnapshot` | src/a2a/server/events/event_queue_v2.py:119-120 | the snapshot is the set of attached sinks |
| `EventQueueV2.EventQueueSource.DeliverHead` | src/a2a/server/events/event_queue_v2.py:101-110 | skips a closed sink; closes and empties one that is full and `evict_on_full`, and no other; or goes on to the put |
| `EventQueueV2.EventQueueSource.DeliverPut` | src/a2a/server/events/event_queue_v2.py:112 | one attempt of the put takes the store action, a shut-down queue included, or has to wait |
| `EventQueueV2.EventQueueSource.DeliverDetach` | src/a2a/server/events/event_queue_v2.py:442 | an evicted sink is detached and its delivery ends |
| `EventQueueV2.EventQueueSource.FinishRound` | src/a2a/server/events/event_queue_v2.py:137 | after the round the incoming event is acknowledged |
| `EventQueueV2.EventQueueSource.CancelDispatcher` | src/a2a/server/events/event_queue_v2.py:138-158 | cancellation stops the dispatcher for good |
| `EventQueueV2.EventQueueSource.BeginClose` | src/a2a/server/events/event_queue_v2.py:282-287 | takes the close action and returns the sinks attached at that moment |
| `EventQueueV2.EventQueueSource.CloseSinkHead` | src/a2a/server/events/event_queue_v2.py:438-440 | takes the close action of one sink |
| `EventQueueV2.EventQueueSource.DequeueEvent` | src/a2a/server/events/event_queue_v2.py:403-408 | takes the dequeue action of a sink, or leaves everything as it is |
| `EventQueueV2.EventQueueSource.TaskDoneFor` | src/a2a/server/events/event_queue_v2.py:410-413 | takes the acknowledge action of a sink |
| `FlowSafety.FlowStepKeeps` | src/a2a/server/agent_execution/active_task.py:500-701 | every step of producer, consumer, subscribers, callers and of both queues keeps the protocol's invariant |
| `FlowSafety.RequestLockIsToken` | src/a2a/server/agent_execution/active_task.py:514-551 | in every run the request lock is never released when free, and is held exactly while a request is between acquiring it and the consumer's handling of its completion marker, or that marker will never be handled |
| `FlowSafety.RequestsRunInTurn` | src/a2a/server/agent_execution/active_task.py:514-551 | once the producer has read the current task for a request, every event queued before an earlier completion marker was processed before that read |
| `FlowSafety.FinishedStreamShowsRequest` | src/a2a/server/agent_execution/active_task.py:636-701 | a subscriber that ends at the completion of its request was shown the stored task, if it asked for it, and then, in order, every update forwarded between the request's start and completion markers, and nothing after the first completion |
| `FlowSafety.StreamShowsStretch` | src/a2a/server/agent_execution/active_task.py:636-701 | in every run and for every subscriber, finished, running, evicted or cancelled: it was shown exactly the updates among the first entries its queue received, no marker of its request came before those, and an open queue still holds all the rest that was dispatched, so nothing between the two markers can get lost; if it raised, the last entry was a failure |
| `FlowSafety.StartIsForwarded` | src/a2a/server/agent_execution/active_task.py:534-549 | a request's completion marker is forwarded only after its start marker |
| `FlowHistory.AgentQueueHears` | src/a2a/server/agent_execution/active_task.py:508-576 | in every run the agent queue got the markers of the requests one request after the other, in the order they were handed in, started before completed; the agent's updates in the order emitted; and a failure exactly if the producer stopped with one; nothing is missing while it is open but what is under way |
| `FlowHistory.ForwardsWhatWasHandled` | src/a2a/server/agent_execution/active_task.py:114-194 | in every run the k-th entry forwarded is the k-th event the agent queue got, with the task the consumer had after handling it; a failure stands in for it exactly if it is an update whose handler raised; and as many events were acknowledged as processed |
| `FlowHistory.SubscriberIsShownUpdates` | src/a2a/server/agent_execution/active_task.py:636-701 | in every run every subscriber was shown, after the stored task if it asked for that, each update the agent emitted in its stretch whose handler did not raise, in order, as emitted or as the task after that very event; with its own options and request, on a queue that is evicted when full |
| `FlowHistory.FinishedStreamShowsEmitted` | src/a2a/server/agent_execution/active_task.py:636-701 | a subscriber that ends at the completion of its request was shown every update the agent emitted between the two markers of that request, after what came earlier on its queue, and nothing else |
| `Lifecycle.StepKeeps` | src/a2a/server/agent_execution/active_task.py:430-495 | every step keeps the reference count equal to the references held by consumer and subscribers plus those leaked |
| `Lifecycle.CountCoversHolders` | src/a2a/server/agent_execution/active_task.py:603-606 | in every run the count is not negative and at least the running consumer plus the live subscribers, and equal to them exactly if no reference was leaked |
| `Lifecycle.CleanupIsSafe` | src/a2a/server/agent_execution/active_task.py:858-872 | the callback is called only when the task is finished and the count is zero; then consumer and producer are gone, nobody listens, and no `start` or `subscribe` succeeds ever after |
| `Lifecycle.FinishedForever` | src/a2a/server/agent_execution/active_task.py:443-446 | once finished, a task stays finished, is never started, and gains no subscriber |
| `Lifecycle.CleanedUpExactly` | src/a2a/server/agent_execution/active_task.py:430-495 | in every run that is over, started or not, the callback was called if and only if the task is finished, no reference was leaked, and no step missed the last chance to look |
| `Lifecycle.AcloseMissesExactly` | src/a2a/server/agent_execution/active_task.py:833-841 | `aclose` misses it exactly on a task neither started nor finished that nobody holds, leaked, or is about to look at |
| `Lifecycle.UnusedTaskIsNotCleanedUp` | src/a2a/server/agent_execution/active_task.py:826-841 | such a run: `aclose` on a fresh task finishes it, and it is never cleaned up |
| `Lifecycle.CancelledSetupIsNotCleanedUp` | src/a2a/server/agent_execution/active_task.py:464-486 | a run in which `start` is cancelled while reading the stored task, which leaves the task idle, unfinished and not cleaned up |
| `Lifecycle.LeakPreventsCleanup` | src/a2a/server/agent_execution/active_task.py:624-643 | after a leaked reference the callback is never called |
| `Lifecycle.RefusedExactly` | src/a2a/server/agent_execution/active_task.py:624-643 | a counted subscriber is refused and its reference leaked exactly when, the task not being finished, the subscribers' queue was closed or it came with a request and the request queue was shut down; the producer has then left its loop or `aclose` has begun |
| `Lifecycle.LateRequestPreventsCleanup` | src/a2a/server/agent_execution/active_task.py:576-606 | a subscriber that comes with a request after the request queue was shut down and before the task is finished keeps the task from ever being cleaned up |
| `Lifecycle.RefusedSubscriberLeaks` | src/a2a/server/agent_execution/active_task.py:576-643 | a run in which this happens: the producer leaves its loop, a subscriber comes with a request, everything ends, and the finished, idle task is not cleaned up |
| `LifecycleChanges.FieldsExactly` | src/a2a/server/agent_execution/active_task.py:430-495 | every step changes each flag, the lock, the count and the callback exactly as named: which steps finish the task, shut a queue, count up or down, or call back |
| `LifecycleChanges.LockExcludes` | src/a2a/server/agent_execution/active_task.py:442-495 | while `start` or `cancel` holds the lock, nobody else changes the count, calls the callback, starts anything or lets a subscriber in |
| `LifecycleChanges.TasksMoveExactly` | src/a2a/server/agent_execution/active_task.py:500-606 | the places producer and consumer go through, the consumer giving its reference back only once the producer has ended |
| `LifecycleChanges.SubscriberMovesExactly` | src/a2a/server/agent_execution/active_task.py:624-709 | the places a subscriber goes through, from being let in to its look for cleanup or its loss |
| `LifecycleChanges.FlagsOfRuns` | src/a2a/server/agent_execution/active_task.py:576-588 | in every run the task is finished, and each queue shut, exactly if one of the steps that do so was taken; so whenever the consumer is past its loop the request queue is shut |
| `LifecycleChanges.RequestsStayShut` | src/a2a/server/agent_execution/active_task.py:577-588 | once shut the request queue stays shut |
| `Lifecycle.ActiveTask.StartHead` | src/a2a/server/agent_execution/active_task.py:442-456 | goes on to the setup exactly if the task is neither finished nor started, holding the lock |
| `Lifecycle.ActiveTask.StartTail` | src/a2a/server/agent_execution/active_task.py:478-495 | spawns and counts the consumer, or finishes the task and cleans up if nobody is counted |
| `Lifecycle.ActiveTask.SubscribeEntry` | src/a2a/server/agent_execution/active_task.py:624-643 | counts the subscriber exactly if the task is not finished, and then raises exactly if a queue it needs is shut, still counted |
| `Lifecycle.ActiveTask.UnsubscribeSection` | src/a2a/server/agent_execution/active_task.py:706-707 | gives one reference back |
| `Lifecycle.ActiveTask.ProducerExit` | src/a2a/server/agent_execution/active_task.py:576-577 | the producer leaving its loop shuts the request queue down |
| `Lifecycle.ActiveTask.ConsumerExit` | src/a2a/server/agent_execution/active_task.py:586-588 | the consumer leaving its loop finishes the task and shuts the request queue down; the count stays |
| `Lifecycle.ActiveTask.ConsumerRelease` | src/a2a/server/agent_execution/active_task.py:591-604 | the consumer gives its reference back after the producer has ended |
| `Lifecycle.ActiveTask.MaybeCleanUp` | src/a2a/server/agent_execution/active_task.py:851-872 | calls the callback exactly when the task is finished and the count is zero |
| `Lifecycle.ActiveTask.SubscriberLeaves` | src/a2a/server/agent_execution/active_task.py:703-709 | a subscriber looks for cleanup as the last thing it does |
| `Lifecycle.ActiveTask.ConsumerLeaves` | src/a2a/server/agent_execution/active_task.py:603-606 | so does the consumer |
| `EventConsumers.EventConsumer.Run` | src/a2a/server/agent_execution/active_task.py:114-154 | over any event sequence what is forwarded is the stretch before the first failure, conflict or refusal of the store, then the failure; it has one message or none, and no message beside task events; all dequeued events are acknowledged unless the handler itself raises; the handler raises exactly if the stored task cannot be read, or is live and cannot be marked as failed |
| `EventConsumers.EventConsumer.ProcessEvent` | src/a2a/server/agent_execution/active_task.py:156-194 | raises exactly on failures, on a message that is not the first, and on task events in message mode or refused by the store; a mode once set never changes |
| `EventConsumers.EventConsumer.HandleMessage` | src/a2a/server/agent_execution/active_task.py:196-205 | accepts a message only as the first, and switches to message mode |
| `EventConsumers.EventConsumer.HandleTaskEvent` | src/a2a/server/agent_execution/active_task.py:207-228 | refuses in message mode; once the store took the event the mode is task mode and no message is waiting to be saved, even if the task is then not found |
| `EventConsumers.EventConsumer.HandleException` | src/a2a/server/agent_execution/active_task.py:139-154 | when the failure is forwarded: the stored task can be read and, if live, the failed status is accepted, which message mode prevents |
| `EventConsumers.ModeShowsConflict` | src/a2a/server/agent_execution/active_task.py:196-217 | the mode alone tells whether an event conflicts with those accepted before |
| `JcsNumbers.FormatNumber` | src/a2a/utils/_jcs.py:172-182 | fails exactly for NaN and infinities; otherwise the text is ECMAScript's Number::toString, with both zeros as 0 |
| `JcsNumbers.FormatPositive` | src/a2a/utils/_jcs.py:184-228 | for every list of shortest digits and every exponent the rewritten `repr` is ECMA-262 section 7.1.12.1, and no padding count is negative |
| `JcsNumbers.CutExponent` | src/a2a/utils/_jcs.py:185-196 | cuts off the exponent, removes Python's padding, and reads its value |
| `JcsNumbers.CutAtPoint` | src/a2a/utils/_jcs.py:198-210 | the digits on either side of the point, without the `.0` of an integral float |
| `JcsDecimals.ReadWritten` | src/a2a/utils/_jcs.py:172-228 | reading a number's text, its characters named by code point, gives back its sign, digits and exponent |
| `JcsDecimals.ReprReadsBack` | src/a2a/utils/_jcs.py:184-196 | the modelled `repr` text denotes the number whose digits and exponent it lays out |
| `JcsDecimals.ReprExponentExactly` | src/a2a/utils/_jcs.py:184-196 | the modelled `repr` has an exponent exactly from 10^16 on and below 10^-4 |
| `JcsDecimals.ExponentExactly` | src/a2a/utils/_jcs.py:40-43 | a number is written with an exponent exactly if its magnitude is at least 10^21 or less than 10^-6 |
| `JcsDecimals.NothingSuperfluous` | src/a2a/utils/_jcs.py:198-228 | no zero is written that could be left out, and one digit at most precedes the fraction of a number with an exponent |
| `JcsDecimals.LowestTermsUnique` | src/a2a/utils/_jcs.py:172-228 | numbers in lowest terms with the same real value are identical |
| `JcsDecimals.IntWrittenAsDecimal` | src/a2a/utils/_jcs.py:132-138 | within 2^53 - 1 the text of an integer is ECMAScript's text of that number |
| `JcsDecimals.FloatsWriteIntegersAlike` | src/a2a/utils/_jcs.py:132-140 | a float equal to a safe integer is written exactly as the integer branch writes the integer |
| `JcsDecimals.OfIntValue` | src/a2a/utils/_jcs.py:132-138 | the digits and exponent read off an integer's numeral stand for the integer |
| `JcsStrings.ReadQuoted` | src/a2a/utils/_jcs.py:167-169 | reading a quoted string gives the string back, whatever follows it |
| `JcsStrings.SpellingIsShortest` | src/a2a/utils/_jcs.py:45-59 | each character is written in the shortest of its JSON spellings, in lower case where it is an escape, which is the one form RFC 8785 section 3.2.2.2 allows |
| `JcsStrings.EscapedIsClean` | src/a2a/utils/_jcs.py:167-169 | no control character remains, and escaping neither adds nor hides surrogates |
| `Sorting.SortedIsPermutation` | src/a2a/utils/_jcs.py:148-158 | sorting keeps every member |
| `Sorting.SortedAscends` | src/a2a/utils/_jcs.py:148-158 | with distinct keys the result is strictly increasing |
| `Sorting.AscendingIsUnique` | src/a2a/utils/_jcs.py:148-158 | two strictly increasing arrangements of the same elements are equal |
| `Utf16.UnitsDetermineText` | src/a2a/utils/_jcs.py:148-158 | UTF-16 is injective on valid Unicode |
| `Utf16.UnitsReadBack` | src/a2a/utils/_jcs.py:151-158 | the code units decode to the text (RFC 2781 section 2.2) |
| `Utf16.BytesOfUnits` | src/a2a/utils/_jcs.py:151-158 | each code unit becomes two bytes, the higher one first |
| `Utf16.BytewiseIsUnitwise` | src/a2a/utils/_jcs.py:151-155 | comparing big-endian bytes is comparing code units |
| `Utf16.EncodingOrders` | src/a2a/utils/_jcs.py:151-158 | the sort key is injective and orders names by UTF-16 code unit |
| `Utf16.CodePointOrderDiffers` | src/a2a/utils/_jcs.py:153-155 | code point order is a different order |
| `Json.SortCommutes` | src/a2a/utils/_jcs.py:112-119 | sorting the members and then writing their values is writing the sorted fields |
| `JcsWriter.Write` | src/a2a/utils/_jcs.py:98-122 | at any depth the writer succeeds exactly when depth plus height is within 128 and all numbers and keys are fit, and then appends the text of the normal form |
| `JcsWriter.WriteItems` | src/a2a/utils/_jcs.py:105-111 | writes a list or tuple, with commas between the elements |
| `JcsWriter.WriteMembers` | src/a2a/utils/_jcs.py:112-120 | writes an object in key order; fails for keys that are not strings of valid Unicode |
| `JcsWriter.FormatScalar` | src/a2a/utils/_jcs.py:125-145 | null, true and false are spelled so; a string is its quoted form, which reads back; fails exactly for integers beyond 2^53 - 1, floats that are not finite, and types JSON has no form for |
| `JcsWriter.Canonicalize` | src/a2a/utils/_jcs.py:66-95 | succeeds exactly when the height is at most 128, integers are safe, floats finite, keys strings and all text valid Unicode; the result is the text of the normal form |
| `JcsWriter.NormalIsValid` | src/a2a/utils/_jcs.py:86-94 | the final encoding check fails exactly for a string value that is not valid Unicode |
| `JcsWriter.PrintIsValid` | src/a2a/utils/_jcs.py:86-94 | a text is valid Unicode exactly when every string and key printed in it is |
| `JcsParser.ParsePrinted` | src/a2a/utils/_jcs.py:66-122 | a JSON reader (RFC 8259, every token by its code points) applied to the canonical text, whatever follows it, gives the normal form back |
| `JcsParser.PrintIsInjective` | src/a2a/utils/_jcs.py:66-122 | different normal forms have different texts |
| `JcsIdentity.TextDeterminesValue` | src/a2a/utils/_jcs.py:66-122 | two values have the same canonical text exactly when they are equal up to key order, list against tuple, and numeric equality |
| `JcsIdentity.CanonicalReadsBack` | src/a2a/utils/_jcs.py:66-122 | whoever reads the canonical text of a value as JSON gets that value: the same literals, real numbers and strings, the elements in their order, for each member the field of its name, and no other |
| `JcsIdentity.SameIsSameNormal` | src/a2a/utils/_jcs.py:98-122 | two values are the same JSON value exactly when their normal forms are equal |
| `JcsIdentity.NumbersAgree` | src/a2a/utils/_jcs.py:132-140 | numbers are written alike exactly when they are numerically equal |
| `JcsIdentity.KeysIncrease` | src/a2a/utils/_jcs.py:148-158 | the keys of every object come out strictly increasing by UTF-16 code unit (RFC 8785 section 3.2.3) |
| `JcsIdentity.InsertionOrderDoesNotShow` | src/a2a/utils/_jcs.py:112-120 | the order in which members were inserted into dicts, at any depth, changes neither the text nor whether there is one |
| `Cleaning.CleanEmptyMeaning` | src/a2a/utils/signing.py:167-195 | cleaning fails exactly when lists and dicts are nested deeper than 128, and otherwise gives the cleaned value |
| `Cleaning.CleanedIsSolid` | src/a2a/utils/signing.py:167-195 | nothing empty and no null remains inside the result |
| `Cleaning.CleaningIsIdempotent` | src/a2a/utils/signing.py:167-195 | cleaning twice is cleaning once; the values it leaves alone are exactly those with nothing empty inside |
| `Cleaning.DeletionKeepsOutcome` | src/a2a/utils/signing.py:179-194 | deleting beforehand any part the cleaner turns into nothing, at any depth, changes neither the result nor whether there is an error |
| `Cleaning.DeletionOutcomeExactly` | src/a2a/utils/signing.py:175-194 | for a part that is empty but for its depth, deleting it changes the outcome exactly when the part alone is too deep and what remains fits |
| `Cleaning.DeletingEmptyPartsFirst` | src/a2a/utils/signing.py:179-194 | depth aside, deleting any part that cleans to nothing leaves the cleaned value as it was |
| `Cleaning.NormalFormIsUnique` | src/a2a/utils/signing.py:167-195 | however empty parts are deleted, what is left when nothing empty remains is the cleaned value |
| `Cleaning.CleaningKeepsHeight` | src/a2a/utils/signing.py:167-195 | cleaning never makes a value higher |
| `Cleaning.CleanedFitsTheWriter` | src/a2a/utils/signing.py:175-208 | once a value without tuples has been cleaned, writing it cannot fail on depth |
| `Cleaning.WriterDepthExactly` | src/a2a/utils/signing.py:175-208 | for every value the cleaner accepts, writing the result can fail on depth exactly if some tuple in the value reaches deeper than 128 |
| `Cleaning.CleanedIsProper` | src/a2a/utils/signing.py:179-185 | cleaning keeps member names distinct |
| `Signing.CanonicalizeAgentCard` | src/a2a/utils/signing.py:198-208 | the payload is a function of the fields other than `signatures` |
| `Signing.PayloadExists` | src/a2a/utils/signing.py:198-208 | a card has a payload exactly when it is not nested too deep and what is left of it after cleaning has a canonical form |
| `Signing.PayloadDeterminesContent` | src/a2a/utils/signing.py:198-208 | two cards have the same payload exactly when, cleaned, they are the same JSON value |
| `Signing.EmptyFieldsAreNotSigned` | src/a2a/utils/signing.py:198-208 | removing a part the cleaner turns into nothing changes neither the payload nor whether there is one |
| `Signing.ThreeParts` | src/a2a/utils/signing.py:86-87 | splitting at full stops gives three parts exactly for a compact serialization, and then its header, payload and signature |
| `Signing.SignCard` | src/a2a/utils/signing.py:71-96 | appends one signature that holds the outer parts of the compact token made over the payload, and the header; fails, leaving the card alone, exactly if there is no payload, no token, or one not in three parts |
| `Signing.SignInTurn` | src/a2a/utils/signing.py:71-98 | after any chain of signers every signature holds the token its signer made over the payload the finished card has |
| `Signing.VerifyCard` | src/a2a/utils/signing.py:118-162 | no signatures, no payload, the first signature that is not refused, or none: which verdict comes when |
| `Signing.BrokenSignatureHidesValidOne` | src/a2a/utils/signing.py:107-162 | an input on which one valid signature is not enough: the check of an earlier one raises another error, which comes out of the verifier |
| `Signing.TokenComesBack` | src/a2a/utils/signing.py:135-150 | the token put together for the check is the one the signer made, if its middle part is the encoded payload |
| `Signing.SignThenVerify` | src/a2a/utils/signing.py:118-164 | a verifier that accepts the token one signer of the chain makes over the payload verifies the card, unless the check of an earlier signature raises something other than `PyJWTError`; which of the two happens is decided by the first signature not refused |
| `BigIntegers.RoundTripsExactly` | src/a2a/utils/proto_utils.py:93-150 | for every value and limit, encoding and decoding give the value back, tuples as lists, exactly when no string looks like an over-long integer, no such integer exceeds CPython's limit of 4300 digits, and a limit of 0 meets no True |
| `BigIntegers.EncodedFits` | src/a2a/utils/proto_utils.py:108-119 | after encoding no integer exceeds the limit, and a value within it only has its tuples turned into lists |
| `BigIntegers.IntReadsBack` | src/a2a/utils/proto_utils.py:145-149 | the text of an integer looks over-long exactly when it has more digits than the limit, and reads back as the integer |
| `BigIntegers.DigitsDenoteInt` | src/a2a/utils/proto_utils.py:145-149 | a string of digits is read as the number it spells, leading zeros or not; one minus sign negates it, a second one or more than 4300 digits are errors |
| `Texts.NumeralLength` | src/a2a/utils/proto_utils.py:108-112 | a number exceeds 10^d - 1 exactly when its numeral has more than d digits |
| `Utf8.DecodesWhatItEncodes` | src/a2a/utils/task.py:90-121 | bytes decode to a text exactly when they are its UTF-8 encoding (RFC 3629 section 3) |
| `Utf8.BytesOfChar` | src/a2a/utils/task.py:90-121 | how many bytes each character takes, where they lie and the bits they carry (the table of RFC 3629 section 3) |
| `PageToken.B64RoundTrip` | src/a2a/utils/task.py:90-121 | base64 decodes what it encoded (RFC 4648 section 4) |
| `PageToken.LettersAreTheAlphabet` | src/a2a/utils/task.py:90-99 | the alphabet of RFC 4648 section 4 |
| `PageToken.TestVectors` | src/a2a/utils/task.py:90-99 | test vectors of RFC 4648 section 10 |
| `PageToken.ForeignCharactersAreSkipped` | src/a2a/utils/task.py:111-116 | the decoder skips characters outside the alphabet, wherever they stand |
| `PageToken.TokensRoundTrip` | src/a2a/utils/task.py:90-121 | for every task id of valid Unicode the decoded token is the id, even after any number of its trailing `=` is removed |
| `PageToken.DecodePageToken` | src/a2a/utils/task.py:102-121 | every task id comes back from its token with any of the trailing pads removed; an id is returned exactly if the padded token is base64 for its UTF-8 bytes, and has a token of its own; a token that is not valid Unicode, and only such a one, fails outside the handled errors |
| `PageToken.DecodingOutcomes` | src/a2a/utils/task.py:115-121 | a token that is not valid Unicode fails outside the handled errors; every decoded id has a token |
| `Sse.ParseSseStream` | src/a2a/client/transports/http_helpers.py:66-103 | the loop yields what feeding the lines one by one yields |
| `Sse.FramingIsInverted` | src/a2a/client/transports/http_helpers.py:73-103 | any list of events framed as `event:` and `data:` lines and a blank line, the name left out where it is to be "message", parses back exactly when no name or data line ends in a line terminator and, without the optional space, none begins with a space |
| `Sse.FramesArrive` | src/a2a/client/transports/http_helpers.py:73-103 | framed events arrive one for one, in order, each with what is left of its name and data |
| `Sse.BlankLinesSeparate` | src/a2a/client/transports/http_helpers.py:76-82 | parsing distributes over concatenation at blank lines |
| `Sse.OnlyBlankLinesYield` | src/a2a/client/transports/http_helpers.py:76-103 | no line but a blank one yields an event, so what is pending at the end of the stream is dropped |
| `Sse.IgnoredLinesChangeNothing` | src/a2a/client/transports/http_helpers.py:84-103 | comments and unknown fields change nothing, wherever they stand |
| `InterfaceSelection.FindBestInterface` | src/a2a/client/client_factory.py:213-256 | the loops return the first candidate of the best rank |
| `InterfaceSelection.BestMeaning` | src/a2a/client/client_factory.py:213-256 | the choice matches binding and URL, no candidate has a better rank, none of the same rank comes earlier; there is none only if all are unusable |
| `InterfaceSelection.PreferenceOrder` | src/a2a/client/client_factory.py:213-256 | version 1.0 before a newer one, that before any from 0.3 on, that before none at all; among equals the first in the card; none exactly if no interface of the bindings and URL asked for meets any of these |
| `InterfaceSelection.ChoiceIsStable` | src/a2a/client/client_factory.py:96-127 | choosing again among the interfaces of the chosen binding and URL gives the same interface |
| `InterfaceSelection.ClientFactory.RegisterDefaults` | src/a2a/client/client_factory.py:91-210 | which default producers are registered, and when gRPC is missing |
| `InterfaceSelection.ClientFactory.Produce` | src/a2a/client/client_factory.py:96-127 | a default producer takes the version of the interface it finds again by its URL, or the current one |
| `InterfaceSelection.ClientFactory.SelectInterface` | src/a2a/client/client_factory.py:322-344 | the loops over the client's or the server's order |
| `InterfaceSelection.ClientFactory.Create` | src/a2a/client/client_factory.py:302-364 | the default producers make the legacy or current transport for the version of the interface selected, with its URL and tenant; when creation fails instead |
| `InterfaceSelection.ClientOrderIsExhaustive` | src/a2a/client/client_factory.py:327-335 | in the client's order an interface is found exactly when some binding has a usable one |
| `InterfaceSelection.ServerOrderStopsEarly` | src/a2a/client/client_factory.py:336-344 | in the server's order one is found exactly when the first binding the client knows has a usable one |
| `InterfaceSelection.ClientOrderDecides` | src/a2a/client/client_factory.py:327-335 | the interface is the best one of the first binding in the client's order that has a usable one |
| `InterfaceSelection.ServerOrderDecides` | src/a2a/client/client_factory.py:336-344 | the interface is the best one of the first binding in the server's order that the client has |
| `InterfaceSelection.ServerOrderMissesAnInterface` | src/a2a/client/client_factory.py:336-346 | a card the server's order fails on and the client's order does not |

## Left out

- Liveness of the active task's wind-down and of closing the subscribers' queue gracefully: subscribers do not acknowledge lifecycle markers, so such a close need not return. Only safety is proved.
- That a failure always reaches subscribers: the consumer's exception handler can itself raise, which `EventConsumers` shows as the outcome `crashed`.
- `FlowSafety.FinishedStreamShowsRequest`: speaks of subscribers that reached their completion; what all others were shown is said by `FlowSafety.StreamShowsStretch`. That a subscriber gets to its completion is liveness.
- `Lifecycle.CleanupIsSafe`: does not say the callback is called at most once, because two leavers may both find the count at zero.
- The active task's pipeline is a transition system over values, not a class: each of its steps touches several coroutines' positions and two queues at once.
- `asyncio.Queue` follows CPython 3.13, where `shutdown` exists; the substitute for older versions is not part of this model.
- Cancellation is a step that may come at any time where the code allows it. A forced cancellation of the subscribers' dispatcher from outside is modelled for the event queue, not for the task's lifecycle.
- `TaskManager`, the task store and push notifications: their calls succeed, fail or return as they like.
- Cryptography, the making and checking of a compact token, `base64url_encode` and key lookup are parameters of the signer and verifier.
- Python's search for the shortest digits of a float is assumed; how `repr` lays them out is modelled.
- Which characters are digits outside ASCII, and how `packaging` orders versions, are parameters.
- A negative `max_safe_digits`, for which the limit becomes a fraction.
- `MessageToDict`: a card is its fields in JSON form, whatever they are, and its signatures.
- Dict keys that are not strings but have an `encode` method of their own.
- Logging, telemetry, HTTP and gRPC transports, server adapters, migrations, the command line and samples.
- Generated protobuf and pydantic types and the field-by-field conversions between versions.
- Error-code tables and version decorators: finite lookups.
