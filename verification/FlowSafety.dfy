// Safety of the active task over every interleaving of `ActiveTaskFlow`: the request lock is
// a token that is never lost twice nor released when free, requests run one after the other,
// and a subscriber sees exactly the updates of the request it asked for.

module FlowSafety {
  import opened Options
  import opened AsyncQueues
  import opened Broadcast
  import opened BroadcastSafety
  import opened ActiveTaskFlow

  // ----- The invariant, one concern at a time -----------------------------------------------------

  function Completions(es: seq<AgentEvent>): nat {
    if es == [] then 0 else Completions(es[..|es| - 1]) + if es[|es| - 1].Completed? then 1 else 0
  }

  function Bit(b: bool): nat {
    if b then 1 else 0
  }

  // The request lock as a token: every acquisition is accounted for by a completion marker in
  // the agent queue, a marker that queue dropped, or the request the producer is in or died in;
  // every release by a marker the consumer handled.
  ghost predicate TokenOk(emitted: seq<AgentEvent>, consumed: seq<AgentEvent>, st: TaskState) {
    && st.acquired == Completions(emitted) + st.lost + Bit(st.producer.InRequest() || st.abandoned)
    && (st.abandoned ==> st.producer.ProducerEnded?)
    && st.acquired == st.released + Bit(st.lockHeld)
    && st.released <= Completions(consumed)
    && (match st.consumer
        case Processing(e) => Completions(consumed) == st.released + Bit(e.Completed?)
        case ConsumerEnded => true
        case _ => Completions(consumed) == st.released)
    && !st.strayRelease
  }

  // How far the consumer has got with what it dequeued.
  ghost predicate ConsumerOk(consumed: seq<AgentEvent>, processed: nat, consumer: Consumer) {
    match consumer
    case Waiting => processed == |consumed|
    case Processing(e) => processed == |consumed| - 1 && consumed[processed] == e
    case Forwarding(entry) =>
      processed == |consumed| - 1 && (entry.event == consumed[processed] || entry.event.Failure?)
    case ConsumerEnded => processed <= |consumed| <= processed + 1
  }

  // What was processed when the current task was read covers every earlier request.
  ghost predicate SeenOk(emitted: seq<AgentEvent>, producer: Producer, processed: nat) {
    producer.HasRead() ==>
      producer.seen <= processed && forall j :: 0 <= j < |emitted| && emitted[j].Completed? ==> j <= producer.seen
  }

  ghost predicate StartedBefore(emitted: seq<AgentEvent>, j: int, r: nat)
    requires j <= |emitted|
  {
    exists i :: 0 <= i < j && emitted[i] == Started(r)
  }

  // A request is announced before it is completed.
  ghost predicate OrderOk(emitted: seq<AgentEvent>, producer: Producer, closed: bool) {
    && (forall j :: 0 <= j < |emitted| && emitted[j].Completed? ==> StartedBefore(emitted, j, emitted[j].request))
    && (producer.Executing? || producer.Completing? ==> closed || StartedBefore(emitted, |emitted|, producer.request))
  }

  // Only ids given out occur.
  ghost predicate IdsOk(emitted: seq<AgentEvent>, producer: Producer, items: seq<nat>, used: set<nat>) {
    && (forall j, r :: 0 <= j < |emitted| && emitted[j].Marks(r) ==> r in used)
    && (producer.Acquiring? || producer.InRequest() ==> producer.request in used)
    && (forall j :: 0 <= j < |items| ==> items[j] in used)
  }

  // What was forwarded is what was consumed, as long as the subscribers' queue takes it.
  // A failure is the last entry: the consumer ends with it.
  ghost predicate MirrorOk(forwarded: seq<Entry>, consumed: seq<AgentEvent>, processed: nat, closed: bool,
      consumer: Consumer) {
    && |forwarded| <= processed <= |consumed|
    && (|forwarded| < processed ==> closed)
    && forall k :: 0 <= k < |forwarded| ==>
         forwarded[k].event == consumed[k] ||
         (forwarded[k].event.Failure? && k == |forwarded| - 1 && consumer.ConsumerEnded?)
  }

  // The stream goes on after this entry.
  predicate Continues(e: Entry, wants: Option<nat>) {
    !e.event.Failure? && (wants.Some? ==> e.event != Completed(wants.value))
  }

  ghost predicate StreamOk(stream: Stream, taken: seq<Entry>, start: nat, forwarded: seq<Entry>) {
    && stream.output == stream.greeting + Views(taken, stream.replace)
    && |stream.greeting| <= Bit(stream.initial) && (forall g :: g in stream.greeting ==> g.TheTask?)
    && (stream.phase == Tapped ==> stream.wants == None) && (stream.phase == Greeting ==> stream.initial)
    && (stream.phase == Tapped || stream.phase == Greeting ==> taken == [] && stream.greeting == [])
    && (stream.phase in {Streaming, Finished, Raised} ==> |stream.greeting| == Bit(stream.initial))
    && (stream.phase == Streaming ==> forall k :: 0 <= k < |taken| ==> Continues(taken[k], stream.wants))
    && (stream.phase == Finished ==>
          && stream.wants.Some? && taken != [] && taken[|taken| - 1].event == Completed(stream.wants.value)
          && forall k :: 0 <= k < |taken| - 1 ==> Continues(taken[k], stream.wants))
    && (stream.phase == Raised ==>
          && taken != [] && taken[|taken| - 1].event.Failure?
          && forall k :: 0 <= k < |taken| - 1 ==> Continues(taken[k], stream.wants))
    && (stream.wants.Some? ==>
          forall j :: 0 <= j < |forwarded| && forwarded[j].event.Marks(stream.wants.value) ==> start <= j)
  }

  ghost predicate StreamFits(st: TaskState, i: nat)
    requires i in st.streams
  {
    var stream := st.streams[i];
    && stream.sink in st.subscribers.sinks
    && StreamOk(stream, st.subscribers.sinks[stream.sink].queue.taken, st.subscribers.sinks[stream.sink].start,
                st.Forwarded())
  }

  ghost predicate QueuesOk(st: TaskState) {
    Inv(st.agent) && Inv(st.subscribers) && 0 in st.agent.sinks && st.agent.sinks[0].start == 0
  }

  ghost predicate ProtocolOk(st: TaskState) {
    && QueuesOk(st)
    && TokenOk(st.Emitted(), st.Consumed(), st)
    && ConsumerOk(st.Consumed(), st.processed, st.consumer)
    && SeenOk(st.Emitted(), st.producer, st.processed)
    && OrderOk(st.Emitted(), st.producer, st.agent.closed)
    && IdsOk(st.Emitted(), st.producer, st.requests.items, st.used)
    && MirrorOk(st.Forwarded(), st.Consumed(), st.processed, st.subscribers.closed, st.consumer)
  }

  ghost predicate StreamsOk(st: TaskState) {
    && (forall i :: i in st.streams ==> StreamFits(st, i))
    && (forall i, j :: i in st.streams && j in st.streams && i != j ==> st.streams[i].sink != st.streams[j].sink)
  }

  ghost predicate FlowOk(st: TaskState) {
    ProtocolOk(st) && StreamsOk(st)
  }

  // ----- Counting ---------------------------------------------------------------------------------

  lemma CompletionsAppend(es: seq<AgentEvent>, e: AgentEvent)
    ensures Completions(es + [e]) == Completions(es) + Bit(e.Completed?)
  {
    assert (es + [e])[..|es|] == es;
  }

  lemma {:induction false} CompletionsPrefix(es: seq<AgentEvent>, n: nat)
    requires n <= |es|
    ensures Completions(es[..n]) <= Completions(es)
    ensures Completions(es[..n]) == Completions(es) ==> forall j :: n <= j < |es| ==> !es[j].Completed?
    decreases |es|
  {
    if n == |es| {
      assert es[..n] == es;
    } else {
      var shorter := es[..|es| - 1];
      CompletionsPrefix(shorter, n);
      assert shorter[..n] == es[..n];
      assert forall j :: n <= j < |shorter| ==> es[j] == shorter[j];
    }
  }

  // What the consumer dequeued is a prefix of what was emitted.
  lemma ConsumedIsPrefix(st: TaskState)
    requires QueuesOk(st)
    ensures st.Consumed() <= st.Emitted()
  {
    hide Inv;
    SliceFromInv(st.agent, 0);
  }

  lemma ConsumedCounts(st: TaskState)
    requires QueuesOk(st)
    ensures st.Consumed() <= st.Emitted()
    ensures Completions(st.Consumed()) <= Completions(st.Emitted())
    ensures Completions(st.Consumed()) == Completions(st.Emitted()) ==>
              forall j :: 0 <= j < |st.Emitted()| && st.Emitted()[j].Completed? ==> j < |st.Consumed()|
  {
    ConsumedIsPrefix(st);
    CompletionsPrefix(st.Emitted(), |st.Consumed()|);
    assert st.Emitted()[..|st.Consumed()|] == st.Consumed();
    hide Inv;
  }

  // ----- What a step does to the queues --------------------------------------------------------------

  lemma AgentMoves(st: TaskState, a: Action<nat, AgentEvent>)
    requires QueuesOk(st) && Enabled(st.agent, a)
    ensures QueuesOk(st.(agent := Apply(st.agent, a)))
    ensures var q := Apply(st.agent, a);
      && (st.agent.closed ==> q.closed) && (st.agent.closed == st.agent.incoming.isShutdown)
      && q.incoming.accepted == (if a.Enqueue? && !st.agent.closed then st.Emitted() + [a.event] else st.Emitted())
      && 0 in q.sinks
      && q.sinks[0].queue.taken == (if a == Dequeue(0) then st.Consumed() + [st.agent.sinks[0].queue.items[0]]
                                    else st.Consumed())
  {
    assert st.agent.closed == st.agent.incoming.isShutdown;
    hide Inv, Apply, Enabled;
    StepKeeps(st.agent, a);
    StepIsLater(st.agent, a);
    LogsGrow(st.agent, a);
    SinkLogGrows(st.agent, a, 0);
  }

  predicate TakenAfter(sink: Sink<Entry>, dequeued: bool, sink2: Sink<Entry>) {
    if dequeued then sink.queue.items != [] && sink2.queue.taken == sink.queue.taken + [sink.queue.items[0]]
    else sink2.queue.taken == sink.queue.taken
  }

  lemma SubscribersMove(st: TaskState, a: Action<nat, Entry>)
    requires QueuesOk(st) && Enabled(st.subscribers, a)
    ensures QueuesOk(st.(subscribers := Apply(st.subscribers, a)))
    ensures var q := Apply(st.subscribers, a);
      && (st.subscribers.closed ==> q.closed)
      && q.incoming.accepted == (if a.Enqueue? && !st.subscribers.closed then st.Forwarded() + [a.event]
          else st.Forwarded())
      && (forall id :: id in st.subscribers.sinks ==>
            id in q.sinks && q.sinks[id].start == st.subscribers.sinks[id].start)
      && (forall id :: id in st.subscribers.sinks ==> TakenAfter(st.subscribers.sinks[id], a == Dequeue(id),
          q.sinks[id]))
  {
    assert st.subscribers.closed == st.subscribers.incoming.isShutdown;
    hide Inv, Apply, Enabled;
    StepKeeps(st.subscribers, a);
    StepIsLater(st.subscribers, a);
    LogsGrow(st.subscribers, a);
    forall id | id in st.subscribers.sinks
      ensures var q := Apply(st.subscribers, a);
        && id in q.sinks && q.sinks[id].start == st.subscribers.sinks[id].start
        && TakenAfter(st.subscribers.sinks[id], a == Dequeue(id), q.sinks[id])
    {
      SinkLogGrows(st.subscribers, a, id);
    }
  }

  lemma QueuesHaveDefault(st: TaskState)
    requires QueuesOk(st)
    ensures 0 in st.agent.sinks
  {
  }

  lemma SameQueues(st: TaskState, st2: TaskState)
    requires QueuesOk(st) && st2.agent == st.agent && st2.subscribers == st.subscribers
    ensures QueuesOk(st2)
  {
    hide Inv;
  }

  lemma ProtocolQueues(st: TaskState)
    requires ProtocolOk(st)
    ensures QueuesOk(st)
  {
    hide QueuesOk, TokenOk, ConsumerOk, SeenOk, OrderOk, IdsOk, MirrorOk;
  }

  // ----- Steps of the queues alone --------------------------------------------------------------------

  lemma AgentQueueKeeps(st: TaskState, a: Action<nat, AgentEvent>)
    requires FlowOk(st) && Can(st, AgentQueue(a))
    ensures FlowOk(Do(st, AgentQueue(a)))
  {
    hide Inv, Apply, Enabled, QueuesOk, TokenOk, ConsumerOk, SeenOk, OrderOk, IdsOk, MirrorOk, StreamsOk;
    QueuesHaveDefault(st);
    var st2 := Do(st, AgentQueue(a));
    AgentMoves(st, a);
    StreamsUntouched(st, st2);
    SameToken(st.Emitted(), st.Consumed(), st, st2);
    OrderMayClose(st.Emitted(), st.producer, st.agent.closed, st2.agent.closed);
  }

  // The subscribers' side moves on without taking an entry.
  lemma ProtocolStays(st: TaskState, st2: TaskState)
    requires ProtocolOk(st) && QueuesOk(st2)
    requires st2 == st.(subscribers := st2.subscribers, streams := st2.streams)
    requires st2.Forwarded() == st.Forwarded() && (st.subscribers.closed ==> st2.subscribers.closed)
    ensures ProtocolOk(st2)
  {
    hide QueuesOk, ConsumerOk, SeenOk, OrderOk, IdsOk;
  }

  lemma StreamsFollow(st: TaskState, st2: TaskState)
    requires StreamsOk(st) && st2.streams == st.streams
    requires forall id :: id in st.subscribers.sinks ==>
      && id in st2.subscribers.sinks && st2.subscribers.sinks[id].start == st.subscribers.sinks[id].start
      && st2.subscribers.sinks[id].queue.taken == st.subscribers.sinks[id].queue.taken
    requires st.Forwarded() <= st2.Forwarded()
    requires forall id :: id in st.subscribers.sinks ==> st.subscribers.sinks[id].start <= |st.Forwarded()|
    ensures StreamsOk(st2)
  {
    forall i | i in st2.streams ensures StreamFits(st2, i) {
      assert StreamFits(st, i);
      hide StreamOk;
      var sink := st.subscribers.sinks[st.streams[i].sink];
      ForwardedStreamOk(st.streams[i], sink.queue.taken, sink.start, st.Forwarded(), st2.Forwarded());
    }
    hide StreamFits;
  }

  lemma ForwardedStreamOk(stream: Stream, taken: seq<Entry>, start: nat, forwarded: seq<Entry>, more: seq<Entry>)
    requires StreamOk(stream, taken, start, forwarded) && start <= |forwarded| && forwarded <= more
    ensures StreamOk(stream, taken, start, more)
  {
  }

  // Every sink starts within what was forwarded.
  lemma StartsArePast(st: TaskState)
    requires QueuesOk(st)
    ensures forall id :: id in st.subscribers.sinks ==> st.subscribers.sinks[id].start <= |st.Forwarded()|
  {
    hide Inv;
    forall id | id in st.subscribers.sinks
      ensures st.subscribers.sinks[id].start <= |st.Forwarded()|
    {
      SliceFromInv(st.subscribers, id);
    }
  }

  lemma SubscriberQueueKeeps(st: TaskState, a: Action<nat, Entry>)
    requires FlowOk(st) && Can(st, SubscriberQueue(a))
    ensures FlowOk(Do(st, SubscriberQueue(a)))
  {
    SubscribersMove(st, a);
    StartsArePast(st);
    hide Inv, Apply, Enabled, ProtocolOk, StreamsOk, QueuesOk;
    ProtocolStays(st, Do(st, SubscriberQueue(a)));
    StreamsFollow(st, Do(st, SubscriberQueue(a)));
  }

  // ----- Steps of the producer, of the agent and of callers ---------------------------------------------

  // The events, once emitted, of one more event.
  lemma EmitAppends(st: TaskState, e: AgentEvent)
    requires FlowOk(st) && CanEmit(st)
    ensures var st2 := EmitTo(st, e);
      && QueuesOk(st2) && (st.agent.closed ==> st2.agent.closed)
      && st2.Emitted() == (if st.agent.closed then st.Emitted() else st.Emitted() + [e])
      && st2.Consumed() == st.Consumed()
      && Completions(st2.Emitted()) == Completions(st.Emitted()) + Bit(!st.agent.closed && e.Completed?)
      && (PutResult(st.agent.incoming) == Stored <==> !st.agent.closed)
  {
    AgentMoves(st, Action.Enqueue(e));
    assert st.agent.closed == st.agent.incoming.isShutdown;
    hide FlowOk, QueuesOk;
    CompletionsAppend(st.Emitted(), e);
  }

  // Streams look at the subscribers' queue only.
  lemma StreamsUntouched(st: TaskState, st2: TaskState)
    requires StreamsOk(st) && st2.subscribers == st.subscribers && st2.streams == st.streams
    ensures StreamsOk(st2)
  {
    forall i | i in st2.streams ensures StreamFits(st2, i) {
      assert StreamFits(st, i);
    }
  }

  predicate ByProducer(step: Step) {
    step.Submit? || step.CloseRequests? || step.Fetch? || step.Acquire? || step.ReadTask? || step.Return?
    || (step.ProducerStops? && !step.failure)
  }

  lemma TokenAfterProducer(st: TaskState, step: Step, emitted: seq<AgentEvent>, consumed: seq<AgentEvent>)
    requires TokenOk(emitted, consumed, st) && Can(st, step) && ByProducer(step)
    ensures TokenOk(emitted, consumed, Do(st, step))
  {
  }

  lemma IdsAfterProducer(st: TaskState, step: Step, emitted: seq<AgentEvent>)
    requires IdsOk(emitted, st.producer, st.requests.items, st.used) && Can(st, step) && ByProducer(step)
    ensures IdsOk(emitted, Do(st, step).producer, Do(st, step).requests.items, Do(st, step).used)
  {
    assert step.Fetch? ==> st.requests.items[0] in st.used;
  }

  lemma SeenAfterProducer(st: TaskState, step: Step, emitted: seq<AgentEvent>)
    requires SeenOk(emitted, st.producer, st.processed) && Can(st, step) && ByProducer(step)
    requires step.ReadTask? ==> forall j :: 0 <= j < |emitted| && emitted[j].Completed? ==> j <= st.processed
    ensures SeenOk(emitted, Do(st, step).producer, Do(st, step).processed)
  {
  }

  lemma OrderAfterProducer(st: TaskState, step: Step, emitted: seq<AgentEvent>)
    requires OrderOk(emitted, st.producer, st.agent.closed) && Can(st, step) && ByProducer(step)
    ensures OrderOk(emitted, Do(st, step).producer, Do(st, step).agent.closed)
  {
    hide StartedBefore;
  }

  // The producer and callers leave both queues and everything the consumer and the streams have.
  lemma ProducerLeavesRest(st: TaskState, step: Step)
    requires Can(st, step) && ByProducer(step)
    ensures var t := Do(st, step);
      && t.agent == st.agent && t.subscribers == st.subscribers && t.streams == st.streams
      && t.consumer == st.consumer && t.processed == st.processed
  {
    hide Apply, Put, Get, Shutdown;
    match step {
      case Submit(_) =>
      case CloseRequests =>
      case Fetch =>
      case Acquire =>
      case ReadTask =>
      case Return =>
      case ProducerStops(_) =>
    }
  }

  lemma ProducerKeeps(st: TaskState, step: Step)
    requires FlowOk(st) && Can(st, step) && ByProducer(step)
    ensures FlowOk(Do(st, step))
  {
    ProducerLeavesRest(st, step);
    if step.ReadTask? {
      ReadCoversEarlierRequests(st);
    }
    hide Inv, Do, Can, QueuesOk, TokenOk, ConsumerOk, SeenOk, OrderOk, IdsOk, MirrorOk, StreamsOk, ByProducer;
    QueuesHaveDefault(st);
    SameQueues(st, Do(st, step));
    StreamsUntouched(st, Do(st, step));
    TokenAfterProducer(st, step, st.Emitted(), st.Consumed());
    IdsAfterProducer(st, step, st.Emitted());
    SeenAfterProducer(st, step, st.Emitted());
    OrderAfterProducer(st, step, st.Emitted());
  }

  // While a request holds the lock and has not queued its own marker, every marker queued is
  // the last event processed or an earlier one.
  lemma ReadCoversEarlierRequests(st: TaskState)
    requires FlowOk(st) && st.producer.InRequest()
    ensures st.lockHeld && st.lost == 0
    ensures forall j :: 0 <= j < |st.Emitted()| && st.Emitted()[j].Completed? ==> j <= st.processed
  {
    hide StreamsOk, OrderOk, IdsOk, MirrorOk, SeenOk;
    ConsumedCounts(st);
    hide QueuesOk;
  }

  // The agent queue takes one more event, or is closed and takes none.
  ghost predicate Grows(es: seq<AgentEvent>, closed: bool, e: AgentEvent, more: seq<AgentEvent>) {
    more == if closed then es else es + [e]
  }

  predicate ByEmission(step: Step) {
    step.Emit? || step.Announce? || step.Complete? || (step.ProducerStops? && step.failure)
  }

  function Emission(st: TaskState, step: Step): AgentEvent
    requires Can(st, step) && ByEmission(step)
  {
    match step
    case Emit(payload) => Update(payload)
    case Announce => Started(st.producer.request)
    case Complete => Completed(st.producer.request)
    case _ => Failure
  }

  // What a request owes to the lock: a marker queued, one dropped, or being inside it.
  function Owed(emitted: seq<AgentEvent>, st: TaskState): nat {
    Completions(emitted) + st.lost + Bit(st.producer.InRequest() || st.abandoned)
  }

  // An emission changes the producer's place and what was lost or abandoned, not the lock.
  lemma LockUntouched(st: TaskState, step: Step)
    requires Can(st, step) && ByEmission(step)
    ensures var t := Do(st, step);
      && t.acquired == st.acquired && t.released == st.released && t.lockHeld == st.lockHeld
      && t.consumer == st.consumer && t.strayRelease == st.strayRelease
  {
    hide Apply, Put;
    match step {
      case Emit(_) =>
      case Announce =>
      case Complete =>
      case ProducerStops(_) =>
    }
  }

  lemma PlaceAfterEmission(st: TaskState, step: Step)
    requires Can(st, step) && ByEmission(step)
    ensures var t := Do(st, step);
      && t.lost == st.lost + Bit(step.Complete? && PutResult(st.agent.incoming) != Stored)
      && t.abandoned == (st.abandoned || (step.ProducerStops? && st.producer.InRequest()))
      && t.producer == match step
           case Announce => Executing(st.producer.request, st.producer.seen)
           case Complete => Fetching
           case ProducerStops(_) => ProducerEnded
           case _ => st.producer
  {
    hide Apply, Put;
    match step {
      case Emit(_) =>
      case Announce =>
      case Complete =>
      case ProducerStops(_) =>
    }
  }

  // Only a marker that an open queue takes counts.
  lemma EmissionCounted(st: TaskState, step: Step, emitted: seq<AgentEvent>, more: seq<AgentEvent>)
    requires Can(st, step) && ByEmission(step) && Grows(emitted, st.agent.closed, Emission(st, step), more)
    ensures Completions(more) == Completions(emitted) + Bit(step.Complete? && !st.agent.closed)
  {
    CompletionsAppend(emitted, Emission(st, step));
    hide Can, Completions;
  }

  // A request stays where its owner can answer for it, except that a completion ends it.
  lemma RequestAfterEmission(st: TaskState, step: Step)
    requires Can(st, step) && ByEmission(step) && (st.abandoned ==> st.producer.ProducerEnded?)
    ensures var t := Do(st, step);
      && Bit(st.producer.InRequest() || st.abandoned)
         == Bit(t.producer.InRequest() || t.abandoned) + Bit(step.Complete?)
      && (t.abandoned ==> t.producer.ProducerEnded?)
  {
    PlaceAfterEmission(st, step);
    hide Do, PutResult, CanEmit;
    match step {
      case Emit(_) =>
      case Announce =>
      case Complete =>
      case ProducerStops(_) =>
    }
  }

  lemma OwedAfterEmission(st: TaskState, step: Step, emitted: seq<AgentEvent>, more: seq<AgentEvent>)
    requires Can(st, step) && ByEmission(step) && Grows(emitted, st.agent.closed, Emission(st, step), more)
    requires PutResult(st.agent.incoming) == Stored <==> !st.agent.closed
    requires st.abandoned ==> st.producer.ProducerEnded?
    ensures Owed(more, Do(st, step)) == Owed(emitted, st)
    ensures Do(st, step).abandoned ==> Do(st, step).producer.ProducerEnded?
  {
    EmissionCounted(st, step, emitted, more);
    RequestAfterEmission(st, step);
    PlaceAfterEmission(st, step);
    hide Do, Can, Completions, PutResult, ByEmission, Grows, Emission;
  }

  lemma TokenAfterEmission(st: TaskState, step: Step, emitted: seq<AgentEvent>, more: seq<AgentEvent>,
      consumed: seq<AgentEvent>)
    requires TokenOk(emitted, consumed, st) && Can(st, step) && ByEmission(step)
    requires Grows(emitted, st.agent.closed, Emission(st, step), more)
    requires PutResult(st.agent.incoming) == Stored <==> !st.agent.closed
    ensures TokenOk(more, consumed, Do(st, step))
  {
    LockUntouched(st, step);
    OwedAfterEmission(st, step, emitted, more);
    hide Do, Can, Completions, Grows, Emission, PutResult;
  }

  lemma IdsAfterEmission(st: TaskState, step: Step, emitted: seq<AgentEvent>, more: seq<AgentEvent>)
    requires IdsOk(emitted, st.producer, st.requests.items, st.used) && Can(st, step) && ByEmission(step)
    requires Grows(emitted, st.agent.closed, Emission(st, step), more)
    ensures IdsOk(more, Do(st, step).producer, st.requests.items, st.used)
  {
    hide Apply;
  }

  lemma SeenAfterEmission(st: TaskState, step: Step, emitted: seq<AgentEvent>, more: seq<AgentEvent>)
    requires SeenOk(emitted, st.producer, st.processed) && Can(st, step) && ByEmission(step)
    requires Grows(emitted, st.agent.closed, Emission(st, step), more)
    ensures SeenOk(more, Do(st, step).producer, st.processed)
  {
    hide Apply;
  }

  lemma StartedStays(emitted: seq<AgentEvent>, e: AgentEvent, j: int, r: nat)
    requires j <= |emitted| && StartedBefore(emitted, j, r)
    ensures StartedBefore(emitted + [e], j, r) && StartedBefore(emitted + [e], |emitted + [e]|, r)
  {
    var i :| 0 <= i < j && emitted[i] == Started(r);
    assert (emitted + [e])[i] == Started(r);
  }

  lemma OrderAfterEmission(st: TaskState, step: Step, emitted: seq<AgentEvent>, more: seq<AgentEvent>, closed2: bool)
    requires OrderOk(emitted, st.producer, st.agent.closed) && Can(st, step) && ByEmission(step)
    requires Grows(emitted, st.agent.closed, Emission(st, step), more) && (st.agent.closed ==> closed2)
    ensures OrderOk(more, Do(st, step).producer, closed2)
  {
    hide Apply;
    if !st.agent.closed {
      var e, p := Emission(st, step), st.producer;
      hide StartedBefore;
      forall j | 0 <= j < |more| && more[j].Completed? ensures StartedBefore(more, j, more[j].request) {
        StartedStays(emitted, e, j, more[j].request);
      }
      if step.Announce? {
        AnnouncedNow(emitted, p.request);
      } else if p.Executing? || p.Completing? {
        StartedStays(emitted, e, |emitted|, p.request);
      }
    }
  }

  lemma AnnouncedNow(emitted: seq<AgentEvent>, r: nat)
    ensures StartedBefore(emitted + [Started(r)], |emitted| + 1, r)
  {
    assert (emitted + [Started(r)])[|emitted|] == Started(r);
  }

  lemma EmissionLeavesRest(st: TaskState, step: Step)
    requires Can(st, step) && ByEmission(step)
    ensures var st2 := Do(st, step);
      && st2.agent == EmitTo(st, Emission(st, step)).agent
      && st2.subscribers == st.subscribers && st2.streams == st.streams && st2.requests == st.requests
      && st2.used == st.used && st2.processed == st.processed && st2.consumer == st.consumer
  {
    hide Apply;
  }

  lemma EmissionKeeps(st: TaskState, step: Step)
    requires FlowOk(st) && Can(st, step) && ByEmission(step)
    ensures FlowOk(Do(st, step))
  {
    hide Inv, Apply, Do, EmitTo, TokenOk, ConsumerOk, SeenOk, OrderOk, IdsOk, MirrorOk, StreamsOk;
    var e := Emission(st, step);
    EmitAppends(st, e);
    EmissionLeavesRest(st, step);
    var st2 := Do(st, step);
    StreamsUntouched(st, st2);
    TokenAfterEmission(st, step, st.Emitted(), st2.Emitted(), st.Consumed());
    IdsAfterEmission(st, step, st.Emitted(), st2.Emitted());
    SeenAfterEmission(st, step, st.Emitted(), st2.Emitted());
    OrderAfterEmission(st, step, st.Emitted(), st2.Emitted(), st2.agent.closed);
  }

  // ----- Steps of the consumer -----------------------------------------------------------------------------

  lemma TokenAfterTake(st: TaskState, emitted: seq<AgentEvent>, consumed: seq<AgentEvent>, x: AgentEvent)
    requires TokenOk(emitted, consumed, st) && st.consumer.Waiting?
    ensures TokenOk(emitted, consumed + [x], st.(consumer := Processing(x)))
  {
    CompletionsAppend(consumed, x);
  }

  lemma ConsumerAfterTake(consumed: seq<AgentEvent>, processed: nat, x: AgentEvent)
    requires ConsumerOk(consumed, processed, Waiting)
    ensures ConsumerOk(consumed + [x], processed, Processing(x))
  {
  }

  lemma MirrorAfterTake(forwarded: seq<Entry>, consumed: seq<AgentEvent>, processed: nat, closed: bool, x: AgentEvent)
    requires MirrorOk(forwarded, consumed, processed, closed, Waiting)
    ensures MirrorOk(forwarded, consumed + [x], processed, closed, Processing(x))
  {
  }

  lemma TakeKeeps(st: TaskState)
    requires FlowOk(st) && Can(st, ConsumerTakes)
    ensures FlowOk(Do(st, ConsumerTakes))
  {
    hide Inv, Apply, QueuesOk, TokenOk, ConsumerOk, SeenOk, OrderOk, IdsOk, StreamsOk, MirrorOk;
    QueuesHaveDefault(st);
    var st2, x := Do(st, ConsumerTakes), st.agent.sinks[0].queue.items[0];
    AgentMoves(st, Action.Dequeue(0));
    SameQueues(st.(agent := st2.agent), st2);
    StreamsUntouched(st, st2);
    TokenAfterTake(st, st.Emitted(), st.Consumed(), x);
    SameToken(st2.Emitted(), st2.Consumed(), st.(consumer := Processing(x)), st2);
    ConsumerAfterTake(st.Consumed(), st.processed, x);
    MirrorAfterTake(st.Forwarded(), st.Consumed(), st.processed, st.subscribers.closed, x);
    OrderMayClose(st.Emitted(), st.producer, st.agent.closed, st2.agent.closed);
  }

  lemma SameToken(emitted: seq<AgentEvent>, consumed: seq<AgentEvent>, st: TaskState, st2: TaskState)
    requires TokenOk(emitted, consumed, st) && st2 == st.(agent := st2.agent)
    ensures TokenOk(emitted, consumed, st2)
  {
  }

  // When the consumer handles a completion marker, the request lock is held.
  lemma ReleaseFindsLockHeld(st: TaskState)
    requires ProtocolOk(st) && st.consumer.Processing? && st.consumer.event.Completed?
    ensures st.lockHeld
  {
    hide SeenOk, OrderOk, IdsOk, MirrorOk;
    ConsumedCounts(st);
    hide QueuesOk;
  }

  lemma TokenAfterHandling(st: TaskState, task: nat, fails: bool, emitted: seq<AgentEvent>, consumed: seq<AgentEvent>)
    requires TokenOk(emitted, consumed, st) && Can(st, Handle(task, fails))
    requires st.consumer.event.Completed? ==> st.lockHeld
    ensures TokenOk(emitted, consumed, Do(st, Handle(task, fails)))
  {
  }

  lemma HandleKeeps(st: TaskState, task: nat, fails: bool)
    requires FlowOk(st) && Can(st, Handle(task, fails))
    ensures FlowOk(Do(st, Handle(task, fails)))
  {
    var st2 := Do(st, Handle(task, fails));
    StreamsUntouched(st, st2);
    assert ConsumerOk(st.Consumed(), st2.processed, st2.consumer);
    assert MirrorOk(st.Forwarded(), st.Consumed(), st2.processed, st2.subscribers.closed, st2.consumer);
    assert QueuesOk(st) ==> QueuesOk(st2);
    if st.consumer.event.Completed? {
      ReleaseFindsLockHeld(st);
    }
    hide Inv, Apply, QueuesOk, TokenOk, ConsumerOk, SeenOk, OrderOk, IdsOk, MirrorOk, StreamsOk;
    TokenAfterHandling(st, task, fails, st.Emitted(), st.Consumed());
  }

  lemma ConsumerStopsKeeps(st: TaskState)
    requires FlowOk(st) && Can(st, ConsumerStops)
    ensures FlowOk(Do(st, ConsumerStops))
  {
    StreamsUntouched(st, Do(st, ConsumerStops));
    assert QueuesOk(st) ==> QueuesOk(Do(st, ConsumerStops));
    hide Inv, QueuesOk, SeenOk, OrderOk, IdsOk, StreamsOk;
  }

  lemma MirrorAfterForward(forwarded: seq<Entry>, consumed: seq<AgentEvent>, processed: nat, closed: bool,
      entry: Entry, more: seq<Entry>)
    requires MirrorOk(forwarded, consumed, processed, closed, Forwarding(entry))
    requires ConsumerOk(consumed, processed, Forwarding(entry))
    requires more == if closed then forwarded else forwarded + [entry]
    ensures MirrorOk(more, consumed, processed + 1, closed, if entry.event.Failure? then ConsumerEnded else Waiting)
  {
  }

  lemma ConsumerAfterForward(st: TaskState, st2: TaskState, emitted: seq<AgentEvent>, consumed: seq<AgentEvent>)
    requires TokenOk(emitted, consumed, st) && ConsumerOk(consumed, st.processed, st.consumer)
    requires SeenOk(emitted, st.producer, st.processed)
    requires Can(st, Forward) && st2 == Do(st, Forward)
    ensures TokenOk(emitted, consumed, st2) && ConsumerOk(consumed, st2.processed, st2.consumer)
    ensures SeenOk(emitted, st2.producer, st2.processed)
  {
    hide Apply, Enabled;
  }

  lemma ForwardKeeps(st: TaskState)
    requires FlowOk(st) && Can(st, Forward)
    ensures FlowOk(Do(st, Forward))
  {
    hide Inv, Apply, QueuesOk, TokenOk, ConsumerOk, SeenOk, OrderOk, IdsOk, MirrorOk, StreamsOk;
    QueuesHaveDefault(st);
    var st2, entry := Do(st, Forward), st.consumer.entry;
    StartsArePast(st);
    SubscribersMove(st, Action.Enqueue(entry));
    AgentMoves(st, Acknowledge(0));
    BothQueues(st, st2);
    ConsumerAfterForward(st, st2, st.Emitted(), st.Consumed());
    MirrorAfterForward(st.Forwarded(), st.Consumed(), st.processed, st.subscribers.closed, entry, st2.Forwarded());
    OrderMayClose(st.Emitted(), st.producer, st.agent.closed, st2.agent.closed);
    EnqueueClosesNothing(st.subscribers, entry);
    StreamsFollow(st, st2);
  }

  lemma BothQueues(st: TaskState, st2: TaskState)
    requires QueuesOk(st.(agent := st2.agent)) && QueuesOk(st.(subscribers := st2.subscribers))
    ensures QueuesOk(st2)
  {
    hide Inv;
  }

  lemma EnqueueClosesNothing(q: Broadcast.State<nat, Entry>, e: Entry)
    requires Enabled(q, Action.Enqueue(e))
    ensures Apply(q, Action.Enqueue(e)).closed == q.closed
  {
  }

  lemma OrderMayClose(emitted: seq<AgentEvent>, producer: Producer, closed: bool, closed2: bool)
    requires OrderOk(emitted, producer, closed) && (closed ==> closed2)
    ensures OrderOk(emitted, producer, closed2)
  {
    hide StartedBefore;
  }

  // ----- Steps of the subscribers ------------------------------------------------------------------------------

  lemma OneStreamChanges(st: TaskState, i: nat, stream2: Stream)
    requires StreamsOk(st) && i in st.streams && stream2.sink == st.streams[i].sink
    requires StreamFits(st.(streams := st.streams[i := stream2]), i)
    ensures StreamsOk(st.(streams := st.streams[i := stream2]))
  {
    hide StreamOk;
    var st2 := st.(streams := st.streams[i := stream2]);
    forall k | k in st2.streams ensures StreamFits(st2, k) {
      if k != i {
        assert StreamFits(st, k);
      }
    }
    hide StreamFits;
  }

  lemma StreamChangeKeeps(st: TaskState, i: nat, stream2: Stream)
    requires FlowOk(st) && i in st.streams && stream2.sink == st.streams[i].sink
    requires stream2.sink in st.subscribers.sinks
    requires StreamOk(stream2, st.subscribers.sinks[stream2.sink].queue.taken,
                      st.subscribers.sinks[stream2.sink].start, st.Forwarded())
    ensures FlowOk(st.(streams := st.streams[i := stream2]))
  {
    var st2 := st.(streams := st.streams[i := stream2]);
    assert StreamFits(st2, i) by {
      hide FlowOk, StreamOk;
    }
    hide ProtocolOk, StreamsOk, StreamFits, StreamOk, Inv, QueuesOk;
    ProtocolQueues(st);
    SameQueues(st, st2);
    ProtocolStays(st, st2);
    OneStreamChanges(st, i, stream2);
  }

  lemma StreamsAfterAttach(st: TaskState, st2: TaskState, i: nat, sink: nat, initial: bool, replace: bool)
    requires StreamsOk(st) && i !in st.streams && sink !in st.subscribers.sinks && sink in st2.subscribers.sinks
    requires st2.streams == st.streams[i := Stream(sink, None, initial, replace, [], [], Tapped)]
    requires st2.Forwarded() == st.Forwarded() && st2.subscribers.sinks[sink].queue.taken == []
    requires forall id :: id in st.subscribers.sinks ==>
      && id in st2.subscribers.sinks && st2.subscribers.sinks[id].start == st.subscribers.sinks[id].start
      && st2.subscribers.sinks[id].queue.taken == st.subscribers.sinks[id].queue.taken
    ensures StreamsOk(st2)
  {
    forall k | k in st2.streams
      ensures StreamFits(st2, k) && (k in st.streams ==> st.streams[k].sink in st.subscribers.sinks)
    {
      if k in st.streams {
        assert StreamFits(st, k);
        hide StreamOk;
      }
    }
    hide StreamFits;
  }

  lemma AttachIsTap(st: TaskState, step: Step)
    requires Can(st, step) && step.Attach?
    ensures var a := Action<nat, Entry>.Tap(step.sink, step.capacity, true);
      && Enabled(st.subscribers, a) && !st.subscribers.closed
      && step.sink !in st.subscribers.sinks && step.stream !in st.streams
      && Do(st, step) == st.(subscribers := Apply(st.subscribers, a),
           streams := st.streams[step.stream := Stream(step.sink, None, step.initial, step.replace, [], [], Tapped)])
  {
    hide Apply;
  }

  lemma AttachKeeps(st: TaskState, step: Step)
    requires FlowOk(st) && Can(st, step) && step.Attach?
    ensures FlowOk(Do(st, step))
  {
    var a := Action<nat, Entry>.Tap(step.sink, step.capacity, true);
    AttachIsTap(st, step);
    hide Inv, Apply, Enabled, ProtocolOk, QueuesOk, StreamsOk, Do, Can;
    ProtocolQueues(st);
    var st2 := Do(st, step);
    SubscribersMove(st, a);
    LogsGrow(st.subscribers, a);
    TapAddsSink(st.subscribers, a);
    SameQueues(st.(subscribers := st2.subscribers), st2);
    ProtocolStays(st, st2);
    StreamsAfterAttach(st, st2, step.stream, step.sink, step.initial, step.replace);
  }

  lemma TapAddsSink(q: Broadcast.State<nat, Entry>, a: Action<nat, Entry>)
    requires Enabled(q, a) && a.Tap? && !q.closed
    ensures a.id in Apply(q, a).sinks
  {
  }

  // No marker of an id not yet given out was forwarded.
  lemma FreshIdUnmarked(st: TaskState, r: nat)
    requires ProtocolOk(st) && r !in st.used
    ensures forall k :: 0 <= k < |st.Forwarded()| ==> !st.Forwarded()[k].event.Marks(r)
  {
    ConsumedIsPrefix(st);
    hide Inv, QueuesOk, ConsumerOk, SeenOk, OrderOk, TokenOk;
    forall k | 0 <= k < |st.Forwarded()| ensures !st.Forwarded()[k].event.Marks(r) {
      assert st.Consumed()[k] == st.Emitted()[k];
    }
  }

  lemma AskedStreamOk(stream: Stream, taken: seq<Entry>, start: nat, forwarded: seq<Entry>, r: nat, broken: bool)
    requires StreamOk(stream, taken, start, forwarded) && stream.phase == Tapped
    requires forall k :: 0 <= k < |forwarded| ==> !forwarded[k].event.Marks(r)
    ensures StreamOk(stream.(wants := Some(r), phase := if broken then Broken else Entered(stream)), taken, start,
        forwarded)
  {
    hide Views, Continues;
  }

  lemma AskIsSubmit(st: TaskState, i: nat, r: nat)
    requires Can(st, Ask(i, r))
    ensures Can(st, Submit(r))
    ensures var stream, st1 := st.streams[i], Do(st, Submit(r));
      && st1.subscribers == st.subscribers && st1.streams == st.streams
      && Do(st, Ask(i, r)) == st1.(streams := st1.streams[i :=
           stream.(wants := Some(r), phase := if st.requests.isShutdown then Broken else Entered(stream))])
  {
    hide Put, Shutdown;
  }

  lemma AskKeeps(st: TaskState, i: nat, r: nat)
    requires FlowOk(st) && Can(st, Ask(i, r))
    ensures FlowOk(Do(st, Ask(i, r)))
  {
    FreshIdUnmarked(st, r);
    StreamOfState(st, i);
    AskIsSubmit(st, i, r);
    var stream, broken := st.streams[i], st.requests.isShutdown;
    assert stream.phase == Tapped;
    hide FlowOk, Inv, Can, Do, StreamOk;
    var sink := st.subscribers.sinks[stream.sink];
    AskedStreamOk(stream, sink.queue.taken, sink.start, st.Forwarded(), r, broken);
    ProducerKeeps(st, Submit(r));
    StreamChangeKeeps(Do(st, Submit(r)), i,
                      stream.(wants := Some(r), phase := if broken then Broken else Entered(stream)));
  }

  lemma StreamPhaseOk(stream: Stream, taken: seq<Entry>, start: nat, forwarded: seq<Entry>, phase: StreamPhase)
    requires StreamOk(stream, taken, start, forwarded)
    requires (phase == Entered(stream) && stream.phase == Tapped) || phase == Broken
    ensures StreamOk(stream.(phase := phase), taken, start, forwarded)
  {
  }

  lemma StreamPhaseKeeps(st: TaskState, step: Step)
    requires FlowOk(st) && Can(st, step) && (step.Follow? || step.StreamStops?)
    ensures FlowOk(Do(st, step))
  {
    hide Inv, Apply, Enabled, ProtocolOk, StreamOk;
    var i, stream := step.stream, st.streams[step.stream];
    var phase := if step.Follow? then Entered(stream) else Broken;
    assert StreamFits(st, i);
    hide FlowOk, StreamsOk;
    StreamPhaseOk(stream, st.subscribers.sinks[stream.sink].queue.taken, st.subscribers.sinks[stream.sink].start,
                  st.Forwarded(), phase);
    StreamChangeKeeps(st, i, stream.(phase := phase));
  }

  lemma GreetedStreamOk(stream: Stream, taken: seq<Entry>, start: nat, forwarded: seq<Entry>, task: nat)
    requires StreamOk(stream, taken, start, forwarded) && stream.phase == Greeting && stream.initial
    ensures StreamOk(Greeted(stream, task), taken, start, forwarded)
  {
    assert stream.output == [] && Views(taken, stream.replace) == [];
  }

  lemma GreetKeeps(st: TaskState, i: nat, task: nat)
    requires FlowOk(st) && Can(st, Greet(i, task))
    ensures FlowOk(Do(st, Greet(i, task)))
  {
    hide Inv, Apply, Enabled, ProtocolOk;
    var stream := st.streams[i];
    assert StreamFits(st, i);
    var sink := st.subscribers.sinks[stream.sink];
    assert stream.initial;
    hide FlowOk, StreamsOk, StreamOk;
    GreetedStreamOk(stream, sink.queue.taken, sink.start, st.Forwarded(), task);
    StreamChangeKeeps(st, i, Greeted(stream, task));
  }

  lemma ReceivedStreamOk(stream: Stream, taken: seq<Entry>, start: nat, forwarded: seq<Entry>, e: Entry)
    requires StreamOk(stream, taken, start, forwarded) && stream.phase == Streaming
    ensures StreamOk(Received(stream, e), taken + [e], start, forwarded)
    ensures Received(stream, e).sink == stream.sink
  {
    assert (taken + [e])[..|taken|] == taken;
    assert stream.greeting + Views(taken, stream.replace) + [] == stream.greeting + Views(taken, stream.replace);
  }

  lemma StreamsAfterReceive(st: TaskState, st2: TaskState, i: nat, e: Entry)
    requires StreamsOk(st) && i in st.streams && st.streams[i].phase == Streaming
    requires st2.streams == st.streams[i := Received(st.streams[i], e)] && st2.Forwarded() == st.Forwarded()
    requires forall id :: id in st.subscribers.sinks ==>
      && id in st2.subscribers.sinks && st2.subscribers.sinks[id].start == st.subscribers.sinks[id].start
      && TakenAfter(st.subscribers.sinks[id], id == st.streams[i].sink, st2.subscribers.sinks[id])
    requires st.streams[i].sink in st.subscribers.sinks ==>
      st.subscribers.sinks[st.streams[i].sink].queue.items != [] &&
          st.subscribers.sinks[st.streams[i].sink].queue.items[0] == e
    ensures StreamsOk(st2)
  {
    hide StreamOk, Received;
    forall k | k in st2.streams ensures StreamFits(st2, k) && st2.streams[k].sink == st.streams[k].sink {
      assert StreamFits(st, k);
      var sink := st.subscribers.sinks[st.streams[k].sink];
      if k == i {
        ReceivedStreamOk(st.streams[i], sink.queue.taken, sink.start, st.Forwarded(), e);
      }
    }
    hide StreamFits;
  }

  lemma ReceiveKeeps(st: TaskState, i: nat)
    requires FlowOk(st) && Can(st, Receive(i))
    ensures FlowOk(Do(st, Receive(i)))
  {
    hide Inv, Apply, ProtocolOk, QueuesOk, StreamsOk, Received, TakenAfter;
    var sink := st.streams[i].sink;
    var e := st.subscribers.sinks[sink].queue.items[0];
    ProtocolQueues(st);
    SubscribersMove(st, Action.Dequeue(sink));
    var st1 := st.(subscribers := Apply(st.subscribers, Action.Dequeue(sink)));
    ProtocolStays(st, st1);
    hide Enabled, Can;
    StreamsAfterReceive(st, Do(st, Receive(i)), i, e);
    SameQueues(st1, Do(st, Receive(i)));
    ProtocolStays(st1, Do(st, Receive(i)));
  }

  // ----- All runs ------------------------------------------------------------------------------------------------

  lemma FlowStepKeeps(st: TaskState, step: Step)
    requires FlowOk(st) && Can(st, step)
    ensures FlowOk(Do(st, step))
  {
    hide FlowOk, Can, Do;
    match step {
      case AgentQueue(a) => AgentQueueKeeps(st, a);
      case SubscriberQueue(a) => SubscriberQueueKeeps(st, a);
      case ConsumerTakes => TakeKeeps(st);
      case Handle(task, fails) => HandleKeeps(st, task, fails);
      case Forward => ForwardKeeps(st);
      case ConsumerStops => ConsumerStopsKeeps(st);
      case Attach(_, _, _, _, _) => AttachKeeps(st, step);
      case Ask(i, r) => AskKeeps(st, i, r);
      case Follow(_) => StreamPhaseKeeps(st, step);
      case StreamStops(_) => StreamPhaseKeeps(st, step);
      case Greet(i, task) => GreetKeeps(st, i, task);
      case Receive(i) => ReceiveKeeps(st, i);
      case _ => if ByProducer(step) { ProducerKeeps(st, step); } else { EmissionKeeps(st, step); }
    }
  }

  lemma ConstructedOk(capacity: nat)
    requires capacity > 0
    ensures FlowOk(Constructed(capacity))
  {
    InitialInv<nat, AgentEvent>(capacity, {0});
    InitialInv<nat, Entry>(capacity, {});
    hide Inv;
  }

  lemma {:induction false} FlowKeeps(st: TaskState, steps: seq<Step>)
    requires FlowOk(st) && Behave(st, steps).Now?
    ensures FlowOk(Behave(st, steps).state)
    decreases |steps|
  {
    hide FlowOk, Can, Do;
    if steps != [] {
      FlowStepKeeps(st, steps[0]);
      FlowKeeps(Do(st, steps[0]), steps[1..]);
    }
  }

  lemma ReachableOk(capacity: nat, steps: seq<Step>)
    requires capacity > 0 && Behave(Constructed(capacity), steps).Now?
    ensures FlowOk(Behave(Constructed(capacity), steps).state)
  {
    ConstructedOk(capacity);
    FlowKeeps(Constructed(capacity), steps);
  }

  // The request lock is a conserved token. It is never released when free, and it is held
  // exactly while a request is between acquiring it and the consumer handling the request's
  // completion marker, or that marker will never be handled: the closed agent queue dropped
  // it, or the producer ended inside the request.
  lemma RequestLockIsToken(capacity: nat, steps: seq<Step>)
    requires capacity > 0 && Behave(Constructed(capacity), steps).Now?
    ensures var st := Behave(Constructed(capacity), steps).state;
      && !st.strayRelease
      && st.acquired == st.released + Bit(st.lockHeld)
      && (st.lockHeld <==> st.producer.InRequest() || Completions(st.Emitted()) > st.released
                           || st.lost > 0 || st.abandoned)
  {
    ReachableOk(capacity, steps);
    var st := Behave(Constructed(capacity), steps).state;
    hide Behave, StreamsOk, SeenOk, OrderOk, IdsOk, MirrorOk;
    ConsumedCounts(st);
    hide QueuesOk;
  }

  // Requests run one after the other. From the moment the producer has read the current task
  // for a request, every event the agent queued before the completion marker of an earlier
  // request has been consumed and was processed before that read; and the marker itself was
  // consumed.
  lemma RequestsRunInTurn(capacity: nat, steps: seq<Step>, i: nat, j: nat)
    requires capacity > 0 && Behave(Constructed(capacity), steps).Now?
    requires var st := Behave(Constructed(capacity), steps).state;
      st.producer.HasRead() && i < j < |st.Emitted()| && st.Emitted()[j].Completed?
    ensures var st := Behave(Constructed(capacity), steps).state;
      && 0 in st.agent.sinks && i < st.producer.seen <= st.processed && j < |st.Consumed()|
      && st.Consumed() <= st.Emitted()
      && (i < |st.Forwarded()| ==> st.Forwarded()[i].event == st.Emitted()[i] || st.Forwarded()[i].event.Failure?)
      && (|st.Forwarded()| <= i ==> st.subscribers.closed)
  {
    ReachableOk(capacity, steps);
    hide Behave, FlowOk, Do, Can;
    InTurn(Behave(Constructed(capacity), steps).state, i, j);
  }

  lemma InTurn(st: TaskState, i: nat, j: nat)
    requires FlowOk(st) && st.producer.HasRead() && i < j < |st.Emitted()| && st.Emitted()[j].Completed?
    ensures
      && 0 in st.agent.sinks && i < st.producer.seen <= st.processed && j < |st.Consumed()|
      && st.Consumed() <= st.Emitted()
      && (i < |st.Forwarded()| ==> st.Forwarded()[i].event == st.Emitted()[i] || st.Forwarded()[i].event.Failure?)
      && (|st.Forwarded()| <= i ==> st.subscribers.closed)
  {
    hide StreamsOk, OrderOk, IdsOk, Inv, StartedBefore;
    ConsumedCounts(st);
    hide QueuesOk, Completions;
  }

  // ----- What a subscriber sees -------------------------------------------------------------------------------------

  lemma {:induction false} ViewsAppend(xs: seq<Entry>, ys: seq<Entry>, replace: bool)
    ensures Views(xs + ys, replace) == Views(xs, replace) + Views(ys, replace)
    decreases |ys|
  {
    if ys == [] {
      assert xs + ys == xs;
    } else {
      var rest := ys[..|ys| - 1];
      assert (xs + ys)[..|xs + ys| - 1] == xs + rest;
      ViewsAppend(xs, rest, replace);
    }
  }

  // From the first entry its queue received up to the first completion marker of its request, and
  // nothing after it: that is what the stream was shown, in order, after the stored task if it asked
  // for that. The start marker lies in that stretch, so every update forwarded between the two markers
  // was shown.
  ghost predicate ShownRequest(stream: Stream, all: seq<Entry>, first: nat, started: nat, last: nat) {
    && stream.wants.Some? && first <= started < last < |all|
    && all[last].event == Completed(stream.wants.value) && all[started].event == Started(stream.wants.value)
    && (forall k :: first <= k < last ==> all[k].event != Completed(stream.wants.value) && !all[k].event.Failure?)
    && (forall k :: 0 <= k < first ==> !all[k].event.Marks(stream.wants.value))
    && |stream.greeting| == Bit(stream.initial)
    && stream.output == stream.greeting + Views(all[first..last], stream.replace)
    && Views(all[first..last], stream.replace)
       == Views(all[first..started], stream.replace) + Views(all[started + 1..last], stream.replace)
  }

  // So it is for every subscriber that asked for a request and came to its end there.
  lemma FinishedStreamShowsRequest(capacity: nat, steps: seq<Step>, i: nat)
      returns (first: nat, started: nat, last: nat)
    requires capacity > 0 && Behave(Constructed(capacity), steps).Now?
    requires var st := Behave(Constructed(capacity), steps).state;
      i in st.streams && st.streams[i].phase == Finished
    ensures var st := Behave(Constructed(capacity), steps).state;
      ShownRequest(st.streams[i], st.Forwarded(), first, started, last)
  {
    hide *;
    ReachableOk(capacity, steps);
    first, started, last := FinishedFromInv(Behave(Constructed(capacity), steps).state, i);
  }

  lemma FinishedFromInv(st: TaskState, i: nat) returns (first: nat, started: nat, last: nat)
    requires FlowOk(st) && i in st.streams && st.streams[i].phase == Finished
    ensures ShownRequest(st.streams[i], st.Forwarded(), first, started, last)
  {
    hide *;
    StreamOfState(st, i);
    StreamReadsSlice(st, i);
    var stream, all := st.streams[i], st.Forwarded();
    var taken := st.subscribers.sinks[stream.sink].queue.taken;
    first := st.subscribers.sinks[stream.sink].start;
    FinishedLast(stream, taken, first, all);
    last := first + |taken| - 1;
    started := StartIsForwarded(st, last, stream.wants.value);
    FinishedOutput(stream, taken, all, first, started, last);
  }

  lemma FinishedLast(stream: Stream, taken: seq<Entry>, first: nat, all: seq<Entry>)
    requires StreamOk(stream, taken, first, all) && stream.phase == Finished
    requires first + |taken| <= |all| && taken == all[first..first + |taken|]
    ensures taken != [] && stream.wants.Some? && all[first + |taken| - 1].event == Completed(stream.wants.value)
  {
    hide Views, Continues;
    assert taken[|taken| - 1] == all[first + |taken| - 1];
  }

  // What a subscriber was shown is the stored task, if it asked for it and got so far, and then, in
  // order, every update among the first entries its queue received. While it goes on, neither its own
  // completion nor a failure was among them; if it raised, the last one was a failure. No marker of its
  // request was forwarded before its queue began. And as long as its queue is open, attached and not in
  // the middle of a delivery, what it has still to read is all the rest that was dispatched: nothing in
  // between can be lost.
  ghost predicate ShownSoFar(stream: Stream, subscribers: Broadcast.State<nat, Entry>, all: seq<Entry>) {
    stream.sink in subscribers.sinks
    && var sink := subscribers.sinks[stream.sink]; var first := sink.start; var next := first + |sink.queue.taken|;
    && next <= |all|
    && stream.output == stream.greeting + Views(all[first..next], stream.replace)
    && |stream.greeting| <= Bit(stream.initial)
    && (stream.phase in {Streaming, Finished, Raised} ==> |stream.greeting| == Bit(stream.initial))
    && (stream.phase == Streaming ==> forall k :: first <= k < next ==> Continues(all[k], stream.wants))
    && (stream.phase == Raised ==> first < next && all[next - 1].event.Failure?)
    && (stream.wants.Some? ==> forall k :: 0 <= k < first ==> !all[k].event.Marks(stream.wants.value))
    && (Unbroken(subscribers, stream.sink) ==>
          next <= |subscribers.snapshots| <= |all| && sink.queue.items == all[next..|subscribers.snapshots|])
  }

  // So it is in every run, for every subscriber, whatever became of it.
  lemma StreamShowsStretch(capacity: nat, steps: seq<Step>, i: nat)
    requires capacity > 0 && Behave(Constructed(capacity), steps).Now?
    requires i in Behave(Constructed(capacity), steps).state.streams
    ensures var st := Behave(Constructed(capacity), steps).state;
      ShownSoFar(st.streams[i], st.subscribers, st.Forwarded())
  {
    hide *;
    ReachableOk(capacity, steps);
    ShownFromInv(Behave(Constructed(capacity), steps).state, i);
  }

  lemma StreamOfState(st: TaskState, i: nat)
    requires FlowOk(st) && i in st.streams
    ensures Inv(st.subscribers) && ProtocolOk(st) && StreamFits(st, i)
    ensures st.streams[i].sink in st.subscribers.sinks
    ensures var sink := st.subscribers.sinks[st.streams[i].sink];
      StreamOk(st.streams[i], sink.queue.taken, sink.start, st.Forwarded())
  {
    hide Inv, StreamOk;
    assert StreamFits(st, i);
  }

  lemma ShownFromInv(st: TaskState, i: nat)
    requires FlowOk(st) && i in st.streams
    ensures ShownSoFar(st.streams[i], st.subscribers, st.Forwarded())
  {
    hide *;
    StreamOfState(st, i);
    StreamReadsSlice(st, i);
    AllForwarded(st);
    ShownOfParts(st.streams[i], st.subscribers, st.subscribers.sinks[st.streams[i].sink], st.Forwarded());
  }

  lemma AllForwarded(st: TaskState)
    ensures st.Forwarded() == st.subscribers.incoming.accepted
  {
  }

  lemma ShownOfParts(stream: Stream, q: Broadcast.State<nat, Entry>, sink: Sink<Entry>, all: seq<Entry>)
    requires Inv(q) && stream.sink in q.sinks && sink == q.sinks[stream.sink] && all == q.incoming.accepted
    requires StreamOk(stream, sink.queue.taken, sink.start, all)
    requires sink.start + |sink.queue.taken| <= |all|
    requires sink.queue.taken == all[sink.start..sink.start + |sink.queue.taken|]
    ensures ShownSoFar(stream, q, all)
  {
    hide Inv, StreamOk, Views, Continues, Unbroken;
    StretchShown(stream, sink.queue.taken, sink.start, all);
    if Unbroken(q, stream.sink) {
      OpenSinkHoldsRest(q, stream.sink);
    }
  }

  lemma StretchShown(stream: Stream, taken: seq<Entry>, first: nat, all: seq<Entry>)
    requires StreamOk(stream, taken, first, all) && first + |taken| <= |all| && taken == all[first..first + |taken|]
    ensures stream.output == stream.greeting + Views(all[first..first + |taken|], stream.replace)
    ensures |stream.greeting| <= Bit(stream.initial)
    ensures stream.phase in {Streaming, Finished, Raised} ==> |stream.greeting| == Bit(stream.initial)
    ensures stream.phase == Streaming ==> forall k :: first <= k < first + |taken| ==> Continues(all[k], stream.wants)
    ensures stream.phase == Raised ==> taken != [] && all[first + |taken| - 1].event.Failure?
    ensures stream.wants.Some? ==> forall k :: 0 <= k < first ==> !all[k].event.Marks(stream.wants.value)
  {
    hide Views, Continues;
    assert stream.phase == Raised ==> taken[|taken| - 1] == all[first + |taken| - 1];
    if stream.phase == Streaming {
      forall k | first <= k < first + |taken| ensures Continues(all[k], stream.wants) {
        assert Continues(taken[k - first], stream.wants);
      }
    }
  }

  // The sink is open and attached, and no delivery to it is under way.
  predicate Unbroken(q: Broadcast.State<nat, Entry>, id: nat) {
    id in q.sinks && id in q.attached && !q.sinks[id].closed && !q.dispatcher.Stopped? && !InRound(q.dispatcher, id)
  }

  lemma OpenQueueHoldsRest(q: Queue<Entry>)
    requires q.Conserved() && !q.isShutdown
    ensures q.accepted == q.taken + q.items
  {
    assert q.discarded == [];
  }

  lemma RestOfSlice(all: seq<Entry>, taken: seq<Entry>, items: seq<Entry>, start: nat, end: nat)
    requires start + |taken| + |items| == end <= |all| && taken + items == all[start..end]
    ensures items == all[start + |taken|..end]
  {
    assert forall k :: 0 <= k < |items| ==> items[k] == (taken + items)[|taken| + k] == all[start..end][|taken| + k];
  }

  // Such a sink holds all that was dispatched since it began and not yet read.
  lemma OpenSinkHoldsRest(q: Broadcast.State<nat, Entry>, id: nat)
    requires Inv(q) && Unbroken(q, id)
    ensures id in q.sinks
    ensures var sink := q.sinks[id]; var next := sink.start + |sink.queue.taken|;
      && next + |sink.queue.items| == |q.snapshots| <= |q.incoming.accepted|
      && sink.queue.items == q.incoming.accepted[next..|q.snapshots|]
  {
    SliceFromInv(q, id);
    SinkFacts(q, id);
    var sink := q.sinks[id];
    hide Inv, Queue.Conserved;
    OpenQueueHoldsRest(sink.queue);
    RestOfSlice(q.incoming.accepted, sink.queue.taken, sink.queue.items, sink.start, |q.snapshots|);
  }

  // What a subscriber dequeued is a stretch of what was forwarded.
  lemma StreamReadsSlice(st: TaskState, i: nat)
    requires FlowOk(st) && i in st.streams
    ensures st.streams[i].sink in st.subscribers.sinks
    ensures var sink := st.subscribers.sinks[st.streams[i].sink];
      && sink.start + |sink.queue.taken| <= |st.Forwarded()|
      && sink.queue.taken == st.Forwarded()[sink.start..sink.start + |sink.queue.taken|]
  {
    hide *;
    StreamOfState(st, i);
    AllForwarded(st);
    ReadSlice(st.subscribers, st.streams[i].sink);
  }

  lemma ReadSlice(q: Broadcast.State<nat, Entry>, id: nat)
    requires Inv(q) && id in q.sinks
    ensures var sink := q.sinks[id];
      && sink.start + |sink.queue.taken| <= |q.incoming.accepted|
      && sink.queue.taken == q.incoming.accepted[sink.start..sink.start + |sink.queue.taken|]
  {
    hide Inv;
    SliceFromInv(q, id);
    var sink, all := q.sinks[id], q.incoming.accepted;
    assert forall k :: 0 <= k < |sink.queue.taken| ==>
      sink.queue.taken[k] == sink.queue.accepted[k] == all[sink.start + k];
  }

  // A completion marker is forwarded only after the start marker.
  lemma StartIsForwarded(st: TaskState, last: nat, r: nat) returns (started: nat)
    requires ProtocolOk(st) && last < |st.Forwarded()| && st.Forwarded()[last].event == Completed(r)
    ensures started < last && st.Forwarded()[started].event == Started(r)
  {
    ConsumedIsPrefix(st);
    hide Inv, QueuesOk, TokenOk, ConsumerOk, SeenOk, IdsOk, StartedBefore;
    var all, consumed, emitted := st.Forwarded(), st.Consumed(), st.Emitted();
    assert all[last].event == consumed[last] == emitted[last];
    started := StartIn(emitted, last, r);
    assert emitted[started] == consumed[started];
    hide OrderOk;
  }

  lemma StartIn(emitted: seq<AgentEvent>, j: nat, r: nat) returns (i: nat)
    requires j <= |emitted| && StartedBefore(emitted, j, r)
    ensures i < j && emitted[i] == Started(r)
  {
    i :| 0 <= i < j && emitted[i] == Started(r);
  }

  lemma FinishedOutput(stream: Stream, taken: seq<Entry>, all: seq<Entry>, first: nat, started: nat, last: nat)
    requires StreamOk(stream, taken, first, all) && stream.phase == Finished
    requires last == first + |taken| - 1 < |all| && taken == all[first..last + 1] && started < last
    requires all[started].event == Started(stream.wants.value)
    ensures ShownRequest(stream, all, first, started, last)
  {
    assert all[last] == taken[|taken| - 1];
    assert first <= started by {
      assert all[started].event.Marks(stream.wants.value);
    }
    assert taken[..|taken| - 1] == all[first..last];
    assert Views(taken, stream.replace) == Views(all[first..last], stream.replace);
    assert stream.output == stream.greeting + Views(all[first..last], stream.replace);
    forall k | first <= k < last
      ensures all[k].event != Completed(stream.wants.value) && !all[k].event.Failure?
    {
      assert Continues(taken[k - first], stream.wants);
    }
    hide StreamOk, Views;
    AroundMarker(all, first, started, last, stream.replace);
  }

  lemma AroundMarker(all: seq<Entry>, first: nat, started: nat, last: nat, replace: bool)
    requires first <= started < last < |all| && !all[started].event.Update?
    ensures Views(all[first..last], replace) == Views(all[first..started], replace)
        + Views(all[started + 1..last], replace)
  {
    var before, after := all[first..started], all[started + 1..last];
    assert all[first..last] == (before + [all[started]]) + after;
    ViewsAppend(before + [all[started]], after, replace);
    assert (before + [all[started]])[..|before|] == before;
  }
}
