// The producer, the consumer and the subscribers of
// src/a2a/server/agent_execution/active_task.py, around the two broadcast queues they share.
//
// Both queues are whole `Broadcast` states, so dispatch, eviction and closing interleave with
// the coroutines here. A step is what one coroutine does between two `await` points. What an
// agent emits, when a store call fails and when a coroutine is cancelled is left open.
// Payloads and task snapshots are opaque numbers.

module ActiveTaskFlow {
  import opened Options
  import opened AsyncQueues
  import opened Broadcast

  datatype Payload = StatusUpdate(body: nat) | OtherUpdate(body: nat)

  datatype AgentEvent =
    | Started(request: nat)
    | Completed(request: nat)
    | Failure
    | Update(payload: Payload)
  {
    predicate Marks(r: nat) {
      (Started? || Completed?) && request == r
    }
  }

  // What the consumer forwards to the subscribers: the event and the task after it.
  datatype Entry = Entry(event: AgentEvent, task: nat)

  // What a subscriber is handed.
  datatype Shown = TheEvent(payload: Payload) | TheTask(task: nat)

  // Where the producer is; `seen` is the number of agent events processed when it read the
  // current task.
  datatype Producer =
    | Fetching
    | Acquiring(request: nat)
    | Reading(request: nat)
    | Announcing(request: nat, seen: nat)
    | Executing(request: nat, seen: nat)
    | Completing(request: nat, seen: nat)
    | ProducerEnded
  {
    // Between acquiring the request lock and queueing the completion marker.
    predicate InRequest() {
      Reading? || HasRead()
    }

    predicate HasRead() {
      Announcing? || Executing? || Completing?
    }
  }

  datatype Consumer = Waiting | Processing(event: AgentEvent) | Forwarding(entry: Entry) | ConsumerEnded

  datatype StreamPhase = Tapped | Greeting | Streaming | Finished | Raised | Broken

  // One call of `subscribe`: its queue, the request it came with, its two options, the task it was
  // shown first, and everything it was shown.
  datatype Stream = Stream(sink: nat, wants: Option<nat>, initial: bool, replace: bool, greeting: seq<Shown>,
                           output: seq<Shown>, phase: StreamPhase)

  datatype TaskState = TaskState(
    agent: Broadcast.State<nat, AgentEvent>,        // its default sink is number 0
    subscribers: Broadcast.State<nat, Entry>,
    requests: Queue<nat>,
    used: set<nat>,               // request ids given out
    lockHeld: bool,               // `_request_lock`
    producer: Producer,
    consumer: Consumer,
    streams: map<nat, Stream>,
    processed: nat,               // log: agent events forwarded and acknowledged
    acquired: nat,                // log: acquisitions of the request lock
    released: nat,                // log: releases
    lost: nat,                    // log: completion markers the closed agent queue dropped
    abandoned: bool,              // log: the producer ended inside a request
    strayRelease: bool)           // log: a release of the free lock
  {
    function Emitted(): seq<AgentEvent> {
      agent.incoming.accepted
    }

    function Consumed(): seq<AgentEvent>
      requires 0 in agent.sinks
    {
      agent.sinks[0].queue.taken
    }

    function Forwarded(): seq<Entry> {
      subscribers.incoming.accepted
    }
  }

  datatype Step =
    | AgentQueue(agentAction: Action<nat, AgentEvent>)
    | SubscriberQueue(subscriberAction: Action<nat, Entry>)
    | Emit(payload: Payload)
    | Submit(request: nat)
    | CloseRequests
    | Fetch | Acquire | ReadTask | Announce | Return | Complete
    | ProducerStops(failure: bool)
    | ConsumerTakes | Handle(task: nat, fails: bool) | Forward | ConsumerStops
    | Attach(stream: nat, sink: nat, capacity: nat, initial: bool, replace: bool)
    | Ask(stream: nat, request: nat)
    | Follow(stream: nat)
    | Greet(stream: nat, task: nat)
    | Receive(stream: nat)
    | StreamStops(stream: nat)

  // ----- The steps -----------------------------------------------------------------------------

  function View(e: Entry, replace: bool): Shown
    requires e.event.Update?
  {
    if replace && e.event.payload.StatusUpdate? then TheTask(e.task) else TheEvent(e.event.payload)
  }

  // What a subscriber yields for the entries it dequeues: all but markers and failures.
  function Views(es: seq<Entry>, replace: bool): seq<Shown> {
    if es == [] then []
    else Views(es[..|es| - 1], replace) +
         (if es[|es| - 1].event.Update? then [View(es[|es| - 1], replace)] else [])
  }

  // The steps of a queue that none of the coroutines below takes.
  predicate Internal<E>(a: Action<nat, E>) {
    !a.Enqueue? && !a.Dequeue? && !a.Acknowledge?
  }

  predicate CanEmit(st: TaskState) {
    PutResult(st.agent.incoming) != PutBlocked
  }

  predicate At(st: TaskState, i: nat, phase: StreamPhase) {
    i in st.streams && st.streams[i].phase == phase && st.streams[i].sink in st.subscribers.sinks
  }

  predicate Can(st: TaskState, step: Step) {
    match step
    case AgentQueue(a) => Internal(a) && Enabled(st.agent, a)
    case SubscriberQueue(a) => (Internal(a) || a.Acknowledge?) && Enabled(st.subscribers, a)
    case Emit(_) => CanEmit(st)
    case Submit(r) => r !in st.used
    case CloseRequests => true
    case Fetch => st.producer.Fetching? && st.requests.items != []
    case Acquire => st.producer.Acquiring? && !st.lockHeld
    case ReadTask => st.producer.Reading?
    case Announce => st.producer.Announcing? && CanEmit(st)
    case Return => st.producer.Executing?
    case Complete => st.producer.Completing? && CanEmit(st)
    case ProducerStops(failure) => !st.producer.ProducerEnded? && (failure ==> CanEmit(st))
    case ConsumerTakes => st.consumer.Waiting? && 0 in st.agent.sinks && st.agent.sinks[0].queue.items != []
    case Handle(_, _) => st.consumer.Processing?
    case Forward => st.consumer.Forwarding? && 0 in st.agent.sinks && PutResult(st.subscribers.incoming) != PutBlocked
    case ConsumerStops => !st.consumer.ConsumerEnded?
    case Attach(i, sink, capacity, _, _) =>
      i !in st.streams && Enabled(st.subscribers, Action.Tap(sink, capacity, true)) && !st.subscribers.closed
    case Ask(i, r) => At(st, i, Tapped) && r !in st.used
    case Follow(i) => At(st, i, Tapped)
    case Greet(i, _) => At(st, i, Greeting)
    case Receive(i) => At(st, i, Streaming) && st.subscribers.sinks[st.streams[i].sink].queue.items != []
    case StreamStops(i) => i in st.streams && st.streams[i].phase in {Tapped, Greeting, Streaming}
  }

  function EmitTo(st: TaskState, e: AgentEvent): TaskState
    requires CanEmit(st)
  {
    st.(agent := Apply(st.agent, Action.Enqueue(e)))
  }

  function SubmitTo(st: TaskState, r: nat): TaskState {
    st.(requests := Put(st.requests, r), used := st.used + {r})
  }

  // The consumer turns the event it dequeued into the entry it forwards.
  function Handled(e: AgentEvent, task: nat, fails: bool): Entry {
    Entry(if e.Update? && fails then Failure else e, task)
  }

  // Inside the `try`: the stored task first, if it was asked for.
  function Entered(stream: Stream): StreamPhase {
    if stream.initial then Greeting else Streaming
  }

  function Greeted(stream: Stream, task: nat): Stream {
    stream.(greeting := [TheTask(task)], output := stream.output + [TheTask(task)], phase := Streaming)
  }

  // A subscriber looks at the entry it dequeued.
  function Received(stream: Stream, e: Entry): Stream {
    match e.event
    case Failure => stream.(phase := Raised)
    case Completed(r) => if stream.wants == Some(r) then stream.(phase := Finished) else stream
    case Started(_) => stream
    case Update(_) => stream.(output := stream.output + [View(e, stream.replace)])
  }

  function Do(st: TaskState, step: Step): TaskState
    requires Can(st, step)
  {
    match step
    case AgentQueue(a) => st.(agent := Apply(st.agent, a))
    case SubscriberQueue(a) => st.(subscribers := Apply(st.subscribers, a))
    case Emit(p) => EmitTo(st, Update(p))
    case Submit(r) => SubmitTo(st, r)
    case CloseRequests => st.(requests := Shutdown(st.requests, true))
    case Fetch => st.(producer := Acquiring(st.requests.items[0]), requests := Get(st.requests))
    case Acquire =>
      st.(producer := Reading(st.producer.request), lockHeld := true, acquired := st.acquired + 1)
    case ReadTask => st.(producer := Announcing(st.producer.request, st.processed))
    case Announce =>
      EmitTo(st, Started(st.producer.request)).(producer := Executing(st.producer.request, st.producer.seen))
    case Return => st.(producer := Completing(st.producer.request, st.producer.seen))
    case Complete =>
      EmitTo(st, Completed(st.producer.request))
        .(producer := Fetching, lost := if PutResult(st.agent.incoming) == Stored then st.lost else st.lost + 1)
    case ProducerStops(failure) =>
      (if failure then EmitTo(st, Failure) else st)
        .(producer := ProducerEnded, abandoned := st.abandoned || st.producer.InRequest())
    case ConsumerTakes =>
      st.(consumer := Processing(st.agent.sinks[0].queue.items[0]), agent := Apply(st.agent, Action.Dequeue(0)))
    case Handle(task, fails) =>
      var e := st.consumer.event;
      var st1 := st.(consumer := Forwarding(Handled(e, task, fails)));
      if !e.Completed? then st1
      else if st.lockHeld then st1.(lockHeld := false, released := st.released + 1)
      else st1.(strayRelease := true)
    case Forward =>
      st.(subscribers := Apply(st.subscribers, Action.Enqueue(st.consumer.entry)),
          agent := Apply(st.agent, Acknowledge(0)),
          processed := st.processed + 1,
          consumer := if st.consumer.entry.event.Failure? then ConsumerEnded else Waiting)
    case ConsumerStops => st.(consumer := ConsumerEnded)
    case Attach(i, sink, capacity, initial, replace) =>
      st.(subscribers := Apply(st.subscribers, Action.Tap(sink, capacity, true)),
          streams := st.streams[i := Stream(sink, None, initial, replace, [], [], Tapped)])
    case Ask(i, r) =>
      SubmitTo(st, r)
        .(streams := st.streams[i := st.streams[i].(wants := Some(r),
                                                    phase := if st.requests.isShutdown then Broken
                                                             else Entered(st.streams[i]))])
    case Follow(i) => st.(streams := st.streams[i := st.streams[i].(phase := Entered(st.streams[i]))])
    case Greet(i, task) => st.(streams := st.streams[i := Greeted(st.streams[i], task)])
    case Receive(i) =>
      var sink := st.streams[i].sink;
      st.(subscribers := Apply(st.subscribers, Action.Dequeue(sink)),
          streams := st.streams[i := Received(st.streams[i], st.subscribers.sinks[sink].queue.items[0])])
    case StreamStops(i) => st.(streams := st.streams[i := st.streams[i].(phase := Broken)])
  }

  // `ActiveTask.__init__`: the agent queue has a default sink, the subscribers' queue has none.
  function Constructed(capacity: nat): TaskState {
    TaskState(Initial(capacity, {0}), Initial(capacity, {}), NewQueue(0), {}, false, Fetching, Waiting, map[],
          0, 0, 0, 0, false, false)
  }

  datatype Result = Now(state: TaskState) | Never

  function Behave(st: TaskState, steps: seq<Step>): Result
    decreases |steps|
  {
    if steps == [] then Now(st)
    else if !Can(st, steps[0]) then Never
    else Behave(Do(st, steps[0]), steps[1..])
  }
}
