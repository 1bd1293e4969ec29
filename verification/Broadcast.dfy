// The broadcast event queue of src/a2a/server/events/event_queue_v2.py as a transition
// system: one action per piece of code between two `await` points, taken in any order.
//
// `Id` names sinks. The logs in the two kinds of queue and the list of dispatch snapshots
// are the history the properties speak about; the code does not keep them.

module Broadcast {
  import opened AsyncQueues

  // How far the delivery of the current event to one sink has come.
  datatype Phase = Checking | Putting | Detaching

  datatype Dispatcher<!Id(==), E> =
    | Idle                                            // waiting in `get`
    | Holding(event: E)                               // has an event, no snapshot yet
    | Delivering(event: E, pending: map<Id, Phase>)   // inside `gather`
    | Stopped

  datatype Sink<E> = Sink(queue: Queue<E>, evictOnFull: bool, closed: bool, start: nat)

  datatype State<!Id(==), E> = State(
    incoming: Queue<E>,
    sinks: map<Id, Sink<E>>,       // every sink ever created
    attached: set<Id>,             // the source's `_sinks`
    closed: bool,
    dispatcher: Dispatcher<Id, E>,
    snapshots: seq<set<Id>>)       // log: the sinks listed for each dispatched event

  datatype Action<!Id(==), E> =
    | Enqueue(event: E)
    | Tap(id: Id, capacity: nat, evictOnFull: bool)
    | Remove(id: Id)
    | Take | Drained | Snapshot | Finish | Cancelled
    | Check(id: Id) | Store(id: Id) | Detach(id: Id)
    | CloseSource(immediate: bool)
    | CloseSink(id: Id, immediate: bool)
    | Dequeue(id: Id)
    | Acknowledge(id: Id)

  // ----- The steps -----------------------------------------------------------------------

  function NewSink<E>(capacity: nat, evictOnFull: bool, start: nat): Sink<E> {
    Sink(NewQueue(capacity), evictOnFull, false, start)
  }

  predicate Phased<Id, E>(s: State<Id, E>, id: Id, phase: Phase) {
    s.dispatcher.Delivering? && id in s.dispatcher.pending && s.dispatcher.pending[id] == phase &&
    id in s.sinks
  }

  predicate Enabled<Id, E>(s: State<Id, E>, a: Action<Id, E>) {
    match a
    case Enqueue(_) => PutResult(s.incoming) != PutBlocked
    case Tap(id, capacity, _) => id !in s.sinks && capacity > 0
    case Remove(id) => id in s.sinks
    case Take => s.dispatcher.Idle? && s.incoming.items != []
    case Drained => s.dispatcher.Idle? && GetResult(s.incoming) == ShutDown
    case Snapshot => s.dispatcher.Holding?
    case Finish => s.dispatcher.Delivering? && s.dispatcher.pending == map[]
    case Cancelled => true
    case Check(id) => Phased(s, id, Checking)
    case Store(id) => Phased(s, id, Putting) && PutResult(s.sinks[id].queue) != PutBlocked
    case Detach(id) => Phased(s, id, Detaching)
    case CloseSource(_) => true
    case CloseSink(id, _) => id in s.sinks
    case Dequeue(id) => id in s.sinks && s.sinks[id].queue.items != []
    case Acknowledge(id) => id in s.sinks
  }

  function WithQueue<Id, E>(s: State<Id, E>, id: Id, q: Queue<E>): State<Id, E>
    requires id in s.sinks
  {
    s.(sinks := s.sinks[id := s.sinks[id].(queue := q)])
  }

  function ShutSink<Id, E>(s: State<Id, E>, id: Id, immediate: bool): State<Id, E>
    requires id in s.sinks
  {
    s.(sinks := s.sinks[id := s.sinks[id].(closed := true, queue := Shutdown(s.sinks[id].queue, immediate))])
  }

  function Delivered<Id, E>(s: State<Id, E>, id: Id): State<Id, E>
    requires s.dispatcher.Delivering?
  {
    s.(dispatcher := s.dispatcher.(pending := s.dispatcher.pending - {id}))
  }

  function MoveTo<Id, E>(s: State<Id, E>, id: Id, phase: Phase): State<Id, E>
    requires s.dispatcher.Delivering?
  {
    s.(dispatcher := s.dispatcher.(pending := s.dispatcher.pending[id := phase]))
  }

  // The unlocked test at the head of `_deliver_to_sink`.
  function CheckSink<Id, E>(s: State<Id, E>, id: Id): State<Id, E>
    requires Phased(s, id, Checking)
  {
    if s.sinks[id].closed then Delivered(s, id)
    else if s.sinks[id].evictOnFull && s.sinks[id].queue.Full() then MoveTo(ShutSink(s, id, true), id, Detaching)
    else MoveTo(s, id, Putting)
  }

  function Apply<Id, E>(s: State<Id, E>, a: Action<Id, E>): State<Id, E>
    requires Enabled(s, a)
  {
    match a
    case Enqueue(e) => s.(incoming := Put(s.incoming, e))
    case Tap(id, capacity, evict) =>
      if s.closed then s
      else s.(sinks := s.sinks[id := NewSink(capacity, evict, |s.snapshots|)], attached := s.attached + {id})
    case Remove(id) => s.(attached := s.attached - {id})
    case Take => s.(dispatcher := Holding(s.incoming.items[0]), incoming := Get(s.incoming))
    case Drained => s.(dispatcher := Stopped)
    case Snapshot =>
      s.(dispatcher := Delivering(s.dispatcher.event, map id | id in s.attached :: Checking),
         snapshots := s.snapshots + [s.attached])
    case Finish => s.(dispatcher := Idle, incoming := TaskDone(s.incoming))
    case Cancelled =>
      s.(dispatcher := Stopped)
    case Check(id) => CheckSink(s, id)
    case Store(id) => Delivered(WithQueue(s, id, Put(s.sinks[id].queue, s.dispatcher.event)), id)
    case Detach(id) => Delivered(s.(attached := s.attached - {id}), id)
    case CloseSource(immediate) =>
      s.(closed := true, incoming := Shutdown(s.incoming, immediate))
    case CloseSink(id, immediate) => ShutSink(s, id, immediate)
    case Dequeue(id) => WithQueue(s, id, Get(s.sinks[id].queue))
    case Acknowledge(id) => WithQueue(s, id, TaskDone(s.sinks[id].queue))
  }

  // The action can be taken in s and leads to t.
  ghost predicate Steps<Id, E>(s: State<Id, E>, a: Action<Id, E>, t: State<Id, E>) {
    Enabled(s, a) && t == Apply(s, a)
  }

  // A source as constructed, with or without the default sink.
  function Initial<Id, E>(capacity: nat, defaults: set<Id>): State<Id, E> {
    State(NewQueue(capacity), map id | id in defaults :: NewSink(capacity, false, 0), defaults, false,
          Idle, [])
  }

  // The state after a run, if every action was enabled when it was taken.
  datatype Outcome<!Id(==), E> = Reached(state: State<Id, E>) | Impossible

  function Run<Id, E>(s: State<Id, E>, run: seq<Action<Id, E>>): Outcome<Id, E>
    decreases |run|
  {
    if run == [] then Reached(s)
    else if !Enabled(s, run[0]) then Impossible
    else Run(Apply(s, run[0]), run[1..])
  }

  // ----- The invariant -------------------------------------------------------------------

  // What one sink received: the slice of the dispatched events whose snapshots list it,
  // from the first such snapshot on. While the sink is open, attached and dispatch is
  // running, the slice is complete.
  ghost predicate SinkOk<Id, E>(sink: Sink<E>, id: Id, taken: seq<E>, snapshots: seq<set<Id>>,
                                attached: bool, dispatcher: Dispatcher<Id, E>) {
    var received, n := sink.queue.accepted, |snapshots|;
    && sink.queue.Conserved() && sink.queue.capacity > 0
    && (sink.closed <==> sink.queue.isShutdown)
    && sink.start + |received| <= n <= |taken|
    && (forall i :: 0 <= i < sink.start ==> id !in snapshots[i])
    && (forall i :: sink.start <= i < sink.start + |received| ==>
          received[i - sink.start] == taken[i] && id in snapshots[i])
    && (InRound(dispatcher, id) ==>
          && sink.start + |received| < n
          && id in snapshots[n - 1]
          && (!sink.closed ==> sink.start + |received| == n - 1)
          && (dispatcher.pending[id] == Putting && sink.evictOnFull && !sink.closed ==> !sink.queue.Full())
          && (dispatcher.pending[id] == Detaching ==> sink.closed))
    && (attached && !sink.closed && !dispatcher.Stopped? && !InRound(dispatcher, id) ==>
          sink.start + |received| == n)
  }

  predicate InRound<Id, E>(dispatcher: Dispatcher<Id, E>, id: Id) {
    dispatcher.Delivering? && id in dispatcher.pending
  }

  ghost predicate DispatcherOk<Id, E>(s: State<Id, E>) {
    var taken, n := |s.incoming.taken|, |s.snapshots|;
    match s.dispatcher
    case Idle => n == taken == s.incoming.acknowledged
    case Holding(e) => taken > 0 && n == taken - 1 == s.incoming.acknowledged && e == s.incoming.taken[n]
    case Delivering(e, pending) =>
      && taken > 0 && n == taken && s.incoming.acknowledged == n - 1 && e == s.incoming.taken[n - 1]
      && pending.Keys <= s.sinks.Keys
    case Stopped => s.incoming.acknowledged <= n <= taken
  }

  ghost predicate SinkFits<Id, E>(s: State<Id, E>, id: Id)
    requires id in s.sinks
  {
    SinkOk(s.sinks[id], id, s.incoming.taken, s.snapshots, id in s.attached, s.dispatcher)
  }

  ghost predicate Inv<Id, E>(s: State<Id, E>) {
    && s.incoming.Conserved() && s.incoming.capacity > 0
    && (s.closed <==> s.incoming.isShutdown)
    && s.attached <= s.sinks.Keys
    && (forall i :: 0 <= i < |s.snapshots| ==> s.snapshots[i] <= s.sinks.Keys)
    && DispatcherOk(s)
    && (forall id :: id in s.sinks ==> SinkFits(s, id))
  }
}
