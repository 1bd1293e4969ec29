// The objects of src/a2a/server/events/event_queue_v2.py. Each method is the code between two
// `await` points and changes the real fields in place; its contract says that the object,
// seen as a state of `Broadcast`, takes exactly the corresponding action. What holds of every
// run of those actions therefore holds of every interleaving of these methods.
//
// Sinks are named by the objects themselves. Ghost fields keep what the code does not store:
// the sinks ever created, where the dispatcher is, and the snapshots it took.

module EventQueueV2 {
  import opened AsyncQueues
  import opened Broadcast
  import opened BroadcastChanges
  import opened BroadcastSafety

  class EventQueueSink<E> {
    const queue: AsyncQueue<E>
    const evictOnFull: bool
    var isClosed: bool
    ghost const start: nat

    ghost function State(): Sink<E>
      reads this, queue
    {
      Sink(queue.State(), evictOnFull, isClosed, start)
    }

    constructor (capacity: nat, evictOnFull: bool, ghost start: nat)
      requires capacity > 0
      ensures State() == NewSink(capacity, evictOnFull, start)
      ensures fresh(queue)
    {
      queue := new AsyncQueue(capacity);
      this.evictOnFull := evictOnFull;
      isClosed := false;
      this.start := start;
    }

    // The section of `close` under the sink's lock.
    method MarkClosed(immediate: bool)
      requires queue.Valid()
      modifies this, queue
      ensures queue.Valid()
      ensures State() == old(State()).(closed := true, queue := Shutdown(old(queue.State()), immediate))
    {
      isClosed := true;
      queue.ShutDownQueue(immediate);
    }
  }

  datatype TapOutcome<E> = Tapped(sink: EventQueueSink<E>) | SourceClosed | InvalidSize

  class EventQueueSource<E> {
    const incoming: AsyncQueue<E>
    var sinks: set<EventQueueSink<E>>
    var isClosed: bool
    const defaultSink: EventQueueSink?<E>

    ghost var created: set<EventQueueSink<E>>
    ghost var dispatcher: Dispatcher<EventQueueSink<E>, E>
    ghost var snapshots: seq<set<EventQueueSink<E>>>

    ghost function Queues(): set<AsyncQueue<E>>
      reads this
    {
      set s | s in created :: s.queue
    }

    ghost function State(): State<EventQueueSink<E>, E>
      reads this, incoming, created, Queues()
    {
      Broadcast.State(incoming.State(), map s | s in created :: s.State(), sinks, isClosed,
                      dispatcher, snapshots)
    }

    ghost predicate Separate()
      reads this
    {
      && incoming !in Queues()
      && forall s, t :: s in created && t in created && s != t ==> s.queue != t.queue
    }

    ghost predicate Valid()
      reads this, incoming, created, Queues()
    {
      Separate() && Inv(State())
    }

    constructor (capacity: nat, withDefault: bool)
      requires capacity > 0
      ensures Valid() && State() == Initial(capacity, created)
      ensures withDefault == (defaultSink != null)
      ensures created == if withDefault then {defaultSink} else {}
      ensures fresh(incoming) && fresh(created) && fresh(Queues())
    {
      var q := new AsyncQueue<E>(capacity);
      incoming := q;
      isClosed := false;
      dispatcher, snapshots := Idle, [];
      if withDefault {
        var sink := new EventQueueSink(capacity, false, 0);
        defaultSink, sinks, created := sink, {sink}, {sink};
      } else {
        defaultSink, sinks, created := null, {}, {};
      }
      new;
      assert forall s :: s in created ==> s.State() == NewSink(capacity, false, 0);
      hide NewSink, NewQueue, Inv, State;
      ConstructedState(capacity);
    }

    lemma ConstructedState(capacity: nat)
      requires capacity > 0 && Separate() && incoming.State() == NewQueue(capacity)
      requires sinks == created && !isClosed && dispatcher == Idle && snapshots == []
      requires forall s :: s in created ==> s.State() == NewSink(capacity, false, 0)
      ensures Valid() && State() == Initial(capacity, created)
    {
      hide Inv, NewSink, NewQueue;
      InitialInv<EventQueueSink<E>, E>(capacity, created);
      assert State().sinks == Initial<EventQueueSink<E>, E>(capacity, created).sinks;
    }

    // One attempt of `enqueue_event`: an event for a closed source is dropped.
    method EnqueueEvent(event: E) returns (outcome: PutOutcome)
      requires Valid()
      modifies incoming
      ensures Valid() && outcome == PutResult(old(incoming.State()))
      ensures if outcome == PutBlocked then State() == old(State())
              else Steps(old(State()), Action.Enqueue(event), State())
    {
      hide Inv;
      SourceFacts(State());
      ghost var s := State();
      outcome := incoming.TryPut(event);
      assert State() == s.(incoming := Put(s.incoming, event));
      if outcome != PutBlocked {
        StepKeeps(s, Action.Enqueue(event));
      }
    }

    method Tap(capacity: int, evictOnFull: bool) returns (outcome: TapOutcome<E>)
      requires Valid()
      modifies this
      ensures Valid()
      ensures match outcome
              case SourceClosed => old(isClosed) && State() == old(State())
              case InvalidSize => !old(isClosed) && capacity <= 0 && State() == old(State())
              case Tapped(sink) => !old(isClosed) && capacity > 0 && fresh(sink) && fresh(sink.queue) &&
                                   Steps(old(State()), Action.Tap(sink, capacity, evictOnFull), State())
    {
      hide Inv;
      SourceFacts(State());
      if isClosed {
        return SourceClosed;
      }
      if capacity <= 0 {
        return InvalidSize;
      }
      ghost var s := State();
      var sink := new EventQueueSink(capacity, evictOnFull, |snapshots|);
      created := created + {sink};
      sinks := sinks + {sink};
      assert sink !in s.sinks && State().sinks == s.sinks[sink := sink.State()];
      assert Separate();
      StepKeeps(s, Action.Tap(sink, capacity, evictOnFull));
      return Tapped(sink);
    }

    method RemoveSink(sink: EventQueueSink<E>)
      requires Valid() && sink in created
      modifies this`sinks
      ensures Valid() && Steps(old(State()), Action.Remove(sink), State())
    {
      hide Inv;
      SourceFacts(State());
      ghost var s := State();
      StepKeeps(s, Action.Remove(sink));
      sinks := sinks - {sink};
      assert State().sinks == s.sinks;
    }

    // ----- The dispatch loop ------------------------------------------------------------------

    ghost method SetDispatcher(d: Dispatcher<EventQueueSink<E>, E>)
      requires Separate()
      modifies this`dispatcher
      ensures Separate() && State() == old(State()).(dispatcher := d)
    {
      ghost var s := State();
      dispatcher := d;
      assert State().sinks == s.sinks;
    }

    method TakeInternal() returns (outcome: GetOutcome<E>)
      requires Valid()
      modifies incoming
      ensures Separate() && outcome == GetResult(old(incoming.State()))
      ensures State() == old(State()).(incoming := Get(old(incoming.State())))
    {
      SourceFacts(State());
      hide Inv, Get;
      ghost var s := State();
      outcome := incoming.TryGet();
      assert State().sinks == s.sinks;
    }

    // `get` in the dispatch loop.
    method TakeEvent() returns (outcome: GetOutcome<E>)
      requires Valid() && dispatcher.Idle?
      modifies this`dispatcher, incoming
      ensures Valid() && outcome == GetResult(old(incoming.State()))
      ensures match outcome
              case Item(_) => Steps(old(State()), Take, State())
              case ShutDown => Steps(old(State()), Drained, State())
              case GetBlocked => State() == old(State())
    {
      hide Inv, Separate, State;
      ghost var s := State();
      assert s.dispatcher.Idle? && s.incoming == incoming.State() by { DispatcherOfState(); }
      outcome := TakeInternal();
      match outcome {
        case Item(event) =>
          StepKeeps(s, Take);
          SetDispatcher(Holding(event));
        case ShutDown =>
          StepKeeps(s, Drained);
          SetDispatcher(Stopped);
        case GetBlocked =>
      }
    }

    lemma DispatcherOfState()
      ensures State().dispatcher == dispatcher && State().incoming == incoming.State()
    {
    }

    method TakeSnapshot() returns (active: set<EventQueueSink<E>>)
      requires Valid() && dispatcher.Holding?
      modifies this`dispatcher, this`snapshots
      ensures Valid() && Steps(old(State()), Snapshot, State())
      ensures active == old(sinks)
    {
      hide Inv;
      SourceFacts(State());
      ghost var s := State();
      StepKeeps(s, Snapshot);
      active := sinks;
      dispatcher := Delivering(dispatcher.event, map s | s in sinks :: Checking);
      snapshots := snapshots + [sinks];
      assert State().sinks == s.sinks;
    }

    // `_deliver_to_sink` up to its first `await`.
    method DeliverHead(sink: EventQueueSink<E>)
      requires Valid() && Enabled(State(), Check(sink))
      modifies this`dispatcher, sink, sink.queue
      ensures Valid() && Steps(old(State()), Check(sink), State())
      ensures sink.isClosed == old(sink.isClosed || (sink.evictOnFull && |sink.queue.items| >= sink.queue.capacity))
      ensures sink.queue.items == if sink.isClosed && !old(sink.isClosed) then [] else old(sink.queue.items)
    {
      hide Inv, ShutSink, MoveTo, Delivered, Queue.Full;
      ghost var s := State();
      StepKeeps(s, Check(sink));
      CheckOutcome(s, sink);
      if sink.isClosed {
        EndDelivery(sink);
      } else if sink.evictOnFull && sink.queue.IsFull() {
        CloseSinkHead(sink, true);
        MoveDelivery(sink, Detaching);
      } else {
        MoveDelivery(sink, Putting);
      }
    }

    ghost method EndDelivery(sink: EventQueueSink<E>)
      requires Separate() && dispatcher.Delivering?
      modifies this`dispatcher
      ensures Separate() && State() == Delivered(old(State()), sink)
    {
      SetDispatcher(Delivering(dispatcher.event, dispatcher.pending - {sink}));
    }

    ghost method MoveDelivery(sink: EventQueueSink<E>, phase: Phase)
      requires Separate() && dispatcher.Delivering?
      modifies this`dispatcher
      ensures Separate() && State() == MoveTo(old(State()), sink, phase)
    {
      SetDispatcher(Delivering(dispatcher.event, dispatcher.pending[sink := phase]));
    }

    // The rest of it for an evicted sink: `remove_sink`.
    method DeliverDetach(sink: EventQueueSink<E>)
      requires Valid() && Enabled(State(), Detach(sink))
      modifies this`dispatcher, this`sinks
      ensures Valid() && Steps(old(State()), Detach(sink), State())
    {
      hide Inv;
      ghost var s := State();
      StepKeeps(s, Detach(sink));
      sinks := sinks - {sink};
      dispatcher := Delivering(dispatcher.event, dispatcher.pending - {sink});
      assert State().sinks == s.sinks;
    }

    // The rest of it for the others: one attempt of `_put_internal`.
    method DeliverPut(sink: EventQueueSink<E>, event: E) returns (outcome: PutOutcome)
      requires Valid()
      requires Phased(State(), sink, Putting) && event == dispatcher.event
      modifies this`dispatcher, sink.queue
      ensures Valid() && outcome == PutResult(old(sink.queue.State()))
      ensures if outcome == PutBlocked then State() == old(State()) else Steps(old(State()), Store(sink), State())
    {
      hide Inv, Delivered;
      ghost var s := State();
      outcome := PutInternal(sink, event);
      if outcome == PutBlocked {
        assert s.sinks[sink := s.sinks[sink]] == s.sinks;
      } else {
        StepKeeps(s, Store(sink));
        EndDelivery(sink);
      }
    }

    method PutInternal(sink: EventQueueSink<E>, event: E) returns (outcome: PutOutcome)
      requires Valid() && sink in created
      modifies sink.queue
      ensures Separate() && outcome == PutResult(old(sink.queue.State()))
      ensures State() == WithQueue(old(State()), sink, Put(old(sink.queue.State()), event))
    {
      ghost var s := State();
      SinkFacts(s, sink);
      hide Inv, Put;
      outcome := sink.queue.TryPut(event);
      assert State().sinks == s.sinks[sink := sink.State()];
    }

    // `gather` is through: the incoming event is acknowledged.
    method FinishRound()
      requires Valid() && Enabled(State(), Finish)
      modifies this`dispatcher, incoming
      ensures Valid() && Steps(old(State()), Finish, State())
    {
      hide Inv;
      SourceFacts(State());
      ghost var s := State();
      StepKeeps(s, Finish);
      var ok := incoming.MarkDone();
      dispatcher := Idle;
      assert State().sinks == s.sinks;
    }

    // CancelledError reaches the dispatcher.
    ghost method CancelDispatcher()
      requires Valid()
      modifies this
      ensures Valid() && Steps(old(State()), Cancelled, State())
    {
      hide Inv;
      SourceFacts(State());
      ghost var s := State();
      StepKeeps(s, Cancelled);
      dispatcher := Stopped;
      assert State().sinks == s.sinks;
    }

    // ----- Closing -------------------------------------------------------------------------------

    // The section of `close` under the source's lock; returns `sinks_to_close`.
    method BeginClose(immediate: bool) returns (sinksToClose: set<EventQueueSink<E>>)
      requires Valid()
      modifies this`isClosed, incoming
      ensures Valid() && Steps(old(State()), CloseSource(immediate), State())
      ensures sinksToClose == old(sinks)
    {
      hide Inv;
      SourceFacts(State());
      ghost var s := State();
      StepKeeps(s, CloseSource(immediate));
      isClosed := true;
      incoming.ShutDownQueue(immediate);
      sinksToClose := sinks;
      assert State().sinks == s.sinks;
    }

    // The section of a sink's `close` under that sink's lock.
    method CloseSinkHead(sink: EventQueueSink<E>, immediate: bool)
      requires Valid() && sink in created
      modifies sink, sink.queue
      ensures Valid() && Steps(old(State()), CloseSink(sink, immediate), State())
    {
      hide Inv;
      SourceFacts(State());
      ghost var s := State();
      StepKeeps(s, CloseSink(sink, immediate));
      SinkFacts(s, sink);
      sink.MarkClosed(immediate);
      assert State().sinks == s.sinks[sink := sink.State()];
    }

    // ----- The consumer's side of a sink --------------------------------------------------------

    method DequeueEvent(sink: EventQueueSink<E>) returns (outcome: GetOutcome<E>)
      requires Valid() && sink in created
      modifies sink.queue
      ensures Valid() && outcome == GetResult(old(sink.queue.State()))
      ensures if outcome.Item? then Steps(old(State()), Action.Dequeue(sink), State()) else State() == old(State())
    {
      hide Inv, Separate;
      ghost var s := State();
      outcome := GetInternal(sink);
      if outcome.Item? {
        StepKeeps(s, Action.Dequeue(sink));
      } else {
        assert s.sinks[sink := s.sinks[sink]] == s.sinks;
      }
    }

    method GetInternal(sink: EventQueueSink<E>) returns (outcome: GetOutcome<E>)
      requires Valid() && sink in created
      modifies sink.queue
      ensures Separate() && outcome == GetResult(old(sink.queue.State()))
      ensures State() == WithQueue(old(State()), sink, Get(old(sink.queue.State())))
    {
      ghost var s := State();
      SinkFacts(s, sink);
      hide Inv, Get;
      outcome := sink.queue.TryGet();
      assert State().sinks == s.sinks[sink := sink.State()];
    }

    method TaskDoneFor(sink: EventQueueSink<E>) returns (ok: bool)
      requires Valid() && sink in created
      modifies sink.queue
      ensures Valid() && ok == (old(sink.queue.unfinished) > 0)
      ensures Steps(old(State()), Acknowledge(sink), State())
    {
      hide Inv;
      SourceFacts(State());
      ghost var s := State();
      StepKeeps(s, Acknowledge(sink));
      SinkFacts(s, sink);
      ok := sink.queue.MarkDone();
      assert State().sinks == s.sinks[sink := sink.State()];
    }
  }
}
