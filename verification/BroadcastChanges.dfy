// What every action of `Broadcast` changes, part by part, stated on the fields themselves; and
// what follows for runs in which nobody closes a sink.

module BroadcastChanges {
  import opened AsyncQueues
  import opened Broadcast
  import opened BroadcastSafety

  // ----- Sinks -------------------------------------------------------------------------------

  lemma SinkBounds<Id, E>(s: State<Id, E>, id: Id)
    requires Inv(s) && id in s.sinks
    ensures var sink := s.sinks[id];
      && 0 < sink.queue.capacity && |sink.queue.items| <= sink.queue.capacity
      && sink.closed == sink.queue.isShutdown
  {
    assert SinkFits(s, id);
  }

  // An open sink is closed by its own `close`, or by the delivery that finds it full if it was
  // tapped to be evicted then; by nothing else.
  lemma SinkClosesExactly<Id, E>(s: State<Id, E>, a: Action<Id, E>, id: Id)
    requires Inv(s) && Enabled(s, a) && id in s.sinks && !s.sinks[id].closed
    ensures id in Apply(s, a).sinks
    ensures Apply(s, a).sinks[id].closed <==>
      || (a.CloseSink? && a.id == id)
      || (a == Check(id) && s.sinks[id].evictOnFull && |s.sinks[id].queue.items| == s.sinks[id].queue.capacity)
  {
    SinkBounds(s, id);
    hide Inv;
    if Touches(a, id) {
      match a {
        case Check(_) =>
        case Store(_) =>
        case CloseSink(_, _) =>
        case Dequeue(_) =>
        case Acknowledge(_) =>
      }
    } else {
      UntouchedSink(s, a, id);
      hide Apply, Enabled;
    }
  }

  // What is in a sink, and how much of it is unacknowledged, changes by the put of the event under
  // delivery, by its consumer's `get` and `task_done`, and by being closed at once: by `close`, or
  // by the delivery that closes it.
  ghost predicate SinkChanges<Id, E>(s: State<Id, E>, a: Action<Id, E>, id: Id, x: Sink<E>, y: Sink<E>)
    requires a == Dequeue(id) ==> x.queue.items != []
    requires a == Store(id) ==> s.dispatcher.Delivering?
  {
    var stored := a == Store(id) && !x.closed;
    var emptied := a == CloseSink(id, true) || (a == Check(id) && y.closed && !x.closed);
    && y.queue.items == (if stored then x.queue.items + [s.dispatcher.event]
                         else if a == Dequeue(id) then x.queue.items[1..]
                         else if emptied then []
                         else x.queue.items)
    && y.queue.unfinished == (if stored then x.queue.unfinished + 1
                              else if a == Acknowledge(id) && x.queue.unfinished > 0 then x.queue.unfinished - 1
                              else if emptied && x.queue.unfinished > |x.queue.items| then
                                x.queue.unfinished - |x.queue.items|
                              else if emptied then 0
                              else x.queue.unfinished)
    && y.queue.accepted == (if stored then x.queue.accepted + [s.dispatcher.event] else x.queue.accepted)
    && y.queue.taken == (if a == Dequeue(id) then x.queue.taken + [x.queue.items[0]] else x.queue.taken)
    && y.queue.flushed == (x.queue.flushed || emptied)
    && y.queue.capacity == x.queue.capacity && y.evictOnFull == x.evictOnFull && y.start == x.start
  }

  lemma UntouchedSinkChanges<Id, E>(s: State<Id, E>, a: Action<Id, E>, id: Id, x: Sink<E>)
    requires !Touches(a, id)
    ensures SinkChanges(s, a, id, x, x)
  {
  }

  lemma SinkChangesExactly<Id, E>(s: State<Id, E>, a: Action<Id, E>, id: Id)
    requires Inv(s) && Enabled(s, a) && id in s.sinks
    ensures id in Apply(s, a).sinks && SinkChanges(s, a, id, s.sinks[id], Apply(s, a).sinks[id])
  {
    SinkBounds(s, id);
    hide Inv, Apply, Enabled;
    if Touches(a, id) {
      hide SinkChanges;
      TouchedSinkChanges(s, a, id);
    } else {
      UntouchedSink(s, a, id);
      UntouchedSinkChanges(s, a, id, s.sinks[id]);
      hide SinkChanges;
    }
  }

  lemma TouchedSinkChanges<Id, E>(s: State<Id, E>, a: Action<Id, E>, id: Id)
    requires Enabled(s, a) && id in s.sinks && Touches(a, id)
    requires s.sinks[id].closed == s.sinks[id].queue.isShutdown
    ensures id in Apply(s, a).sinks && SinkChanges(s, a, id, s.sinks[id], Apply(s, a).sinks[id])
  {
    hide Queue.Full;
    match a {
      case Check(_) =>
      case Store(_) =>
      case CloseSink(_, _) =>
      case Dequeue(_) =>
      case Acknowledge(_) =>
    }
  }

  // What the head of a delivery does to its sink.
  lemma CheckOutcome<Id, E>(s: State<Id, E>, id: Id)
    requires Inv(s) && Enabled(s, Check(id))
    ensures id in s.sinks && id in Apply(s, Check(id)).sinks
    ensures var x, y := s.sinks[id], Apply(s, Check(id)).sinks[id];
      && (y.closed <==> x.closed || (x.evictOnFull && |x.queue.items| >= x.queue.capacity))
      && y.queue.items == if y.closed && !x.closed then [] else x.queue.items
  {
    SinkBounds(s, id);
    hide Inv;
  }

  // A sink is created by `tap` on an open source, with the bound and the policy asked for.
  lemma SinkIsCreatedExactly<Id, E>(s: State<Id, E>, a: Action<Id, E>, id: Id)
    requires Enabled(s, a) && id !in s.sinks
    ensures id in Apply(s, a).sinks <==> a.Tap? && a.id == id && !s.closed
    ensures id in Apply(s, a).sinks ==>
      var y := Apply(s, a).sinks[id];
      && y.evictOnFull == a.evictOnFull && y.queue.capacity == a.capacity && !y.closed && !y.queue.isShutdown
      && y.queue.items == [] && y.queue.unfinished == 0 && id in Apply(s, a).attached
  {
    hide Put, Get, TaskDone, Shutdown;
  }

  // A sink is detached by `remove_sink`, which eviction calls too, and attached by `tap` only.
  lemma AttachmentExactly<Id, E>(s: State<Id, E>, a: Action<Id, E>, id: Id)
    requires Enabled(s, a)
    ensures id in Apply(s, a).attached <==>
      || (id in s.attached && a != Remove(id) && a != Detach(id))
      || (a.Tap? && a.id == id && !s.closed)
  {
    hide Put, Get, TaskDone, Shutdown;
  }

  // ----- The source --------------------------------------------------------------------------

  lemma SourceChangesExactly<Id, E>(s: State<Id, E>, a: Action<Id, E>)
    requires Inv(s) && Enabled(s, a)
    ensures var t := Apply(s, a); var x, y := s.incoming, t.incoming;
      var stored := a.Enqueue? && !s.closed;
      var emptied := a == CloseSource(true);
      && (t.closed <==> s.closed || a.CloseSource?)
      && y.items == (if stored then x.items + [a.event]
                     else if a.Take? then x.items[1..]
                     else if emptied then []
                     else x.items)
      && y.unfinished == (if stored then x.unfinished + 1
                          else if a.Finish? && x.unfinished > 0 then x.unfinished - 1
                          else if emptied && x.unfinished > |x.items| then x.unfinished - |x.items|
                          else if emptied then 0
                          else x.unfinished)
      && y.accepted == (if stored then x.accepted + [a.event] else x.accepted)
      && y.capacity == x.capacity
  {
    assert s.closed == s.incoming.isShutdown;
    hide Inv;
  }

  // Where the dispatcher goes: from `get` to the snapshot, to every sink listed in it, to
  // `task_done`, and back; it ends when the queue has run dry after closing, or by cancellation.
  lemma DispatcherMovesExactly<Id, E>(s: State<Id, E>, a: Action<Id, E>)
    requires Inv(s) && Enabled(s, a)
    ensures var d, e := s.dispatcher, Apply(s, a).dispatcher;
      match a
      case Take => d.Idle? && s.incoming.items != [] && e == Holding(s.incoming.items[0])
      case Drained => d.Idle? && s.incoming.items == [] && s.closed && e == Stopped
      case Snapshot =>
        && d.Holding? && e.Delivering? && e.event == d.event && e.pending.Keys == s.attached
        && (forall id :: id in e.pending ==> e.pending[id] == Checking)
      case Finish => d.Delivering? && d.pending.Keys == {} && e == Idle
      case Cancelled => e == Stopped
      case Check(id) => d.Delivering? && e.Delivering? && e.event == d.event
      case Store(id) => d.Delivering? && e.Delivering? && e.event == d.event
      case Detach(id) => d.Delivering? && e.Delivering? && e.event == d.event
      case _ => e == d
  {
    hide Put, Get, TaskDone, Shutdown;
  }

  // When the delivery to one sink ends, and what it does next when it does not.
  ghost predicate DeliveryMoves<Id, E>(a: Action<Id, E>, id: Id, x: Sink<E>, before: map<Id, Phase>,
                                       after: map<Id, Phase>)
    requires id in before
  {
    && (id !in after <==> a == Store(id) || a == Detach(id) || (a == Check(id) && x.closed))
    && (id in after ==>
          after[id] == (if a != Check(id) then before[id]
                        else if x.evictOnFull && |x.queue.items| == x.queue.capacity then Detaching
                        else Putting))
  }

  lemma DeliveryMovesExactly<Id, E>(s: State<Id, E>, a: Action<Id, E>, id: Id)
    requires Inv(s) && Enabled(s, a) && InRound(s.dispatcher, id) && !a.Cancelled?
    ensures id in s.sinks && Apply(s, a).dispatcher.Delivering?
    ensures DeliveryMoves(a, id, s.sinks[id], s.dispatcher.pending, Apply(s, a).dispatcher.pending)
  {
    assert DispatcherOk(s);
    SinkBounds(s, id);
    hide Inv, Apply;
    if DeliveryStep(a) {
      hide Enabled, DeliveryMoves;
      DeliveryStepMoves(s, a, id);
    } else {
      OthersLeaveDelivery(s, a, id);
    }
  }

  lemma DeliveryStepMoves<Id, E>(s: State<Id, E>, a: Action<Id, E>, id: Id)
    requires Enabled(s, a) && DeliveryStep(a) && InRound(s.dispatcher, id) && id in s.sinks
    requires 0 < s.sinks[id].queue.capacity && |s.sinks[id].queue.items| <= s.sinks[id].queue.capacity
    ensures Apply(s, a).dispatcher.Delivering?
    ensures DeliveryMoves(a, id, s.sinks[id], s.dispatcher.pending, Apply(s, a).dispatcher.pending)
  {
    hide Put, Get, TaskDone, Shutdown;
    match a {
      case Check(_) =>
      case Store(_) =>
      case Detach(_) =>
    }
  }

  lemma OthersLeaveDelivery<Id, E>(s: State<Id, E>, a: Action<Id, E>, id: Id)
    requires Enabled(s, a) && InRound(s.dispatcher, id) && !DeliveryStep(a) && !a.Finish? && !a.Cancelled?
    ensures Apply(s, a).dispatcher == s.dispatcher
  {
    hide Put, Get, TaskDone, Shutdown;
  }

  // A delivery that waits: the sink is open, full and not to be evicted.
  predicate Held<Id, E>(s: State<Id, E>, id: Id)
    requires InRound(s.dispatcher, id)
  {
    && s.dispatcher.pending[id] == Putting && id in s.sinks && !s.sinks[id].closed && !s.sinks[id].evictOnFull
    && |s.sinks[id].queue.items| == s.sinks[id].queue.capacity
  }

  predicate DeliveryGoesOn<Id, E>(s: State<Id, E>, id: Id) {
    Enabled(s, Check(id)) || Enabled(s, Store(id)) || Enabled(s, Detach(id))
  }

  // When the dispatcher can go on: not while the queue is open and empty, nor while every delivery
  // under way is held up, nor once it has stopped.
  lemma DispatcherGoesOnExactly<Id, E>(s: State<Id, E>)
    requires Inv(s)
    ensures Enabled(s, Take) || Enabled(s, Drained) || Enabled(s, Snapshot) || Enabled(s, Finish)
            || (exists id :: InRound(s.dispatcher, id) && DeliveryGoesOn(s, id)) <==>
      match s.dispatcher
      case Idle => s.incoming.items != [] || s.closed
      case Holding(_) => true
      case Delivering(_, pending) => pending == map[] || exists id :: InRound(s.dispatcher, id) && !Held(s, id)
      case Stopped => false
  {
    assert s.closed == s.incoming.isShutdown;
    forall id | InRound(s.dispatcher, id) ensures DeliveryGoesOn(s, id) <==> !Held(s, id) {
      DeliveryWaitsOnlyOnBackPressure(s, id);
      SinkBounds(s, id);
      hide Inv;
    }
    hide Inv, DeliveryGoesOn, Held;
  }

  // ----- Runs ----------------------------------------------------------------------------------

  predicate NobodyCloses<Id(==), E>(run: seq<Action<Id, E>>, id: Id) {
    forall i :: 0 <= i < |run| ==> !(run[i].CloseSink? && run[i].id == id)
  }

  // A sink that nobody closes and that is not to be evicted stays open.
  lemma {:induction false} UnclosedSinkStaysOpen<Id, E>(s: State<Id, E>, run: seq<Action<Id, E>>, id: Id)
    requires Inv(s) && Run(s, run).Reached? && NobodyCloses(run, id)
    requires id in s.sinks ==> !s.sinks[id].closed
    requires id in Run(s, run).state.sinks && !Run(s, run).state.sinks[id].evictOnFull
    ensures !Run(s, run).state.sinks[id].closed
    decreases |run|
  {
    if run != [] {
      var t := Apply(s, run[0]);
      StepKeeps(s, run[0]);
      assert NobodyCloses(run[1..], id);
      hide Inv, Apply, Enabled;
      RunIsLater(t, run[1..]);
      if id in s.sinks {
        SinkClosesExactly(s, run[0], id);
        SinkChangesExactly(s, run[0], id);
      } else {
        SinkIsCreatedExactly(s, run[0], id);
      }
      UnclosedSinkStaysOpen(t, run[1..], id);
    }
  }

  // What an open sink was listed for and has not got is the event under delivery, or the one whose
  // delivery was cancelled.
  ghost predicate MissesOnlyLast<Id, E>(s: State<Id, E>, id: Id)
    requires id in s.sinks
  {
    var end := s.sinks[id].start + |s.sinks[id].queue.accepted|;
    !s.sinks[id].closed ==>
      forall i :: end <= i < |s.snapshots| && id in s.snapshots[i] ==>
        i >= s.incoming.acknowledged && (InRound(s.dispatcher, id) || s.dispatcher.Stopped?)
  }

  ghost predicate AllServed<Id, E>(s: State<Id, E>) {
    forall id :: id in s.sinks ==> MissesOnlyLast(s, id)
  }

  lemma LogsExactly<Id, E>(s: State<Id, E>, a: Action<Id, E>)
    requires Enabled(s, a)
    ensures var t := Apply(s, a);
      && t.snapshots == (if a.Snapshot? then s.snapshots + [s.attached] else s.snapshots)
      && t.incoming.acknowledged == (if a.Finish? && s.incoming.unfinished > 0 then s.incoming.acknowledged + 1
                                     else s.incoming.acknowledged)
  {
  }

  lemma NewSinkMissesNothing<Id, E>(s: State<Id, E>, a: Action<Id, E>, id: Id)
    requires Enabled(s, a) && id !in s.sinks && id in Apply(s, a).sinks
    ensures MissesOnlyLast(Apply(s, a), id)
  {
    hide Put, Get, TaskDone, Shutdown;
  }

  // While the dispatcher is neither delivering to the sink nor stopped, nothing is missing, so the
  // next snapshot is the first that can be.
  lemma StepServes<Id, E>(s: State<Id, E>, a: Action<Id, E>, id: Id)
    requires Inv(s) && Enabled(s, a) && id in Apply(s, a).sinks
    requires id in s.sinks ==> MissesOnlyLast(s, id)
    ensures MissesOnlyLast(Apply(s, a), id)
  {
    if id !in s.sinks {
      hide Inv, Apply, Enabled;
      NewSinkMissesNothing(s, a, id);
    } else if s.sinks[id].closed {
      SinkGoesOn(s, a, id);
      hide Inv, Apply, Enabled;
    } else {
      hide Inv, Apply, Enabled, MissesOnlyLast;
      OpenSinkServed(s, a, id);
    }
  }

  lemma OpenSinkServed<Id, E>(s: State<Id, E>, a: Action<Id, E>, id: Id)
    requires Inv(s) && Enabled(s, a) && id in s.sinks && MissesOnlyLast(s, id) && !s.sinks[id].closed
    ensures id in Apply(s, a).sinks && MissesOnlyLast(Apply(s, a), id)
  {
    LogsExactly(s, a);
    SinkChangesExactly(s, a, id);
    DispatcherMovesExactly(s, a);
    if InRound(s.dispatcher, id) && !a.Cancelled? {
      DeliveryMovesExactly(s, a, id);
    }
    SinkClosesExactly(s, a, id);
    assert SinkFits(s, id) && DispatcherOk(s);
    hide Inv, Apply, Enabled, Queue.Conserved;
  }

  lemma {:induction false} RunServes<Id, E>(s: State<Id, E>, run: seq<Action<Id, E>>)
    requires Inv(s) && AllServed(s) && Run(s, run).Reached?
    ensures AllServed(Run(s, run).state)
    decreases |run|
  {
    if run != [] {
      var t := Apply(s, run[0]);
      StepKeeps(s, run[0]);
      hide Inv, Apply, Enabled, MissesOnlyLast;
      forall id | id in t.sinks ensures MissesOnlyLast(t, id) {
        StepServes(s, run[0], id);
      }
      RunServes(t, run[1..]);
    }
  }

  // In every run from the constructor on: a sink that nobody closes and that was not tapped to be
  // evicted is open, has thrown nothing away, and holds or has handed out every event whose round is
  // over and whose snapshot lists it.
  lemma UndisturbedSinkMissesNothing<Id, E>(capacity: nat, defaults: set<Id>, run: seq<Action<Id, E>>, id: Id)
    requires capacity > 0 && Run(Initial(capacity, defaults), run).Reached? && NobodyCloses(run, id)
    requires var s := Run(Initial<Id, E>(capacity, defaults), run).state; id in s.sinks && !s.sinks[id].evictOnFull
    ensures var s := Run(Initial<Id, E>(capacity, defaults), run).state; var sink := s.sinks[id];
      && !sink.closed && sink.queue.taken + sink.queue.items == sink.queue.accepted
      && s.incoming.acknowledged <= |s.snapshots| <= |s.incoming.accepted|
      && forall i :: 0 <= i < s.incoming.acknowledged && id in s.snapshots[i] ==>
           && sink.start <= i < sink.start + |sink.queue.accepted|
           && sink.queue.accepted[i - sink.start] == s.incoming.accepted[i]
  {
    var s0 := Initial<Id, E>(capacity, defaults);
    InitialInv<Id, E>(capacity, defaults);
    UnclosedSinkStaysOpen(s0, run, id);
    RunServes(s0, run);
    RunKeeps(s0, run);
    HoldsListedEvents(Run(s0, run).state, id);
  }

  lemma HoldsListedEvents<Id, E>(s: State<Id, E>, id: Id)
    requires Inv(s) && AllServed(s) && id in s.sinks && !s.sinks[id].closed
    ensures var sink := s.sinks[id];
      && sink.queue.taken + sink.queue.items == sink.queue.accepted
      && s.incoming.acknowledged <= |s.snapshots| <= |s.incoming.accepted|
      && forall i :: 0 <= i < s.incoming.acknowledged && id in s.snapshots[i] ==>
           && sink.start <= i < sink.start + |sink.queue.accepted|
           && sink.queue.accepted[i - sink.start] == s.incoming.accepted[i]
  {
    assert MissesOnlyLast(s, id) && DispatcherOk(s);
    SliceFromInv(s, id);
    SinkFacts(s, id);
  }
}
