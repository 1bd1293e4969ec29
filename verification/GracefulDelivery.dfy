// What graceful closing promises a sink: when `close(immediate=False)` returns, every event the
// source accepted since the sink was tapped has been put in it and acknowledged.

module GracefulDelivery {
  import opened Options
  import opened AsyncQueues
  import opened Broadcast
  import opened BroadcastSafety
  import opened BroadcastChanges
  import opened GracefulClose

  // Nobody but `EventQueueSource.close` closes or detaches the sink.
  predicate LeftAlone<Id(==), E>(steps: seq<Step<Id, E>>, id: Id) {
    forall i :: 0 <= i < |steps| && steps[i].Free? ==>
      steps[i].action != Remove(id) && !(steps[i].action.CloseSink? && steps[i].action.id == id)
  }

  // The source is closed and everything in it was dispatched and acknowledged.
  predicate Quiet<Id, E>(q: State<Id, E>) {
    q.closed && q.incoming.unfinished == 0 && !q.incoming.flushed
  }

  ghost predicate Calm<Id, E>(sys: System<Id, E>) {
    && !sys.queue.incoming.flushed
    && (sys.cancelRequested || sys.queue.dispatcher.Stopped? ==> sys.queue.incoming.unfinished == 0)
    && (forall c :: c in sys.closers ==> sys.closers[c].Graceful())
  }

  // The sink lost nothing, and got everything before it was closed or detached.
  ghost predicate Supplied<Id, E>(q: State<Id, E>, id: Id)
    requires id in q.sinks
  {
    var sink := q.sinks[id];
    && !sink.queue.flushed
    && (sink.closed || id !in q.attached ==> Quiet(q))
    && (sink.closed || id !in q.attached || q.dispatcher.Stopped? ==>
          sink.start + |sink.queue.accepted| == |q.snapshots|)
  }

  // Nothing more is dispatched in a quiet source.
  lemma QuietIsIdle<Id, E>(q: State<Id, E>)
    requires Inv(q) && Quiet(q)
    ensures q.dispatcher.Idle? || q.dispatcher.Stopped?
    ensures q.incoming.items == [] && |q.snapshots| == |q.incoming.taken| == |q.incoming.accepted|
  {
    assert DispatcherOk(q) && q.incoming.Conserved();
    hide Inv;
  }

  // An open, attached sink has all that was dispatched, unless a delivery to it is under way.
  lemma OpenSinkIsSupplied<Id, E>(q: State<Id, E>, id: Id)
    requires Inv(q) && id in q.sinks && id in q.attached && !q.sinks[id].closed
    requires q.dispatcher.Idle? || q.dispatcher.Holding?
    ensures q.sinks[id].start + |q.sinks[id].queue.accepted| == |q.snapshots|
  {
    assert SinkFits(q, id);
  }

  lemma DetachingIsClosed<Id, E>(q: State<Id, E>, id: Id)
    requires Inv(q) && Enabled(q, Detach(id))
    ensures id in q.sinks && q.sinks[id].closed
  {
    assert SinkFits(q, id);
  }

  lemma StoppingExactly<Id, E>(q: State<Id, E>, a: Action<Id, E>)
    requires Enabled(q, a) && !q.dispatcher.Stopped? && Apply(q, a).dispatcher.Stopped?
    ensures a.Drained? || a.Cancelled?
  {
    hide Put, Get, TaskDone, Shutdown;
  }

  // One action of the queue, closing of a quiet one included.
  lemma ActionSupplies<Id, E>(q: State<Id, E>, a: Action<Id, E>, id: Id)
    requires Inv(q) && Enabled(q, a) && id in Apply(q, a).sinks && (id in q.sinks ==> Supplied(q, id))
    requires id in q.sinks ==> !q.sinks[id].evictOnFull
    requires a == Remove(id) || a == CloseSink(id, false) || a.Cancelled? ==> Quiet(q)
    requires a == Remove(id) ==> q.sinks[id].closed
    requires a != CloseSink(id, true) && a != CloseSource(true)
    ensures Supplied(Apply(q, a), id)
  {
    var t := Apply(q, a);
    if id !in q.sinks {
      NewSinkIsSupplied(q, a, id);
    } else {
      LogsExactly(q, a);
      SinkChangesExactly(q, a, id);
      AttachmentExactly(q, a, id);
      SinkGoesOn(q, a, id);
      QuietStays(q, a);
      if Quiet(q) {
        QuietIsIdle(q);
      }
      if a == Detach(id) {
        DetachingIsClosed(q, id);
      }
      if !q.sinks[id].closed {
        SinkClosesExactly(q, a, id);
      }
      if id in q.attached && !q.sinks[id].closed && (q.dispatcher.Idle? || q.dispatcher.Holding?) {
        OpenSinkIsSupplied(q, id);
      }
      if !q.dispatcher.Stopped? && t.dispatcher.Stopped? {
        StoppingExactly(q, a);
      }
      StorePhase(q, a);
      hide Inv, Apply, Enabled;
    }
  }

  lemma StorePhase<Id, E>(q: State<Id, E>, a: Action<Id, E>)
    requires Enabled(q, a)
    ensures a.Store? || a.Check? || a.Detach? ==> q.dispatcher.Delivering?
    ensures a.Snapshot? ==> q.dispatcher.Holding?
    ensures a.Drained? ==> q.dispatcher.Idle?
  {
  }

  lemma NewSinkIsSupplied<Id, E>(q: State<Id, E>, a: Action<Id, E>, id: Id)
    requires Enabled(q, a) && id !in q.sinks && id in Apply(q, a).sinks
    ensures Supplied(Apply(q, a), id)
  {
    hide Put, Get, TaskDone, Shutdown;
  }

  lemma QuietStays<Id, E>(q: State<Id, E>, a: Action<Id, E>)
    requires Inv(q) && Enabled(q, a) && a != CloseSource(true)
    ensures Quiet(q) ==> Quiet(Apply(q, a))
  {
    assert q.closed == q.incoming.isShutdown;
    hide Inv;
  }

  // ----- Steps of the whole system ---------------------------------------------------------------

  // The step of the queue that a step of the system takes, if it takes one.
  function QueueAction<Id, E>(sys: System<Id, E>, step: Step<Id, E>): Option<Action<Id, E>>
    requires Can(sys, step) && !step.OutsideCancel?
  {
    match step
    case Free(a) => Some(a)
    case Begin(_, immediate) => Some(CloseSource(immediate))
    case SweepShut(c, id) => Some(CloseSink(id, sys.closers[c].immediate))
    case SweepRemove(_, id) => Some(Remove(id))
    case CancelArrives => Some(Cancelled)
    case _ => None
  }

  lemma StepTakesAction<Id, E>(sys: System<Id, E>, step: Step<Id, E>)
    requires Can(sys, step) && !step.OutsideCancel?
    ensures match QueueAction(sys, step)
      case Some(a) => Enabled(sys.queue, a) && Do(sys, step).queue == Apply(sys.queue, a)
      case None => Do(sys, step).queue == sys.queue
  {
    hide Apply;
  }

  lemma ActionIsCalm<Id, E>(q: State<Id, E>, a: Action<Id, E>)
    requires Inv(q) && Enabled(q, a) && !q.incoming.flushed && a != CloseSource(true)
    requires q.dispatcher.Stopped? ==> q.incoming.unfinished == 0 && q.closed
    requires a.Cancelled? ==> q.incoming.unfinished == 0
    ensures var t := Apply(q, a);
      && !t.incoming.flushed
      && (q.closed && q.incoming.unfinished == 0 ==> t.incoming.unfinished == 0)
      && (t.dispatcher.Stopped? ==> t.incoming.unfinished == 0)
  {
    assert DispatcherOk(q) && q.incoming.Conserved() && q.closed == q.incoming.isShutdown;
    hide Inv;
  }

  lemma ClosersStayGraceful<Id, E>(sys: System<Id, E>, step: Step<Id, E>)
    requires Can(sys, step) && !Interrupts(step) && forall c :: c in sys.closers ==> sys.closers[c].Graceful()
    ensures forall c :: c in Do(sys, step).closers ==> Do(sys, step).closers[c].Graceful()
    ensures Do(sys, step).cancelRequested ==> sys.cancelRequested || (step.Drain? && sys.queue.incoming.unfinished == 0)
                                              || (step.Drain? && sys.queue.dispatcher.Stopped?)
  {
    hide Apply, Enabled;
  }

  lemma CalmStays<Id, E>(sys: System<Id, E>, step: Step<Id, E>)
    requires SystemOk(sys) && Can(sys, step) && Calm(sys) && !Interrupts(step)
    ensures Calm(Do(sys, step))
  {
    ClosersStayGraceful(sys, step);
    StepTakesAction(sys, step);
    TakesNoFlush(sys, step);
    hide Inv, Apply, Enabled, Do, Can, CloserOk;
    match QueueAction(sys, step) {
      case None =>
      case Some(a) => ActionIsCalm(sys.queue, a);
    }
  }

  lemma TakesNoFlush<Id, E>(sys: System<Id, E>, step: Step<Id, E>)
    requires Can(sys, step) && !Interrupts(step)
    ensures QueueAction(sys, step) != Some(CloseSource(true))
    ensures QueueAction(sys, step) == Some(Cancelled) ==> sys.cancelRequested
    ensures step.Drain? ==> QueueAction(sys, step) == None
  {
    hide Enabled;
  }

  // A sink is closed and detached by closers only in a quiet source.
  lemma SweepIsQuiet<Id, E>(sys: System<Id, E>, step: Step<Id, E>)
    requires SystemOk(sys) && Can(sys, step) && Calm(sys) && !step.OutsideCancel?
    requires step.SweepShut? || step.SweepRemove? || step.CancelArrives?
    ensures Quiet(sys.queue)
    ensures step.SweepShut? ==> QueueAction(sys, step) == Some(CloseSink(step.id, false))
    ensures step.SweepRemove? ==> step.id in sys.queue.sinks && sys.queue.sinks[step.id].closed
  {
    hide Inv;
    if !step.CancelArrives? {
      assert CloserOk(sys.closers[step.closer], sys);
    }
  }

  lemma StepSupplies<Id, E>(sys: System<Id, E>, step: Step<Id, E>, id: Id)
    requires SystemOk(sys) && Can(sys, step) && Calm(sys) && !Interrupts(step) && LeftAlone([step], id)
    requires id in Do(sys, step).queue.sinks
    requires id in sys.queue.sinks ==> Supplied(sys.queue, id) && !sys.queue.sinks[id].evictOnFull
    ensures Supplied(Do(sys, step).queue, id)
  {
    assert step == [step][0];
    StepTakesAction(sys, step);
    if step.SweepShut? || step.SweepRemove? || step.CancelArrives? {
      SweepIsQuiet(sys, step);
    }
    hide Inv, Apply, Enabled, Do, Supplied, Quiet, Calm, CloserOk;
    match QueueAction(sys, step) {
      case None =>
      case Some(a) => ActionSupplies(sys.queue, a, id);
    }
  }

  lemma {:induction false} BehaviourSupplies<Id, E>(sys: System<Id, E>, steps: seq<Step<Id, E>>, id: Id)
    requires SystemOk(sys) && Calm(sys) && Behave(sys, steps).Now? && Uninterrupted(steps) && LeftAlone(steps, id)
    requires id in sys.queue.sinks ==> Supplied(sys.queue, id)
    requires var q := Behave(sys, steps).system.queue; id in q.sinks && !q.sinks[id].evictOnFull
    ensures Supplied(Behave(sys, steps).system.queue, id) && Calm(Behave(sys, steps).system)
    decreases |steps|
  {
    if steps != [] {
      var next := Do(sys, steps[0]);
      SystemStepKeeps(sys, steps[0]);
      CalmStays(sys, steps[0]);
      if id in sys.queue.sinks {
        PolicyStays(sys, steps, id);
      }
      hide SystemOk, Do, Can, Supplied, Calm;
      assert LeftAlone(steps[1..], id) && LeftAlone([steps[0]], id);
      if id in next.queue.sinks {
        StepSupplies(sys, steps[0], id);
      }
      BehaviourSupplies(next, steps[1..], id);
    }
  }

  // The policy of a sink never changes.
  lemma {:induction false} PolicyStays<Id, E>(sys: System<Id, E>, steps: seq<Step<Id, E>>, id: Id)
    requires SystemOk(sys) && Behave(sys, steps).Now? && Uninterrupted(steps) && id in sys.queue.sinks
    ensures var q := Behave(sys, steps).system.queue;
      id in q.sinks && q.sinks[id].evictOnFull == sys.queue.sinks[id].evictOnFull
    decreases |steps|
  {
    if steps != [] {
      SystemStepKeeps(sys, steps[0]);
      StepTakesAction(sys, steps[0]);
      assert Inv(sys.queue);
      hide SystemOk, Do, Can, Inv, Apply, Enabled;
      match QueueAction(sys, steps[0]) {
        case None =>
        case Some(a) => SinkGoesOn(sys.queue, a, id);
      }
      PolicyStays(Do(sys, steps[0]), steps[1..], id);
    }
  }

  // In every run without an immediate close and without a cancellation from outside: when a graceful
  // close returns, a sink it answers for that was not tapped to be evicted, and that nobody else
  // closed or removed, was given every event the source accepted since it was tapped, in order, has
  // thrown none of them away, and has had as many acknowledged.
  lemma GracefulCloseDeliversAll<Id, E>(capacity: nat, defaults: set<Id>, steps: seq<Step<Id, E>>, c: nat, id: Id)
    requires capacity > 0 && Behave(Fresh(capacity, defaults), steps).Now?
    requires Uninterrupted(steps) && LeftAlone(steps, id)
    requires var sys := Behave(Fresh<Id, E>(capacity, defaults), steps).system;
      && c in sys.closers && sys.closers[c].Returned? && id in sys.closers[c].sinks
      && id in sys.queue.sinks && !sys.queue.sinks[id].evictOnFull
    ensures var q := Behave(Fresh<Id, E>(capacity, defaults), steps).system.queue; var sink := q.sinks[id];
      && sink.closed && id !in q.attached && sink.start <= |q.incoming.accepted|
      && sink.queue.accepted == q.incoming.accepted[sink.start..]
      && sink.queue.taken + sink.queue.items == sink.queue.accepted
      && sink.queue.acknowledged == |sink.queue.accepted|
  {
    var origin := Fresh<Id, E>(capacity, defaults);
    InitialInv<Id, E>(capacity, defaults);
    assert SystemOk(origin) && Calm(origin);
    forall d | d in origin.queue.sinks ensures Supplied(origin.queue, d) {
    }
    hide SystemOk, Calm, Supplied;
    BehaviourKeeps(origin, steps);
    BehaviourSupplies(origin, steps, id);
    DeliveredAll(Behave(origin, steps).system, c, id);
  }

  lemma DeliveredAll<Id, E>(sys: System<Id, E>, c: nat, id: Id)
    requires SystemOk(sys) && id in sys.queue.sinks && Supplied(sys.queue, id)
    requires c in sys.closers && sys.closers[c].Returned? && sys.closers[c].Graceful() && id in sys.closers[c].sinks
    ensures var q := sys.queue; var sink := q.sinks[id];
      && sink.closed && id !in q.attached && sink.start <= |q.incoming.accepted|
      && sink.queue.accepted == q.incoming.accepted[sink.start..]
      && sink.queue.taken + sink.queue.items == sink.queue.accepted
      && sink.queue.acknowledged == |sink.queue.accepted|
  {
    assert CloserOk(sys.closers[c], sys) && CloserPlaced(sys.closers[c], id, sys.queue);
    QuietIsIdle(sys.queue);
    SliceFromInv(sys.queue, id);
    SinkFacts(sys.queue, id);
    hide Inv, CloserOk;
  }
}
