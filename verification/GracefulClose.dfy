// `EventQueueSource.close` and the coroutines it interleaves with
// (src/a2a/server/events/event_queue_v2.py:169-208, 269-317, 430-445).
//
// Any number of callers may be inside `close` at once, each at its own place; between two of
// their steps the rest of the system takes any actions. The dispatcher is cancelled by a
// closer, or from outside.

module GracefulClose {
  import opened AsyncQueues
  import opened Broadcast
  import opened BroadcastSafety

  // How far `sink.close` has come for one of the sinks in `gather`.
  datatype Sweep = Shutting | Removing | Joining

  datatype Closer<!Id(==)> =
    | Draining(sinks: set<Id>)                                         // in `_join_incoming_queue`
    | Sweeping(immediate: bool, sinks: set<Id>, left: map<Id, Sweep>)  // in the `gather` over the sinks
    | Awaiting(immediate: bool, sinks: set<Id>)                        // awaiting the dispatcher task
    | Returned(immediate: bool, sinks: set<Id>)
  {
    predicate Graceful() {
      Draining? || !immediate
    }

    // The close of this sink is past its step `stage`.
    predicate Past(id: Id, stage: Sweep) {
      match this
      case Draining(_) => false
      case Sweeping(_, _, left) =>
        id !in left || (stage == Shutting && left[id] != Shutting) || (stage == Removing && left[id] == Joining)
      case _ => true
    }
  }

  datatype System<!Id(==), E> = System(
    queue: State<Id, E>,
    closers: map<nat, Closer<Id>>,
    cancelRequested: bool)     // some closer called `_dispatcher_task.cancel()`

  datatype Step<!Id(==), E> =
    | Free(action: Action<Id, E>)
    | Begin(closer: nat, immediate: bool)
    | Drain(closer: nat)
    | SweepShut(closer: nat, id: Id) | SweepRemove(closer: nat, id: Id) | SweepJoin(closer: nat, id: Id)
    | SweepDone(closer: nat)
    | AwaitDone(closer: nat)
    | CancelArrives
    | OutsideCancel

  predicate SweepAt<Id, E>(sys: System<Id, E>, c: nat, id: Id, stage: Sweep) {
    c in sys.closers && sys.closers[c].Sweeping? && id in sys.closers[c].left && sys.closers[c].left[id] == stage &&
    id in sys.queue.sinks
  }

  predicate Can<Id, E>(sys: System<Id, E>, step: Step<Id, E>) {
    match step
    case Free(a) => Enabled(sys.queue, a) && !a.Cancelled? && !a.CloseSource?
    case Begin(c, _) => c !in sys.closers
    case Drain(c) =>
      c in sys.closers && sys.closers[c].Draining? &&
      (sys.queue.incoming.unfinished == 0 || sys.queue.dispatcher.Stopped?)
    case SweepShut(c, id) => SweepAt(sys, c, id, Shutting)
    case SweepRemove(c, id) => SweepAt(sys, c, id, Removing)
    case SweepJoin(c, id) => SweepAt(sys, c, id, Joining) && sys.queue.sinks[id].queue.unfinished == 0
    case SweepDone(c) => c in sys.closers && sys.closers[c].Sweeping? && sys.closers[c].left == map[]
    case AwaitDone(c) => c in sys.closers && sys.closers[c].Awaiting? && sys.queue.dispatcher.Stopped?
    case CancelArrives => sys.cancelRequested
    case OutsideCancel => !sys.queue.dispatcher.Stopped?
  }

  function StartSweep<Id>(immediate: bool, sinks: set<Id>): Closer<Id> {
    Sweeping(immediate, sinks, map id | id in sinks :: Shutting)
  }

  function SetCloser<Id, E>(sys: System<Id, E>, c: nat, closer: Closer<Id>): System<Id, E> {
    sys.(closers := sys.closers[c := closer])
  }

  function Do<Id, E>(sys: System<Id, E>, step: Step<Id, E>): System<Id, E>
    requires Can(sys, step)
  {
    match step
    case Free(a) => sys.(queue := Apply(sys.queue, a))
    case Begin(c, immediate) =>
      var sys1 := sys.(queue := Apply(sys.queue, CloseSource(immediate)),
                       cancelRequested := sys.cancelRequested || immediate);
      SetCloser(sys1, c, if immediate then StartSweep(true, sys.queue.attached) else Draining(sys.queue.attached))
    case Drain(c) =>
      SetCloser(sys.(cancelRequested := true), c, StartSweep(false, sys.closers[c].sinks))
    case SweepShut(c, id) =>
      var closer := sys.closers[c];
      SetCloser(sys.(queue := Apply(sys.queue, CloseSink(id, closer.immediate))), c,
                closer.(left := closer.left[id := Removing]))
    case SweepRemove(c, id) =>
      var closer := sys.closers[c];
      SetCloser(sys.(queue := Apply(sys.queue, Remove(id))), c,
                closer.(left := if closer.immediate then closer.left - {id} else closer.left[id := Joining]))
    case SweepJoin(c, id) =>
      var closer := sys.closers[c];
      SetCloser(sys, c, closer.(left := closer.left - {id}))
    case SweepDone(c) => SetCloser(sys, c, Awaiting(sys.closers[c].immediate, sys.closers[c].sinks))
    case AwaitDone(c) => SetCloser(sys, c, Returned(sys.closers[c].immediate, sys.closers[c].sinks))
    case CancelArrives => sys.(queue := Apply(sys.queue, Cancelled))
    case OutsideCancel =>
      // The handler also closes the source immediately before anyone else runs.
      sys.(queue := Apply(Apply(sys.queue, Cancelled), CloseSource(true)))
  }

  datatype Result<!Id(==), E> = Now(system: System<Id, E>) | Never

  function Behave<Id, E>(sys: System<Id, E>, steps: seq<Step<Id, E>>): Result<Id, E>
    decreases |steps|
  {
    if steps == [] then Now(sys)
    else if !Can(sys, steps[0]) then Never
    else Behave(Do(sys, steps[0]), steps[1..])
  }

  function Fresh<Id, E>(capacity: nat, defaults: set<Id>): System<Id, E> {
    System(Initial(capacity, defaults), map[], false)
  }

  // ----- The invariant -----------------------------------------------------------------------

  // What the place of a closer says about one sink.
  predicate CloserPlaced<Id, E>(closer: Closer<Id>, id: Id, q: State<Id, E>)
    requires id in q.sinks
  {
    && (closer.Past(id, Shutting) ==> q.sinks[id].closed && (!closer.Graceful() ==> q.sinks[id].queue.flushed))
    && (closer.Past(id, Removing) ==> id !in q.attached)
    && (closer.Past(id, Joining) && closer.Graceful() ==> q.sinks[id].queue.unfinished == 0)
  }

  ghost predicate CloserOk<Id, E>(closer: Closer<Id>, sys: System<Id, E>) {
    var q := sys.queue;
    && q.closed && q.attached <= closer.sinks && closer.sinks <= q.sinks.Keys
    && (!closer.Draining? ==> sys.cancelRequested)
    && (closer.Sweeping? ==> closer.left.Keys <= closer.sinks)
    && (closer.Returned? ==> q.dispatcher.Stopped?)
    && (forall id :: id in closer.sinks ==> CloserPlaced(closer, id, q))
  }

  ghost predicate SystemOk<Id, E>(sys: System<Id, E>) {
    && Inv(sys.queue)
    && (sys.cancelRequested || sys.queue.dispatcher.Stopped? ==> sys.queue.closed)
    && (forall c :: c in sys.closers ==> CloserOk(sys.closers[c], sys))
  }

  // The queue goes on; the closers stay where they are.
  lemma CloserStaysOk<Id, E>(closer: Closer<Id>, sys: System<Id, E>, sys2: System<Id, E>)
    requires CloserOk(closer, sys) && Later(sys.queue, sys2.queue)
    requires (sys.cancelRequested ==> sys2.cancelRequested)
    ensures CloserOk(closer, sys2)
  {
    forall id | id in closer.sinks
      ensures id in sys2.queue.sinks && SinkLater(sys.queue.sinks[id], sys2.queue.sinks[id])
    {
    }
  }

  // One closer moves, the others stay where they are.
  lemma OtherClosersStayOk<Id, E>(sys: System<Id, E>, sys2: System<Id, E>, c: nat, closer: Closer<Id>)
    requires SystemOk(sys) && Later(sys.queue, sys2.queue) && Inv(sys2.queue)
    requires (sys.cancelRequested ==> sys2.cancelRequested)
    requires sys2.closers == sys.closers[c := closer] && CloserOk(closer, sys2)
    ensures SystemOk(sys2)
  {
    assert sys2.queue.closed;
    hide Inv, Later, CloserOk;
    forall d | d in sys2.closers ensures CloserOk(sys2.closers[d], sys2) {
      if d != c {
        CloserStaysOk(sys.closers[d], sys, sys2);
      }
    }
  }

  lemma NoCloserMoves<Id, E>(sys: System<Id, E>, sys2: System<Id, E>)
    requires SystemOk(sys) && Later(sys.queue, sys2.queue) && Inv(sys2.queue)
    requires sys2.cancelRequested == sys.cancelRequested
    requires sys2.closers == sys.closers
    requires sys2.queue.dispatcher.Stopped? ==> sys2.queue.closed
    ensures SystemOk(sys2)
  {
    forall c | c in sys2.closers ensures CloserOk(sys2.closers[c], sys2) {
      hide Inv, Later, CloserOk;
      CloserStaysOk(sys.closers[c], sys, sys2);
    }
  }

  // ----- Every step keeps the invariant --------------------------------------------------------

  lemma QueueMoves<Id, E>(s: State<Id, E>, a: Action<Id, E>)
    requires Inv(s) && Enabled(s, a)
    ensures Inv(Apply(s, a)) && Later(s, Apply(s, a))
  {
    hide Inv, Apply, Enabled, Later;
    StepKeeps(s, a);
    StepIsLater(s, a);
  }

  // The dispatcher stops of itself only on a closed queue.
  lemma DrainedIsClosed<Id, E>(s: State<Id, E>, a: Action<Id, E>)
    requires Inv(s) && Enabled(s, a) && !a.Cancelled? && (s.dispatcher.Stopped? ==> s.closed)
    ensures Apply(s, a).dispatcher.Stopped? ==> Apply(s, a).closed
  {
  }

  lemma FreeKeeps<Id, E>(sys: System<Id, E>, a: Action<Id, E>)
    requires SystemOk(sys) && Can(sys, Free(a))
    ensures SystemOk(Do(sys, Free(a)))
  {
    QueueMoves(sys.queue, a);
    DrainedIsClosed(sys.queue, a);
    hide Inv, Apply, Enabled, Later, SystemOk;
    NoCloserMoves(sys, Do(sys, Free(a)));
  }

  lemma CancelArrivesKeeps<Id, E>(sys: System<Id, E>)
    requires SystemOk(sys) && Can(sys, CancelArrives)
    ensures SystemOk(Do(sys, CancelArrives))
  {
    QueueMoves(sys.queue, Cancelled);
    hide Inv, Apply, Later, SystemOk;
    NoCloserMoves(sys, Do(sys, CancelArrives));
  }

  lemma OutsideCancelKeeps<Id, E>(sys: System<Id, E>)
    requires SystemOk(sys) && Can(sys, OutsideCancel)
    ensures SystemOk(Do(sys, OutsideCancel))
  {
    var mid := Apply(sys.queue, Cancelled);
    QueueMoves(sys.queue, Cancelled);
    QueueMoves(mid, CloseSource(true));
    assert Do(sys, OutsideCancel) == sys.(queue := Apply(mid, CloseSource(true)));
    hide Inv, Apply, Later, SystemOk, Do, Can;
    LaterIsTransitive(sys.queue, mid, Apply(mid, CloseSource(true)));
    NoCloserMoves(sys, Do(sys, OutsideCancel));
  }

  lemma BeginKeeps<Id, E>(sys: System<Id, E>, c: nat, immediate: bool)
    requires SystemOk(sys) && Can(sys, Begin(c, immediate))
    ensures SystemOk(Do(sys, Begin(c, immediate)))
  {
    QueueMoves(sys.queue, CloseSource(immediate));
    var sys2 := Do(sys, Begin(c, immediate));
    assert sys2.queue.attached == sys.queue.attached && sys2.queue.closed && sys2.queue.sinks == sys.queue.sinks;
    assert sys.queue.attached <= sys.queue.sinks.Keys;
    hide Inv, Later, SinkLater;
    OtherClosersStayOk(sys, sys2, c, sys2.closers[c]);
  }

  lemma DrainKeeps<Id, E>(sys: System<Id, E>, c: nat)
    requires SystemOk(sys) && Can(sys, Drain(c))
    ensures SystemOk(Do(sys, Drain(c)))
  {
    var sys2 := Do(sys, Drain(c));
    assert CloserOk(sys.closers[c], sys);
    LaterIsReflexive(sys.queue);
    hide Inv, Later;
    OtherClosersStayOk(sys, sys2, c, sys2.closers[c]);
  }

  lemma SweepKeeps<Id, E>(sys: System<Id, E>, step: Step<Id, E>)
    requires SystemOk(sys) && Can(sys, step) && (step.SweepShut? || step.SweepRemove? || step.SweepJoin?)
    ensures SystemOk(Do(sys, step))
  {
    SweepMovesQueue(sys, step);
    SweptCloserOk(sys, step);
    var c, sys2 := step.closer, Do(sys, step);
    assert sys2 == sys.(queue := sys2.queue, closers := sys.closers[c := sys2.closers[c]]);
    hide Inv, CloserOk, Do, Can, Apply;
    OtherClosersStayOk(sys, sys2, c, sys2.closers[c]);
  }

  lemma SweepMovesQueue<Id, E>(sys: System<Id, E>, step: Step<Id, E>)
    requires SystemOk(sys) && Can(sys, step) && (step.SweepShut? || step.SweepRemove? || step.SweepJoin?)
    ensures var q2 := Do(sys, step).queue;
            Inv(q2) && Later(sys.queue, q2)
    ensures CloserOk(sys.closers[step.closer], sys)
  {
    hide Inv, Later, CloserOk;
    if step.SweepShut? {
      QueueMoves(sys.queue, CloseSink(step.id, sys.closers[step.closer].immediate));
    } else if step.SweepRemove? {
      QueueMoves(sys.queue, Remove(step.id));
    } else {
      LaterIsReflexive(sys.queue);
    }
  }

  // The closer is past one more step for one sink.
  lemma FurtherCloserOk<Id, E>(sys: System<Id, E>, sys2: System<Id, E>, closer: Closer<Id>, id: Id,
      left: map<Id, Sweep>)
    requires closer.Sweeping? && CloserOk(closer, sys) && Later(sys.queue, sys2.queue) && id in closer.left
    requires sys2.cancelRequested == sys.cancelRequested
    requires left.Keys <= closer.left.Keys && forall o :: o in closer.left && o != id ==>
        o in left && left[o] == closer.left[o]
    requires id in sys2.queue.sinks && CloserPlaced(closer.(left := left), id, sys2.queue)
    ensures CloserOk(closer.(left := left), sys2)
  {
    hide Later;
    CloserStaysOk(closer, sys, sys2);
    var closer2 := closer.(left := left);
    forall o | o in closer2.sinks && o != id
      ensures closer2.Past(o, Shutting) ==> closer.Past(o, Shutting)
      ensures closer2.Past(o, Removing) ==> closer.Past(o, Removing)
      ensures closer2.Past(o, Joining) ==> closer.Past(o, Joining)
    {
    }
  }

  lemma SweptCloserOk<Id, E>(sys: System<Id, E>, step: Step<Id, E>)
    requires Can(sys, step) && (step.SweepShut? || step.SweepRemove? || step.SweepJoin?)
    requires CloserOk(sys.closers[step.closer], sys) && Later(sys.queue, Do(sys, step).queue)
    ensures CloserOk(Do(sys, step).closers[step.closer], Do(sys, step))
  {
    var sys2 := Do(sys, step);
    var closer := sys.closers[step.closer];
    assert CloserPlaced(closer, step.id, sys.queue);
    var left := sys2.closers[step.closer].left;
    assert CloserPlaced(closer.(left := left), step.id, sys2.queue) by {
      hide CloserOk, Later;
    }
    hide CloserOk, Later, CloserPlaced;
    FurtherCloserOk(sys, sys2, closer, step.id, left);
  }

  lemma CloserEndsKeeps<Id, E>(sys: System<Id, E>, step: Step<Id, E>)
    requires SystemOk(sys) && Can(sys, step) && (step.SweepDone? || step.AwaitDone?)
    ensures SystemOk(Do(sys, step))
  {
    var sys2 := Do(sys, step);
    assert CloserOk(sys.closers[step.closer], sys);
    assert CloserOk(sys2.closers[step.closer], sys2);
    LaterIsReflexive(sys.queue);
    hide Inv, Later, CloserOk;
    OtherClosersStayOk(sys, sys2, step.closer, sys2.closers[step.closer]);
  }

  lemma SystemStepKeeps<Id, E>(sys: System<Id, E>, step: Step<Id, E>)
    requires SystemOk(sys) && Can(sys, step)
    ensures SystemOk(Do(sys, step))
  {
    hide SystemOk, Do, Can;
    match step {
      case Free(a) => FreeKeeps(sys, a);
      case Begin(c, immediate) => BeginKeeps(sys, c, immediate);
      case Drain(c) => DrainKeeps(sys, c);
      case SweepShut(_, _) => SweepKeeps(sys, step);
      case SweepRemove(_, _) => SweepKeeps(sys, step);
      case SweepJoin(_, _) => SweepKeeps(sys, step);
      case SweepDone(_) => CloserEndsKeeps(sys, step);
      case AwaitDone(_) => CloserEndsKeeps(sys, step);
      case CancelArrives => CancelArrivesKeeps(sys);
      case OutsideCancel => OutsideCancelKeeps(sys);
    }
  }

  lemma {:induction false} BehaviourKeeps<Id, E>(sys: System<Id, E>, steps: seq<Step<Id, E>>)
    requires SystemOk(sys) && Behave(sys, steps).Now?
    ensures SystemOk(Behave(sys, steps).system)
    decreases |steps|
  {
    hide SystemOk, Do, Can;
    if steps != [] {
      SystemStepKeeps(sys, steps[0]);
      BehaviourKeeps(Do(sys, steps[0]), steps[1..]);
    }
  }

  // ----- What is lost, and when ----------------------------------------------------------------

  // The step throws accepted events away: an immediate close with events still buffered, or a
  // cancellation of the dispatcher with events not yet acknowledged to the source.
  predicate Loses<Id, E>(sys: System<Id, E>, step: Step<Id, E>) {
    var incoming := sys.queue.incoming;
    match step
    case Begin(_, immediate) => immediate && incoming.items != []
    case CancelArrives => !sys.queue.dispatcher.Stopped? && incoming.unfinished > 0
    case OutsideCancel => !sys.queue.dispatcher.Stopped? && incoming.unfinished > 0
    case _ => false
  }

  predicate LosesIn<Id, E>(sys: System<Id, E>, steps: seq<Step<Id, E>>)
    decreases |steps|
  {
    steps != [] && Can(sys, steps[0]) && (Loses(sys, steps[0]) || LosesIn(Do(sys, steps[0]), steps[1..]))
  }

  // Nothing accepted was thrown away, and when dispatch stopped it had done everything.
  ghost predicate Complete<Id, E>(q: State<Id, E>) {
    && q.incoming.discarded == []
    && (q.dispatcher.Stopped? ==> q.incoming.acknowledged == |q.incoming.accepted|)
  }

  // Some accepted event will never be dispatched to the end.
  ghost predicate Wanting<Id, E>(q: State<Id, E>) {
    || q.incoming.discarded != []
    || (q.dispatcher.Stopped? && q.incoming.acknowledged < |q.incoming.accepted|)
  }

  predicate LosingAction<Id, E>(q: State<Id, E>, a: Action<Id, E>) {
    || (a.CloseSource? && a.immediate && q.incoming.items != [])
    || (a.Cancelled? && !q.dispatcher.Stopped? && q.incoming.unfinished > 0)
  }

  lemma ActionLoss<Id, E>(q: State<Id, E>, a: Action<Id, E>)
    requires Inv(q) && Enabled(q, a) && (a.Enqueue? && q.dispatcher.Stopped? ==> q.closed)
    ensures Wanting(q) ==> Wanting(Apply(q, a))
    ensures Complete(q) && !LosingAction(q, a) ==> Complete(Apply(q, a))
    ensures Complete(q) && LosingAction(q, a) ==> Wanting(Apply(q, a))
  {
    assert q.incoming.Conserved() && DispatcherOk(q) && (q.closed <==> q.incoming.isShutdown);
    hide Inv, SinkFits, SinkOk;
  }

  lemma StepLoss<Id, E>(sys: System<Id, E>, step: Step<Id, E>)
    requires SystemOk(sys) && Can(sys, step)
    ensures Wanting(sys.queue) ==> Wanting(Do(sys, step).queue)
    ensures Complete(sys.queue) && !Loses(sys, step) ==> Complete(Do(sys, step).queue)
    ensures Complete(sys.queue) && Loses(sys, step) ==> Wanting(Do(sys, step).queue)
  {
    hide Inv, Apply, Complete, Wanting, CloserOk;
    match step {
      case Free(a) => ActionLoss(sys.queue, a);
      case Begin(_, immediate) => ActionLoss(sys.queue, CloseSource(immediate));
      case SweepShut(c, id) => ActionLoss(sys.queue, CloseSink(id, sys.closers[c].immediate));
      case SweepRemove(_, id) => ActionLoss(sys.queue, Remove(id));
      case CancelArrives => ActionLoss(sys.queue, Cancelled);
      case OutsideCancel => OutsideLoss(sys.queue);
      case _ =>
    }
  }

  lemma OutsideLoss<Id, E>(q: State<Id, E>)
    requires Inv(q) && !q.dispatcher.Stopped?
    ensures var q2 := Apply(Apply(q, Cancelled), CloseSource(true));
      && (Wanting(q) ==> Wanting(q2))
      && (Complete(q) && q.incoming.unfinished == 0 ==> Complete(q2))
      && (Complete(q) && q.incoming.unfinished > 0 ==> Wanting(q2))
  {
    var mid := Apply(q, Cancelled);
    ActionLoss(q, Cancelled);
    StepKeeps(q, Cancelled);
    ActionLoss(mid, CloseSource(true));
    assert q.incoming.unfinished == 0 ==> mid.incoming.items == [] by {
      assert q.incoming.Conserved() && DispatcherOk(q);
      hide Inv;
    }
    hide Inv, Complete, Wanting;
  }

  // A cancellation from outside leaves the source closed and empty and dispatch stopped for good.
  lemma OutsideCancelEmptiesSource<Id, E>(sys: System<Id, E>)
    requires SystemOk(sys) && Can(sys, OutsideCancel)
    ensures var q, q2 := sys.queue, Do(sys, OutsideCancel).queue;
      && q2.closed && q2.incoming.items == [] && q2.dispatcher.Stopped? && q2.incoming.accepted == q.incoming.accepted
      && q2.sinks == q.sinks && q2.attached == q.attached
  {
    hide Inv, CloserOk;
  }

  lemma {:induction false} BehaviourLoss<Id, E>(sys: System<Id, E>, steps: seq<Step<Id, E>>)
    requires SystemOk(sys) && Behave(sys, steps).Now?
    ensures Wanting(sys.queue) ==> Wanting(Behave(sys, steps).system.queue)
    ensures Complete(sys.queue) ==>
      if LosesIn(sys, steps) then Wanting(Behave(sys, steps).system.queue)
          else Complete(Behave(sys, steps).system.queue)
    decreases |steps|
  {
    hide SystemOk, Do, Can, Loses, Complete, Wanting;
    if steps != [] {
      SystemStepKeeps(sys, steps[0]);
      StepLoss(sys, steps[0]);
      BehaviourLoss(Do(sys, steps[0]), steps[1..]);
    }
  }

  // An immediate close begins, or the dispatcher is cancelled from outside.
  predicate Interrupts<Id, E>(step: Step<Id, E>) {
    (step.Begin? && step.immediate) || step.OutsideCancel?
  }

  predicate Uninterrupted<Id, E>(steps: seq<Step<Id, E>>) {
    forall i :: 0 <= i < |steps| ==> !Interrupts(steps[i])
  }

  // A dispatcher that may be cancelled has stopped, or has nothing left to do.
  ghost predicate CancelIsLate<Id, E>(sys: System<Id, E>) {
    sys.cancelRequested ==> sys.queue.dispatcher.Stopped? || sys.queue.incoming.unfinished == 0
  }

  lemma ClosedUnfinished<Id, E>(q: State<Id, E>, a: Action<Id, E>)
    requires Inv(q) && Enabled(q, a) && q.closed
    ensures q.incoming.unfinished == 0 ==> Apply(q, a).incoming.unfinished == 0
    ensures q.dispatcher.Stopped? ==> Apply(q, a).dispatcher.Stopped?
  {
  }

  lemma CancelStaysLate<Id, E>(sys: System<Id, E>, step: Step<Id, E>)
    requires SystemOk(sys) && Can(sys, step) && CancelIsLate(sys) && !Interrupts(step)
    ensures CancelIsLate(Do(sys, step)) && !Loses(sys, step)
  {
    hide Inv, Apply, CloserOk;
    if sys.cancelRequested {
      match step {
        case Free(a) => ClosedUnfinished(sys.queue, a);
        case Begin(_, immediate) => ClosedUnfinished(sys.queue, CloseSource(immediate));
        case SweepShut(c, id) => ClosedUnfinished(sys.queue, CloseSink(id, sys.closers[c].immediate));
        case SweepRemove(_, id) => ClosedUnfinished(sys.queue, Remove(id));
        case CancelArrives => ClosedUnfinished(sys.queue, Cancelled);
        case _ =>
      }
    }
  }

  // Graceful closes alone lose nothing, however many of them there are and however they interleave.
  lemma {:induction false} GracefulLosesNothing<Id, E>(sys: System<Id, E>, steps: seq<Step<Id, E>>)
    requires SystemOk(sys) && CancelIsLate(sys) && Behave(sys, steps).Now?
    requires Uninterrupted(steps)
    ensures !LosesIn(sys, steps)
    decreases |steps|
  {
    hide SystemOk, Do, Can, Loses, CancelIsLate, Interrupts;
    if steps != [] {
      SystemStepKeeps(sys, steps[0]);
      CancelStaysLate(sys, steps[0]);
      GracefulLosesNothing(Do(sys, steps[0]), steps[1..]);
    }
  }

  // In every run, when dispatch has stopped: every accepted event was dispatched and acknowledged
  // if and only if no step of the run was a losing one.
  lemma StoppedCompleteExactly<Id, E>(capacity: nat, defaults: set<Id>, steps: seq<Step<Id, E>>)
    requires capacity > 0 && Behave(Fresh(capacity, defaults), steps).Now?
    requires Behave(Fresh<Id, E>(capacity, defaults), steps).system.queue.dispatcher.Stopped?
    ensures var q := Behave(Fresh<Id, E>(capacity, defaults), steps).system.queue;
      && (q.incoming.acknowledged == |q.incoming.accepted| <==> !LosesIn(Fresh<Id, E>(capacity, defaults), steps))
      && (q.incoming.acknowledged == |q.incoming.accepted| ==>
          q.incoming.items == [] && |q.snapshots| == |q.incoming.accepted|)
  {
    var origin := Fresh<Id, E>(capacity, defaults);
    var q := Behave(origin, steps).system.queue;
    InitialInv<Id, E>(capacity, defaults);
    BehaviourKeeps(origin, steps);
    BehaviourLoss(origin, steps);
    assert Inv(q) && q.incoming.Conserved() && DispatcherOk(q);
    hide Inv, SystemOk, Behave, LosesIn;
    assert |q.incoming.accepted| == |q.incoming.taken| + |q.incoming.items| + |q.incoming.discarded|;
  }

  // ----- What a returned close guarantees ------------------------------------------------------

  // `close(immediate=False)` returns only after every sink attached when it began is closed,
  // detached and has no unacknowledged event, whatever else happened. No sink is attached any
  // more, and none ever will be. And every accepted event was dispatched to the end if and only if
  // no step of the run was a losing one, as is the case if all closes were graceful and nobody
  // cancelled the dispatcher from outside.
  lemma GracefulCloseFinishesWork<Id, E>(capacity: nat, defaults: set<Id>, steps: seq<Step<Id, E>>, c: nat)
    requires capacity > 0 && Behave(Fresh(capacity, defaults), steps).Now?
    requires var sys := Behave(Fresh<Id, E>(capacity, defaults), steps).system;
      c in sys.closers && sys.closers[c].Returned? && !sys.closers[c].immediate
    ensures var sys := Behave(Fresh<Id, E>(capacity, defaults), steps).system; var q := sys.queue;
      && (forall id :: id in sys.closers[c].sinks ==>
            id in q.sinks && Settled(q.sinks[id]) && id !in q.attached)
      && q.closed && q.attached == {} && q.dispatcher.Stopped?
      && (q.incoming.acknowledged == |q.incoming.accepted| <==> !LosesIn(Fresh<Id, E>(capacity, defaults), steps))
      && (q.incoming.acknowledged == |q.incoming.accepted| ==>
          q.incoming.items == [] && |q.snapshots| == |q.incoming.accepted|)
      && (Uninterrupted(steps) ==> q.incoming.acknowledged == |q.incoming.accepted|)
  {
    var origin := Fresh<Id, E>(capacity, defaults);
    var sys := Behave(origin, steps).system;
    InitialInv<Id, E>(capacity, defaults);
    assert SystemOk(origin) && CancelIsLate(origin);
    BehaviourKeeps(origin, steps);
    assert CloserOk(sys.closers[c], sys);
    hide Inv, Behave, LosesIn, SystemOk;
    StoppedCompleteExactly(capacity, defaults, steps);
    if Uninterrupted(steps) {
      GracefulLosesNothing(origin, steps);
      assert !LosesIn(origin, steps);
    }
  }

  // `close(immediate=True)` returns only after every sink attached when it began is closed,
  // emptied and detached, and dispatch has stopped.
  lemma ImmediateCloseEmptiesSinks<Id, E>(capacity: nat, defaults: set<Id>, steps: seq<Step<Id, E>>, c: nat)
    requires capacity > 0 && Behave(Fresh(capacity, defaults), steps).Now?
    requires var sys := Behave(Fresh<Id, E>(capacity, defaults), steps).system;
      c in sys.closers && sys.closers[c].Returned? && sys.closers[c].immediate
    ensures var sys := Behave(Fresh<Id, E>(capacity, defaults), steps).system; var q := sys.queue;
      && q.dispatcher.Stopped? && q.closed && q.attached == {}
      && (forall id :: id in sys.closers[c].sinks ==>
            id in q.sinks && q.sinks[id].closed && q.sinks[id].queue.items == [])
  {
    var sys := Behave(Fresh<Id, E>(capacity, defaults), steps).system;
    InitialInv<Id, E>(capacity, defaults);
    BehaviourKeeps(Fresh<Id, E>(capacity, defaults), steps);
    assert CloserOk(sys.closers[c], sys);
    forall id | id in sys.closers[c].sinks ensures sys.queue.sinks[id].queue.items == [] {
      assert SinkFits(sys.queue, id);
    }
  }

  // The sinks a closer answers for are those attached in the step in which it began.
  lemma CloserAnswersForAttached<Id, E>(sys: System<Id, E>, c: nat, immediate: bool, steps: seq<Step<Id, E>>)
    requires Can(sys, Begin(c, immediate)) && Behave(Do(sys, Begin(c, immediate)), steps).Now?
    ensures var sys2 := Behave(Do(sys, Begin(c, immediate)), steps).system;
      && c in sys2.closers && sys2.closers[c].sinks == sys.queue.attached
      && sys2.closers[c].Graceful() == !immediate
  {
    CloserKeepsSinks(Do(sys, Begin(c, immediate)), c, steps);
  }

  lemma {:induction false} CloserKeepsSinks<Id, E>(sys: System<Id, E>, c: nat, steps: seq<Step<Id, E>>)
    requires c in sys.closers && Behave(sys, steps).Now?
    ensures var sys2 := Behave(sys, steps).system;
      && c in sys2.closers && sys2.closers[c].sinks == sys.closers[c].sinks
      && sys2.closers[c].Graceful() == sys.closers[c].Graceful()
    decreases |steps|
  {
    if steps != [] {
      CloserKeepsSinks(Do(sys, steps[0]), c, steps[1..]);
    }
  }

  lemma BehaveHead<Id, E>(sys: System<Id, E>, step: Step<Id, E>, steps: seq<Step<Id, E>>)
    requires Can(sys, step)
    ensures Behave(sys, [step] + steps) == Behave(Do(sys, step), steps)
  {
    hide Can, Do;
    assert ([step] + steps)[1..] == steps;
  }

  // A graceful closer with no sinks to answer for and nothing left to wait for returns.
  lemma IdleCloseReturns<Id, E>(sys: System<Id, E>) returns (steps: seq<Step<Id, E>>)
    requires 0 in sys.closers && sys.closers[0] == Draining({}) && sys.queue.incoming.unfinished == 0
    ensures Behave(sys, steps).Now?
    ensures var sys2 := Behave(sys, steps).system;
      && 0 in sys2.closers && sys2.closers[0] == Returned(false, {})
      && sys2.queue.incoming == sys.queue.incoming && sys2.queue.snapshots == sys.queue.snapshots
  {
    var s1 := Do(sys, Drain(0));
    assert s1.closers[0].left == map[];
    var s2 := Do(s1, SweepDone(0));
    var s3 := Do(s2, CancelArrives);
    var s4 := Do(s3, AwaitDone(0));
    assert s4.closers[0] == Returned(false, {}) && s4.queue.incoming == sys.queue.incoming;
    steps := [Drain(0), SweepDone(0), CancelArrives, AwaitDone(0)];
    hide Do, Can;
    BehaveHead(s3, AwaitDone(0), []);
    BehaveHead(s2, CancelArrives, [AwaitDone(0)]);
    BehaveHead(s1, SweepDone(0), [CancelArrives, AwaitDone(0)]);
    BehaveHead(sys, Drain(0), [SweepDone(0), CancelArrives, AwaitDone(0)]);
  }

  // Losing steps do occur: an immediate close that begins while a graceful one is draining
  // throws the accepted event away, and the graceful close still returns.
  lemma ImmediateCloseOvertakesGraceful() returns (steps: seq<Step<int, int>>)
    ensures Behave(Fresh<int, int>(1, {}), steps).Now?
    ensures var sys := Behave(Fresh<int, int>(1, {}), steps).system;
      && 0 in sys.closers && sys.closers[0] == Returned(false, {})
      && sys.queue.incoming.accepted == [7] && sys.queue.snapshots == []
  {
    var s0 := Fresh<int, int>(1, {});
    var s1 := Do(s0, Free(Enqueue(7)));
    var s2 := Do(s1, Begin(0, false));
    var s3 := Do(s2, Begin(1, true));
    assert s2.closers[0] == Draining({}) && s3.queue.incoming.unfinished == 0;
    assert s3.queue.incoming.accepted == [7] && s3.queue.snapshots == [];
    steps := IdleCloseReturns(s3);
    hide Do, Can;
    BehaveHead(s2, Begin(1, true), steps);
    BehaveHead(s1, Begin(0, false), [Begin(1, true)] + steps);
    BehaveHead(s0, Free(Enqueue(7)), [Begin(0, false)] + ([Begin(1, true)] + steps));
    steps := [Free(Enqueue(7))] + ([Begin(0, false)] + ([Begin(1, true)] + steps));
  }
}
