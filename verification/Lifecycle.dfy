// When an active task is started, subscribed to, finished and cleaned up:
// src/a2a/server/agent_execution/active_task.py:430-498, 576-606, 624-643, 703-709, 738-783,
// 826-841, 851-872.
//
// `_lock` is held across an `await` in `start` and in `cancel`, so it is modelled; the other
// sections under it contain no `await` and are single steps that find it free. What the
// coroutines do between those sections may take any time and end any way.
//
// Entering `subscribe` is one step: once `_lock` is had, nothing up to the `try` waits. The
// locks of the event queue are never held across an `await`, and the request queue is unbounded.

module Lifecycle {

  datatype Producer = Unspawned | Working | ClosingAgentQueue | ClosingSubscribers | Ended

  datatype Consumer = NotSpawned | Running | WindingDown | Departing | Gone | Interrupted

  // A subscriber is counted while it streams and until its `finally` block gives the reference
  // back; a dropped one never does.
  datatype Subscriber = Streaming | Unsubscribing | Leaving | Left | Dropped

  datatype LifecycleState = LifecycleState(
    finished: bool,             // `_is_finished`
    started: bool,              // producer and consumer tasks exist
    referenceCount: int,
    requestsShut: bool,         // `_request_queue` is shut down
    subscribersShut: bool,      // `_event_queue_subscribers` is closed
    locked: bool,               // `_lock`, held across an await
    starting: bool,             // ... by `start`, which is awaiting the stored task
    producer: Producer,
    consumer: Consumer,
    subscribers: map<nat, Subscriber>,
    acloseBegan: bool,          // log: `aclose` was called
    missed: bool,               // log: the last chance to look for cleanup went by, see `MissesLook`
    cleanups: nat)              // log: calls of the cleanup callback
  {
    function Holding(): set<nat> {
      HoldingIn(subscribers)
    }

    // Subscribers that ended without giving their reference back.
    function Leaked(): set<nat> {
      DroppedIn(subscribers)
    }

    // Subscribers that gave their reference back and have yet to look for cleanup.
    function Looking(): set<nat> {
      set i | i in subscribers && subscribers[i] == Leaving
    }

    predicate ConsumerHolds() {
      consumer == Running || consumer == WindingDown
    }

    predicate NothingLeaked() {
      Leaked() == {} && consumer != Interrupted
    }

    // Nothing is under way: no `start`, no consumer, no subscriber.
    predicate Over() {
      && !starting && consumer in {NotSpawned, Gone, Interrupted}
      && forall i :: i in subscribers ==> subscribers[i] == Left || subscribers[i] == Dropped
    }
  }

  predicate Holds(at: Subscriber) {
    at == Streaming || at == Unsubscribing
  }

  function HoldingIn(m: map<nat, Subscriber>): set<nat> {
    set i | i in m && Holds(m[i])
  }

  function DroppedIn(m: map<nat, Subscriber>): set<nat> {
    set i | i in m && m[i] == Dropped
  }

  datatype Action =
    | EnterStart | SetupFails | SetupCancelled | Spawn
    | Subscribe(id: nat, asks: bool)  // with a request, or to follow only
    | EndStream(id: nat)
    | UnsubscribeInterrupted(id: nat) // cancelled while waiting for `_lock`
    | Unsubscribe(id: nat)
    | SubscriberCleanup(id: nat)
    | SubscriberLapses(id: nat)       // cancelled while waiting for `_lock`
    | ProducerExits                   // leaves its loop, for whatever reason
    | ProducerClosesSubscribers
    | ProducerEnds                    // ... its `finally`, or is cancelled in it or before its first step
    | ReachTerminal                   // the consumer stores a terminal state
    | ConsumerExits
    | ConsumerInterrupted             // cancelled in its `finally`, or before its first step
    | ConsumerReleases
    | ConsumerCleanup
    | ConsumerLapses                  // cancelled while waiting for `_lock`
    | EnterCancel | LeaveCancel
    | AcloseBegins | AcloseClosesSubscribers | AcloseFinishes

  predicate Is(s: LifecycleState, id: nat, at: Subscriber) {
    id in s.subscribers && s.subscribers[id] == at
  }

  predicate Enabled(s: LifecycleState, a: Action) {
    match a
    case EnterStart => !s.locked
    case SetupFails => s.starting
    case SetupCancelled => s.starting
    case Spawn => s.starting
    case Subscribe(id, _) => !s.locked && id !in s.subscribers
    case EndStream(id) => Is(s, id, Streaming)
    case UnsubscribeInterrupted(id) => Is(s, id, Unsubscribing)
    case Unsubscribe(id) => !s.locked && Is(s, id, Unsubscribing)
    case SubscriberCleanup(id) => !s.locked && Is(s, id, Leaving)
    case SubscriberLapses(id) => Is(s, id, Leaving)
    case ProducerExits => s.producer == Working
    case ProducerClosesSubscribers => s.producer == ClosingAgentQueue
    case ProducerEnds => s.producer in {Working, ClosingAgentQueue, ClosingSubscribers}
    case ReachTerminal => s.consumer == Running
    case ConsumerExits => s.consumer == Running
    case ConsumerInterrupted => s.ConsumerHolds()
    case ConsumerReleases => !s.locked && s.consumer == WindingDown && s.producer == Ended
    case ConsumerCleanup => !s.locked && s.consumer == Departing
    case ConsumerLapses => s.consumer == Departing
    case EnterCancel => !s.locked
    case LeaveCancel => s.locked && !s.starting
    case AcloseBegins => true
    case AcloseClosesSubscribers => s.acloseBegan
    case AcloseFinishes => !s.locked && s.acloseBegan
  }

  function Move(s: LifecycleState, id: nat, to: Subscriber): LifecycleState {
    s.(subscribers := s.subscribers[id := to])
  }

  // `tap` refuses on a closed queue, `enqueue_request` on one that is shut down. Both stand
  // between counting the subscriber and the `try`.
  predicate RefusedEntry(s: LifecycleState, asks: bool) {
    s.subscribersShut || (asks && s.requestsShut)
  }

  // The task is finished, nobody holds a reference, the callback was not called, and after this step
  // nobody will look any more: the last one who was about to look is cancelled while waiting for
  // `_lock`, or `aclose` finishes a task that has no references and nobody about to look.
  predicate MissesLook(s: LifecycleState, a: Action) {
    match a
    case SubscriberLapses(id) =>
      s.finished && s.referenceCount == 0 && s.cleanups == 0 && s.Looking() == {id} && s.consumer != Departing
    case ConsumerLapses => s.finished && s.referenceCount == 0 && s.cleanups == 0 && s.Looking() == {}
    case AcloseFinishes => !s.finished && s.referenceCount == 0 && s.Looking() == {}
    case _ => false
  }

  // `_maybe_cleanup`.
  function MaybeCleanup(s: LifecycleState): LifecycleState {
    if s.finished && s.referenceCount == 0 then s.(cleanups := s.cleanups + 1) else s
  }

  predicate BySubscriber(a: Action) {
    a.Subscribe? || a.EndStream? || a.UnsubscribeInterrupted? || a.Unsubscribe? || a.SubscriberCleanup?
    || a.SubscriberLapses?
  }

  function SubscriberMoves(s: LifecycleState, a: Action): LifecycleState
    requires BySubscriber(a)
  {
    match a
    case Subscribe(id, asks) =>
      if s.finished then s
      else Move(s.(referenceCount := s.referenceCount + 1), id, if RefusedEntry(s, asks) then Dropped else Streaming)
    case EndStream(id) => Move(s, id, Unsubscribing)
    case UnsubscribeInterrupted(id) => Move(s, id, Dropped)
    case Unsubscribe(id) => Move(s.(referenceCount := s.referenceCount - 1), id, Leaving)
    case SubscriberCleanup(id) => Move(MaybeCleanup(s), id, Left)
    case SubscriberLapses(id) => Move(s.(missed := s.missed || MissesLook(s, a)), id, Left)
  }

  function TaskMoves(s: LifecycleState, a: Action): LifecycleState
    requires !BySubscriber(a)
  {
    match a
    case EnterStart => if s.finished || s.started then s else s.(locked := true, starting := true)
    case SetupFails =>
      s.(finished := true, locked := false, starting := false,
         cleanups := if s.referenceCount == 0 then s.cleanups + 1 else s.cleanups)
    case SetupCancelled => s.(locked := false, starting := false)
    case Spawn =>
      s.(referenceCount := s.referenceCount + 1, started := true, producer := Working, consumer := Running,
         locked := false, starting := false)
    case ProducerExits => s.(requestsShut := true, producer := ClosingAgentQueue)
    case ProducerClosesSubscribers => s.(subscribersShut := true, producer := ClosingSubscribers)
    case ProducerEnds => s.(producer := Ended)
    case ReachTerminal => s.(finished := true, requestsShut := true)
    case ConsumerExits => s.(finished := true, requestsShut := true, consumer := WindingDown)
    case ConsumerInterrupted => s.(consumer := Interrupted)
    case ConsumerReleases => s.(referenceCount := s.referenceCount - 1, consumer := Departing)
    case ConsumerCleanup => MaybeCleanup(s).(consumer := Gone)
    case ConsumerLapses => s.(missed := s.missed || MissesLook(s, a), consumer := Gone)
    case EnterCancel => if !s.finished && s.started then s.(locked := true) else s
    case LeaveCancel => s.(locked := false)
    case AcloseBegins => s.(requestsShut := true, acloseBegan := true)
    case AcloseClosesSubscribers => s.(subscribersShut := true)
    case AcloseFinishes => s.(missed := s.missed || MissesLook(s, a), finished := true)
  }

  function Apply(s: LifecycleState, a: Action): LifecycleState
    requires Enabled(s, a)
  {
    if BySubscriber(a) then SubscriberMoves(s, a) else TaskMoves(s, a)
  }

  const INITIAL := LifecycleState(false, false, 0, false, false, false, false, Unspawned, NotSpawned, map[],
                                  false, false, 0)

  datatype Outcome = Reached(state: LifecycleState) | Impossible

  function Run(s: LifecycleState, run: seq<Action>): Outcome
    decreases |run|
  {
    if run == [] then Reached(s)
    else if !Enabled(s, run[0]) then Impossible
    else Run(Apply(s, run[0]), run[1..])
  }

  function Bit(b: bool): nat {
    if b then 1 else 0
  }

  // ----- The invariant -------------------------------------------------------------------------

  // The count is exact: every reference is held by the consumer or by a subscriber, or was
  // leaked by one that ended without giving it back.
  ghost predicate Counts(s: LifecycleState) {
    s.referenceCount == Bit(s.ConsumerHolds()) + |s.Holding()| + |s.Leaked()| + Bit(s.consumer == Interrupted)
  }

  // Who shut what.
  ghost predicate ShutOk(s: LifecycleState) {
    && (s.requestsShut ==> s.acloseBegan || s.finished || s.producer in {ClosingAgentQueue, ClosingSubscribers, Ended})
    && (s.subscribersShut ==> s.acloseBegan || s.producer in {ClosingSubscribers, Ended})
    && (s.acloseBegan || s.producer in {ClosingAgentQueue, ClosingSubscribers} ==> s.requestsShut)
    && (s.producer == ClosingSubscribers ==> s.subscribersShut)
  }

  // A finished task without references was cleaned up, or someone is about to look, or the last
  // chance to look was missed.
  ghost predicate CleanupOk(s: LifecycleState) {
    && (s.cleanups > 0 ==> s.finished && s.referenceCount == 0)
    && (s.missed ==> s.finished && s.referenceCount == 0 && s.cleanups == 0 && s.consumer != Departing
                     && s.Looking() == {})
    && (s.finished && s.referenceCount == 0 ==>
          s.cleanups > 0 || s.missed || s.consumer == Departing || s.Looking() != {})
  }

  ghost predicate Inv(s: LifecycleState) {
    && Counts(s) && ShutOk(s) && CleanupOk(s)
    && (s.starting ==> s.locked && !s.started && !s.finished)
    && (!s.started <==> s.consumer == NotSpawned) && (!s.started <==> s.producer == Unspawned)
    && (s.consumer in {WindingDown, Departing, Gone} ==> s.finished)
    && (s.consumer in {Departing, Gone} ==> s.producer == Ended)
  }

  lemma OneMore(a: set<nat>, b: set<nat>, id: nat, inside: bool)
    requires b == if inside then a + {id} else a - {id}
    ensures |b| == |a| + Bit(inside) - Bit(id in a)
  {
    if id in a {
      assert a + {id} == a;
    } else {
      assert a - {id} == a;
    }
  }

  // Moving one subscriber changes the two numbers by what it was and what it becomes.
  lemma MovedCounts(s: LifecycleState, id: nat, to: Subscriber)
    ensures var t := Move(s, id, to);
      && |t.Holding()| == |s.Holding()| + Bit(Holds(to)) - Bit(id in s.subscribers && Holds(s.subscribers[id]))
      && |t.Leaked()| == |s.Leaked()| + Bit(to == Dropped) - Bit(Is(s, id, Dropped))
  {
    HoldingMoves(s.subscribers, id, to);
    LeakedMoves(s.subscribers, id, to);
  }

  lemma HoldingMoves(m: map<nat, Subscriber>, id: nat, to: Subscriber)
    ensures |HoldingIn(m[id := to])| == |HoldingIn(m)| + Bit(Holds(to)) - Bit(id in m && Holds(m[id]))
  {
    OneMore(HoldingIn(m), HoldingIn(m[id := to]), id, Holds(to));
  }

  lemma LeakedMoves(m: map<nat, Subscriber>, id: nat, to: Subscriber)
    ensures |DroppedIn(m[id := to])| == |DroppedIn(m)| + Bit(to == Dropped) - Bit(id in m && m[id] == Dropped)
  {
    OneMore(DroppedIn(m), DroppedIn(m[id := to]), id, to == Dropped);
  }

  // Who is still about to look, after a subscriber's step.
  lemma LookersMove(s: LifecycleState, id: nat, to: Subscriber)
    ensures Move(s, id, to).Looking() == if to == Leaving then s.Looking() + {id} else s.Looking() - {id}
  {
  }

  predicate Owes(at: Subscriber) {
    Holds(at) || at == Dropped
  }

  lemma MoveKeeps(s: LifecycleState, t: LifecycleState, id: nat, to: Subscriber)
    requires Inv(s) && CleanupOk(t)
    requires t == s.(referenceCount := t.referenceCount, cleanups := t.cleanups, missed := t.missed,
                     subscribers := s.subscribers[id := to])
    requires t.referenceCount == s.referenceCount + Bit(Owes(to)) - Bit(id in s.subscribers && Owes(s.subscribers[id]))
    ensures Inv(t)
  {
    MovedCounts(s, id, to);
    hide HoldingIn, DroppedIn, CleanupOk, LifecycleState.Looking;
  }

  lemma HoldersAreCounted(s: LifecycleState, id: nat)
    requires Counts(s) && id in s.subscribers && Holds(s.subscribers[id])
    ensures s.referenceCount > 0
  {
    assert id in s.Holding();
  }

  lemma SubscribeKeeps(s: LifecycleState, id: nat, asks: bool)
    requires Inv(s) && Enabled(s, Subscribe(id, asks))
    ensures Inv(SubscriberMoves(s, Subscribe(id, asks)))
  {
    if !s.finished {
      var to := if RefusedEntry(s, asks) then Dropped else Streaming;
      var t := Move(s.(referenceCount := s.referenceCount + 1), id, to);
      hide Counts, ShutOk;
      MoveKeeps(s, t, id, to);
    }
  }

  lemma StreamEndKeeps(s: LifecycleState, a: Action)
    requires Inv(s) && Enabled(s, a) && (a.EndStream? || a.UnsubscribeInterrupted?)
    ensures Inv(SubscriberMoves(s, a))
  {
    var to := if a.EndStream? then Unsubscribing else Dropped;
    HoldersAreCounted(s, a.id);
    hide Counts, ShutOk;
    MoveKeeps(s, Move(s, a.id, to), a.id, to);
  }

  lemma UnsubscribeKeeps(s: LifecycleState, id: nat)
    requires Inv(s) && Enabled(s, Unsubscribe(id))
    ensures Inv(SubscriberMoves(s, Unsubscribe(id)))
  {
    var t := Move(s.(referenceCount := s.referenceCount - 1), id, Leaving);
    HoldersAreCounted(s, id);
    assert id in t.Looking();
    hide Counts, ShutOk;
    MoveKeeps(s, t, id, Leaving);
  }

  lemma LeavingKeeps(s: LifecycleState, id: nat)
    requires Inv(s) && Enabled(s, SubscriberCleanup(id))
    ensures Inv(SubscriberMoves(s, SubscriberCleanup(id)))
  {
    var t := Move(MaybeCleanup(s), id, Left);
    LookersMove(s, id, Left);
    assert t.Looking() == s.Looking() - {id} && id in s.Looking();
    hide Counts, ShutOk, LifecycleState.Looking;
    MoveKeeps(s, t, id, Left);
  }

  lemma LapsingKeeps(s: LifecycleState, id: nat)
    requires Inv(s) && Enabled(s, SubscriberLapses(id))
    ensures Inv(SubscriberMoves(s, SubscriberLapses(id)))
  {
    var t := SubscriberMoves(s, SubscriberLapses(id));
    LookersMove(s, id, Left);
    assert t.Looking() == s.Looking() - {id} && id in s.Looking();
    assert s.Looking() - {id} == {} ==> s.Looking() == {id};
    hide Counts, ShutOk, LifecycleState.Looking;
    MoveKeeps(s, t, id, Left);
  }

  // What the consumer owes changes with its place, and nothing else.
  function ConsumerOwes(s: LifecycleState): nat {
    Bit(s.ConsumerHolds()) + Bit(s.consumer == Interrupted)
  }

  lemma SameSubscribers(s: LifecycleState, t: LifecycleState)
    requires Counts(s) && t.subscribers == s.subscribers
    requires t.referenceCount - ConsumerOwes(t) == s.referenceCount - ConsumerOwes(s)
    ensures Counts(t) && t.Looking() == s.Looking() && s.referenceCount >= ConsumerOwes(s)
  {
    hide HoldingIn, DroppedIn;
  }

  lemma StartKeeps(s: LifecycleState, a: Action)
    requires Inv(s) && Enabled(s, a) && (a.EnterStart? || a.SetupFails? || a.SetupCancelled? || a.Spawn?)
    ensures Inv(TaskMoves(s, a))
  {
    match a {
      case EnterStart => SameSubscribers(s, TaskMoves(s, EnterStart));
      case SetupFails => SameSubscribers(s, TaskMoves(s, SetupFails));
      case SetupCancelled => SameSubscribers(s, TaskMoves(s, SetupCancelled));
      case Spawn => SameSubscribers(s, TaskMoves(s, Spawn));
    }
    hide Counts, LifecycleState.Looking;
  }

  lemma ProducerKeeps(s: LifecycleState, a: Action)
    requires Inv(s) && Enabled(s, a) && (a.ProducerExits? || a.ProducerClosesSubscribers? || a.ProducerEnds?)
    ensures Inv(TaskMoves(s, a))
  {
    match a {
      case ProducerExits => SameSubscribers(s, TaskMoves(s, ProducerExits));
      case ProducerClosesSubscribers => SameSubscribers(s, TaskMoves(s, ProducerClosesSubscribers));
      case ProducerEnds => SameSubscribers(s, TaskMoves(s, ProducerEnds));
    }
    hide Counts, LifecycleState.Looking;
  }

  lemma ConsumerKeeps(s: LifecycleState, a: Action)
    requires Inv(s) && Enabled(s, a)
    requires a.ReachTerminal? || a.ConsumerExits? || a.ConsumerInterrupted? || a.ConsumerReleases?
    ensures Inv(TaskMoves(s, a))
  {
    match a {
      case ReachTerminal => SameSubscribers(s, TaskMoves(s, ReachTerminal));
      case ConsumerExits => SameSubscribers(s, TaskMoves(s, ConsumerExits));
      case ConsumerInterrupted => SameSubscribers(s, TaskMoves(s, ConsumerInterrupted));
      case ConsumerReleases => SameSubscribers(s, TaskMoves(s, ConsumerReleases));
    }
    hide Counts, LifecycleState.Looking;
  }

  lemma ConsumerLeavingKeeps(s: LifecycleState, a: Action)
    requires Inv(s) && Enabled(s, a) && (a.ConsumerCleanup? || a.ConsumerLapses?)
    ensures Inv(TaskMoves(s, a))
  {
    match a {
      case ConsumerCleanup => SameSubscribers(s, TaskMoves(s, ConsumerCleanup));
      case ConsumerLapses => SameSubscribers(s, TaskMoves(s, ConsumerLapses));
    }
    hide Counts, LifecycleState.Looking;
  }

  // A task that was started and is not finished has its consumer's reference.
  lemma StartedIsCounted(s: LifecycleState)
    requires Inv(s) && s.started && !s.finished
    ensures s.referenceCount > 0
  {
    hide HoldingIn, DroppedIn, ShutOk, CleanupOk;
  }

  lemma ControlKeeps(s: LifecycleState, a: Action)
    requires Inv(s) && Enabled(s, a)
    requires a.EnterCancel? || a.LeaveCancel? || a.AcloseBegins? || a.AcloseClosesSubscribers? || a.AcloseFinishes?
    ensures Inv(TaskMoves(s, a))
  {
    match a {
      case EnterCancel => SameSubscribers(s, TaskMoves(s, EnterCancel));
      case LeaveCancel => SameSubscribers(s, TaskMoves(s, LeaveCancel));
      case AcloseBegins => SameSubscribers(s, TaskMoves(s, AcloseBegins));
      case AcloseClosesSubscribers => SameSubscribers(s, TaskMoves(s, AcloseClosesSubscribers));
      case AcloseFinishes => SameSubscribers(s, TaskMoves(s, AcloseFinishes));
    }
    hide Counts, LifecycleState.Looking;
  }

  lemma StepKeeps(s: LifecycleState, a: Action)
    requires Inv(s) && Enabled(s, a)
    ensures Inv(Apply(s, a))
  {
    hide Inv, TaskMoves, SubscriberMoves, Enabled;
    match a {
      case Subscribe(id, asks) => SubscribeKeeps(s, id, asks);
      case EndStream(_) => StreamEndKeeps(s, a);
      case UnsubscribeInterrupted(_) => StreamEndKeeps(s, a);
      case Unsubscribe(id) => UnsubscribeKeeps(s, id);
      case SubscriberCleanup(id) => LeavingKeeps(s, id);
      case SubscriberLapses(id) => LapsingKeeps(s, id);
      case EnterStart => StartKeeps(s, a);
      case SetupFails => StartKeeps(s, a);
      case SetupCancelled => StartKeeps(s, a);
      case Spawn => StartKeeps(s, a);
      case ProducerExits => ProducerKeeps(s, a);
      case ProducerClosesSubscribers => ProducerKeeps(s, a);
      case ProducerEnds => ProducerKeeps(s, a);
      case ReachTerminal => ConsumerKeeps(s, a);
      case ConsumerExits => ConsumerKeeps(s, a);
      case ConsumerInterrupted => ConsumerKeeps(s, a);
      case ConsumerReleases => ConsumerKeeps(s, a);
      case ConsumerCleanup => ConsumerLeavingKeeps(s, a);
      case ConsumerLapses => ConsumerLeavingKeeps(s, a);
      case EnterCancel => ControlKeeps(s, a);
      case LeaveCancel => ControlKeeps(s, a);
      case AcloseBegins => ControlKeeps(s, a);
      case AcloseClosesSubscribers => ControlKeeps(s, a);
      case AcloseFinishes => ControlKeeps(s, a);
    }
  }

  lemma InitialOk()
    ensures Inv(INITIAL)
  {
    assert INITIAL.Holding() == {} && INITIAL.Leaked() == {};
  }

  lemma {:induction false} RunKeeps(s: LifecycleState, run: seq<Action>)
    requires Inv(s) && Run(s, run).Reached?
    ensures Inv(Run(s, run).state)
    decreases |run|
  {
    if run != [] {
      StepKeeps(s, run[0]);
      hide Inv, Apply, Enabled;
      RunKeeps(Apply(s, run[0]), run[1..]);
    }
  }

  // ----- Cleanup is safe -------------------------------------------------------------------------

  // Once finished: forever finished, nobody starts or subscribes any more, and whoever holds
  // a reference held it before.
  ghost predicate NobodyNew(s: LifecycleState, t: LifecycleState) {
    && t.finished && t.started == s.started && t.subscribers.Keys == s.subscribers.Keys
    && t.Holding() <= s.Holding() && (t.ConsumerHolds() ==> s.ConsumerHolds())
    && (s.producer in {Unspawned, Ended} ==> t.producer == s.producer)
  }

  lemma TaskKeepsSubscribers(s: LifecycleState, a: Action)
    requires !BySubscriber(a)
    ensures TaskMoves(s, a).subscribers == s.subscribers
  {
    match a {
      case EnterStart =>
      case SetupFails =>
      case SetupCancelled =>
      case Spawn =>
      case ProducerExits =>
      case ProducerClosesSubscribers =>
      case ProducerEnds =>
      case ReachTerminal =>
      case ConsumerExits =>
      case ConsumerInterrupted =>
      case ConsumerReleases =>
      case ConsumerCleanup =>
      case ConsumerLapses =>
      case EnterCancel =>
      case LeaveCancel =>
      case AcloseBegins =>
      case AcloseClosesSubscribers =>
      case AcloseFinishes =>
    }
  }

  lemma SubscriberKeepsTask(s: LifecycleState, a: Action)
    requires BySubscriber(a)
    ensures var t := SubscriberMoves(s, a);
      && t.finished == s.finished && t.started == s.started && t.consumer == s.consumer && t.producer == s.producer
  {
    match a {
      case Subscribe(_, _) =>
      case EndStream(_) =>
      case UnsubscribeInterrupted(_) =>
      case Unsubscribe(_) =>
      case SubscriberCleanup(_) =>
      case SubscriberLapses(_) =>
    }
  }

  lemma SubscribersFinish(s: LifecycleState, a: Action)
    requires Enabled(s, a) && s.finished && BySubscriber(a)
    ensures var t := SubscriberMoves(s, a); t.subscribers.Keys == s.subscribers.Keys && t.Holding() <= s.Holding()
  {
    match a {
      case Subscribe(_, _) =>
      case EndStream(_) =>
      case UnsubscribeInterrupted(_) =>
      case Unsubscribe(_) =>
      case SubscriberCleanup(_) =>
      case SubscriberLapses(_) =>
    }
  }

  lemma TaskStaysFinished(s: LifecycleState, a: Action)
    requires Inv(s) && Enabled(s, a) && s.finished && !BySubscriber(a)
    ensures var t := TaskMoves(s, a);
      && t.finished && t.started == s.started && (t.ConsumerHolds() ==> s.ConsumerHolds())
      && (s.producer in {Unspawned, Ended} ==> t.producer == s.producer)
  {
    hide Counts, ShutOk, CleanupOk;
    match a {
      case EnterStart =>
      case SetupFails =>
      case SetupCancelled =>
      case Spawn =>
      case ProducerExits =>
      case ProducerClosesSubscribers =>
      case ProducerEnds =>
      case ReachTerminal =>
      case ConsumerExits =>
      case ConsumerInterrupted =>
      case ConsumerReleases =>
      case ConsumerCleanup =>
      case ConsumerLapses =>
      case EnterCancel =>
      case LeaveCancel =>
      case AcloseBegins =>
      case AcloseClosesSubscribers =>
      case AcloseFinishes =>
    }
  }

  lemma FinishedStep(s: LifecycleState, a: Action)
    requires Inv(s) && Enabled(s, a) && s.finished
    ensures NobodyNew(s, Apply(s, a))
  {
    if BySubscriber(a) {
      assert Apply(s, a) == SubscriberMoves(s, a);
      SubscribersFinish(s, a);
      SubscriberKeepsTask(s, a);
      hide *;
      NothingNew(s, Apply(s, a));
    } else {
      assert Apply(s, a) == TaskMoves(s, a);
      TaskKeepsSubscribers(s, a);
      TaskStaysFinished(s, a);
      hide *;
      NothingNew(s, Apply(s, a));
    }
  }

  lemma NothingNew(s: LifecycleState, t: LifecycleState)
    requires t.finished && t.started == s.started && t.subscribers.Keys == s.subscribers.Keys
    requires t.subscribers == s.subscribers || t.Holding() <= s.Holding()
    requires t.consumer == s.consumer || (t.ConsumerHolds() ==> s.ConsumerHolds())
    requires s.producer in {Unspawned, Ended} ==> t.producer == s.producer
    ensures NobodyNew(s, t)
  {
  }

  lemma {:induction false} FinishedForever(s: LifecycleState, run: seq<Action>)
    requires Inv(s) && s.finished && Run(s, run).Reached?
    ensures NobodyNew(s, Run(s, run).state)
    decreases |run|
  {
    if run != [] {
      var t := Apply(s, run[0]);
      StepKeeps(s, run[0]);
      FinishedStep(s, run[0]);
      hide Inv, Apply, Enabled;
      FinishedForever(t, run[1..]);
      var u := Run(t, run[1..]).state;
      assert NobodyNew(s, t) && NobodyNew(t, u);
    }
  }

  // In every run: when the cleanup callback is called, the task is finished, the consumer and all
  // subscribers have given their references back, the producer has ended, and no `start` or
  // `subscribe` will ever succeed again.
  lemma CleanupIsSafe(run: seq<Action>, a: Action, later: seq<Action>)
    requires Run(INITIAL, run).Reached? && Enabled(Run(INITIAL, run).state, a)
    requires Apply(Run(INITIAL, run).state, a).cleanups > Run(INITIAL, run).state.cleanups
    requires Run(Apply(Run(INITIAL, run).state, a), later).Reached?
    ensures var s := Run(INITIAL, run).state; var t := Run(Apply(s, a), later).state;
      && t.finished && t.started == s.started && t.subscribers.Keys == s.subscribers.Keys
      && !s.ConsumerHolds() && s.Holding() == {} && s.referenceCount == 0
      && !t.ConsumerHolds() && t.Holding() == {} && t.producer in {Ended, Unspawned}
  {
    InitialOk();
    RunKeeps(INITIAL, run);
    var s := Run(INITIAL, run).state;
    StepKeeps(s, a);
    CleanupStepIsQuiet(s, a);
    hide Inv, Apply, Enabled, Run;
    FinishedForever(Apply(s, a), later);
  }

  lemma CleanupStepIsQuiet(s: LifecycleState, a: Action)
    requires Inv(s) && Enabled(s, a) && Apply(s, a).cleanups > s.cleanups
    ensures var t := Apply(s, a);
      && t.finished && t.started == s.started && t.subscribers.Keys == s.subscribers.Keys
      && s.referenceCount == 0 && !s.ConsumerHolds() && !t.ConsumerHolds()
      && s.Holding() == {} && t.Holding() == {} && t.producer in {Ended, Unspawned}
  {
    assert a.SetupFails? || a.SubscriberCleanup? || a.ConsumerCleanup?;
    if a.SubscriberCleanup? {
      MovedCounts(s, a.id, Left);
      assert Apply(s, a).Holding() == Move(s, a.id, Left).Holding();
    }
  }

  // The count is never negative and covers everyone who still holds a reference; it is exactly
  // their number if and only if nobody leaked one.
  lemma CountCoversHolders(run: seq<Action>)
    requires Run(INITIAL, run).Reached?
    ensures var s := Run(INITIAL, run).state; var holders := Bit(s.ConsumerHolds()) + |s.Holding()|;
      && 0 <= holders <= s.referenceCount
      && (s.referenceCount == holders <==> s.NothingLeaked())
  {
    InitialOk();
    RunKeeps(INITIAL, run);
  }

  // In every run that is over: the callback was called at least once if and only if the task is
  // finished, nobody leaked a reference, and no step missed the last chance to look.
  lemma CleanedUpExactly(run: seq<Action>)
    requires Run(INITIAL, run).Reached? && Run(INITIAL, run).state.Over()
    ensures var s := Run(INITIAL, run).state; s.cleanups > 0 <==> s.finished && s.NothingLeaked() && !s.missed
  {
    InitialOk();
    RunKeeps(INITIAL, run);
    var s := Run(INITIAL, run).state;
    assert s.Holding() == {} && s.Looking() == {};
    hide Run;
  }

  // `aclose` misses it exactly on a task that was never started nor finished and that nobody counts on.
  lemma AcloseMissesExactly(run: seq<Action>)
    requires Run(INITIAL, run).Reached? && Enabled(Run(INITIAL, run).state, AcloseFinishes)
    ensures var s := Run(INITIAL, run).state;
      MissesLook(s, AcloseFinishes)
      <==> !s.finished && !s.started && s.Holding() == {} && s.Leaked() == {} && s.Looking() == {}
  {
    InitialOk();
    RunKeeps(INITIAL, run);
    var s := Run(INITIAL, run).state;
    if s.started && !s.finished {
      StartedIsCounted(s);
    }
    assert |s.Holding()| == 0 <==> s.Holding() == {};
    assert |s.Leaked()| == 0 <==> s.Leaked() == {};
    hide Run, HoldingIn, DroppedIn, LifecycleState.Looking;
  }

  // Such a task is finished and never cleaned up.
  lemma UnusedTaskIsNotCleanedUp()
    ensures var run := [AcloseBegins, AcloseFinishes];
      && Run(INITIAL, run).Reached?
      && var s := Run(INITIAL, run).state; s.Over() && s.finished && s.NothingLeaked() && s.missed && s.cleanups == 0
  {
    RunHead(INITIAL, AcloseBegins, [AcloseFinishes]);
    RunHead(Apply(INITIAL, AcloseBegins), AcloseFinishes, []);
    assert [AcloseFinishes] + [] == [AcloseFinishes] && [AcloseBegins] + [AcloseFinishes] ==
        [AcloseBegins, AcloseFinishes];
    assert INITIAL.Looking() == {} && INITIAL.Leaked() == {};
  }

  // A `start` cancelled while reading the stored task leaves one that is not even finished.
  lemma CancelledSetupIsNotCleanedUp()
    ensures var run := [EnterStart, SetupCancelled];
      && Run(INITIAL, run).Reached?
      && var s := Run(INITIAL, run).state; s.Over() && !s.finished && !s.started && s.cleanups == 0
  {
    RunHead(INITIAL, EnterStart, [SetupCancelled]);
    RunHead(Apply(INITIAL, EnterStart), SetupCancelled, []);
    assert [SetupCancelled] + [] == [SetupCancelled] && [EnterStart] + [SetupCancelled] == [EnterStart, SetupCancelled];
  }

  // ----- References that are never given back ------------------------------------------------------

  // A counted subscriber is refused, and its reference leaked, exactly when one of the two queues it
  // needs was shut when it came; and then the task was winding down already, without being finished.
  lemma RefusedExactly(run: seq<Action>, id: nat, asks: bool)
    requires Run(INITIAL, run).Reached? && Enabled(Run(INITIAL, run).state, Subscribe(id, asks))
    ensures var s := Run(INITIAL, run).state; var t := Apply(s, Subscribe(id, asks));
      && (Is(t, id, Dropped) <==> !s.finished && (s.subscribersShut || (asks && s.requestsShut)))
      && (Is(t, id, Dropped) ==> s.acloseBegan || s.producer in {ClosingAgentQueue, ClosingSubscribers, Ended})
      && (!s.finished && asks && (s.acloseBegan || s.producer in {ClosingAgentQueue, ClosingSubscribers}) ==>
            Is(t, id, Dropped))
      && (!s.finished && s.producer == ClosingSubscribers ==> Is(t, id, Dropped))
  {
    InitialOk();
    RunKeeps(INITIAL, run);
    hide Run, Counts, CleanupOk;
  }

  lemma LeakIsCounted(s: LifecycleState)
    requires Inv(s) && !s.NothingLeaked()
    ensures s.referenceCount > 0
  {
  }

  lemma DroppedStays(s: LifecycleState, a: Action, i: nat)
    requires Enabled(s, a) && Is(s, i, Dropped)
    ensures Is(Apply(s, a), i, Dropped)
  {
  }

  lemma InterruptedStays(s: LifecycleState, a: Action)
    requires Inv(s) && Enabled(s, a) && s.consumer == Interrupted
    ensures Apply(s, a).consumer == Interrupted
  {
    assert s.starting ==> s.consumer == NotSpawned;
    hide Inv;
  }

  lemma LeakStays(s: LifecycleState, a: Action)
    requires Inv(s) && Enabled(s, a) && !s.NothingLeaked()
    ensures !Apply(s, a).NothingLeaked()
  {
    if s.consumer == Interrupted {
      InterruptedStays(s, a);
    } else {
      var i :| i in s.Leaked();
      DroppedStays(s, a, i);
      hide Inv, Apply, Enabled;
      assert i in Apply(s, a).Leaked();
    }
  }

  lemma SubscriberCleanupNeedsZero(s: LifecycleState, a: Action)
    requires BySubscriber(a) && s.referenceCount != 0
    ensures SubscriberMoves(s, a).cleanups == s.cleanups
  {
    match a {
      case Subscribe(_, _) =>
      case EndStream(_) =>
      case UnsubscribeInterrupted(_) =>
      case Unsubscribe(_) =>
      case SubscriberCleanup(_) =>
      case SubscriberLapses(_) =>
    }
  }

  lemma TaskCleanupNeedsZero(s: LifecycleState, a: Action)
    requires !BySubscriber(a) && s.referenceCount != 0
    ensures TaskMoves(s, a).cleanups == s.cleanups
  {
    match a {
      case EnterStart =>
      case SetupFails =>
      case SetupCancelled =>
      case Spawn =>
      case ProducerExits =>
      case ProducerClosesSubscribers =>
      case ProducerEnds =>
      case ReachTerminal =>
      case ConsumerExits =>
      case ConsumerInterrupted =>
      case ConsumerReleases =>
      case ConsumerCleanup =>
      case ConsumerLapses =>
      case EnterCancel =>
      case LeaveCancel =>
      case AcloseBegins =>
      case AcloseClosesSubscribers =>
      case AcloseFinishes =>
    }
  }

  lemma LeakyStep(s: LifecycleState, a: Action)
    requires Inv(s) && Enabled(s, a) && !s.NothingLeaked()
    ensures Apply(s, a).cleanups == s.cleanups && !Apply(s, a).NothingLeaked()
  {
    LeakIsCounted(s);
    LeakStays(s, a);
    if BySubscriber(a) {
      assert Apply(s, a) == SubscriberMoves(s, a);
      SubscriberCleanupNeedsZero(s, a);
    } else {
      assert Apply(s, a) == TaskMoves(s, a);
      TaskCleanupNeedsZero(s, a);
    }
    hide *;
  }

  // A leaked reference is for good: from then on the callback is never called.
  lemma {:induction false} LeakPreventsCleanup(s: LifecycleState, run: seq<Action>)
    requires Inv(s) && Run(s, run).Reached? && !s.NothingLeaked()
    ensures Run(s, run).state.cleanups == s.cleanups && Run(s, run).state.referenceCount > 0
    decreases |run|
  {
    if run == [] {
      LeakIsCounted(s);
    } else {
      StepKeeps(s, run[0]);
      LeakyStep(s, run[0]);
      hide Inv, Apply, Enabled;
      LeakPreventsCleanup(Apply(s, run[0]), run[1..]);
    }
  }

  // So a subscriber that comes with a request while the producer is winding down keeps the task
  // from ever being cleaned up.
  lemma LateRequestPreventsCleanup(run: seq<Action>, id: nat, later: seq<Action>)
    requires Run(INITIAL, run).Reached? && Enabled(Run(INITIAL, run).state, Subscribe(id, true))
    requires var s := Run(INITIAL, run).state; !s.finished && s.requestsShut
    requires Run(Apply(Run(INITIAL, run).state, Subscribe(id, true)), later).Reached?
    ensures Run(Apply(Run(INITIAL, run).state, Subscribe(id, true)), later).state.cleanups == 0
  {
    InitialOk();
    RunKeeps(INITIAL, run);
    var s := Run(INITIAL, run).state;
    var t := Apply(s, Subscribe(id, true));
    assert t.cleanups == 0 && id in t.Leaked();
    StepKeeps(s, Subscribe(id, true));
    hide Inv, Apply, Enabled, Run;
    LeakPreventsCleanup(t, later);
  }

  lemma RunHead(s: LifecycleState, a: Action, rest: seq<Action>)
    requires Enabled(s, a)
    ensures Run(s, [a] + rest) == Run(Apply(s, a), rest)
  {
    hide Enabled, Apply;
    assert ([a] + rest)[1..] == rest;
  }

  // How the rest of a run ends that has one leaked reference and nobody else.
  lemma WindDown(s: LifecycleState) returns (run: seq<Action>)
    requires s.producer == ClosingAgentQueue && s.consumer == Running && s.referenceCount == 2
    requires !s.locked && !s.starting
    requires s.cleanups == 0 && !s.missed && forall i :: i in s.subscribers ==> s.subscribers[i] == Dropped
    ensures Run(s, run).Reached?
    ensures var t := Run(s, run).state; t.Over() && t.finished && t.referenceCount == 1 && t.cleanups == 0 && !t.missed
  {
    var s1 := Apply(s, ProducerEnds);
    var s2 := Apply(s1, ConsumerExits);
    var s3 := Apply(s2, ConsumerReleases);
    var s4 := Apply(s3, ConsumerCleanup);
    assert s4.Over() && s4.finished && s4.referenceCount == 1 && s4.cleanups == 0 && !s4.missed;
    hide Apply, Enabled, LifecycleState.Over;
    RunHead(s3, ConsumerCleanup, []);
    RunHead(s2, ConsumerReleases, [ConsumerCleanup] + []);
    RunHead(s1, ConsumerExits, [ConsumerReleases] + ([ConsumerCleanup] + []));
    RunHead(s, ProducerEnds, [ConsumerExits] + ([ConsumerReleases] + ([ConsumerCleanup] + [])));
    run := [ProducerEnds] + ([ConsumerExits] + ([ConsumerReleases] + ([ConsumerCleanup] + [])));
  }

  // It does happen: the agent fails, the producer shuts the request queue down, and a subscriber
  // comes with a request before the consumer has seen the failure.
  lemma RefusedSubscriberLeaks() returns (run: seq<Action>)
    ensures Run(INITIAL, run).Reached?
    ensures var s := Run(INITIAL, run).state;
      s.Over() && s.finished && s.referenceCount == 1 && s.cleanups == 0 && !s.missed
  {
    var s1 := Apply(INITIAL, EnterStart);
    var s2 := Apply(s1, Spawn);
    var s3 := Apply(s2, ProducerExits);
    var s4 := Apply(s3, Subscribe(0, true));
    run := WindDown(s4);
    hide Apply, Enabled, LifecycleState.Over;
    RunHead(s3, Subscribe(0, true), run);
    RunHead(s2, ProducerExits, [Subscribe(0, true)] + run);
    RunHead(s1, Spawn, [ProducerExits] + ([Subscribe(0, true)] + run));
    RunHead(INITIAL, EnterStart, [Spawn] + ([ProducerExits] + ([Subscribe(0, true)] + run)));
    run := [EnterStart] + ([Spawn] + ([ProducerExits] + ([Subscribe(0, true)] + run)));
  }

  // ----- The object --------------------------------------------------------------------------------

  datatype Entry = AlreadyCompleted | QueueShutDown | Subscribed

  // The lifecycle fields of `ActiveTask` and of its two queues, updated in place. Ghost fields
  // say where the coroutines are; a method is one section without an `await`.
  class ActiveTask {
    var isFinished: bool
    var tasksSpawned: bool
    var referenceCount: int
    var requestQueueShut: bool
    var subscriberQueueShut: bool
    var lockHeld: bool
    ghost var starting: bool
    ghost var producer: Producer
    ghost var consumer: Consumer
    ghost var subscribers: map<nat, Subscriber>
    ghost var acloseBegan: bool
    ghost var missed: bool
    ghost var cleanups: nat

    ghost function State(): LifecycleState
      reads this
    {
      LifecycleState(isFinished, tasksSpawned, referenceCount, requestQueueShut, subscriberQueueShut, lockHeld,
                     starting, producer, consumer, subscribers, acloseBegan, missed, cleanups)
    }

    ghost predicate Valid()
      reads this
    {
      Inv(State())
    }

    constructor ()
      ensures Valid() && State() == INITIAL
    {
      isFinished, tasksSpawned, referenceCount, lockHeld := false, false, 0, false;
      requestQueueShut, subscriberQueueShut := false, false;
      starting, producer, consumer, subscribers := false, Unspawned, NotSpawned, map[];
      acloseBegan, missed, cleanups := false, false, 0;
      new;
      InitialOk();
    }

    // `start` up to reading the stored task; `proceed` is false if it raises or returns here.
    method StartHead() returns (proceed: bool)
      requires Valid() && !lockHeld
      modifies this
      ensures Valid() && State() == Apply(old(State()), EnterStart)
      ensures proceed == (!old(isFinished) && !old(tasksSpawned)) && proceed == starting
      ensures lockHeld == proceed && referenceCount == old(referenceCount)
    {
      StepKeeps(State(), EnterStart);
      hide Inv;
      if isFinished || tasksSpawned {
        NotStarting();
        return false;
      }
      lockHeld, starting := true, true;
      return true;
    }

    lemma NotStarting()
      requires Valid() && (isFinished || tasksSpawned)
      ensures !starting
    {
    }

    // The rest of `start`; `cleanUp` says whether the callback is called.
    method StartTail(setupOk: bool) returns (cleanUp: bool)
      requires Valid() && starting
      modifies this
      ensures Valid() && State() == Apply(old(State()), if setupOk then Spawn else SetupFails)
      ensures cleanUp == (cleanups > old(cleanups))
      ensures !lockHeld && tasksSpawned == setupOk && isFinished == !setupOk
      ensures referenceCount == old(referenceCount) + if setupOk then 1 else 0
      ensures cleanUp == (!setupOk && referenceCount == 0)
    {
      if setupOk {
        StepKeeps(State(), Spawn);
        hide Inv;
        cleanUp := false;
        referenceCount := referenceCount + 1;
        tasksSpawned := true;
        producer, consumer := Working, Running;
        lockHeld, starting := false, false;
      } else {
        cleanUp := SetupFailure();
      }
    }

    method SetupFailure() returns (cleanUp: bool)
      requires Valid() && starting
      modifies this
      ensures Valid() && State() == Apply(old(State()), SetupFails)
      ensures cleanUp == (cleanups > old(cleanups))
    {
      StepKeeps(State(), SetupFails);
      hide Inv;
      isFinished := true;
      cleanUp := referenceCount == 0;
      if cleanUp {
        cleanups := cleanups + 1;
      }
      lockHeld, starting := false, false;
    }

    // `subscribe` up to the `try`.
    method SubscribeEntry(ghost id: nat, asks: bool) returns (entry: Entry)
      requires Valid() && !lockHeld && id !in subscribers
      modifies this
      ensures Valid() && State() == Apply(old(State()), Subscribe(id, asks))
      ensures entry == if old(isFinished) then AlreadyCompleted
                       else if old(subscriberQueueShut) || (asks && old(requestQueueShut)) then QueueShutDown
                       else Subscribed
      ensures referenceCount == old(referenceCount) + if entry == AlreadyCompleted then 0 else 1
    {
      StepKeeps(State(), Subscribe(id, asks));
      hide Inv, TaskMoves;
      if isFinished {
        return AlreadyCompleted;
      }
      referenceCount := referenceCount + 1;
      if subscriberQueueShut {
        subscribers := subscribers[id := Dropped];
        return QueueShutDown;
      }
      if asks && requestQueueShut {
        subscribers := subscribers[id := Dropped];
        return QueueShutDown;
      }
      subscribers := subscribers[id := Streaming];
      return Subscribed;
    }

    method UnsubscribeSection(ghost id: nat)
      requires Valid() && !lockHeld && Is(State(), id, Unsubscribing)
      modifies this
      ensures Valid() && State() == Apply(old(State()), Unsubscribe(id))
      ensures referenceCount == old(referenceCount) - 1 && !lockHeld
    {
      StepKeeps(State(), Unsubscribe(id));
      hide Inv;
      referenceCount := referenceCount - 1;
      subscribers := subscribers[id := Leaving];
    }

    // The `finally` block of `_run_producer` up to its first `await`.
    method ProducerExit()
      requires Valid() && producer == Working
      modifies this
      ensures Valid() && State() == Apply(old(State()), ProducerExits)
      ensures requestQueueShut && isFinished == old(isFinished) && referenceCount == old(referenceCount)
    {
      StepKeeps(State(), ProducerExits);
      hide Inv;
      requestQueueShut := true;
      producer := ClosingAgentQueue;
    }

    // `_run_consumer` on leaving the event loop, up to its first `await`.
    method ConsumerExit()
      requires Valid() && consumer == Running
      modifies this
      ensures Valid() && State() == Apply(old(State()), ConsumerExits)
      ensures isFinished && requestQueueShut && referenceCount == old(referenceCount)
    {
      StepKeeps(State(), ConsumerExits);
      hide Inv;
      isFinished := true;
      requestQueueShut := true;
      consumer := WindingDown;
    }

    // Its section under the lock, after waiting for the producer.
    method ConsumerRelease()
      requires Valid() && Enabled(State(), ConsumerReleases)
      modifies this
      ensures Valid() && State() == Apply(old(State()), ConsumerReleases)
      ensures referenceCount == old(referenceCount) - 1 && isFinished && requestQueueShut == old(requestQueueShut)
    {
      StepKeeps(State(), ConsumerReleases);
      hide Inv;
      referenceCount := referenceCount - 1;
      consumer := Departing;
    }

    // `_maybe_cleanup`.
    method MaybeCleanUp() returns (cleanUp: bool)
      modifies this`cleanups
      ensures State() == MaybeCleanup(old(State()))
      ensures cleanUp == (isFinished && referenceCount == 0) && cleanUp == (cleanups > old(cleanups))
    {
      cleanUp := isFinished && referenceCount == 0;
      if cleanUp {
        cleanups := cleanups + 1;
      }
    }

    // ... as the last thing a subscriber does,
    method SubscriberLeaves(ghost id: nat) returns (cleanUp: bool)
      requires Valid() && !lockHeld && Is(State(), id, Leaving)
      modifies this`cleanups, this`subscribers
      ensures Valid() && State() == Apply(old(State()), SubscriberCleanup(id))
      ensures cleanUp == (isFinished && referenceCount == 0) && cleanUp == (cleanups > old(cleanups))
    {
      StepKeeps(State(), SubscriberCleanup(id));
      hide Inv, MaybeCleanup, TaskMoves;
      cleanUp := MaybeCleanUp();
      subscribers := subscribers[id := Left];
    }

    // ... or the consumer.
    method ConsumerLeaves() returns (cleanUp: bool)
      requires Valid() && !lockHeld && consumer == Departing
      modifies this`cleanups, this`consumer
      ensures Valid() && State() == Apply(old(State()), ConsumerCleanup)
      ensures cleanUp == (isFinished && referenceCount == 0) && cleanUp == (cleanups > old(cleanups))
    {
      StepKeeps(State(), ConsumerCleanup);
      hide Inv, MaybeCleanup, SubscriberMoves;
      cleanUp := MaybeCleanUp();
      consumer := Gone;
    }
  }
}
