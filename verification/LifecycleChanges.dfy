// What every step of `Lifecycle` changes, field by field, and what a run therefore leaves behind.

module LifecycleChanges {
  import opened Lifecycle

  // ----- One step ----------------------------------------------------------------------------

  // The flags that are set once: which steps set them.
  predicate Finishes(a: Action) {
    a.SetupFails? || a.ReachTerminal? || a.ConsumerExits? || a.AcloseFinishes?
  }

  predicate ShutsRequests(a: Action) {
    a.ProducerExits? || a.ReachTerminal? || a.ConsumerExits? || a.AcloseBegins?
  }

  predicate ShutsSubscribers(a: Action) {
    a.ProducerClosesSubscribers? || a.AcloseClosesSubscribers?
  }

  ghost predicate FlagsChange(s: LifecycleState, a: Action, t: LifecycleState) {
    && (t.finished <==> s.finished || Finishes(a))
    && (t.requestsShut <==> s.requestsShut || ShutsRequests(a))
    && (t.subscribersShut <==> s.subscribersShut || ShutsSubscribers(a))
    && (t.started <==> s.started || a.Spawn?)
    && (t.acloseBegan <==> s.acloseBegan || a.AcloseBegins?)
  }

  // The lock is kept over an `await` by a `start` that goes on to read the stored task and by a
  // `cancel` of a running task.
  ghost predicate LockChange(s: LifecycleState, a: Action, t: LifecycleState) {
    && (t.starting <==> (a.EnterStart? && !s.finished && !s.started)
                        || (s.starting && !a.SetupFails? && !a.SetupCancelled? && !a.Spawn?))
    && (t.locked <==> (a.EnterStart? && !s.finished && !s.started)
                      || (a.EnterCancel? && !s.finished && s.started)
                      || (s.locked && !a.SetupFails? && !a.SetupCancelled? && !a.Spawn? && !a.LeaveCancel?))
  }

  // The count goes up by a spawned consumer and by a subscriber let in, and down by one that is done.
  ghost predicate CountChanges(s: LifecycleState, a: Action, t: LifecycleState) {
    t.referenceCount == if a.Spawn? || (a.Subscribe? && !s.finished) then s.referenceCount + 1
                        else if a.ConsumerReleases? || a.Unsubscribe? then s.referenceCount - 1
                        else s.referenceCount
  }

  // The callback is called by those who look and find the task finished and the count at zero, and by a
  // `start` that fails when nobody counts.
  ghost predicate CleanupsChange(s: LifecycleState, a: Action, t: LifecycleState) {
    t.cleanups == if s.referenceCount == 0 &&
                     (a.SetupFails? || ((a.SubscriberCleanup? || a.ConsumerCleanup?) && s.finished)) then s.cleanups + 1
                  else s.cleanups
  }

  lemma SubscriberFlags(s: LifecycleState, a: Action)
    requires BySubscriber(a)
    ensures FlagsChange(s, a, SubscriberMoves(s, a))
  {
    hide MissesLook, RefusedEntry;
    match a {
      case Subscribe(_, _) =>
      case EndStream(_) =>
      case UnsubscribeInterrupted(_) =>
      case Unsubscribe(_) =>
      case SubscriberCleanup(_) =>
      case SubscriberLapses(_) =>
    }
  }

  lemma SubscriberLock(s: LifecycleState, a: Action)
    requires BySubscriber(a)
    ensures LockChange(s, a, SubscriberMoves(s, a))
  {
    hide MissesLook, RefusedEntry;
    match a {
      case Subscribe(_, _) =>
      case EndStream(_) =>
      case UnsubscribeInterrupted(_) =>
      case Unsubscribe(_) =>
      case SubscriberCleanup(_) =>
      case SubscriberLapses(_) =>
    }
  }

  lemma SubscriberCount(s: LifecycleState, a: Action)
    requires BySubscriber(a)
    ensures CountChanges(s, a, SubscriberMoves(s, a))
  {
    hide MissesLook, RefusedEntry;
    match a {
      case Subscribe(_, _) =>
      case EndStream(_) =>
      case UnsubscribeInterrupted(_) =>
      case Unsubscribe(_) =>
      case SubscriberCleanup(_) =>
      case SubscriberLapses(_) =>
    }
  }

  lemma SubscriberCleanups(s: LifecycleState, a: Action)
    requires BySubscriber(a)
    ensures CleanupsChange(s, a, SubscriberMoves(s, a))
  {
    hide MissesLook, RefusedEntry;
    match a {
      case Subscribe(_, _) =>
      case EndStream(_) =>
      case UnsubscribeInterrupted(_) =>
      case Unsubscribe(_) =>
      case SubscriberCleanup(_) =>
      case SubscriberLapses(_) =>
    }
  }

  lemma TaskFlags(s: LifecycleState, a: Action)
    requires !BySubscriber(a)
    ensures FlagsChange(s, a, TaskMoves(s, a))
  {
    hide MissesLook;
    match a {
      case EnterStart => case SetupFails => case SetupCancelled => case Spawn =>
      case ProducerExits => case ProducerClosesSubscribers => case ProducerEnds =>
      case ReachTerminal => case ConsumerExits => case ConsumerInterrupted =>
      case ConsumerReleases => case ConsumerCleanup => case ConsumerLapses =>
      case EnterCancel => case LeaveCancel =>
      case AcloseBegins => case AcloseClosesSubscribers => case AcloseFinishes =>
    }
  }

  lemma TaskLock(s: LifecycleState, a: Action)
    requires !BySubscriber(a)
    ensures LockChange(s, a, TaskMoves(s, a))
  {
    hide MissesLook;
    match a {
      case EnterStart => case SetupFails => case SetupCancelled => case Spawn =>
      case ProducerExits => case ProducerClosesSubscribers => case ProducerEnds =>
      case ReachTerminal => case ConsumerExits => case ConsumerInterrupted =>
      case ConsumerReleases => case ConsumerCleanup => case ConsumerLapses =>
      case EnterCancel => case LeaveCancel =>
      case AcloseBegins => case AcloseClosesSubscribers => case AcloseFinishes =>
    }
  }

  lemma TaskCount(s: LifecycleState, a: Action)
    requires !BySubscriber(a)
    ensures CountChanges(s, a, TaskMoves(s, a))
  {
    hide MissesLook;
    match a {
      case EnterStart => case SetupFails => case SetupCancelled => case Spawn =>
      case ProducerExits => case ProducerClosesSubscribers => case ProducerEnds =>
      case ReachTerminal => case ConsumerExits => case ConsumerInterrupted =>
      case ConsumerReleases => case ConsumerCleanup => case ConsumerLapses =>
      case EnterCancel => case LeaveCancel =>
      case AcloseBegins => case AcloseClosesSubscribers => case AcloseFinishes =>
    }
  }

  lemma TaskCleanups(s: LifecycleState, a: Action)
    requires !BySubscriber(a)
    ensures CleanupsChange(s, a, TaskMoves(s, a))
  {
    hide MissesLook;
    match a {
      case EnterStart => case SetupFails => case SetupCancelled => case Spawn =>
      case ProducerExits => case ProducerClosesSubscribers => case ProducerEnds =>
      case ReachTerminal => case ConsumerExits => case ConsumerInterrupted =>
      case ConsumerReleases => case ConsumerCleanup => case ConsumerLapses =>
      case EnterCancel => case LeaveCancel =>
      case AcloseBegins => case AcloseClosesSubscribers => case AcloseFinishes =>
    }
  }

  // Every flag, the lock, the count and the callback change by the steps named, and by no others.
  lemma FieldsExactly(s: LifecycleState, a: Action)
    requires Enabled(s, a)
    ensures FlagsChange(s, a, Apply(s, a)) && LockChange(s, a, Apply(s, a))
    ensures CountChanges(s, a, Apply(s, a)) && CleanupsChange(s, a, Apply(s, a))
  {
    hide FlagsChange, LockChange, CountChanges, CleanupsChange, SubscriberMoves, TaskMoves;
    if BySubscriber(a) {
      SubscriberFlags(s, a);
      SubscriberLock(s, a);
      SubscriberCount(s, a);
      SubscriberCleanups(s, a);
    } else {
      TaskFlags(s, a);
      TaskLock(s, a);
      TaskCount(s, a);
      TaskCleanups(s, a);
    }
  }

  // While the lock is held, only its holder touches the count, calls the callback, starts anything or
  // lets anyone in.
  lemma LockExcludes(s: LifecycleState, a: Action)
    requires Inv(s) && Enabled(s, a) && s.locked && Apply(s, a).locked
    ensures var t := Apply(s, a);
      && t.referenceCount == s.referenceCount && t.cleanups == s.cleanups && t.starting == s.starting
      && t.started == s.started && forall id :: id in t.subscribers ==> id in s.subscribers
  {
    FieldsExactly(s, a);
    forall id | id in Apply(s, a).subscribers ensures id in s.subscribers {
      SubscriberMovesExactly(s, a, id);
      hide Apply;
    }
    hide Apply, Counts, CleanupOk, ShutOk;
  }

  // Where producer and consumer go.
  lemma TasksMoveExactly(s: LifecycleState, a: Action)
    requires Inv(s) && Enabled(s, a)
    ensures var p, q, c, d := s.producer, Apply(s, a).producer, s.consumer, Apply(s, a).consumer;
      match a
      case Spawn => p == Unspawned && q == Working && c == NotSpawned && d == Running
      case ProducerExits => p == Working && q == ClosingAgentQueue && d == c
      case ProducerClosesSubscribers => p == ClosingAgentQueue && q == ClosingSubscribers && d == c
      case ProducerEnds => p in {Working, ClosingAgentQueue, ClosingSubscribers} && q == Ended && d == c
      case ConsumerExits => c == Running && d == WindingDown && q == p
      case ConsumerInterrupted => c in {Running, WindingDown} && d == Interrupted && q == p
      case ConsumerReleases => c == WindingDown && p == Ended && d == Departing && q == p
      case ConsumerCleanup => c == Departing && d == Gone && q == p
      case ConsumerLapses => c == Departing && d == Gone && q == p
      case _ => q == p && d == c
  {
    hide Counts, CleanupOk, ShutOk, MissesLook;
    if BySubscriber(a) {
      hide TaskMoves;
    } else {
      hide SubscriberMoves;
      match a {
        case EnterStart => case SetupFails => case SetupCancelled => case Spawn =>
        case ProducerExits => case ProducerClosesSubscribers => case ProducerEnds =>
        case ReachTerminal => case ConsumerExits => case ConsumerInterrupted =>
        case ConsumerReleases => case ConsumerCleanup => case ConsumerLapses =>
        case EnterCancel => case LeaveCancel =>
        case AcloseBegins => case AcloseClosesSubscribers => case AcloseFinishes =>
      }
    }
  }

  // Where a subscriber goes. It is let in unless the task is finished, and then lost if a queue it needs
  // is shut; it gives its reference back before it looks, and loses it if it is cancelled first.
  lemma SubscriberMovesExactly(s: LifecycleState, a: Action, id: nat)
    requires Enabled(s, a)
    ensures id in Apply(s, a).subscribers <==> id in s.subscribers || (a.Subscribe? && a.id == id && !s.finished)
    ensures id !in s.subscribers && id in Apply(s, a).subscribers ==>
      Apply(s, a).subscribers[id] == if s.subscribersShut || (a.asks && s.requestsShut) then Dropped else Streaming
    ensures id in s.subscribers ==>
      var x, y := s.subscribers[id], Apply(s, a).subscribers[id];
      match a
      case EndStream(i) => if i == id then x == Streaming && y == Unsubscribing else y == x
      case UnsubscribeInterrupted(i) => if i == id then x == Unsubscribing && y == Dropped else y == x
      case Unsubscribe(i) => if i == id then x == Unsubscribing && y == Leaving else y == x
      case SubscriberCleanup(i) => if i == id then x == Leaving && y == Left else y == x
      case SubscriberLapses(i) => if i == id then x == Leaving && y == Left else y == x
      case _ => y == x
  {
    hide MissesLook;
    if BySubscriber(a) {
      hide TaskMoves;
      match a {
        case Subscribe(_, _) =>
        case EndStream(_) =>
        case UnsubscribeInterrupted(_) =>
        case Unsubscribe(_) =>
        case SubscriberCleanup(_) =>
        case SubscriberLapses(_) =>
      }
    } else {
      TaskKeepsSubscribers(s, a);
      hide SubscriberMoves, TaskMoves;
    }
  }

  // ----- Runs ----------------------------------------------------------------------------------

  predicate AnyIn(past: seq<Action>, p: Action -> bool) {
    exists a :: a in past && p(a)
  }

  lemma AnyInNext(past: seq<Action>, a: Action, p: Action -> bool)
    ensures AnyIn(past + [a], p) <==> AnyIn(past, p) || p(a)
  {
    assert forall b :: b in past + [a] <==> b in past || b == a;
  }

  // What flags a run has set, by its steps.
  ghost predicate ToldBy(s: LifecycleState, past: seq<Action>) {
    && (s.finished <==> AnyIn(past, Finishes))
    && (s.requestsShut <==> AnyIn(past, ShutsRequests))
    && (s.subscribersShut <==> AnyIn(past, ShutsSubscribers))
    && (s.started <==> AnyIn(past, (a: Action) => a.Spawn?))
    && (s.consumer in {WindingDown, Departing, Gone} ==> AnyIn(past, (a: Action) => a.ConsumerExits?))
    && (s.producer in {ClosingAgentQueue, ClosingSubscribers} ==> AnyIn(past, (a: Action) => a.ProducerExits?))
  }

  lemma ToldByNext(s: LifecycleState, past: seq<Action>, a: Action)
    requires Inv(s) && Enabled(s, a) && ToldBy(s, past)
    ensures ToldBy(Apply(s, a), past + [a])
  {
    FieldsExactly(s, a);
    TasksMoveExactly(s, a);
    AnyInNext(past, a, Finishes);
    AnyInNext(past, a, ShutsRequests);
    AnyInNext(past, a, ShutsSubscribers);
    AnyInNext(past, a, (a: Action) => a.Spawn?);
    AnyInNext(past, a, (a: Action) => a.ConsumerExits?);
    AnyInNext(past, a, (a: Action) => a.ProducerExits?);
    hide Inv, Apply, Enabled, AnyIn;
  }

  lemma {:induction false} RunIsToldBy(s: LifecycleState, past: seq<Action>, run: seq<Action>)
    requires Inv(s) && ToldBy(s, past) && Run(s, run).Reached?
    ensures ToldBy(Run(s, run).state, past + run)
    decreases |run|
  {
    hide Inv, Apply, Enabled, ToldBy;
    if run == [] {
      assert past + run == past;
    } else {
      StepKeeps(s, run[0]);
      ToldByNext(s, past, run[0]);
      RunIsToldBy(Apply(s, run[0]), past + [run[0]], run[1..]);
      assert past + [run[0]] + run[1..] == past + run;
    }
  }

  // In every run: the task is finished exactly if a setup failed, a terminal state was stored, the
  // consumer left its loop or `aclose` came through; the request queue is shut exactly if the producer
  // or the consumer left, a terminal state was stored or `aclose` began. So it is shut whenever the
  // consumer is past its loop.
  lemma FlagsOfRuns(run: seq<Action>)
    requires Run(INITIAL, run).Reached?
    ensures var s := Run(INITIAL, run).state;
      && (s.finished <==> SetupFails in run || ReachTerminal in run || ConsumerExits in run || AcloseFinishes in run)
      && (s.requestsShut <==>
            ProducerExits in run || ReachTerminal in run || ConsumerExits in run || AcloseBegins in run)
      && (s.subscribersShut <==> ProducerClosesSubscribers in run || AcloseClosesSubscribers in run)
      && (s.started <==> Spawn in run)
      && (s.consumer in {WindingDown, Departing, Gone} ==> s.requestsShut && s.finished)
      && (s.producer in {ClosingAgentQueue, ClosingSubscribers} ==> s.requestsShut)
  {
    InitialOk();
    assert ToldBy(INITIAL, []);
    hide Inv;
    RunIsToldBy(INITIAL, [], run);
    assert [] + run == run;
  }

  // Once shut, the request queue stays shut.
  lemma {:induction false} RequestsStayShut(s: LifecycleState, run: seq<Action>)
    requires s.requestsShut && Run(s, run).Reached?
    ensures Run(s, run).state.requestsShut
    decreases |run|
  {
    if run != [] {
      FieldsExactly(s, run[0]);
      hide Apply, Enabled;
      RequestsStayShut(Apply(s, run[0]), run[1..]);
    }
  }
}
