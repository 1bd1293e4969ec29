// Safety of the broadcast queue over every interleaving: the invariant of `Broadcast` is
// kept by every action, and what follows from it for sinks, for eviction and for closing.

module BroadcastSafety {
  import opened AsyncQueues
  import opened Broadcast

  // ----- One sink at a time --------------------------------------------------------------

  // A sink whose queue was read, acknowledged or shut down, but not written.
  lemma UnwrittenSinkOk<Id, E>(sink: Sink<E>, sink2: Sink<E>, id: Id, taken: seq<E>,
      snapshots: seq<set<Id>>, attached: bool, dispatcher: Dispatcher<Id, E>)
    requires SinkOk(sink, id, taken, snapshots, attached, dispatcher)
    requires sink2.queue.Conserved() && sink2.queue.capacity == sink.queue.capacity
    requires sink2.queue.accepted == sink.queue.accepted
    requires sink2.queue.Full() ==> sink.queue.Full()
    requires sink2.closed == sink2.queue.isShutdown && (sink.closed ==> sink2.closed)
    requires sink2.start == sink.start && sink2.evictOnFull == sink.evictOnFull
    ensures SinkOk(sink2, id, taken, snapshots, attached, dispatcher)
  {
  }

  // The put that ends the delivery to an open sink, and the put a closed sink refuses.
  lemma StoredSinkOk<Id, E>(sink: Sink<E>, id: Id, taken: seq<E>, snapshots: seq<set<Id>>,
      attached: bool, d1: Dispatcher<Id, E>, d2: Dispatcher<Id, E>)
    requires SinkOk(sink, id, taken, snapshots, attached, d1) && InRound(d1, id)
    requires |taken| == |snapshots| && d1.event == taken[|taken| - 1]
    requires PutResult(sink.queue) != PutBlocked
    requires !InRound(d2, id)
    ensures SinkOk(sink.(queue := Put(sink.queue, d1.event)), id, taken, snapshots, attached, d2)
  {
    PutConserves(sink.queue, d1.event);
  }

  // The delivery moves on without touching the sink.
  lemma MovedSinkOk<Id, E>(sink: Sink<E>, id: Id, taken: seq<E>, snapshots: seq<set<Id>>,
      attached: bool, d1: Dispatcher<Id, E>, d2: Dispatcher<Id, E>)
    requires SinkOk(sink, id, taken, snapshots, attached, d1) && InRound(d1, id)
    requires d2.Delivering? && (!InRound(d2, id) ==> sink.closed)
    requires InRound(d2, id) && d2.pending[id] == Putting && sink.evictOnFull && !sink.closed ==> !sink.queue.Full()
    requires InRound(d2, id) && d2.pending[id] == Detaching ==> sink.closed
    ensures SinkOk(sink, id, taken, snapshots, attached, d2)
  {
  }

  // The delivery to one sink says nothing about another one.
  lemma OtherDelivery<Id, E>(sink: Sink<E>, id: Id, taken: seq<E>, snapshots: seq<set<Id>>,
      attached: bool, d1: Dispatcher<Id, E>, d2: Dispatcher<Id, E>)
    requires SinkOk(sink, id, taken, snapshots, attached, d1)
    requires d1.Delivering? && d2.Delivering? && (InRound(d1, id) <==> InRound(d2, id))
    requires InRound(d1, id) ==> d1.pending[id] == d2.pending[id]
    ensures SinkOk(sink, id, taken, snapshots, attached, d2)
  {
  }

  // ----- One sink at a time inside the state ------------------------------------------------

  lemma ReplacedSinkKeeps<Id, E>(s: State<Id, E>, id: Id, sink2: Sink<E>)
    requires Inv(s) && id in s.sinks
    requires SinkOk(sink2, id, s.incoming.taken, s.snapshots, id in s.attached, s.dispatcher)
    ensures Inv(s.(sinks := s.sinks[id := sink2]))
  {
    hide SinkOk;
    var s2 := s.(sinks := s.sinks[id := sink2]);
    assert s2.sinks.Keys == s.sinks.Keys;
    forall o | o in s2.sinks ensures SinkFits(s2, o) {
      if o != id {
        assert SinkFits(s, o);
      }
    }
  }

  lemma UnwrittenSinkKeeps<Id, E>(s: State<Id, E>, id: Id, closed: bool, q: Queue<E>)
    requires Inv(s) && id in s.sinks
    requires var sink := s.sinks[id];
      && q.Conserved() && q.capacity == sink.queue.capacity && q.accepted == sink.queue.accepted
      && (q.Full() ==> sink.queue.Full())
      && closed == q.isShutdown && (sink.closed ==> closed)
    ensures Inv(s.(sinks := s.sinks[id := s.sinks[id].(closed := closed, queue := q)]))
  {
    assert SinkFits(s, id);
    hide Inv, SinkOk;
    var sink2 := s.sinks[id].(closed := closed, queue := q);
    UnwrittenSinkOk(s.sinks[id], sink2, id, s.incoming.taken, s.snapshots, id in s.attached, s.dispatcher);
    ReplacedSinkKeeps(s, id, sink2);
  }

  // The delivery to `id` moves to d2, everything else stays.
  lemma MovedDeliveryKeeps<Id, E>(s: State<Id, E>, id: Id, pending: map<Id, Phase>)
    requires Inv(s) && InRound(s.dispatcher, id)
    requires pending.Keys <= s.dispatcher.pending.Keys
    requires forall o :: o in s.dispatcher.pending && o != id ==> o in pending && pending[o] == s.dispatcher.pending[o]
    requires id in s.sinks
    requires SinkOk(s.sinks[id], id, s.incoming.taken, s.snapshots, id in s.attached,
                    s.dispatcher.(pending := pending))
    ensures Inv(s.(dispatcher := s.dispatcher.(pending := pending)))
  {
    var s2 := s.(dispatcher := s.dispatcher.(pending := pending));
    forall o | o in s2.sinks ensures SinkFits(s2, o) {
      assert SinkFits(s, o);
      hide SinkOk;
      if o != id {
        OtherDelivery(s.sinks[o], o, s.incoming.taken, s.snapshots, o in s.attached, s.dispatcher, s2.dispatcher);
      }
    }
    hide SinkOk, SinkFits;
  }

  // ----- Every action keeps the invariant -------------------------------------------------

  lemma EnqueueKeeps<Id, E>(s: State<Id, E>, e: E)
    requires Inv(s) && Enabled(s, Enqueue(e))
    ensures Inv(Apply(s, Enqueue(e)))
  {
    PutConserves(s.incoming, e);
  }

  lemma TapKeeps<Id, E>(s: State<Id, E>, a: Action<Id, E>)
    requires Inv(s) && Enabled(s, a) && a.Tap?
    ensures Inv(Apply(s, a))
  {
    if !s.closed {
      var t := Apply(s, a);
      forall o | o in t.sinks ensures SinkFits(t, o) {
        if o != a.id {
          assert SinkFits(s, o);
          hide SinkOk;
        }
      }
      hide SinkOk, SinkFits;
    }
  }

  lemma RemoveKeeps<Id, E>(s: State<Id, E>, id: Id)
    requires Inv(s) && id in s.sinks
    ensures Inv(s.(attached := s.attached - {id}))
  {
    var t := s.(attached := s.attached - {id});
    forall o | o in t.sinks ensures SinkFits(t, o) {
      assert SinkFits(s, o);
    }
    hide SinkOk, SinkFits;
  }

  lemma RemoveStepKeeps<Id, E>(s: State<Id, E>, id: Id)
    requires Inv(s) && Enabled(s, Remove(id))
    ensures Inv(Apply(s, Remove(id)))
  {
    hide Inv;
    RemoveKeeps(s, id);
  }

  lemma TakeKeeps<Id, E>(s: State<Id, E>)
    requires Inv(s) && Enabled(s, Take)
    ensures Inv(Apply(s, Take))
  {
    GetConserves(s.incoming);
  }

  lemma StoppingKeeps<Id, E>(s: State<Id, E>, a: Action<Id, E>)
    requires Inv(s) && Enabled(s, a) && (a.Drained? || a.Cancelled?)
    ensures Inv(Apply(s, a))
  {
  }

  lemma SnapshotKeeps<Id, E>(s: State<Id, E>)
    requires Inv(s) && Enabled(s, Snapshot)
    ensures Inv(Apply(s, Snapshot))
  {
  }

  lemma FinishKeeps<Id, E>(s: State<Id, E>)
    requires Inv(s) && Enabled(s, Finish)
    ensures Inv(Apply(s, Finish))
  {
    TaskDoneConserves(s.incoming);
  }

  lemma CheckKeeps<Id, E>(s: State<Id, E>, id: Id)
    requires Inv(s) && Enabled(s, Check(id))
    ensures Inv(Apply(s, Check(id)))
  {
    assert SinkFits(s, id);
    var evict := !s.sinks[id].closed && s.sinks[id].evictOnFull && s.sinks[id].queue.Full();
    var s1 := if evict then ShutSink(s, id, true) else s;
    if evict {
      ShutdownConserves(s.sinks[id].queue, true);
      UnwrittenSinkKeeps(s, id, true, Shutdown(s.sinks[id].queue, true));
    }
    var pending := Apply(s, Check(id)).dispatcher.pending;
    assert Inv(s1) && SinkFits(s1, id);
    hide Inv, SinkOk;
    MovedSinkOk(s1.sinks[id], id, s1.incoming.taken, s1.snapshots, id in s1.attached, s1.dispatcher,
                s1.dispatcher.(pending := pending));
    MovedDeliveryKeeps(s1, id, pending);
  }

  // The put ends the delivery to its sink ...
  lemma StoredSinkFits<Id, E>(s: State<Id, E>, id: Id)
    requires Inv(s) && Enabled(s, Store(id))
    ensures SinkFits(Apply(s, Store(id)), id)
  {
    assert SinkFits(s, id) && DispatcherOk(s);
    hide Inv;
    StoredSinkOk(s.sinks[id], id, s.incoming.taken, s.snapshots, id in s.attached, s.dispatcher,
                 Apply(s, Store(id)).dispatcher);
  }

  // ... and leaves the others as they were.
  lemma OtherSinkFits<Id, E>(s: State<Id, E>, id: Id, o: Id)
    requires Inv(s) && Enabled(s, Store(id)) && o in s.sinks && o != id
    ensures SinkFits(Apply(s, Store(id)), o)
  {
    assert SinkFits(s, o);
    hide Inv, SinkOk, Put;
    OtherDelivery(s.sinks[o], o, s.incoming.taken, s.snapshots, o in s.attached, s.dispatcher,
                  Apply(s, Store(id)).dispatcher);
  }

  // A delivery moved on; the sinks are checked one by one.
  lemma RoundKeeps<Id, E>(s: State<Id, E>, t: State<Id, E>)
    requires Inv(s) && s.dispatcher.Delivering?
    requires t.dispatcher.Delivering? && t.dispatcher.pending.Keys <= s.dispatcher.pending.Keys
    requires t == s.(sinks := t.sinks, dispatcher := s.dispatcher.(pending := t.dispatcher.pending))
    requires t.sinks.Keys == s.sinks.Keys && forall o :: o in t.sinks ==> SinkFits(t, o)
    ensures Inv(t)
  {
    assert DispatcherOk(s);
    hide SinkFits;
  }

  lemma StoreKeeps<Id, E>(s: State<Id, E>, id: Id)
    requires Inv(s) && Enabled(s, Store(id))
    ensures Inv(Apply(s, Store(id)))
  {
    var t := Apply(s, Store(id));
    forall o | o in s.sinks ensures SinkFits(t, o) {
      hide Inv, SinkFits, Apply, Enabled;
      if o == id {
        StoredSinkFits(s, id);
      } else {
        OtherSinkFits(s, id, o);
      }
    }
    hide Inv, SinkFits, Put;
    RoundKeeps(s, t);
  }

  lemma DetachKeeps<Id, E>(s: State<Id, E>, id: Id)
    requires Inv(s) && Enabled(s, Detach(id))
    ensures Inv(Apply(s, Detach(id)))
  {
    RemoveKeeps(s, id);
    var s1, pending := s.(attached := s.attached - {id}), s.dispatcher.pending - {id};
    assert SinkFits(s1, id);
    hide Inv, SinkOk;
    MovedSinkOk(s1.sinks[id], id, s1.incoming.taken, s1.snapshots, id in s1.attached, s1.dispatcher,
                s1.dispatcher.(pending := pending));
    MovedDeliveryKeeps(s1, id, pending);
  }

  lemma CloseSourceKeeps<Id, E>(s: State<Id, E>, immediate: bool)
    requires Inv(s)
    ensures Inv(Apply(s, CloseSource(immediate)))
  {
    ShutdownConserves(s.incoming, immediate);
  }

  lemma SinkQueueKeeps<Id, E>(s: State<Id, E>, a: Action<Id, E>)
    requires Inv(s) && Enabled(s, a) && (a.CloseSink? || a.Dequeue? || a.Acknowledge?)
    ensures Inv(Apply(s, a))
  {
    var sink := s.sinks[a.id];
    assert SinkFits(s, a.id);
    hide Inv;
    if a.CloseSink? {
      ShutdownConserves(sink.queue, a.immediate);
      UnwrittenSinkKeeps(s, a.id, true, Shutdown(sink.queue, a.immediate));
    } else if a.Dequeue? {
      GetConserves(sink.queue);
      UnwrittenSinkKeeps(s, a.id, sink.closed, Get(sink.queue));
    } else {
      TaskDoneConserves(sink.queue);
      UnwrittenSinkKeeps(s, a.id, sink.closed, TaskDone(sink.queue));
    }
  }

  lemma StepKeeps<Id, E>(s: State<Id, E>, a: Action<Id, E>)
    requires Inv(s) && Enabled(s, a)
    ensures Inv(Apply(s, a))
  {
    hide Inv, Apply, Enabled;
    match a {
      case Enqueue(e) => EnqueueKeeps(s, e);
      case Take => TakeKeeps(s);
      case Snapshot => SnapshotKeeps(s);
      case Finish => FinishKeeps(s);
      case Check(id) => CheckKeeps(s, id);
      case Store(id) => StoreKeeps(s, id);
      case Detach(id) => DetachKeeps(s, id);
      case CloseSource(immediate) => CloseSourceKeeps(s, immediate);
      case Tap(_, _, _) => TapKeeps(s, a);
      case Remove(id) => RemoveStepKeeps(s, id);
      case Drained => StoppingKeeps(s, a);
      case Cancelled => StoppingKeeps(s, a);
      case _ => SinkQueueKeeps(s, a);
    }
  }

  lemma InitialInv<Id, E>(capacity: nat, defaults: set<Id>)
    requires capacity > 0
    ensures Inv<Id, E>(Initial(capacity, defaults))
  {
  }

  lemma {:induction false} RunKeeps<Id, E>(s: State<Id, E>, run: seq<Action<Id, E>>)
    requires Inv(s) && Run(s, run).Reached?
    ensures Inv(Run(s, run).state)
    decreases |run|
  {
    hide Inv, Apply, Enabled;
    if run != [] {
      StepKeeps(s, run[0]);
      RunKeeps(Apply(s, run[0]), run[1..]);
    }
  }

  // What the objects need to know of the invariant.
  lemma SourceFacts<Id, E>(s: State<Id, E>)
    requires Inv(s)
    ensures s.incoming.Conserved() && s.attached <= s.sinks.Keys
    ensures s.dispatcher.Delivering? ==> s.incoming.unfinished > 0 || s.incoming.flushed
  {
  }

  lemma SinkFacts<Id, E>(s: State<Id, E>, id: Id)
    requires Inv(s) && id in s.sinks
    ensures s.sinks[id].queue.Conserved() && (s.sinks[id].closed <==> s.sinks[id].queue.isShutdown)
  {
    assert SinkFits(s, id);
  }

  // ----- Sinks hold a slice of the source ---------------------------------------------------

  // In every run from the constructor on, what was ever put in a sink is a contiguous slice
  // of the events the source accepted: in order, no gap, no duplicate. It starts with the
  // first event whose snapshot lists the sink, and every event in it was listed. Whoever
  // reads the sink sees a prefix of it. While the sink is open, attached and dispatch runs,
  // it reaches up to the last event dispatched.
  lemma SinkHoldsSlice<Id, E>(capacity: nat, defaults: set<Id>, run: seq<Action<Id, E>>, id: Id)
    requires capacity > 0 && Run(Initial(capacity, defaults), run).Reached?
    requires id in Run(Initial<Id, E>(capacity, defaults), run).state.sinks
    ensures var s := Run(Initial<Id, E>(capacity, defaults), run).state;
            var sink := s.sinks[id]; var received := sink.queue.accepted; var end := sink.start + |received|;
            && end <= |s.snapshots| <= |s.incoming.accepted|
            && received == s.incoming.accepted[sink.start..end]
            && sink.queue.taken <= received
            && (forall i :: 0 <= i < end ==> (id in s.snapshots[i] <==> sink.start <= i))
            && (id in s.attached && !sink.closed && !s.dispatcher.Stopped? && !InRound(s.dispatcher, id) ==>
                  end == |s.snapshots|)
  {
    InitialInv<Id, E>(capacity, defaults);
    RunKeeps(Initial<Id, E>(capacity, defaults), run);
    var s := Run(Initial<Id, E>(capacity, defaults), run).state;
    SliceFromInv(s, id);
  }

  lemma SliceFromInv<Id, E>(s: State<Id, E>, id: Id)
    requires Inv(s) && id in s.sinks
    ensures var sink := s.sinks[id]; var received := sink.queue.accepted; var end := sink.start + |received|;
            && end <= |s.snapshots| <= |s.incoming.accepted|
            && received == s.incoming.accepted[sink.start..end]
            && sink.queue.taken <= received
            && (forall i :: 0 <= i < end ==> (id in s.snapshots[i] <==> sink.start <= i))
            && (id in s.attached && !sink.closed && !s.dispatcher.Stopped? && !InRound(s.dispatcher, id) ==>
                  end == |s.snapshots|)
  {
    assert SinkFits(s, id);
    var sink, taken := s.sinks[id], s.incoming.taken;
    var end := sink.start + |sink.queue.accepted|;
    TakenIsPrefix(s.incoming);
    TakenIsPrefix(sink.queue);
    assert sink.queue.accepted == taken[sink.start..end];
    assert taken[sink.start..end] == s.incoming.accepted[sink.start..end];
  }

  // ----- What no action undoes --------------------------------------------------------------

  // Nothing put in this sink waits for its consumer.
  predicate Settled<E>(sink: Sink<E>) {
    sink.closed && sink.queue.unfinished == 0
  }

  ghost predicate SinkLater<E>(x: Sink<E>, y: Sink<E>) {
    && x.start == y.start && x.evictOnFull == y.evictOnFull
    && (x.closed ==> y.closed && y.queue.accepted == x.queue.accepted)
    && (Settled(x) ==> Settled(y))
    && (x.queue.flushed ==> y.queue.flushed)
  }

  ghost predicate Later<Id, E>(s: State<Id, E>, t: State<Id, E>) {
    && (s.closed ==> t.closed && t.sinks.Keys == s.sinks.Keys && t.attached <= s.attached
                     && t.incoming.accepted == s.incoming.accepted)
    && (s.dispatcher.Stopped? ==> t.dispatcher.Stopped?)
    && s.sinks.Keys <= t.sinks.Keys
    && (forall id :: id in s.sinks ==> id in t.sinks && SinkLater(s.sinks[id], t.sinks[id]))
    && (forall id :: id in s.sinks && id !in s.attached ==> id !in t.attached)
  }

  lemma SinkQueueLater<E>(x: Sink<E>, closed: bool, q: Queue<E>)
    requires x.closed == x.queue.isShutdown && (x.closed ==> closed)
    requires (exists e :: q == Put(x.queue, e)) || (exists b :: q == Shutdown(x.queue, b))
             || q == Get(x.queue) || q == TaskDone(x.queue)
    ensures SinkLater(x, x.(closed := closed, queue := q))
  {
  }

  predicate Touches<Id(==), E>(a: Action<Id, E>, id: Id) {
    (a.Dequeue? || a.Acknowledge? || a.CloseSink? || a.Store? || a.Check?) && a.id == id
  }

  lemma UntouchedSink<Id, E>(s: State<Id, E>, a: Action<Id, E>, id: Id)
    requires Enabled(s, a) && id in s.sinks && !Touches(a, id)
    ensures id in Apply(s, a).sinks && Apply(s, a).sinks[id] == s.sinks[id]
  {
    hide Put, Get, TaskDone, Shutdown;
  }

  lemma TouchedSink<Id, E>(s: State<Id, E>, a: Action<Id, E>, id: Id)
    requires Enabled(s, a) && id in s.sinks && s.sinks[id].closed == s.sinks[id].queue.isShutdown && Touches(a, id)
    ensures id in Apply(s, a).sinks && SinkLater(s.sinks[id], Apply(s, a).sinks[id])
  {
    hide Put, Get, TaskDone, Shutdown, SinkLater;
    var x := s.sinks[id];
    if a.Dequeue? {
      SinkQueueLater(x, x.closed, Get(x.queue));
    } else if a.Acknowledge? {
      SinkQueueLater(x, x.closed, TaskDone(x.queue));
    } else if a.CloseSink? {
      SinkQueueLater(x, true, Shutdown(x.queue, a.immediate));
    } else if a.Store? {
      SinkQueueLater(x, x.closed, Put(x.queue, s.dispatcher.event));
    } else {
      SinkUnchanged(x);
      SinkQueueLater(x, true, Shutdown(x.queue, true));
    }
  }

  // What an action adds to the logs the readers of the queue go by.
  lemma LogsGrow<Id, E>(s: State<Id, E>, a: Action<Id, E>)
    requires Enabled(s, a)
    ensures var t := Apply(s, a);
      && t.incoming.accepted == (if a.Enqueue? && !s.incoming.isShutdown then s.incoming.accepted + [a.event]
                                 else s.incoming.accepted)
      && s.sinks.Keys <= t.sinks.Keys
      && (a.Tap? && !s.closed ==> t.sinks[a.id].queue.taken == [] && t.sinks[a.id].start == |s.snapshots|)
  {
  }

  lemma SinkLogGrows<Id, E>(s: State<Id, E>, a: Action<Id, E>, id: Id)
    requires Enabled(s, a) && id in s.sinks
    ensures var t := Apply(s, a);
      && id in t.sinks && t.sinks[id].start == s.sinks[id].start
      && t.sinks[id].queue.taken == (if a == Dequeue(id) then s.sinks[id].queue.taken + [s.sinks[id].queue.items[0]]
                                     else s.sinks[id].queue.taken)
  {
    if !Touches(a, id) {
      hide Apply, Enabled;
      UntouchedSink(s, a, id);
    }
  }

  lemma SinkUnchanged<E>(x: Sink<E>)
    ensures SinkLater(x, x)
  {
  }

  lemma SinkGoesOn<Id, E>(s: State<Id, E>, a: Action<Id, E>, id: Id)
    requires Inv(s) && Enabled(s, a) && id in s.sinks
    ensures id in Apply(s, a).sinks && SinkLater(s.sinks[id], Apply(s, a).sinks[id])
  {
    assert SinkFits(s, id);
    if Touches(a, id) {
      hide Apply, Enabled;
      TouchedSink(s, a, id);
    } else {
      hide Apply, Enabled;
      UntouchedSink(s, a, id);
      SinkUnchanged(s.sinks[id]);
    }
  }

  lemma SourceGoesOn<Id, E>(s: State<Id, E>, a: Action<Id, E>)
    requires Enabled(s, a) && s.closed == s.incoming.isShutdown
    ensures var t := Apply(s, a);
            && (s.closed ==> t.closed && t.sinks.Keys == s.sinks.Keys && t.attached <= s.attached
                             && t.incoming.accepted == s.incoming.accepted)
            && (s.dispatcher.Stopped? ==> t.dispatcher.Stopped?)
            && s.sinks.Keys <= t.sinks.Keys
            && (forall id :: id in s.sinks && id !in s.attached ==> id !in t.attached)
  {
  }

  lemma StepIsLater<Id, E>(s: State<Id, E>, a: Action<Id, E>)
    requires Inv(s) && Enabled(s, a)
    ensures Later(s, Apply(s, a))
  {
    assert s.closed == s.incoming.isShutdown;
    hide Inv, Apply, Enabled, SinkLater;
    SourceGoesOn(s, a);
    forall id | id in s.sinks
      ensures id in Apply(s, a).sinks && SinkLater(s.sinks[id], Apply(s, a).sinks[id])
    {
      SinkGoesOn(s, a, id);
    }
  }

  lemma LaterIsTransitive<Id, E>(s: State<Id, E>, t: State<Id, E>, u: State<Id, E>)
    requires Later(s, t) && Later(t, u)
    ensures Later(s, u)
  {
  }

  lemma LaterIsReflexive<Id, E>(s: State<Id, E>)
    ensures Later(s, s)
  {
  }

  lemma {:induction false} RunIsLater<Id, E>(s: State<Id, E>, run: seq<Action<Id, E>>)
    requires Inv(s) && Run(s, run).Reached?
    ensures Later(s, Run(s, run).state)
    decreases |run|
  {
    if run == [] {
      LaterIsReflexive(s);
    } else {
      StepKeeps(s, run[0]);
      StepIsLater(s, run[0]);
      hide Inv, Apply, Enabled, Later;
      RunIsLater(Apply(s, run[0]), run[1..]);
      LaterIsTransitive(s, Apply(s, run[0]), Run(s, run).state);
    }
  }

  // The slice ends when the sink closes: nothing is put in a closed sink, and it stays closed.
  lemma ClosedSinkFrozen<Id, E>(s: State<Id, E>, run: seq<Action<Id, E>>, id: Id)
    requires Inv(s) && Run(s, run).Reached? && id in s.sinks && s.sinks[id].closed
    ensures var t := Run(s, run).state;
            id in t.sinks && t.sinks[id].closed && t.sinks[id].queue.accepted == s.sinks[id].queue.accepted
  {
    hide Inv;
    RunIsLater(s, run);
  }

  // Once the source is closed no sink is ever added and no event is ever accepted.
  lemma ClosedSourceFrozen<Id, E>(s: State<Id, E>, run: seq<Action<Id, E>>)
    requires Inv(s) && Run(s, run).Reached? && s.closed
    ensures var t := Run(s, run).state;
            && t.closed && t.sinks.Keys == s.sinks.Keys && t.attached <= s.attached
            && t.incoming.accepted == s.incoming.accepted
  {
    hide Inv;
    RunIsLater(s, run);
  }

  // ----- Eviction keeps dispatch moving -----------------------------------------------------

  // When a delivery has to wait: exactly when the sink is full, open and must not be evicted.
  // An evicting sink found not full stays that way until the put, whatever happens meanwhile.
  lemma DeliveryWaitsOnlyOnBackPressure<Id, E>(s: State<Id, E>, id: Id)
    requires Inv(s) && InRound(s.dispatcher, id)
    ensures id in s.sinks
    ensures !(Enabled(s, Check(id)) || Enabled(s, Store(id)) || Enabled(s, Detach(id)))
        <==> (s.dispatcher.pending[id] == Putting && s.sinks[id].queue.Full()
              && !s.sinks[id].closed && !s.sinks[id].evictOnFull)
  {
    assert SinkFits(s, id);
  }

  predicate DeliveryStep<Id, E>(a: Action<Id, E>) {
    a.Check? || a.Store? || a.Detach?
  }

  predicate NoBackPressure<Id, E>(s: State<Id, E>) {
    s.dispatcher.Delivering? &&
    forall id :: id in s.dispatcher.pending && id in s.sinks ==> s.sinks[id].evictOnFull || s.sinks[id].closed
  }

  // The next action of the dispatcher for a sink that may not block it.
  function NextDelivery<Id, E>(s: State<Id, E>, id: Id): Action<Id, E>
    requires InRound(s.dispatcher, id)
  {
    match s.dispatcher.pending[id]
    case Checking => Check(id)
    case Putting => Store(id)
    case Detaching => Detach(id)
  }

  // One step nearer the end for `id`, nothing else disturbed.
  ghost predicate Advances<Id, E>(s: State<Id, E>, t: State<Id, E>, id: Id) {
    && s.dispatcher.Delivering? && t.dispatcher.Delivering? && id in s.dispatcher.pending
    && t.dispatcher.event == s.dispatcher.event
    && t.dispatcher.pending - {id} == s.dispatcher.pending - {id}
    && (id in t.dispatcher.pending ==>
          s.dispatcher.pending[id] == Checking && t.dispatcher.pending[id] != Checking)
    && t.sinks.Keys == s.sinks.Keys
    && (forall o :: o in s.sinks ==> t.sinks[o].evictOnFull == s.sinks[o].evictOnFull)
    && (forall o :: o in s.sinks && s.sinks[o].closed ==> t.sinks[o].closed)
  }

  lemma CheckAdvances<Id, E>(s: State<Id, E>, id: Id)
    requires Phased(s, id, Checking)
    ensures Advances(s, Apply(s, Check(id)), id)
  {
    var before := s.dispatcher.pending;
    assert before - {id} - {id} == before - {id};
    assert before[id := Putting] - {id} == before - {id} && before[id := Detaching] - {id} == before - {id};
    hide Shutdown, Queue.Full;
  }

  lemma StoreAdvances<Id, E>(s: State<Id, E>, id: Id)
    requires Enabled(s, Store(id))
    ensures Advances(s, Apply(s, Store(id)), id)
  {
    hide Put, Queue.Full;
    assert s.dispatcher.pending - {id} - {id} == s.dispatcher.pending - {id};
  }

  lemma DetachAdvances<Id, E>(s: State<Id, E>, id: Id)
    requires Phased(s, id, Detaching)
    ensures Advances(s, Apply(s, Detach(id)), id)
  {
    assert s.dispatcher.pending - {id} - {id} == s.dispatcher.pending - {id};
  }

  lemma NextDeliveryEnabled<Id, E>(s: State<Id, E>, id: Id)
    requires Inv(s) && NoBackPressure(s) && InRound(s.dispatcher, id)
    ensures id in s.sinks && Enabled(s, NextDelivery(s, id))
  {
    DeliveryWaitsOnlyOnBackPressure(s, id);
    hide Inv;
  }

  lemma NextDeliveryWorks<Id, E>(s: State<Id, E>, id: Id)
    requires Inv(s) && NoBackPressure(s) && InRound(s.dispatcher, id)
    ensures id in s.sinks && Enabled(s, NextDelivery(s, id))
    ensures Advances(s, Apply(s, NextDelivery(s, id)), id)
    ensures NoBackPressure(Apply(s, NextDelivery(s, id)))
  {
    NextDeliveryEnabled(s, id);
    hide Inv, Apply, NoBackPressure, Advances;
    match s.dispatcher.pending[id] {
      case Checking => CheckAdvances(s, id);
      case Putting => StoreAdvances(s, id);
      case Detaching => DetachAdvances(s, id);
    }
    StillNoBackPressure(s, Apply(s, NextDelivery(s, id)), id);
  }

  lemma StillNoBackPressure<Id, E>(s: State<Id, E>, t: State<Id, E>, id: Id)
    requires NoBackPressure(s) && Advances(s, t, id)
    ensures NoBackPressure(t)
  {
    forall o | o in t.dispatcher.pending && o in t.sinks ensures t.sinks[o].evictOnFull || t.sinks[o].closed {
      assert o in s.dispatcher.pending by {
        if o != id {
          assert o in t.dispatcher.pending - {id};
        }
      }
    }
  }

  function Unchecked<Id>(pending: map<Id, Phase>): set<Id> {
    set id | id in pending && pending[id] == Checking
  }

  // Steps the dispatcher still has to take at most: two for a sink not looked at, else one.
  function Work<Id>(pending: map<Id, Phase>): nat {
    |pending.Keys| + |Unchecked(pending)|
  }

  lemma AdvanceReducesWork<Id, E>(s: State<Id, E>, t: State<Id, E>, id: Id)
    requires Advances(s, t, id)
    ensures Work(t.dispatcher.pending) < Work(s.dispatcher.pending)
  {
    var p, q := s.dispatcher.pending, t.dispatcher.pending;
    assert q.Keys - {id} == (q - {id}).Keys == (p - {id}).Keys == p.Keys - {id};
    assert forall o :: o in q && o != id ==> o in q - {id} && o in p - {id} && q[o] == p[o];
    if id in q {
      assert q.Keys == p.Keys;
      assert Unchecked(q) == Unchecked(p) - {id};
    } else {
      assert q.Keys == p.Keys - {id};
      assert Unchecked(q) == Unchecked(p) - {id};
    }
  }

  lemma RoundGetsShorter<Id, E>(s: State<Id, E>, id: Id)
    requires Inv(s) && NoBackPressure(s) && InRound(s.dispatcher, id)
    ensures Enabled(s, NextDelivery(s, id))
    ensures var t := Apply(s, NextDelivery(s, id));
            && Inv(t) && NoBackPressure(t) && t.dispatcher.event == s.dispatcher.event
            && Work(t.dispatcher.pending) < Work(s.dispatcher.pending)
  {
    NextDeliveryWorks(s, id);
    hide Inv, Apply, Enabled, Work;
    StepKeeps(s, NextDelivery(s, id));
    AdvanceReducesWork(s, Apply(s, NextDelivery(s, id)), id);
  }

  lemma RunHead<Id, E>(s: State<Id, E>, a: Action<Id, E>, rest: seq<Action<Id, E>>)
    requires Enabled(s, a)
    ensures Run(s, [a] + rest) == Run(Apply(s, a), rest)
  {
    hide Enabled, Apply;
    assert ([a] + rest)[1..] == rest;
  }

  // ----- ... in every interleaving -----------------------------------------------------------------

  // Whatever anyone else does leaves the round as it is.
  lemma OthersLeaveRound<Id, E>(s: State<Id, E>, a: Action<Id, E>)
    requires Inv(s) && NoBackPressure(s) && Enabled(s, a) && !DeliveryStep(a) && !a.Finish? && !a.Cancelled?
    ensures Apply(s, a).dispatcher == s.dispatcher && NoBackPressure(Apply(s, a))
  {
    assert DispatcherOk(s);
    hide Inv, Put, Get, TaskDone, Shutdown;
  }

  // Every delivery step, to whichever sink, reduces the work left.
  lemma DeliveryStepWorks<Id, E>(s: State<Id, E>, a: Action<Id, E>)
    requires NoBackPressure(s) && Enabled(s, a) && DeliveryStep(a)
    ensures var t := Apply(s, a);
      NoBackPressure(t) && t.dispatcher.event == s.dispatcher.event && Work(t.dispatcher.pending)
          < Work(s.dispatcher.pending)
  {
    hide Apply, NoBackPressure, Advances, Work;
    match a {
      case Check(id) => CheckAdvances(s, id);
      case Store(id) => StoreAdvances(s, id);
      case Detach(id) => DetachAdvances(s, id);
      case _ =>
    }
    AdvanceKeepsEvent(s, Apply(s, a), a.id);
    StillNoBackPressure(s, Apply(s, a), a.id);
    AdvanceReducesWork(s, Apply(s, a), a.id);
  }

  lemma AdvanceKeepsEvent<Id, E>(s: State<Id, E>, t: State<Id, E>, id: Id)
    requires Advances(s, t, id)
    ensures s.dispatcher.Delivering? && t.dispatcher.Delivering? && t.dispatcher.event == s.dispatcher.event
  {
  }

  function Deliveries<Id, E>(run: seq<Action<Id, E>>): nat {
    if run == [] then 0 else (if DeliveryStep(run[0]) then 1 else 0) + Deliveries(run[1..])
  }

  // As long as a round none of whose sinks may block lasts, whatever producers, consumers, closers
  // and subscribers do in between: no back pressure arises, some delivery step can be taken for each
  // sink still to be served, and no more than two such steps are taken for each of them in all.
  lemma {:induction false} RoundIsBounded<Id, E>(s: State<Id, E>, run: seq<Action<Id, E>>)
    requires Inv(s) && NoBackPressure(s) && Run(s, run).Reached?
    requires forall i :: 0 <= i < |run| ==> !run[i].Finish? && !run[i].Cancelled?
    ensures var t := Run(s, run).state;
      && NoBackPressure(t) && t.dispatcher.event == s.dispatcher.event
      && Deliveries(run) + Work(t.dispatcher.pending) <= Work(s.dispatcher.pending)
      && (forall id :: id in t.dispatcher.pending ==> id in t.sinks && Enabled(t, NextDelivery(t, id)))
    decreases |run|
  {
    if run == [] {
      forall id | id in s.dispatcher.pending ensures id in s.sinks && Enabled(s, NextDelivery(s, id)) {
        NextDeliveryEnabled(s, id);
      }
    } else {
      StepKeeps(s, run[0]);
      assert s.dispatcher.Delivering?;
      hide Inv, Apply, Enabled, NoBackPressure, Work, NextDelivery;
      if DeliveryStep(run[0]) {
        DeliveryStepWorks(s, run[0]);
      } else {
        OthersLeaveRound(s, run[0]);
      }
      RoundIsBounded(Apply(s, run[0]), run[1..]);
    }
  }

  // At most two steps for each sink still to be served.
  lemma WorkIsTwice<Id>(pending: map<Id, Phase>)
    ensures |pending| <= Work(pending) <= 2 * |pending|
    ensures Work(pending) == 0 <==> pending == map[]
  {
    assert pending.Keys == {} <==> pending == map[];
    SubsetIsSmaller(Unchecked(pending), pending.Keys);
  }

  lemma {:induction false} SubsetIsSmaller<T>(a: set<T>, b: set<T>)
    requires a <= b
    ensures |a| <= |b|
    decreases |a|
  {
    if a != {} {
      var x :| x in a;
      SubsetIsSmaller(a - {x}, b - {x});
    }
  }

  // A round none of whose sinks may block is finished by the dispatcher alone, whatever
  // their consumers do, in at most two steps for each sink still to be served.
  lemma {:induction false} EvictingRoundFinishes<Id, E>(s: State<Id, E>) returns (run: seq<Action<Id, E>>)
    requires Inv(s) && NoBackPressure(s)
    ensures forall a :: a in run ==> DeliveryStep(a)
    ensures |run| <= Work(s.dispatcher.pending)
    ensures Run(s, run).Reached? && Run(s, run).state.dispatcher == Delivering(s.dispatcher.event, map[])
    decreases Work(s.dispatcher.pending)
  {
    if s.dispatcher.pending == map[] {
      run := [];
    } else {
      var id :| id in s.dispatcher.pending;
      var a := NextDelivery(s, id);
      assert DeliveryStep(a);
      hide *;
      RoundGetsShorter(s, id);
      var rest := EvictingRoundFinishes(Apply(s, a));
      RunHead(s, a, rest);
      run := [a] + rest;
      assert forall b :: b in run ==> b == a || b in rest;
    }
  }
}
