// What the runs of the active task leave behind, told by the steps that were taken: which events the
// agent queue got, what became of each of them on its way to the subscribers, and what every
// subscriber was shown.

module FlowHistory {
  import opened Options
  import opened AsyncQueues
  import opened Broadcast
  import opened BroadcastSafety
  import opened BroadcastChanges
  import opened ActiveTaskFlow
  import opened FlowSafety

  // ----- What a run says ------------------------------------------------------------------------

  // The outcome of handling one event: the task after it, and whether the handler raised.
  datatype Handling = Handling(task: nat, fails: bool)

  function Handlings(past: seq<Step>): seq<Handling> {
    if past == [] then []
    else Handlings(past[..|past| - 1]) +
         match past[|past| - 1]
         case Handle(task, fails) => [Handling(task, fails)]
         case _ => []
  }

  // The requests handed in, by `enqueue_request` or by a subscriber.
  function Submitted(past: seq<Step>): seq<nat> {
    if past == [] then []
    else Submitted(past[..|past| - 1]) +
         match past[|past| - 1]
         case Submit(r) => [r]
         case Ask(_, r) => [r]
         case _ => []
  }

  // What the agent queued.
  function Payloads(past: seq<Step>): seq<Payload> {
    if past == [] then []
    else Payloads(past[..|past| - 1]) +
         match past[|past| - 1]
         case Emit(p) => [p]
         case _ => []
  }

  // The stored task a subscriber was handed first.
  function Greetings(past: seq<Step>, i: nat): seq<Shown> {
    if past == [] then []
    else Greetings(past[..|past| - 1], i) +
         match past[|past| - 1]
         case Greet(j, task) => if j == i then [TheTask(task)] else []
         case _ => []
  }

  function Updates(es: seq<AgentEvent>): seq<Payload> {
    if es == [] then []
    else Updates(es[..|es| - 1]) + if es[|es| - 1].Update? then [es[|es| - 1].payload] else []
  }

  function Markers(es: seq<AgentEvent>): seq<AgentEvent> {
    if es == [] then []
    else Markers(es[..|es| - 1]) +
         if es[|es| - 1].Started? || es[|es| - 1].Completed? then [es[|es| - 1]] else []
  }

  // One request after the other: started, completed.
  function Turns(requests: seq<nat>): seq<AgentEvent> {
    if requests == [] then []
    else Turns(requests[..|requests| - 1]) + [Started(requests[|requests| - 1]), Completed(requests[|requests| - 1])]
  }

  // ----- The queue actions of a step ----------------------------------------------------------------

  function AgentAction(st: TaskState, step: Step): Option<Action<nat, AgentEvent>>
    requires Can(st, step)
  {
    match step
    case AgentQueue(a) => Some(a)
    case ConsumerTakes => Some(Action.Dequeue(0))
    case Forward => Some(Action.Acknowledge(0))
    case _ => if ByEmission(step) then Some(Action.Enqueue(Emission(st, step))) else None
  }

  function SubscriberAction(st: TaskState, step: Step): Option<Action<nat, Entry>>
    requires Can(st, step)
  {
    match step
    case SubscriberQueue(a) => Some(a)
    case Forward => Some(Action.Enqueue(st.consumer.entry))
    case Attach(_, sink, capacity, _, _) => Some(Action.Tap(sink, capacity, true))
    case Receive(i) => Some(Action.Dequeue(st.streams[i].sink))
    case _ => None
  }

  lemma AgentActs(st: TaskState, step: Step)
    requires QueuesOk(st) && Can(st, step)
    ensures match AgentAction(st, step)
      case Some(a) => Enabled(st.agent, a) && Do(st, step).agent == Apply(st.agent, a)
      case None => Do(st, step).agent == st.agent
  {
    hide Apply, Inv;
  }

  lemma SubscribersAct(st: TaskState, step: Step)
    requires QueuesOk(st) && Can(st, step)
    ensures match SubscriberAction(st, step)
      case Some(a) => Enabled(st.subscribers, a) && Do(st, step).subscribers == Apply(st.subscribers, a)
      case None => Do(st, step).subscribers == st.subscribers
  {
    hide Apply, Inv;
  }

  // What a step adds to the logs of the agent queue ...
  lemma AgentLogs(st: TaskState, step: Step)
    requires QueuesOk(st) && Can(st, step)
    ensures var st2 := Do(st, step);
      && QueuesOk(st.(agent := st2.agent)) && (st.agent.closed ==> st2.agent.closed)
      && st2.Emitted() == (if ByEmission(step) && !st.agent.closed then st.Emitted() + [Emission(st, step)]
                           else st.Emitted())
      && 0 in st2.agent.sinks
      && st2.Consumed() == (if step.ConsumerTakes? then st.Consumed() + [st.agent.sinks[0].queue.items[0]]
                            else st.Consumed())
  {
    AgentActs(st, step);
    EmissionIsOwn(st, step);
    hide Inv, Apply, Enabled, Do, Can, QueuesOk;
    match AgentAction(st, step) {
      case None =>
      case Some(a) => AgentMoves(st, a);
    }
  }

  lemma EmissionIsOwn(st: TaskState, step: Step)
    requires QueuesOk(st) && Can(st, step)
    ensures 0 in st.agent.sinks
    ensures AgentAction(st, step).Some? ==>
      var a := AgentAction(st, step).value;
      && (a.Enqueue? <==> ByEmission(step)) && (a.Enqueue? ==> a.event == Emission(st, step))
      && (a == Action.Dequeue(0) <==> step.ConsumerTakes?)
      && (a == Action.Acknowledge(0) <==> step.Forward?)
    ensures AgentAction(st, step).None? ==> !ByEmission(step) && !step.ConsumerTakes? && !step.Forward?
  {
    hide Inv, Enabled;
  }

  // ... and to those of the subscribers' queue.
  lemma SubscriberLogs(st: TaskState, step: Step)
    requires QueuesOk(st) && Can(st, step)
    ensures var st2 := Do(st, step);
      && (st.subscribers.closed ==> st2.subscribers.closed)
      && st2.Forwarded() == (if step.Forward? && !st.subscribers.closed then st.Forwarded() + [st.consumer.entry]
                             else st.Forwarded())
      && (forall id :: id in st.subscribers.sinks ==> id in st2.subscribers.sinks)
  {
    SubscribersAct(st, step);
    EntryIsForwarded(st, step);
    hide Inv, Apply, Enabled, Do, Can, QueuesOk;
    match SubscriberAction(st, step) {
      case None =>
      case Some(a) => SubscribersMove(st, a);
    }
  }

  lemma EntryIsForwarded(st: TaskState, step: Step)
    requires Can(st, step)
    ensures SubscriberAction(st, step).Some? ==>
      var a := SubscriberAction(st, step).value;
      (a.Enqueue? <==> step.Forward?) && (step.Forward? ==> a.event == st.consumer.entry)
    ensures SubscriberAction(st, step).None? ==> !step.Forward?
  {
    hide Enabled;
  }

  // ----- What became of every event -----------------------------------------------------------------

  // The entry forwarded for an event: the event itself with the task after it, or a failure if the
  // handler of an update raised.
  predicate Answers(entry: Entry, e: AgentEvent, h: Handling) {
    && entry.task == h.task
    && entry.event == (if e.Update? && h.fails then Failure else e)
  }

  ghost predicate HandledOk(hs: seq<Handling>, forwarded: seq<Entry>, consumed: seq<AgentEvent>, processed: nat,
                            consumer: Consumer) {
    && |forwarded| <= processed <= |hs| <= processed + 1 && |hs| <= |consumed|
    && (consumer.Waiting? || consumer.Processing? ==> |hs| == processed)
    && (consumer.Forwarding? ==> |hs| == processed + 1 && Answers(consumer.entry, consumed[processed], hs[processed]))
    && (forall k :: 0 <= k < |forwarded| ==> Answers(forwarded[k], consumed[k], hs[k]))
  }

  // Where the consumer goes.
  ghost predicate ConsumerGoes(step: Step, c: Consumer, c2: Consumer, processed: nat, processed2: nat) {
    match step
    case ConsumerTakes => c.Waiting? && c2.Processing? && processed2 == processed
    case Handle(task, fails) =>
      c.Processing? && c2.Forwarding? && processed2 == processed
      && Answers(c2.entry, c.event, Handling(task, fails))
    case Forward =>
      c.Forwarding? && processed2 == processed + 1 && (c2.ConsumerEnded? <==> c.entry.event.Failure?)
      && (c2.ConsumerEnded? || c2.Waiting?)
    case ConsumerStops => c2.ConsumerEnded? && processed2 == processed
    case _ => c2 == c && processed2 == processed
  }

  lemma ConsumerMoves(st: TaskState, step: Step)
    requires Can(st, step)
    ensures ConsumerGoes(step, st.consumer, Do(st, step).consumer, st.processed, Do(st, step).processed)
  {
    hide Apply, Enabled;
  }

  lemma HandlingsGrow(past: seq<Step>, step: Step)
    ensures Handlings(past + [step]) ==
      if step.Handle? then Handlings(past) + [Handling(step.task, step.fails)] else Handlings(past)
  {
    assert (past + [step])[..|past|] == past;
  }

  // One step of the consumer, on the values alone.
  lemma HandledAfter(step: Step, hs: seq<Handling>, forwarded: seq<Entry>, consumed: seq<AgentEvent>, processed: nat,
                     c: Consumer, c2: Consumer, closed: bool, x: AgentEvent)
    requires HandledOk(hs, forwarded, consumed, processed, c) && ConsumerOk(consumed, processed, c)
    requires !closed ==> |forwarded| == processed
    requires ByConsumer(step)
    requires ConsumerGoes(step, c, c2, processed, if step.Forward? then processed + 1 else processed)
    ensures HandledOk(if step.Handle? then hs + [Handling(step.task, step.fails)] else hs,
                      if step.Forward? && !closed then forwarded + [c.entry] else forwarded,
                      if step.ConsumerTakes? then consumed + [x] else consumed,
                      if step.Forward? then processed + 1 else processed, c2)
  {
    hide Answers;
  }

  ghost predicate ByConsumer(step: Step) {
    step.ConsumerTakes? || step.Handle? || step.Forward? || step.ConsumerStops?
  }

  lemma HandledStays(st: TaskState, past: seq<Step>, step: Step)
    requires FlowOk(st) && Can(st, step) && 0 in st.agent.sinks && 0 in Do(st, step).agent.sinks
    requires HandledOk(Handlings(past), st.Forwarded(), st.Consumed(), st.processed, st.consumer)
    ensures HandledOk(Handlings(past + [step]), Do(st, step).Forwarded(), Do(st, step).Consumed(),
                      Do(st, step).processed, Do(st, step).consumer)
  {
    TakesAnEvent(st, step);
    hide *;
    var st2, c := Do(st, step), st.consumer;
    MirrorEven(st);
    HandlingsGrow(past, step);
    AgentLogs(st, step);
    SubscriberLogs(st, step);
    ConsumerMoves(st, step);
    ConsumerNeeds(step, c, st2.consumer, st.processed, st2.processed);
    if ByConsumer(step) {
      var x := if step.ConsumerTakes? then st.agent.sinks[0].queue.items[0] else Failure;
      HandledAfter(step, Handlings(past), st.Forwarded(), st.Consumed(), st.processed, c, st2.consumer,
                   st.subscribers.closed, x);
    }
  }

  lemma TakesAnEvent(st: TaskState, step: Step)
    requires Can(st, step)
    ensures step.ConsumerTakes? ==> 0 in st.agent.sinks && st.agent.sinks[0].queue.items != []
  {
  }

  lemma ConsumerNeeds(step: Step, c: Consumer, c2: Consumer, processed: nat, processed2: nat)
    requires ConsumerGoes(step, c, c2, processed, processed2)
    ensures ByConsumer(step) || (c2 == c && !step.Handle? && !step.Forward? && !step.ConsumerTakes?)
    ensures processed2 == if step.Forward? then processed + 1 else processed
    ensures step.Forward? ==> c.Forwarding?
  {
    hide Answers;
  }

  lemma MirrorEven(st: TaskState)
    requires FlowOk(st)
    ensures QueuesOk(st) && 0 in st.agent.sinks
    ensures !st.subscribers.closed ==> |st.Forwarded()| == st.processed
    ensures |st.Forwarded()| <= st.processed <= |st.Consumed()|
    ensures ConsumerOk(st.Consumed(), st.processed, st.consumer)
  {
    hide StreamsOk, TokenOk, SeenOk, OrderOk, IdsOk;
  }

  // ----- The order of the requests -------------------------------------------------------------------

  // The markers queued so far, by what the producer is doing with the last request it fetched.
  ghost predicate MarkersAt(markers: seq<AgentEvent>, producer: Producer, fetched: seq<nat>) {
    match producer
    case Fetching => markers == Turns(fetched)
    case Executing(r, _) => fetched != [] && markers == Turns(fetched[..|fetched| - 1]) + [Started(r)]
    case Completing(r, _) => fetched != [] && markers == Turns(fetched[..|fetched| - 1]) + [Started(r)]
    case ProducerEnded => true
    case _ => fetched != [] && markers == Turns(fetched[..|fetched| - 1])
  }

  // The producer's request is the last one fetched.
  ghost predicate HasLast(p: Producer, fetched: seq<nat>) {
    p.Fetching? || p.ProducerEnded? || (fetched != [] && p.request == fetched[|fetched| - 1])
  }

  ghost predicate TurnsOk(emitted: seq<AgentEvent>, closed: bool, producer: Producer, requests: Queue<nat>) {
    && requests.Conserved() && requests.capacity == 0
    && Markers(emitted) <= Turns(requests.taken)
    && (!closed ==> MarkersAt(Markers(emitted), producer, requests.taken))
    && HasLast(producer, requests.taken)
  }

  lemma MarkersGrow(es: seq<AgentEvent>, e: AgentEvent)
    ensures Markers(es + [e]) == if e.Started? || e.Completed? then Markers(es) + [e] else Markers(es)
    ensures Updates(es + [e]) == if e.Update? then Updates(es) + [e.payload] else Updates(es)
  {
    assert (es + [e])[..|es|] == es;
  }

  lemma TurnsGrow(requests: seq<nat>, r: nat)
    ensures Turns(requests + [r]) == Turns(requests) + [Started(r), Completed(r)]
  {
    assert (requests + [r])[..|requests|] == requests;
  }

  // What the producer does, and what happens to the requests.
  ghost predicate ProducerGoes(step: Step, p: Producer, p2: Producer, q: Queue<nat>, q2: Queue<nat>) {
    match step
    case Fetch => p.Fetching? && q.items != [] && p2 == Acquiring(q.items[0]) && q2 == Get(q)
    case Acquire => p.Acquiring? && p2 == Reading(p.request) && q2 == q
    case ReadTask => p.Reading? && p2.Announcing? && p2.request == p.request && q2 == q
    case Announce => p.Announcing? && p2.Executing? && p2.request == p.request && q2 == q
    case Return => p.Executing? && p2.Completing? && p2.request == p.request && q2 == q
    case Complete => p.Completing? && p2.Fetching? && q2 == q
    case ProducerStops(_) => p2.ProducerEnded? && q2 == q
    case Submit(r) => p2 == p && q2 == Put(q, r)
    case Ask(_, r) => p2 == p && q2 == Put(q, r)
    case CloseRequests => p2 == p && q2 == Shutdown(q, true)
    case _ => p2 == p && q2 == q
  }

  lemma ProducerMoves(st: TaskState, step: Step)
    requires Can(st, step)
    ensures ProducerGoes(step, st.producer, Do(st, step).producer, st.requests, Do(st, step).requests)
  {
    hide Apply, Enabled, Put, Get, Shutdown;
  }

  // The markers stay in turn: no marker is queued unless the step queues one, and the queue takes it.
  lemma TurnsAfter(step: Step, markers: seq<AgentEvent>, p: Producer, p2: Producer, q: Queue<nat>, q2: Queue<nat>)
    requires ProducerGoes(step, p, p2, q, q2)
    requires q2.taken == if step.Fetch? then q.taken + [q.items[0]] else q.taken
    requires HasLast(p, q.taken) && MarkersAt(markers, p, q.taken) && markers <= Turns(q.taken)
    requires step.Announce? || step.Complete? ==> p.InRequest()
    ensures var more := MarkersAfter(step, markers, p); MarkersAt(more, p2, q2.taken) && more <= Turns(q2.taken)
  {
    hide Turns, Put, Get, Shutdown;
    if step.Fetch? {
      TurnsGrow(q.taken, q.items[0]);
      assert q2.taken[..|q2.taken| - 1] == q.taken;
    } else if step.Announce? || step.Complete? {
      hide MarkersAfter;
      TurnsAdvance(step, markers, p, p2, q.taken);
    }
  }

  lemma TurnsAdvance(step: Step, markers: seq<AgentEvent>, p: Producer, p2: Producer, fetched: seq<nat>)
    requires HasLast(p, fetched) && MarkersAt(markers, p, fetched)
    requires (step.Announce? && p.Announcing? && p2.Executing?) || (step.Complete? && p.Completing? && p2.Fetching?)
    requires step.Announce? ==> p2.request == p.request
    ensures var more := MarkersAfter(step, markers, p); MarkersAt(more, p2, fetched) && more <= Turns(fetched)
  {
    var last := |fetched| - 1;
    var before := Turns(fetched[..last]);
    assert fetched == fetched[..last] + [fetched[last]];
    TurnsGrow(fetched[..last], fetched[last]);
    hide Turns;
    assert before + [Started(p.request), Completed(p.request)] == before + [Started(p.request)] +
        [Completed(p.request)];
  }

  lemma RequestsMove(step: Step, p: Producer, p2: Producer, q: Queue<nat>, q2: Queue<nat>)
    requires ProducerGoes(step, p, p2, q, q2) && q.Conserved() && q.capacity == 0
    ensures q2.Conserved() && q2.capacity == 0 && (q.isShutdown ==> q2.isShutdown)
    ensures q2.taken == if step.Fetch? then q.taken + [q.items[0]] else q.taken
    ensures q2.accepted == if (step.Submit? || step.Ask?) && !q.isShutdown then q.accepted + [step.request]
                           else q.accepted
  {
    if step.Submit? || step.Ask? {
      PutConserves(q, step.request);
    } else if step.Fetch? {
      GetConserves(q);
    } else if step.CloseRequests? {
      ShutdownConserves(q, true);
    }
    hide Queue.Conserved;
  }

  function MarkersAfter(step: Step, markers: seq<AgentEvent>, p: Producer): seq<AgentEvent>
    requires step.Announce? || step.Complete? ==> p.InRequest()
  {
    if step.Announce? then markers + [Started(p.request)]
    else if step.Complete? then markers + [Completed(p.request)] else markers
  }

  // What a step adds to the markers and to the updates in the agent queue.
  lemma SayingsGrow(st: TaskState, step: Step)
    requires QueuesOk(st) && Can(st, step)
    ensures step.Announce? || step.Complete? ==> st.producer.InRequest()
    ensures Markers(Do(st, step).Emitted()) ==
      if st.agent.closed then Markers(st.Emitted()) else MarkersAfter(step, Markers(st.Emitted()), st.producer)
    ensures Updates(Do(st, step).Emitted()) ==
      if step.Emit? && !st.agent.closed then Updates(st.Emitted()) + [step.payload] else Updates(st.Emitted())
    ensures Failure in Do(st, step).Emitted() <==>
      Failure in st.Emitted() || (step.ProducerStops? && step.failure && !st.agent.closed)
  {
    AgentLogs(st, step);
    AnnouncesRequest(st, step);
    if ByEmission(step) {
      EmissionMarks(st, step);
      MarkersGrow(st.Emitted(), Emission(st, step));
    }
    hide Inv, QueuesOk, Can, Do, Emission, Markers, Updates;
  }

  lemma AnnouncesRequest(st: TaskState, step: Step)
    requires Can(st, step)
    ensures step.Announce? || step.Complete? ==> st.producer.InRequest()
  {
  }

  lemma TurnsKept(step: Step, emitted: seq<AgentEvent>, more: seq<AgentEvent>, closed: bool, closed2: bool,
                  p: Producer, p2: Producer, q: Queue<nat>, q2: Queue<nat>)
    requires TurnsOk(emitted, closed, p, q) && ProducerGoes(step, p, p2, q, q2) && (closed ==> closed2)
    requires step.Announce? || step.Complete? ==> p.InRequest()
    requires Markers(more) == if closed then Markers(emitted) else MarkersAfter(step, Markers(emitted), p)
    ensures TurnsOk(more, closed2, p2, q2)
  {
    RequestsMove(step, p, p2, q, q2);
    LastRequestKept(step, p, p2, q, q2);
    if closed {
      TurnsReach(step, Markers(emitted), q, q2);
    } else {
      TurnsAfter(step, Markers(emitted), p, p2, q, q2);
    }
    hide *;
  }

  lemma LastRequestKept(step: Step, p: Producer, p2: Producer, q: Queue<nat>, q2: Queue<nat>)
    requires ProducerGoes(step, p, p2, q, q2) && HasLast(p, q.taken)
    requires q2.taken == if step.Fetch? then q.taken + [q.items[0]] else q.taken
    ensures HasLast(p2, q2.taken)
  {
    hide Put, Get, Shutdown;
  }

  lemma TurnsReach(step: Step, markers: seq<AgentEvent>, q: Queue<nat>, q2: Queue<nat>)
    requires step.Fetch? ==> q.items != []
    requires q2.taken == (if step.Fetch? then q.taken + [q.items[0]] else q.taken) && markers <= Turns(q.taken)
    ensures markers <= Turns(q2.taken)
  {
    if step.Fetch? {
      TurnsGrow(q.taken, q.items[0]);
    }
  }

  lemma TurnsStay(st: TaskState, step: Step)
    requires QueuesOk(st) && Can(st, step)
    requires TurnsOk(st.Emitted(), st.agent.closed, st.producer, st.requests)
    ensures var st2 := Do(st, step);
      TurnsOk(st2.Emitted(), st2.agent.closed, st2.producer, st2.requests)
  {
    AgentLogs(st, step);
    ProducerMoves(st, step);
    SayingsGrow(st, step);
    var st2 := Do(st, step);
    hide Inv, QueuesOk, Can, Do, TurnsOk, ProducerGoes, MarkersAfter;
    TurnsKept(step, st.Emitted(), st2.Emitted(), st.agent.closed, st2.agent.closed, st.producer, st2.producer,
              st.requests, st2.requests);
  }

  lemma EmissionMarks(st: TaskState, step: Step)
    requires Can(st, step) && ByEmission(step)
    ensures var e := Emission(st, step);
      && (e.Started? || e.Completed? <==> step.Announce? || step.Complete?)
      && (step.Announce? ==> e == Started(st.producer.request))
      && (step.Complete? ==> e == Completed(st.producer.request))
      && (e.Update? <==> step.Emit?) && (step.Emit? ==> e.payload == step.payload)
      && (e.Failure? <==> step.ProducerStops?)
  {
    hide Enabled;
  }

  // ----- What was handed in and what was acknowledged ------------------------------------------------

  // A queue holds what was handed to it: all of it while it is open, a first part of it afterwards.
  predicate Hears<T(==)>(heard: seq<T>, said: seq<T>, closed: bool) {
    heard <= said && (!closed ==> heard == said)
  }

  lemma HearsMore<T>(heard: seq<T>, said: seq<T>, closed: bool, x: T, closed2: bool)
    requires Hears(heard, said, closed) && (closed ==> closed2)
    ensures Hears(if closed then heard else heard + [x], said + [x], closed2)
    ensures Hears(heard, said, closed2)
  {
  }

  // A failure was queued exactly if the producer stopped with one before the queue was closed.
  ghost predicate FailureOk(past: seq<Step>, emitted: seq<AgentEvent>, closed: bool) {
    && (Failure in emitted ==> ProducerStops(true) in past)
    && (ProducerStops(true) in past && !closed ==> Failure in emitted)
  }

  lemma SayingsOf(past: seq<Step>, step: Step)
    ensures Payloads(past + [step]) == if step.Emit? then Payloads(past) + [step.payload] else Payloads(past)
    ensures Submitted(past + [step]) ==
      if step.Submit? || step.Ask? then Submitted(past) + [step.request] else Submitted(past)
  {
    assert (past + [step])[..|past|] == past;
  }

  lemma GreetingsOf(past: seq<Step>, step: Step, i: nat)
    ensures Greetings(past + [step], i) ==
      if step.Greet? && step.stream == i then Greetings(past, i) + [TheTask(step.task)] else Greetings(past, i)
  {
    assert (past + [step])[..|past|] == past;
  }

  lemma UpdatesStay(st: TaskState, past: seq<Step>, step: Step)
    requires QueuesOk(st) && Can(st, step) && Hears(Updates(st.Emitted()), Payloads(past), st.agent.closed)
    ensures Hears(Updates(Do(st, step).Emitted()), Payloads(past + [step]), Do(st, step).agent.closed)
  {
    AgentLogs(st, step);
    SayingsGrow(st, step);
    SayingsOf(past, step);
    hide *;
    HearsMore(Updates(st.Emitted()), Payloads(past), st.agent.closed,
              if step.Emit? then step.payload else OtherUpdate(0), Do(st, step).agent.closed);
  }

  lemma FailureKept(past: seq<Step>, step: Step, emitted: seq<AgentEvent>, more: seq<AgentEvent>, closed: bool,
                    closed2: bool)
    requires FailureOk(past, emitted, closed) && (closed ==> closed2)
    requires Failure in more <==> Failure in emitted || (step == ProducerStops(true) && !closed)
    ensures FailureOk(past + [step], more, closed2)
  {
    assert ProducerStops(true) in past + [step] <==> ProducerStops(true) in past || step == ProducerStops(true);
  }

  lemma FailureStays(st: TaskState, past: seq<Step>, step: Step)
    requires QueuesOk(st) && Can(st, step) && FailureOk(past, st.Emitted(), st.agent.closed)
    ensures FailureOk(past + [step], Do(st, step).Emitted(), Do(st, step).agent.closed)
  {
    AgentLogs(st, step);
    SayingsGrow(st, step);
    hide *;
    FailureKept(past, step, st.Emitted(), Do(st, step).Emitted(), st.agent.closed, Do(st, step).agent.closed);
  }

  lemma RequestsStay(st: TaskState, past: seq<Step>, step: Step)
    requires Can(st, step) && st.requests.Conserved() && st.requests.capacity == 0
    requires Hears(st.requests.accepted, Submitted(past), st.requests.isShutdown)
    ensures Hears(Do(st, step).requests.accepted, Submitted(past + [step]), Do(st, step).requests.isShutdown)
  {
    ProducerMoves(st, step);
    var q2 := Do(st, step).requests;
    RequestsMove(step, st.producer, Do(st, step).producer, st.requests, q2);
    SayingsOf(past, step);
    hide *;
    HearsMore(st.requests.accepted, Submitted(past), st.requests.isShutdown,
              if step.Submit? || step.Ask? then step.request else 0, q2.isShutdown);
  }

  lemma AcknowledgedExactly(q: Broadcast.State<nat, AgentEvent>, a: Action<nat, AgentEvent>, id: nat)
    requires Enabled(q, a) && id in q.sinks
    ensures id in Apply(q, a).sinks
    ensures Apply(q, a).sinks[id].queue.acknowledged ==
      q.sinks[id].queue.acknowledged + if a == Action.Acknowledge(id) && q.sinks[id].queue.unfinished > 0 then 1 else 0
  {
    if !Touches(a, id) {
      hide Apply, Enabled;
      UntouchedSink(q, a, id);
    }
  }

  // Every event forwarded was acknowledged to the agent queue, and no other.
  lemma AcknowledgedStays(st: TaskState, step: Step)
    requires FlowOk(st) && Can(st, step) && 0 in st.agent.sinks
    requires st.agent.sinks[0].queue.acknowledged == st.processed
    ensures 0 in Do(st, step).agent.sinks
    ensures Do(st, step).agent.sinks[0].queue.acknowledged == Do(st, step).processed
  {
    MirrorEven(st);
    ConsumerMoves(st, step);
    AgentActs(st, step);
    EmissionIsOwn(st, step);
    SinkOfAgent(st);
    hide FlowOk, QueuesOk, Inv, Can, Do, Apply, Enabled;
    match AgentAction(st, step) {
      case None =>
      case Some(a) => AcknowledgedExactly(st.agent, a, 0);
    }
  }

  lemma SinkOfAgent(st: TaskState)
    requires QueuesOk(st)
    ensures st.agent.sinks[0].queue.acknowledged < |st.Consumed()| ==> st.agent.sinks[0].queue.unfinished > 0
  {
    SinkFacts(st.agent, 0);
    hide Inv;
  }

  // ----- The subscribers --------------------------------------------------------------------------------

  // How a stream came to be what it is: tapped with its options, asked for its request, greeted. It
  // breaks off only if it is stopped, or at once if its request finds the request queue shut.
  ghost predicate StreamSaid(past: seq<Step>, i: nat, stream: Stream, accepted: seq<nat>) {
    && stream.greeting == Greetings(past, i)
    && (exists c :: Attach(i, stream.sink, c, stream.initial, stream.replace) in past)
    && (stream.wants.Some? ==> Ask(i, stream.wants.value) in past)
    && (stream.wants.Some? && stream.wants.value !in accepted ==> stream.phase == Broken)
    && (stream.phase == Broken && StreamStops(i) !in past ==> stream.wants.Some? && stream.output == [])
  }

  // What a step does to a stream.
  ghost predicate StreamGoes(step: Step, i: nat, x: Stream, y: Stream, shut: bool) {
    && y.sink == x.sink && y.initial == x.initial && y.replace == x.replace
    && y.greeting == (if step.Greet? && step.stream == i then [TheTask(step.task)] else x.greeting)
    && y.wants == (if step.Ask? && step.stream == i then Some(step.request) else x.wants)
    && (step.Greet? && step.stream == i ==> x.phase == Greeting)
    && (step.Ask? && step.stream == i ==> x.phase == Tapped && (y.phase == Broken <==> shut))
    && (x.phase == Broken ==> y.output == x.output)
    && (y.phase == Broken <==> x.phase == Broken || step == StreamStops(i)
                               || (step.Ask? && step.stream == i && shut))
    && (y.phase == Broken && x.phase != Broken ==> y.output == x.output)
  }

  predicate StepOfStream(step: Step, i: nat) {
    (step.Ask? || step.Follow? || step.Greet? || step.Receive? || step.StreamStops?) && step.stream == i
  }

  lemma OtherStreamStays(st: TaskState, step: Step, i: nat)
    requires Can(st, step) && i in st.streams && !StepOfStream(step, i)
    ensures i in Do(st, step).streams && Do(st, step).streams[i] == st.streams[i]
  {
    hide Apply, Enabled, Put, Shutdown;
  }

  lemma StreamMoves(st: TaskState, step: Step, i: nat)
    requires Can(st, step) && i in st.streams
    ensures i in Do(st, step).streams
    ensures StreamGoes(step, i, st.streams[i], Do(st, step).streams[i], st.requests.isShutdown)
  {
    if StepOfStream(step, i) {
      hide Apply, Enabled, Put, Shutdown;
      match step {
        case Ask(_, _) =>
        case Follow(_) =>
        case Greet(_, _) =>
        case Receive(_) =>
        case StreamStops(_) =>
      }
    } else {
      OtherStreamStays(st, step, i);
      hide Can, Do;
    }
  }

  lemma StreamBegins(st: TaskState, step: Step, i: nat)
    requires Can(st, step) && i !in st.streams
    ensures i in Do(st, step).streams <==> step.Attach? && step.stream == i
    ensures i in Do(st, step).streams ==>
      Do(st, step).streams[i] == Stream(step.sink, None, step.initial, step.replace, [], [], Tapped)
    ensures !(step.Greet? && step.stream == i)
  {
    hide Apply, Enabled, Put, Shutdown;
  }

  // A stream that has not begun, or has just been tapped.
  ghost predicate HistoryOfStream(st: TaskState, past: seq<Step>, i: nat) {
    if i in st.streams then
      && StreamSaid(past, i, st.streams[i], st.requests.accepted)
      && st.streams[i].sink in st.subscribers.sinks && st.subscribers.sinks[st.streams[i].sink].evictOnFull
    else Greetings(past, i) == []
  }

  lemma StreamSaidAfter(past: seq<Step>, step: Step, i: nat, x: Stream, y: Stream, q: Queue<nat>, q2: Queue<nat>)
    requires StreamSaid(past, i, x, q.accepted) && StreamGoes(step, i, x, y, q.isShutdown)
    requires x.phase == Tapped || x.phase == Greeting ==> x.greeting == [] && x.output == []
    requires q2.accepted == if (step.Submit? || step.Ask?) && !q.isShutdown then q.accepted + [step.request]
                            else q.accepted
    ensures StreamSaid(past + [step], i, y, q2.accepted)
  {
    GreetingsOf(past, step, i);
    hide Greetings;
    assert exists c :: Attach(i, y.sink, c, y.initial, y.replace) in past + [step] by {
      var c :| Attach(i, x.sink, c, x.initial, x.replace) in past;
      assert Attach(i, y.sink, c, y.initial, y.replace) in past + [step];
    }
    assert forall earlier :: earlier in past ==> earlier in past + [step];
  }

  lemma NewStreamSaid(past: seq<Step>, step: Step, i: nat, y: Stream, accepted: seq<nat>)
    requires Greetings(past, i) == [] && step.Attach? && step.stream == i
    requires y == Stream(step.sink, None, step.initial, step.replace, [], [], Tapped)
    ensures StreamSaid(past + [step], i, y, accepted)
  {
    GreetingsOf(past, step, i);
    assert Attach(i, y.sink, step.capacity, y.initial, y.replace) in past + [step];
    hide Greetings;
  }

  lemma PolicyKept(st: TaskState, step: Step, sink: nat)
    requires QueuesOk(st) && Can(st, step) && sink in st.subscribers.sinks
    ensures sink in Do(st, step).subscribers.sinks
    ensures Do(st, step).subscribers.sinks[sink].evictOnFull == st.subscribers.sinks[sink].evictOnFull
  {
    SubscribersAct(st, step);
    hide Inv, Do, Can, Apply, Enabled;
    match SubscriberAction(st, step) {
      case None =>
      case Some(a) => SinkGoesOn(st.subscribers, a, sink);
    }
  }

  lemma AttachEvicts(st: TaskState, step: Step)
    requires Can(st, step) && step.Attach?
    ensures step.sink in Do(st, step).subscribers.sinks
    ensures Do(st, step).subscribers.sinks[step.sink].evictOnFull
  {
    AttachIsTap(st, step);
    hide Can, Do, Apply, Enabled;
    SinkIsCreatedExactly(st.subscribers, Action<nat, Entry>.Tap(step.sink, step.capacity, true), step.sink);
  }

  lemma UngreetedIsEmpty(stream: Stream, taken: seq<Entry>, start: nat, forwarded: seq<Entry>)
    requires StreamOk(stream, taken, start, forwarded)
    ensures stream.phase == Tapped || stream.phase == Greeting ==> stream.greeting == [] && stream.output == []
  {
  }

  lemma StreamHistoryStays(st: TaskState, past: seq<Step>, step: Step, i: nat)
    requires FlowOk(st) && Can(st, step) && HistoryOfStream(st, past, i)
    requires st.requests.Conserved() && st.requests.capacity == 0
    ensures HistoryOfStream(Do(st, step), past + [step], i)
  {
    MirrorEven(st);
    ProducerMoves(st, step);
    RequestsMove(step, st.producer, Do(st, step).producer, st.requests, Do(st, step).requests);
    hide FlowOk, QueuesOk, Inv, Can, Do, ProducerGoes, StreamSaid, StreamGoes, StreamOk;
    if i in st.streams {
      var x := st.streams[i];
      StreamOfState(st, i);
      UngreetedIsEmpty(x, st.subscribers.sinks[x.sink].queue.taken, st.subscribers.sinks[x.sink].start,
                       st.Forwarded());
      StreamMoves(st, step, i);
      StreamKeepsSink(step, i, x, Do(st, step).streams[i], st.requests.isShutdown);
      StreamSaidAfter(past, step, i, x, Do(st, step).streams[i], st.requests, Do(st, step).requests);
      PolicyKept(st, step, x.sink);
    } else {
      StreamBegins(st, step, i);
      if step.Attach? && step.stream == i {
        NewStreamSaid(past, step, i, Do(st, step).streams[i], Do(st, step).requests.accepted);
        AttachEvicts(st, step);
      } else {
        GreetingsOf(past, step, i);
      }
    }
  }

  lemma StreamKeepsSink(step: Step, i: nat, x: Stream, y: Stream, shut: bool)
    requires StreamGoes(step, i, x, y, shut)
    ensures y.sink == x.sink
  {
  }

  // ----- All runs ---------------------------------------------------------------------------------------

  ghost predicate HistoryOk(st: TaskState, past: seq<Step>, i: nat) {
    && 0 in st.agent.sinks
    && HandledOk(Handlings(past), st.Forwarded(), st.Consumed(), st.processed, st.consumer)
    && TurnsOk(st.Emitted(), st.agent.closed, st.producer, st.requests)
    && Hears(Updates(st.Emitted()), Payloads(past), st.agent.closed)
    && FailureOk(past, st.Emitted(), st.agent.closed)
    && Hears(st.requests.accepted, Submitted(past), st.requests.isShutdown)
    && st.agent.sinks[0].queue.acknowledged == st.processed
    && HistoryOfStream(st, past, i)
  }

  lemma TurnsHaveRequests(emitted: seq<AgentEvent>, closed: bool, producer: Producer, requests: Queue<nat>)
    requires TurnsOk(emitted, closed, producer, requests)
    ensures requests.Conserved() && requests.capacity == 0
  {
  }

  lemma HistoryStays(st: TaskState, past: seq<Step>, step: Step, i: nat)
    requires FlowOk(st) && Can(st, step) && HistoryOk(st, past, i)
    ensures HistoryOk(Do(st, step), past + [step], i)
  {
    hide FlowOk, Can, Do, HandledOk, TurnsOk, Hears, FailureOk, HistoryOfStream, QueuesOk, Handlings, Payloads,
        Submitted;
    MirrorEven(st);
    TurnsHaveRequests(st.Emitted(), st.agent.closed, st.producer, st.requests);
    AcknowledgedStays(st, step);
    HandledStays(st, past, step);
    TurnsStay(st, step);
    UpdatesStay(st, past, step);
    FailureStays(st, past, step);
    RequestsStay(st, past, step);
    StreamHistoryStays(st, past, step, i);
  }

  lemma {:induction false} HistoryKeeps(st: TaskState, past: seq<Step>, steps: seq<Step>, i: nat)
    requires FlowOk(st) && HistoryOk(st, past, i) && Behave(st, steps).Now?
    ensures HistoryOk(Behave(st, steps).state, past + steps, i)
    decreases |steps|
  {
    hide FlowOk, HistoryOk, Can, Do;
    if steps == [] {
      assert past + steps == past;
    } else {
      FlowStepKeeps(st, steps[0]);
      HistoryStays(st, past, steps[0], i);
      HistoryKeeps(Do(st, steps[0]), past + [steps[0]], steps[1..], i);
      assert past + [steps[0]] + steps[1..] == past + steps;
    }
  }

  lemma ConstructedHistory(capacity: nat, i: nat)
    requires capacity > 0
    ensures HistoryOk(Constructed(capacity), [], i)
  {
  }

  lemma ReachableHistory(capacity: nat, steps: seq<Step>, i: nat)
    requires capacity > 0 && Behave(Constructed(capacity), steps).Now?
    ensures FlowOk(Behave(Constructed(capacity), steps).state)
    ensures HistoryOk(Behave(Constructed(capacity), steps).state, steps, i)
  {
    hide *;
    ConstructedHistory(capacity, i);
    ConstructedOk(capacity);
    ReachableOk(capacity, steps);
    HistoryKeeps(Constructed(capacity), [], steps, i);
    assert [] + steps == steps;
  }

  // ----- The agent queue ----------------------------------------------------------------------------------

  // In every run the agent queue got the lifecycle markers of the requests one after the other, in
  // the order in which the requests were handed in, started before completed; it got the agent's
  // updates in the order emitted, and a failure exactly if the producer stopped with one. Nothing
  // of this is missing while the queue is open, but for the markers of the request under way; once
  // it is closed, what it got is a first part.
  lemma AgentQueueHears(capacity: nat, steps: seq<Step>)
    requires capacity > 0 && Behave(Constructed(capacity), steps).Now?
    ensures var st := Behave(Constructed(capacity), steps).state; var es := st.Emitted();
      && Markers(es) <= Turns(st.requests.taken)
      && st.requests.taken <= st.requests.accepted <= Submitted(steps)
      && (!st.requests.isShutdown ==> st.requests.accepted == Submitted(steps))
      && (!st.agent.closed && st.producer.Fetching? ==> Markers(es) == Turns(st.requests.taken))
      && Updates(es) <= Payloads(steps) && (!st.agent.closed ==> Updates(es) == Payloads(steps))
      && (Failure in es ==> ProducerStops(true) in steps)
      && (ProducerStops(true) in steps && !st.agent.closed ==> Failure in es)
  {
    ReachableHistory(capacity, steps, 0);
    var st := Behave(Constructed(capacity), steps).state;
    hide Behave, FlowOk, HandledOk, HistoryOfStream, Markers, Turns, Updates, Payloads, Submitted;
    TakenIsPrefix(st.requests);
  }

  // ----- What is forwarded --------------------------------------------------------------------------------

  // In every run the k-th entry forwarded to the subscribers is the k-th event the agent queue got,
  // with the task the consumer had after handling it; a failure stands for it if and only if it was
  // one, or is an update whose handler raised. As long as the subscribers' queue is open, every event
  // handled was forwarded, but for the last. As many events were acknowledged as were processed.
  lemma ForwardsWhatWasHandled(capacity: nat, steps: seq<Step>)
    requires capacity > 0 && Behave(Constructed(capacity), steps).Now?
    ensures var st := Behave(Constructed(capacity), steps).state;
      var hs, fs, es := Handlings(steps), st.Forwarded(), st.Emitted();
      && |fs| <= |hs| <= |es| && (!st.subscribers.closed ==> |hs| <= |fs| + 1)
      && (forall k :: 0 <= k < |fs| ==>
            && fs[k].task == hs[k].task
            && (fs[k].event == es[k] || (fs[k].event == Failure && es[k].Update? && hs[k].fails))
            && (es[k].Update? && hs[k].fails ==> fs[k].event == Failure))
      && 0 in st.agent.sinks && st.agent.sinks[0].queue.acknowledged == st.processed
      && |fs| <= st.processed && (!st.subscribers.closed ==> st.processed == |fs|)
  {
    ReachableHistory(capacity, steps, 0);
    var st := Behave(Constructed(capacity), steps).state;
    MirrorEven(st);
    ConsumedIsPrefix(st);
    hide Behave, FlowOk, QueuesOk, TurnsOk, HistoryOfStream, FailureOk, Hears, Handlings;
  }

  // ----- What a subscriber is shown ----------------------------------------------------------------------

  // How many of the events from lo to hi are updates whose handler did not raise.
  function Shows(es: seq<AgentEvent>, hs: seq<Handling>, lo: nat, hi: nat): nat
    requires lo <= hi <= |es| && hi <= |hs|
  {
    if lo == hi then 0 else Shows(es, hs, lo, hi - 1) + if es[hi - 1].Update? && !hs[hi - 1].fails then 1 else 0
  }

  // What is shown for one update.
  predicate ShownFor(x: Shown, e: AgentEvent, h: Handling, replace: bool)
    requires e.Update?
  {
    x == if replace && e.payload.StatusUpdate? then TheTask(h.task) else TheEvent(e.payload)
  }

  // Update k among those from lo on is shown where the updates before it leave off.
  ghost predicate ShownAt(output: seq<Shown>, g: nat, es: seq<AgentEvent>, hs: seq<Handling>, lo: nat, k: nat,
                          replace: bool)
    requires lo <= k < |es| && k < |hs| && es[k].Update?
  {
    g + Shows(es, hs, lo, k) < |output| && ShownFor(output[g + Shows(es, hs, lo, k)], es[k], hs[k], replace)
  }

  // After a greeting of g parts, the output is one part for each such update, in order: the payload
  // the agent emitted, or the task after it where a status update is to be replaced by the task.
  ghost predicate ShownUpdates(output: seq<Shown>, g: nat, es: seq<AgentEvent>, hs: seq<Handling>, lo: nat, hi: nat,
                               replace: bool)
  {
    && lo <= hi <= |es| && hi <= |hs| && |output| == g + Shows(es, hs, lo, hi)
    && forall k :: lo <= k < hi && es[k].Update? && !hs[k].fails ==> ShownAt(output, g, es, hs, lo, k, replace)
  }

  lemma ShownStill(output: seq<Shown>, x: Shown, g: nat, es: seq<AgentEvent>, hs: seq<Handling>, lo: nat, k: nat,
                   replace: bool)
    requires lo <= k < |es| && k < |hs| && es[k].Update? && ShownAt(output, g, es, hs, lo, k, replace)
    ensures ShownAt(output + [x], g, es, hs, lo, k, replace)
  {
    hide Shows, ShownFor;
  }

  lemma ShownLast(output: seq<Shown>, x: Shown, g: nat, es: seq<AgentEvent>, hs: seq<Handling>, lo: nat, k: nat,
                  replace: bool)
    requires lo <= k < |es| && k < |hs| && es[k].Update? && ShownFor(x, es[k], hs[k], replace)
    requires |output| == g + Shows(es, hs, lo, k)
    ensures ShownAt(output + [x], g, es, hs, lo, k, replace)
  {
    hide Shows, ShownFor;
  }

  lemma ShownOneMore(output: seq<Shown>, g: nat, es: seq<AgentEvent>, hs: seq<Handling>, lo: nat, hi: nat,
                     x: Shown, replace: bool)
    requires lo <= hi < |es| && hi < |hs| && ShownUpdates(output, g, es, hs, lo, hi, replace)
    requires es[hi].Update? && !hs[hi].fails && ShownFor(x, es[hi], hs[hi], replace)
    ensures ShownUpdates(output + [x], g, es, hs, lo, hi + 1, replace)
  {
    assert Shows(es, hs, lo, hi + 1) == Shows(es, hs, lo, hi) + 1;
    hide Shows, ShownFor, ShownAt;
    forall k | lo <= k < hi + 1 && es[k].Update? && !hs[k].fails
      ensures ShownAt(output + [x], g, es, hs, lo, k, replace)
    {
      if k < hi {
        ShownStill(output, x, g, es, hs, lo, k, replace);
      } else {
        ShownLast(output, x, g, es, hs, lo, k, replace);
      }
    }
  }

  lemma ShownNoMore(output: seq<Shown>, g: nat, es: seq<AgentEvent>, hs: seq<Handling>, lo: nat, hi: nat, replace: bool)
    requires lo <= hi < |es| && hi < |hs| && ShownUpdates(output, g, es, hs, lo, hi, replace)
    requires !(es[hi].Update? && !hs[hi].fails)
    ensures ShownUpdates(output, g, es, hs, lo, hi + 1, replace)
  {
    assert Shows(es, hs, lo, hi + 1) == Shows(es, hs, lo, hi);
    hide Shows, ShownAt;
    forall k | lo <= k < hi + 1 && es[k].Update? && !hs[k].fails
      ensures ShownAt(output, g, es, hs, lo, k, replace)
    {
      assert k < hi;
    }
  }

  lemma ViewsOneMore(all: seq<Entry>, lo: nat, hi: nat, e: AgentEvent, h: Handling, replace: bool)
    requires lo <= hi < |all| && Answers(all[hi], e, h)
    ensures Views(all[lo..hi + 1], replace) == Views(all[lo..hi], replace) +
      if e.Update? && !h.fails then
        [if replace && e.payload.StatusUpdate? then TheTask(h.task) else TheEvent(e.payload)]
      else []
  {
    assert all[lo..hi + 1][..hi - lo] == all[lo..hi];
  }

  lemma {:induction false} ViewsAreUpdates(all: seq<Entry>, es: seq<AgentEvent>, hs: seq<Handling>, lo: nat, hi: nat,
      greeting: seq<Shown>, replace: bool)
    requires lo <= hi <= |all| && |all| <= |es| && |all| <= |hs|
    requires forall k :: 0 <= k < |all| ==> Answers(all[k], es[k], hs[k])
    ensures ShownUpdates(greeting + Views(all[lo..hi], replace), |greeting|, es, hs, lo, hi, replace)
  {
    if lo == hi {
      assert greeting + Views(all[lo..hi], replace) == greeting;
    } else {
      ViewsAreUpdates(all, es, hs, lo, hi - 1, greeting, replace);
      ViewsOneMore(all, lo, hi - 1, es[hi - 1], hs[hi - 1], replace);
      hide *;
      ShownFurther(greeting, Views(all[lo..hi - 1], replace), Views(all[lo..hi], replace), es, hs, lo, hi - 1, replace);
    }
  }

  lemma ShownFurther(greeting: seq<Shown>, before: seq<Shown>, after: seq<Shown>, es: seq<AgentEvent>,
                     hs: seq<Handling>, lo: nat, hi: nat, replace: bool)
    requires lo <= hi < |es| && hi < |hs|
    requires ShownUpdates(greeting + before, |greeting|, es, hs, lo, hi, replace)
    requires after == before + if es[hi].Update? && !hs[hi].fails then
        [if replace && es[hi].payload.StatusUpdate? then TheTask(hs[hi].task) else TheEvent(es[hi].payload)]
      else []
    ensures ShownUpdates(greeting + after, |greeting|, es, hs, lo, hi + 1, replace)
  {
    hide Shows, ShownUpdates;
    if es[hi].Update? && !hs[hi].fails {
      var x := if replace && es[hi].payload.StatusUpdate? then TheTask(hs[hi].task) else TheEvent(es[hi].payload);
      ShownOneMore(greeting + before, |greeting|, es, hs, lo, hi, x, replace);
      assert greeting + before + [x] == greeting + (before + [x]);
    } else {
      ShownNoMore(greeting + before, |greeting|, es, hs, lo, hi, replace);
      assert after == before;
    }
  }

  lemma ForwardedAnswers(st: TaskState, past: seq<Step>, i: nat)
    requires FlowOk(st) && HistoryOk(st, past, i)
    ensures |st.Forwarded()| <= |Handlings(past)| && |st.Forwarded()| <= |st.Emitted()|
    ensures forall k :: 0 <= k < |st.Forwarded()| ==> Answers(st.Forwarded()[k], st.Emitted()[k], Handlings(past)[k])
  {
    MirrorEven(st);
    ConsumedIsPrefix(st);
    hide FlowOk, QueuesOk, TurnsOk, HistoryOfStream, FailureOk, Hears, Handlings, Answers;
  }

  // In every run every subscriber was shown the stored task if it asked for it and got so far, and then,
  // in order, each update the agent emitted among the events that fall to the entries it dequeued, unless
  // its handler raised: the event as the agent emitted it, or the task the consumer had after handling
  // that very event. The options are those it subscribed with, the request the one it handed in. It
  // breaks off only if it is stopped, or right away if its request came too late; and its queue is one
  // that a full queue evicts, so it never holds up the others.
  lemma SubscriberIsShownUpdates(capacity: nat, steps: seq<Step>, i: nat)
    requires capacity > 0 && Behave(Constructed(capacity), steps).Now?
    requires i in Behave(Constructed(capacity), steps).state.streams
    ensures var st := Behave(Constructed(capacity), steps).state; var stream := st.streams[i];
      && stream.sink in st.subscribers.sinks
      && var sink := st.subscribers.sinks[stream.sink];
      && ShownUpdates(stream.output, |stream.greeting|, st.Emitted(), Handlings(steps),
                      sink.start, sink.start + |sink.queue.taken|, stream.replace)
      && stream.greeting <= stream.output && stream.greeting == Greetings(steps, i)
      && (exists c :: Attach(i, stream.sink, c, stream.initial, stream.replace) in steps)
      && (stream.wants.Some? ==> Ask(i, stream.wants.value) in steps)
      && (stream.wants.Some? && stream.phase != Broken ==> stream.wants.value in st.requests.accepted)
      && (stream.phase == Broken && StreamStops(i) !in steps ==> stream.wants.Some? && stream.output == [])
      && sink.evictOnFull
  {
    hide *;
    var st := Behave(Constructed(capacity), steps).state;
    ReachableHistory(capacity, steps, i);
    ShownInHistory(st, steps, i);
    HistoryTellsStream(st, steps, i);
    SaidOfStream(steps, i, st.streams[i], st.requests.accepted);
  }

  lemma SaidOfStream(past: seq<Step>, i: nat, stream: Stream, accepted: seq<nat>)
    requires StreamSaid(past, i, stream, accepted)
    ensures stream.greeting == Greetings(past, i)
    ensures exists c :: Attach(i, stream.sink, c, stream.initial, stream.replace) in past
    ensures stream.wants.Some? ==> Ask(i, stream.wants.value) in past
    ensures stream.wants.Some? && stream.phase != Broken ==> stream.wants.value in accepted
    ensures stream.phase == Broken && StreamStops(i) !in past ==> stream.wants.Some? && stream.output == []
  {
    hide Greetings;
  }

  lemma ShownInHistory(st: TaskState, past: seq<Step>, i: nat)
    requires FlowOk(st) && HistoryOk(st, past, i) && i in st.streams
    ensures st.streams[i].sink in st.subscribers.sinks && st.streams[i].greeting <= st.streams[i].output
    ensures var stream := st.streams[i]; var sink := st.subscribers.sinks[stream.sink];
      ShownUpdates(stream.output, |stream.greeting|, st.Emitted(), Handlings(past), sink.start,
                   sink.start + |sink.queue.taken|, stream.replace)
  {
    hide *;
    ShownFromInv(st, i);
    ForwardedAnswers(st, past, i);
    ShownOfStretch(st.streams[i], st.subscribers, st.Forwarded(), st.Emitted(), Handlings(past));
  }

  lemma ShownOfStretch(stream: Stream, subscribers: Broadcast.State<nat, Entry>, all: seq<Entry>, es: seq<AgentEvent>,
                       hs: seq<Handling>)
    requires ShownSoFar(stream, subscribers, all) && |all| <= |es| && |all| <= |hs|
    requires forall k :: 0 <= k < |all| ==> Answers(all[k], es[k], hs[k])
    ensures stream.sink in subscribers.sinks && stream.greeting <= stream.output
    ensures var sink := subscribers.sinks[stream.sink];
      ShownUpdates(stream.output, |stream.greeting|, es, hs, sink.start, sink.start + |sink.queue.taken|,
                   stream.replace)
  {
    hide *;
    OutputOfStretch(stream, subscribers, all);
    var sink := subscribers.sinks[stream.sink];
    ViewsAreUpdates(all, es, hs, sink.start, sink.start + |sink.queue.taken|, stream.greeting, stream.replace);
  }

  lemma OutputOfStretch(stream: Stream, subscribers: Broadcast.State<nat, Entry>, all: seq<Entry>)
    requires ShownSoFar(stream, subscribers, all)
    ensures stream.sink in subscribers.sinks
    ensures var first := subscribers.sinks[stream.sink].start;
      var next := first + |subscribers.sinks[stream.sink].queue.taken|;
      next <= |all| && stream.output == stream.greeting + Views(all[first..next], stream.replace)
  {
    hide Views, Continues, Unbroken;
  }

  lemma HistoryTellsStream(st: TaskState, past: seq<Step>, i: nat)
    requires HistoryOk(st, past, i) && i in st.streams
    ensures StreamSaid(past, i, st.streams[i], st.requests.accepted)
    ensures st.streams[i].sink in st.subscribers.sinks && st.subscribers.sinks[st.streams[i].sink].evictOnFull
  {
    hide StreamSaid, HandledOk, TurnsOk, FailureOk, Hears;
  }

  // A subscriber that came to the end of the request it handed in was shown, after the stored task if it
  // asked for it, every update the agent emitted between the two markers of that request, whatever it
  // emitted before them since the queue began, and nothing else. No handler raised among them.
  lemma FinishedStreamShowsEmitted(capacity: nat, steps: seq<Step>, i: nat)
      returns (first: nat, started: nat, last: nat)
    requires capacity > 0 && Behave(Constructed(capacity), steps).Now?
    requires var st := Behave(Constructed(capacity), steps).state;
      i in st.streams && st.streams[i].phase == Finished
    ensures var st := Behave(Constructed(capacity), steps).state;
      var stream, es, hs := st.streams[i], st.Emitted(), Handlings(steps);
      && first <= started < last < |es| && last <= |hs|
      && stream.wants.Some? && Ask(i, stream.wants.value) in steps
      && es[started] == Started(stream.wants.value) && es[last] == Completed(stream.wants.value)
      && (forall k :: first <= k < last ==> !es[k].Failure? && (es[k].Update? ==> !hs[k].fails))
      && ShownUpdates(stream.output, |stream.greeting|, es, hs, first, last, stream.replace)
      && stream.greeting <= stream.output && stream.greeting == Greetings(steps, i)
      && (stream.initial <==> stream.greeting != [])
  {
    hide Behave;
    ReachableHistory(capacity, steps, i);
    first, started, last := FinishedInHistory(Behave(Constructed(capacity), steps).state, steps, i);
    HistoryTellsStream(Behave(Constructed(capacity), steps).state, steps, i);
    hide FlowOk, HistoryOk, ShownUpdates, Handlings, Greetings;
  }

  lemma FinishedInHistory(st: TaskState, past: seq<Step>, i: nat) returns (first: nat, started: nat, last: nat)
    requires FlowOk(st) && HistoryOk(st, past, i) && i in st.streams && st.streams[i].phase == Finished
    ensures var stream, es, hs := st.streams[i], st.Emitted(), Handlings(past);
      && first <= started < last < |es| && last <= |hs| && stream.wants.Some?
      && es[started] == Started(stream.wants.value) && es[last] == Completed(stream.wants.value)
      && (forall k :: first <= k < last ==> !es[k].Failure? && (es[k].Update? ==> !hs[k].fails))
      && ShownUpdates(stream.output, |stream.greeting|, es, hs, first, last, stream.replace)
      && stream.greeting <= stream.output && (stream.initial <==> stream.greeting != [])
  {
    first, started, last := FinishedFromInv(st, i);
    ForwardedAnswers(st, past, i);
    var stream, all := st.streams[i], st.Forwarded();
    hide FlowOk, HistoryOk, Views, ShownUpdates, Handlings;
    ViewsAreUpdates(all, st.Emitted(), Handlings(past), first, last, stream.greeting, stream.replace);
    assert Answers(all[started], st.Emitted()[started], Handlings(past)[started]);
    assert Answers(all[last], st.Emitted()[last], Handlings(past)[last]);
    forall k | first <= k < last
      ensures !st.Emitted()[k].Failure? && (st.Emitted()[k].Update? ==> !Handlings(past)[k].fails)
    {
      assert Answers(all[k], st.Emitted()[k], Handlings(past)[k]) && !all[k].event.Failure?;
    }
  }
}