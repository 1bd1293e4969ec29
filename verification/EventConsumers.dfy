// The event consumer of src/a2a/server/agent_execution/active_task.py:106-336: it accepts
// either one message or any number of task events, acknowledges what it dequeues, and
// forwards it. The task store is left open: a `Reply` says how its calls turn out.

module EventConsumers {
  import opened Options

  datatype TaskKind = FullTask | StatusUpdate | ArtifactUpdate | PushNotification

  datatype Event =
    | RequestStarted(message: nat)
    | RequestCompleted
    | Failure
    | Message(body: nat)
    | TaskEvent(kind: TaskKind, body: nat)

  // The consumer's `task_mode`: None, True or False.
  datatype Mode = Undecided | TaskMode | MessageMode

  datatype Reply = Reply(
    known: bool,         // a status update finds `_task_created` set, or a stored task
    applied: bool,       // reading, ensuring and saving the task raise nothing
    found: bool,         // the task is there afterwards
    announced: bool,     // the terminal state and the push notification are handled
    readable: bool,      // in the exception handler: the stored task can be read
    live: bool)          // ... and exists in a state that is not terminal

  // An event that may not follow what was already accepted.
  predicate Conflicts(accepted: seq<Event>, e: Event) {
    (e.Message? && exists x :: x in accepted && (x.Message? || x.TaskEvent?)) ||
    (e.TaskEvent? && exists x :: x in accepted && x.Message?)
  }

  // The store lets the event through.
  predicate StoreAccepts(e: Event, r: Reply) {
    e.TaskEvent? ==> (e.kind == StatusUpdate ==> r.known) && r.applied && r.found && r.announced
  }

  // Either one message and no task event, or no message.
  ghost predicate OneKind(es: seq<Event>) {
    || (forall k :: 0 <= k < |es| ==> !es[k].Message?)
    || (&& (forall k :: 0 <= k < |es| ==> !es[k].TaskEvent?)
        && (forall k, l :: 0 <= k < l < |es| ==> !(es[k].Message? && es[l].Message?)))
  }

  // What the mode says about the events accepted so far.
  ghost predicate ModeFits(mode: Mode, accepted: seq<Event>) {
    && (mode == Undecided ==> forall e :: e in accepted ==> !e.Message? && !e.TaskEvent?)
    && (mode == TaskMode ==> (forall e :: e in accepted ==> !e.Message?) && exists e :: e in accepted && e.TaskEvent?)
    && (mode == MessageMode ==>
        (forall e :: e in accepted ==> !e.TaskEvent?) && exists e :: e in accepted && e.Message?)
    && OneKind(accepted)
  }

  lemma ModeShowsConflict(mode: Mode, accepted: seq<Event>, e: Event)
    requires ModeFits(mode, accepted)
    ensures Conflicts(accepted, e) <==> (e.Message? && mode != Undecided) || (e.TaskEvent? && mode == MessageMode)
  {
  }

  lemma ModeShowsMessage(mode: Mode, accepted: seq<Event>)
    requires ModeFits(mode, accepted)
    ensures mode == MessageMode <==> exists k :: 0 <= k < |accepted| && accepted[k].Message?
  {
  }

  lemma ModeShowsOneKind(mode: Mode, accepted: seq<Event>)
    ensures ModeFits(Undecided, [])
    ensures ModeFits(mode, accepted) ==> OneKind(accepted)
  {
  }

  lemma AcceptedKeepsMode(mode: Mode, accepted: seq<Event>, e: Event)
    requires ModeFits(mode, accepted) && !Conflicts(accepted, e)
    ensures ModeFits(if e.Message? then MessageMode else if e.TaskEvent? then TaskMode else mode, accepted + [e])
  {
    var more := accepted + [e];
    assert forall x :: x in more <==> x in accepted || x == e;
    if e.Message? {
      assert forall k :: 0 <= k < |accepted| ==> accepted[k] in accepted;
    } else if e.TaskEvent? {
      assert forall k :: 0 <= k < |more| ==> !more[k].Message? by {
        assert forall k :: 0 <= k < |accepted| ==> accepted[k] in accepted;
      }
    } else if forall k :: 0 <= k < |accepted| ==> !accepted[k].Message? {
      assert forall k :: 0 <= k < |more| ==> !more[k].Message?;
    }
  }

  // The events of a script.
  function Events(script: seq<(Event, Reply)>): (es: seq<Event>)
    ensures |es| == |script|
  {
    if script == [] then [] else Events(script[..|script| - 1]) + [script[|script| - 1].0]
  }

  lemma {:induction false} EventsAt(script: seq<(Event, Reply)>)
    ensures forall k :: 0 <= k < |script| ==>
      Events(script)[k] == script[k].0 && Events(script[..k]) == Events(script)[..k]
    decreases |script|
  {
    if script != [] {
      var front := script[..|script| - 1];
      EventsAt(front);
      forall k | 0 <= k < |script|
        ensures Events(script)[k] == script[k].0 && Events(script[..k]) == Events(script)[..k]
      {
        if k < |front| {
          assert script[..k] == front[..k];
        }
      }
    }
  }

  // The event at k is no failure, fits what came before, and the store lets it through.
  ghost predicate Acceptable(script: seq<(Event, Reply)>, k: nat)
    requires k < |script|
  {
    !script[k].0.Failure? && !Conflicts(Events(script[..k]), script[k].0) && StoreAccepts(script[k].0, script[k].1)
  }

  class EventConsumer {
    var taskMode: Mode
    var messageToSave: Option<nat>

    constructor ()
      ensures taskMode == Undecided && messageToSave == None
    {
      taskMode, messageToSave := Undecided, None;
    }

    // `_handle_message_event`; false where it raises.
    method HandleMessage() returns (ok: bool)
      modifies this`taskMode
      ensures ok == (old(taskMode) == Undecided)
      ensures taskMode == if ok then MessageMode else old(taskMode)
    {
      if taskMode == TaskMode || taskMode == MessageMode {
        return false;
      }
      taskMode := MessageMode;
      return true;
    }

    // `_handle_task_event`; false where it raises. The mode is set before the task is re-read.
    method HandleTaskEvent(kind: TaskKind, r: Reply) returns (ok: bool)
      modifies this
      ensures ok == (old(taskMode) != MessageMode && (kind == StatusUpdate ==> r.known) && r.applied && r.found)
      ensures var stored := old(taskMode) != MessageMode && (kind == StatusUpdate ==> r.known) && r.applied;
        && taskMode == (if stored then TaskMode else old(taskMode))
        && messageToSave == (if stored then None else old(messageToSave))
    {
      if taskMode == MessageMode {
        return false;
      }
      if kind == StatusUpdate && !r.known {
        return false;
      }
      if !r.applied {
        return false;
      }
      messageToSave := None;
      taskMode := TaskMode;
      return r.found;
    }

    // `_process_event` up to the forwarding; false where it raises.
    method ProcessEvent(e: Event, r: Reply) returns (ok: bool)
      modifies this
      ensures ok == match e
                    case Failure => false
                    case Message(_) => old(taskMode) == Undecided
                    case TaskEvent(_, _) => old(taskMode) != MessageMode && StoreAccepts(e, r)
                    case _ => true
      ensures ok ==> taskMode == if e.Message? then MessageMode else if e.TaskEvent? then TaskMode else old(taskMode)
      ensures old(taskMode) != Undecided ==> taskMode == old(taskMode)
      ensures !ok ==> taskMode == old(taskMode) || taskMode == TaskMode
      ensures e.RequestStarted? ==> messageToSave == Some(e.message)
      ensures e.TaskEvent? && ok ==> messageToSave == None
      ensures !e.RequestStarted? && !e.TaskEvent? ==> messageToSave == old(messageToSave)
    {
      match e {
        case RequestCompleted => ok := true;
        case RequestStarted(message) =>
          messageToSave := Some(message);
          ok := true;
        case Failure => ok := false;
        case Message(_) => ok := HandleMessage();
        case TaskEvent(kind, _) =>
          ok := HandleTaskEvent(kind, r);
          if ok && !r.announced {
            ok := false;
          }
      }
    }

    // The `except` branch of `run` up to the forwarding; false where it raises itself.
    method HandleException(r: Reply) returns (ok: bool)
      modifies this
      ensures ok == (r.readable && (r.live ==> old(taskMode) != MessageMode && r.known && r.applied && r.found))
      ensures old(taskMode) != Undecided ==> taskMode == old(taskMode)
    {
      if !r.readable {
        return false;
      }
      ok := true;
      if r.live {
        ok := HandleTaskEvent(StatusUpdate, r);
      }
    }

    // `run`, on the events the agent queue delivers until it shuts down. What is forwarded is
    // the longest stretch of events before the first one that is a failure, conflicts with
    // what came before, or that the store does not accept, and then that failure. The
    // forwarded events hold one message or none, and no message beside task events. Every
    // dequeued event is acknowledged, except the last one if the handler itself raises. It does
    // if it cannot read the stored task, or finds a live one that it cannot mark as failed: after
    // a message, or because the store does not take it.
    method Run(script: seq<(Event, Reply)>, handler: Reply)
        returns (forwarded: seq<Event>, acknowledged: nat, dequeued: nat, failed: bool, crashed: bool)
      requires taskMode == Undecided
      modifies this
      ensures OneKind(forwarded) && (crashed ==> failed)
      ensures acknowledged == if crashed then dequeued - 1 else dequeued
      ensures var n := if failed then dequeued - 1 else dequeued;
        && 0 <= n <= |script| && forwarded == Events(script)[..n] + (if failed && !crashed then [Failure] else [])
        && (forall k :: 0 <= k < n ==> Acceptable(script, k))
        && (failed <==> n < |script|) && (failed ==> !Acceptable(script, n))
        && (crashed <==> failed && !(handler.readable && (handler.live ==>
              handler.known && handler.applied && handler.found
              && forall k :: 0 <= k < n ==> !Events(script)[k].Message?)))
    {
      hide ModeFits, OneKind, Conflicts, Events;
      forwarded, acknowledged, dequeued, failed, crashed := [], 0, 0, false, false;
      EventsAt(script);
      ModeShowsOneKind(taskMode, forwarded);
      while dequeued < |script|
        invariant dequeued <= |script| && acknowledged == dequeued
        invariant forwarded == Events(script)[..dequeued]
        invariant ModeFits(taskMode, forwarded)
        invariant forall k :: 0 <= k < dequeued ==> Acceptable(script, k)
      {
        var (e, r) := script[dequeued];
        dequeued := dequeued + 1;
        ghost var mode := taskMode;
        ModeShowsConflict(mode, forwarded, e);
        var ok := ProcessEvent(e, r);
        assert ok <==> Acceptable(script, dequeued - 1);
        ModeShowsOneKind(mode, forwarded);
        if !ok {
          failed := true;
          ModeShowsMessage(mode, forwarded);
          ok := HandleException(handler);
          crashed := !ok;
          if ok {
            FailureKeepsKind(forwarded);
            forwarded := forwarded + [Failure];
            acknowledged := acknowledged + 1;
          }
          return;
        }
        AcceptedKeepsMode(mode, forwarded, e);
        forwarded := forwarded + [e];
        acknowledged := acknowledged + 1;
      }
      ModeShowsOneKind(taskMode, forwarded);
    }
  }

  lemma FailureKeepsKind(es: seq<Event>)
    requires OneKind(es)
    ensures OneKind(es + [Failure])
  {
    var more := es + [Failure];
    if forall k :: 0 <= k < |es| ==> !es[k].Message? {
      assert forall k :: 0 <= k < |more| ==> !more[k].Message?;
    } else {
      assert forall k :: 0 <= k < |more| ==> !more[k].TaskEvent?;
    }
  }
}
