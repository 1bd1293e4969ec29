// The bounded asynchronous queue under both event queues: `asyncio.Queue` of Python 3.13,
// the class that src/a2a/utils/_async_queue_compat.py aliases.
//
// `Queue` is the abstract value: the four real components, and the logs of what went in,
// what came out and what an immediate shutdown threw away. `AsyncQueue` is the object whose
// methods change the real components in place and keep the logs in ghost fields.
// Each method is what happens between two `await` points.

module AsyncQueues {

  datatype PutOutcome = Stored | Refused | PutBlocked

  datatype GetOutcome<+T> = Item(item: T) | ShutDown | GetBlocked

  datatype Queue<T> = Queue(
    items: seq<T>,
    capacity: nat,          // 0 means unbounded
    unfinished: nat,        // put, and no `task_done` for it yet
    isShutdown: bool,
    accepted: seq<T>,       // log: everything ever stored, oldest first
    taken: seq<T>,          // log: everything ever returned by `get`
    discarded: seq<T>,      // log: what an immediate shutdown removed
    acknowledged: nat,      // log: successful `task_done` calls
    flushed: bool)          // log: has an immediate shutdown happened
  {
    predicate Full() {
      capacity > 0 && |items| >= capacity
    }

    // The conservation law of the queue, kept by every operation. Nothing is said about how
    // many `task_done` calls there are: the queue itself does not check that either.
    ghost predicate Conserved() {
      && accepted == taken + items + discarded
      && (capacity > 0 ==> |items| <= capacity)
      && (flushed ==> isShutdown && items == [])
      && (!flushed ==> discarded == [])
      && unfinished == if flushed then Positive(|taken| - acknowledged)
                       else |taken| + |items| - acknowledged
    }
  }

  function Positive(n: int): nat {
    if n > 0 then n else 0
  }

  function NewQueue<T>(capacity: nat): Queue<T> {
    Queue([], capacity, 0, false, [], [], [], 0, false)
  }

  // `put`: refused once shut down, waits while full.
  function PutResult<T>(q: Queue<T>): PutOutcome {
    if q.isShutdown then Refused else if q.Full() then PutBlocked else Stored
  }

  function Put<T>(q: Queue<T>, x: T): Queue<T> {
    if PutResult(q) != Stored then q
    else q.(items := q.items + [x], unfinished := q.unfinished + 1, accepted := q.accepted + [x])
  }

  // `get`: an item if there is one, even after a graceful shutdown.
  function GetResult<T>(q: Queue<T>): GetOutcome<T> {
    if q.items != [] then Item(q.items[0]) else if q.isShutdown then ShutDown else GetBlocked
  }

  function Get<T>(q: Queue<T>): Queue<T> {
    if q.items == [] then q
    else q.(items := q.items[1..], taken := q.taken + [q.items[0]])
  }

  // `task_done`: the exception for one call too many leaves the queue as it was.
  function TaskDone<T>(q: Queue<T>): Queue<T> {
    if q.unfinished == 0 then q
    else q.(unfinished := q.unfinished - 1, acknowledged := q.acknowledged + 1)
  }

  function Shutdown<T>(q: Queue<T>, immediate: bool): Queue<T> {
    if !immediate then q.(isShutdown := true)
    else q.(isShutdown := true, items := [], discarded := q.items + q.discarded, flushed := true,
            unfinished := Positive(q.unfinished - |q.items|))
  }

  // ----- Conservation --------------------------------------------------------------------

  lemma PutConserves<T>(q: Queue<T>, x: T)
    requires q.Conserved()
    ensures Put(q, x).Conserved()
  {
    if PutResult(q) == Stored {
      assert q.accepted + [x] == q.taken + (q.items + [x]) + q.discarded;
    }
  }

  lemma GetConserves<T>(q: Queue<T>)
    requires q.Conserved()
    ensures Get(q).Conserved()
  {
    if q.items != [] {
      assert q.taken + q.items == (q.taken + [q.items[0]]) + q.items[1..];
    }
  }

  lemma TaskDoneConserves<T>(q: Queue<T>)
    requires q.Conserved()
    ensures TaskDone(q).Conserved()
  {
  }

  lemma ShutdownConserves<T>(q: Queue<T>, immediate: bool)
    requires q.Conserved()
    ensures Shutdown(q, immediate).Conserved()
  {
    if immediate {
      assert q.taken + q.items + q.discarded == q.taken + [] + (q.items + q.discarded);
    }
  }

  // Counted: put = queued + dequeued and unacknowledged + acknowledged + discarded, and
  // `join` is released exactly when what was not discarded is acknowledged, provided nobody
  // acknowledges more than was dequeued.
  lemma Conservation<T>(q: Queue<T>)
    requires q.Conserved() && q.acknowledged <= |q.taken|
    ensures |q.accepted| ==
            |q.items| + (|q.taken| - q.acknowledged) + q.acknowledged + |q.discarded|
    ensures q.unfinished == |q.accepted| - |q.discarded| - q.acknowledged
    ensures q.unfinished == 0 <==> q.items == [] && q.acknowledged == |q.taken|
  {
  }

  // First in, first out: what was taken is a prefix of what was stored.
  lemma TakenIsPrefix<T>(q: Queue<T>)
    requires q.Conserved()
    ensures q.taken <= q.accepted
    ensures q.items != [] ==> |q.taken| < |q.accepted| && q.accepted[|q.taken|] == q.items[0]
  {
    assert q.accepted == q.taken + (q.items + q.discarded);
  }

  // ----- The object ----------------------------------------------------------------------

  class AsyncQueue<T> {
    var items: seq<T>
    const capacity: nat
    var unfinished: nat
    var isShutdown: bool
    ghost var accepted: seq<T>
    ghost var taken: seq<T>
    ghost var discarded: seq<T>
    ghost var acknowledged: nat
    ghost var flushed: bool

    ghost function State(): Queue<T>
      reads this
    {
      Queue(items, capacity, unfinished, isShutdown, accepted, taken, discarded, acknowledged, flushed)
    }

    ghost predicate Valid()
      reads this
    {
      State().Conserved()
    }

    constructor (capacity: nat)
      ensures State() == NewQueue(capacity) && Valid()
    {
      this.capacity := capacity;
      items, unfinished, isShutdown := [], 0, false;
      accepted, taken, discarded, acknowledged, flushed := [], [], [], 0, false;
    }

    predicate IsFull()
      reads this
      ensures IsFull() == State().Full()
    {
      capacity > 0 && |items| >= capacity
    }

    // One attempt of `put`.
    method TryPut(x: T) returns (outcome: PutOutcome)
      requires Valid()
      modifies this
      ensures Valid() && State() == Put(old(State()), x)
      ensures outcome == PutResult(old(State()))
      ensures outcome == Refused <==> old(isShutdown)
      ensures outcome == PutBlocked <==> old(!isShutdown && 0 < capacity <= |items|)
      ensures items == if outcome == Stored then old(items) + [x] else old(items)
      ensures unfinished == if outcome == Stored then old(unfinished) + 1 else old(unfinished)
      ensures isShutdown == old(isShutdown)
    {
      PutConserves(State(), x);
      if isShutdown {
        return Refused;
      } else if IsFull() {
        return PutBlocked;
      }
      items := items + [x];
      unfinished := unfinished + 1;
      accepted := accepted + [x];
      return Stored;
    }

    // One attempt of `get`.
    method TryGet() returns (outcome: GetOutcome<T>)
      requires Valid()
      modifies this
      ensures Valid() && State() == Get(old(State()))
      ensures outcome == GetResult(old(State()))
      ensures match outcome
              case Item(x) => old(items) == [x] + items
              case ShutDown => old(isShutdown && items == []) && items == []
              case GetBlocked => old(!isShutdown && items == []) && items == []
      ensures unfinished == old(unfinished) && isShutdown == old(isShutdown)
    {
      GetConserves(State());
      if items == [] {
        return if isShutdown then ShutDown else GetBlocked;
      }
      outcome := Item(items[0]);
      taken := taken + [items[0]];
      items := items[1..];
    }

    // `ok` is false where Python raises ValueError.
    method MarkDone() returns (ok: bool)
      requires Valid()
      modifies this
      ensures Valid() && State() == TaskDone(old(State()))
      ensures ok == (old(unfinished) > 0)
      ensures unfinished == if ok then old(unfinished) - 1 else 0
      ensures items == old(items) && isShutdown == old(isShutdown)
    {
      TaskDoneConserves(State());
      ok := unfinished > 0;
      if ok {
        unfinished := unfinished - 1;
        acknowledged := acknowledged + 1;
      }
    }

    // `shutdown`: an immediate one removes the items one by one.
    method ShutDownQueue(immediate: bool)
      requires Valid()
      modifies this
      ensures Valid() && State() == Shutdown(old(State()), immediate)
      ensures isShutdown && items == (if immediate then [] else old(items))
      ensures unfinished == if !immediate then old(unfinished)
                            else if old(unfinished > |items|) then old(unfinished - |items|) else 0
    {
      ShutdownConserves(State(), immediate);
      isShutdown := true;
      if immediate {
        ghost var removed := [];
        while items != []
          invariant removed + items == old(items)
          invariant unfinished == Positive(old(unfinished) - |removed|)
          invariant isShutdown && accepted == old(accepted) && taken == old(taken)
          invariant acknowledged == old(acknowledged) && discarded == old(discarded)
          decreases |items|
        {
          removed := removed + [items[0]];
          items := items[1..];
          if unfinished > 0 {
            unfinished := unfinished - 1;
          }
        }
        discarded := old(items) + discarded;
        flushed := true;
      }
    }
  }
}
