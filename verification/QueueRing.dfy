/**
 The storage of a queue (queue.c): a ring of item slots with a write position, the
 position last read from, and a count.  A slot stands for `uxItemSize` bytes.
 */
module QueueRing {

  datatype Option<T> = None | Some(value: T)

  datatype Position = Back | Front | Overwrite

  datatype Ring<T> = Ring(slots: seq<T>, write: nat, read: nat, count: nat)

  /** Reduce a position of at most two turns to one turn of n slots. */
  function Wrap(x: nat, n: nat): nat {
    if x < n then x else if x - n < n then x - n else x - n - n
  }

  /** Positions within the storage, and write position = read position + 1 + count, modulo
      the number of slots. */
  predicate Valid<T>(q: Ring<T>) {
    && q.read < |q.slots| && q.count <= |q.slots|
    && q.write == Wrap(q.read + 1 + q.count, |q.slots|)
  }

  /** The items in the order they will be received. */
  function Contents<T>(q: Ring<T>): (s: seq<T>)
    requires q.read < |q.slots| && q.count <= |q.slots|
    ensures |s| == q.count
    ensures forall i {:trigger s[i]} :: 0 <= i < q.count ==> s[i] == q.slots[Wrap(q.read + 1 + i, |q.slots|)]
  {
    seq(q.count, i requires 0 <= i < q.count => q.slots[Wrap(q.read + 1 + i, |q.slots|)])
  }

  /** `xQueueGenericReset`; the item bytes are left as they are. */
  function Reset<T>(q: Ring<T>): Ring<T>
    requires |q.slots| > 0
  {
    Ring(q.slots, 0, |q.slots| - 1, 0)
  }

  /** `prvCopyDataToQueue`. */
  function CopyTo<T>(q: Ring<T>, x: T, position: Position): Ring<T>
    requires q.read < |q.slots| && q.write < |q.slots|
  {
    if position == Back then
      Ring(q.slots[q.write := x], if q.write + 1 < |q.slots| then q.write + 1 else 0, q.read, q.count + 1)
    else
      var waiting := if position == Overwrite && q.count > 0 then q.count - 1 else q.count;
      Ring(q.slots[q.read := x], q.write, if q.read > 0 then q.read - 1 else |q.slots| - 1, waiting + 1)
  }

  function ReadSlot<T>(q: Ring<T>): nat {
    if q.read + 1 < |q.slots| then q.read + 1 else 0
  }

  /** `prvCopyDataFromQueue` with the count lowered, as receiving does. */
  function TakeFrom<T>(q: Ring<T>): Ring<T>
    requires q.count > 0
  {
    q.(read := ReadSlot(q), count := q.count - 1)
  }

  class Queue<T> {
    const storage: array<T>
    var write: nat
    var read: nat
    var count: nat

    ghost function State(): Ring<T>
      reads this, storage
    {
      Ring(storage[..], write, read, count)
    }

    ghost predicate InRange()
      reads this
    {
      read < storage.Length && write < storage.Length
    }

    /** `prvInitialiseNewQueue`. */
    constructor (storage: array<T>)
      requires storage.Length > 0
      ensures this.storage == storage && State() == Reset(State()) && InRange()
    {
      this.storage := storage;
      write, read, count := 0, storage.Length - 1, 0;
    }

    method GenericReset()
      requires storage.Length > 0
      modifies this
      ensures State() == Reset(old(State())) && InRange()
    {
      write, read, count := 0, storage.Length - 1, 0;
    }

    /** `prvCopyDataToQueue`. */
    method CopyDataToQueue(x: T, position: Position)
      requires InRange()
      modifies this, storage
      ensures State() == CopyTo(old(State()), x, position) && InRange()
    {
      var waiting := count;
      if position == Back {
        storage[write] := x;
        write := write + 1;
        if write >= storage.Length {
          write := 0;
        }
      } else {
        storage[read] := x;
        if read == 0 {
          read := storage.Length - 1;
        } else {
          read := read - 1;
        }
        if position == Overwrite {
          if waiting > 0 {
            waiting := waiting - 1;
          }
        }
      }
      count := waiting + 1;
    }

    /** `prvCopyDataFromQueue`. */
    method CopyDataFromQueue() returns (x: T)
      requires InRange()
      modifies this
      ensures State() == old(State()).(read := ReadSlot(old(State()))) && InRange()
      ensures x == storage[read]
    {
      read := read + 1;
      if read >= storage.Length {
        read := 0;
      }
      x := storage[read];
    }

    /** The sending critical section of `xQueueGenericSend`. */
    method Send(x: T, position: Position) returns (sent: bool)
      requires InRange()
      modifies this, storage
      ensures InRange() && (sent, State()) == DoSend(old(State()), x, position)
    {
      sent := count < storage.Length || position == Overwrite;
      if sent {
        CopyDataToQueue(x, position);
      }
    }

    /** The receiving critical section of `xQueueReceive`. */
    method Receive() returns (item: Option<T>)
      requires InRange()
      modifies this
      ensures InRange() && (item, State()) == DoReceive(old(State()))
    {
      item := None;
      if count > 0 {
        var x := CopyDataFromQueue();
        count := count - 1;
        item := Some(x);
      }
    }

    /** The peeking critical section of `xQueuePeek`: the read position is put back. */
    method Peek() returns (item: Option<T>)
      requires InRange()
      modifies this
      ensures InRange() && State() == old(State()) && item == DoReceive(State()).0
    {
      item := None;
      if count > 0 {
        var original := read;
        var x := CopyDataFromQueue();
        read := original;
        item := Some(x);
      }
    }
  }

  function DoSend<T>(q: Ring<T>, x: T, position: Position): (bool, Ring<T>)
    requires q.read < |q.slots| && q.write < |q.slots|
  {
    if q.count < |q.slots| || position == Overwrite then (true, CopyTo(q, x, position)) else (false, q)
  }

  function DoReceive<T>(q: Ring<T>): (Option<T>, Ring<T>)
    requires q.read < |q.slots|
  {
    if q.count > 0 then (Some(q.slots[ReadSlot(q)]), TakeFrom(q)) else (None, q)
  }

  // ---- the ring is a bounded deque ----------------------------------------------------------

  lemma ResetEmpties<T>(q: Ring<T>)
    requires |q.slots| > 0
    ensures Valid(Reset(q)) && Contents(Reset(q)) == []
  {
  }

  /** Sending to the back appends, in any valid ring with room. */
  lemma SendBackAppends<T>(q: Ring<T>, x: T)
    requires Valid(q) && q.count < |q.slots|
    ensures var r := CopyTo(q, x, Back);
            Valid(r) && |r.slots| == |q.slots| && Contents(r) == Contents(q) + [x]
  {
    var r := CopyTo(q, x, Back);
    forall i | 0 <= i < r.count
      ensures Contents(r)[i] == (Contents(q) + [x])[i]
    {
    }
  }

  /** Sending to the front prepends. */
  lemma SendFrontPrepends<T>(q: Ring<T>, x: T)
    requires Valid(q) && q.count < |q.slots|
    ensures var r := CopyTo(q, x, Front);
            Valid(r) && |r.slots| == |q.slots| && Contents(r) == [x] + Contents(q)
  {
    hide Contents;
    var r := CopyTo(q, x, Front);
    forall i | 0 <= i < r.count
      ensures Contents(r)[i] == ([x] + Contents(q))[i]
    {
      if i > 0 {
        assert Wrap(r.read + 1 + i, |q.slots|) == Wrap(q.read + 1 + (i - 1), |q.slots|);
      }
    }
  }

  /** Overwriting an item replaces the front one.  It keeps the write position right if the
      queue has one slot, and with more slots only while the queue is empty. */
  lemma OverwriteIsForOneSlot<T>(q: Ring<T>, x: T)
    requires Valid(q)
    ensures Valid(CopyTo(q, x, Overwrite)) <==> |q.slots| == 1 || q.count == 0
    ensures |q.slots| == 1 || q.count == 0 ==> Contents(CopyTo(q, x, Overwrite)) == [x]
  {
  }

  lemma ReceiveTakesFront<T>(q: Ring<T>)
    requires Valid(q)
    ensures q.count == 0 ==> DoReceive(q) == (None, q)
    ensures q.count > 0 ==>
              var (item, r) := DoReceive(q);
              Valid(r) && r.slots == q.slots && Contents(q) == [item.value] + Contents(r) && item.Some?
  {
    hide Contents;
    if q.count > 0 {
      var (item, r) := DoReceive(q);
      forall i | 0 <= i < r.count
        ensures Contents(r)[i] == Contents(q)[i + 1]
      {
        assert Wrap(r.read + 1 + i, |q.slots|) == Wrap(q.read + 1 + (i + 1), |q.slots|);
      }
    }
  }

  // ---- every history --------------------------------------------------------------------------

  datatype Op<T> =
    | SendOp(item: T, position: Position)
    | ReceiveOp
    | PeekOp
    | ResetOp

  datatype Reply<T> = Sent(ok: bool) | Got(item: Option<T>) | Cleared

  /** One call on the ring. */
  function Step<T>(q: Ring<T>, op: Op<T>): (Reply<T>, Ring<T>)
    requires q.read < |q.slots| && q.write < |q.slots|
  {
    match op
    case SendOp(x, position) => var (ok, r) := DoSend(q, x, position); (Sent(ok), r)
    case ReceiveOp => var (item, r) := DoReceive(q); (Got(item), r)
    case PeekOp => (Got(DoReceive(q).0), q)
    case ResetOp => (Cleared, Reset(q))
  }

  /** One call on a deque of at most n items. */
  function DequeStep<T>(s: seq<T>, n: nat, op: Op<T>): (Reply<T>, seq<T>) {
    match op
    case SendOp(x, Back) => if |s| < n then (Sent(true), s + [x]) else (Sent(false), s)
    case SendOp(x, Front) => if |s| < n then (Sent(true), [x] + s) else (Sent(false), s)
    case SendOp(x, Overwrite) => (Sent(true), [x])
    case ReceiveOp => if s == [] then (Got(None), s) else (Got(Some(s[0])), s[1..])
    case PeekOp => (Got(if s == [] then None else Some(s[0])), s)
    case ResetOp => (Cleared, [])
  }

  /** What the calls return, one after the other. */
  function DequeReplies<T>(s: seq<T>, n: nat, ops: seq<Op<T>>): seq<Reply<T>>
    decreases |ops|
  {
    if ops == [] then []
    else
      var (reply, r) := DequeStep(s, n, ops[0]);
      [reply] + DequeReplies(r, n, ops[1..])
  }

  function Replies<T>(q: Ring<T>, ops: seq<Op<T>>): seq<Reply<T>>
    requires Valid(q) && Legal(|q.slots|, ops)
    decreases |ops|
  {
    if ops == [] then []
    else
      StepRefines(q, ops[0]);
      var (reply, r) := Step(q, ops[0]);
      [reply] + Replies(r, ops[1..])
  }

  /** The caller's duty: overwriting is for queues of one item. */
  ghost predicate Legal<T>(n: nat, ops: seq<Op<T>>) {
    n == 1 || forall op :: op in ops ==> !(op.SendOp? && op.position == Overwrite)
  }

  lemma StepRefines<T>(q: Ring<T>, op: Op<T>)
    requires Valid(q) && Legal(|q.slots|, [op])
    ensures var (reply, r) := Step(q, op);
            && Valid(r) && |r.slots| == |q.slots|
            && (reply, Contents(r)) == DequeStep(Contents(q), |q.slots|, op)
  {
    match op
    case SendOp(x, position) =>
      assert op in [op];
      if position == Overwrite { OverwriteIsForOneSlot(q, x); }
      else if q.count < |q.slots| { SendBackAppends(q, x); SendFrontPrepends(q, x); }
    case ReceiveOp => ReceiveTakesFront(q);
    case PeekOp => ReceiveTakesFront(q);
    case ResetOp => ResetEmpties(q);
  }

  /** From reset on, every history of calls gets the answers of a bounded deque. */
  lemma {:induction false} RingRefinesDeque<T>(q: Ring<T>, ops: seq<Op<T>>)
    requires Valid(q) && Legal(|q.slots|, ops)
    ensures Replies(q, ops) == DequeReplies(Contents(q), |q.slots|, ops)
    decreases |ops|
  {
    if ops != [] {
      StepRefines(q, ops[0]);
      RingRefinesDeque(Step(q, ops[0]).1, ops[1..]);
    }
  }
}
