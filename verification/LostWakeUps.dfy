/**
 Runs from an unused queue in which wake-ups are lost (queue.c): a reset that strands a sender,
 and lock counts that wrap.
 */
module LostWakeUps {
  import opened QueueWakeups

  // ---- pieces of runs ---------------------------------------------------------------------------

  ghost predicate Leads(s: Queue, steps: seq<Step>, r: Queue) {
    CanRun(s, steps) && Run(s, steps) == r
  }

  lemma First(s: Queue, step: Step, u: Queue, rest: seq<Step>, r: Queue)
    requires Enabled(s, step) && Apply(s, step) == u && Leads(u, rest, r)
    ensures Leads(s, [step] + rest, r)
    ensures CountsFit(s, step) && AlwaysFit(u, rest) ==> AlwaysFit(s, [step] + rest)
  {
    hide Enabled, Apply, CountsFit;
    assert ([step] + rest)[1..] == rest;
  }

  lemma {:induction false} Both(s: Queue, a: seq<Step>, u: Queue, b: seq<Step>, r: Queue)
    requires Leads(s, a, u) && Leads(u, b, r)
    ensures Leads(s, a + b, r)
    ensures AlwaysFit(s, a) && AlwaysFit(u, b) ==> AlwaysFit(s, a + b)
    decreases |a|
  {
    hide Enabled, Apply, CountsFit;
    if a == [] {
      assert a + b == b;
    } else {
      assert (a + b)[1..] == a[1..] + b;
      Both(Apply(s, a[0]), a[1..], u, b, r);
    }
  }

  lemma OneStep(s: Queue, step: Step)
    requires Enabled(s, step)
    ensures Leads(s, [step], Apply(s, step)) && (CountsFit(s, step) ==> AlwaysFit(s, [step]))
  {
    hide Enabled, Apply, CountsFit;
    assert [step] + [] == [step];
    First(s, step, Apply(s, step), [], Apply(s, step));
  }

  lemma TwoSteps(s: Queue, step: Step, after: Step)
    requires Enabled(s, step) && Enabled(Apply(s, step), after)
    ensures Leads(s, [step, after], Apply(Apply(s, step), after))
    ensures CountsFit(s, step) && CountsFit(Apply(s, step), after) ==> AlwaysFit(s, [step, after])
  {
    hide Enabled, Apply, CountsFit;
    OneStep(Apply(s, step), after);
    assert [step] + [after] == [step, after];
    First(s, step, Apply(s, step), [after], Apply(Apply(s, step), after));
  }

  function Repeat(step: Step, n: nat): seq<Step> {
    if n == 0 then [] else [step] + Repeat(step, n - 1)
  }

  /** n messages are sent to a queue nobody waits on. */
  lemma {:induction false} Fill(length: nat, count: nat, n: nat)
    requires count + n <= length
    ensures Leads(Fresh(length, count), Repeat(Send(0, false), n), Fresh(length, count + n))
    ensures AlwaysFit(Fresh(length, count), Repeat(Send(0, false), n))
    decreases n
  {
    if n > 0 {
      assert Apply(Fresh(length, count), Send(0, false)) == Fresh(length, count + 1);
      Fill(length, count + 1, n - 1);
      hide Fresh, Enabled, Apply, Leads;
      First(Fresh(length, count), Send(0, false), Fresh(length, count + 1),
            Repeat(Send(0, false), n - 1), Fresh(length, count + n));
    }
  }

  /** A call finds the queue empty (full) and puts its task in the event list. */
  function Waits(t: Task, role: Role): seq<Step> {
    [SuspendAll(t, role), LockQueue] + ([CheckTimeOut(false), Look] + [Place(0)])
  }

  function Waiting(s: Queue, t: Task, role: Role): Queue {
    var d, e := s.receivers.(lock := 0), s.senders.(lock := 0);
    s.(receivers := if role == Receiver then d.(waiting := [t] + d.waiting) else d,
       senders := if role == Sender then e.(waiting := [t] + e.waiting) else e,
       holder := Holder(t, role, OnList))
  }

  predicate Unlocked(s: Queue) {
    s.receivers.lock == UNLOCKED && s.senders.lock == UNLOCKED
  }

  lemma LooksAndWaits(s: Queue, t: Task, role: Role)
    requires NoneFor(s, role) && s.holder == Holder(t, role, Locked)
    requires s.receivers.lock == 0 && s.senders.lock == 0
    ensures Leads(s, [CheckTimeOut(false), Look] + [Place(0)], Waiting(s, t, role))
    ensures AlwaysFit(s, [CheckTimeOut(false), Look] + [Place(0)])
  {
    var u := s.(holder := Holder(t, role, SawNone));
    assert Apply(Apply(s, CheckTimeOut(false)), Look) == u;
    TwoSteps(s, CheckTimeOut(false), Look);
    assert PlaceAt(s.receivers, t, 0).waiting == [t] + s.receivers.waiting;
    assert PlaceAt(s.senders, t, 0).waiting == [t] + s.senders.waiting;
    assert Apply(u, Place(0)) == Waiting(s, t, role);
    OneStep(u, Place(0));
    hide Apply, Enabled, Leads, AlwaysFit, CanRun, Waiting, NoneFor;
    Both(s, [CheckTimeOut(false), Look], u, [Place(0)], Waiting(s, t, role));
  }

  lemma WaitsRun(s: Queue, t: Task, role: Role)
    requires Enabled(s, SuspendAll(t, role)) && NoneFor(s, role) && Unlocked(s)
    ensures Leads(s, Waits(t, role), Waiting(s, t, role)) && AlwaysFit(s, Waits(t, role))
  {
    var u := s.(receivers := s.receivers.(lock := 0), senders := s.senders.(lock := 0), holder := Holder(t, role, Locked));
    TwoSteps(s, SuspendAll(t, role), LockQueue);
    assert Apply(Apply(s, SuspendAll(t, role)), LockQueue) == u;
    LooksAndWaits(u, t, role);
    assert Waiting(u, t, role) == Waiting(s, t, role);
    hide Apply, Enabled, Leads, AlwaysFit, CanRun, Waiting, NoneFor;
    Both(s, [SuspendAll(t, role), LockQueue], u, [CheckTimeOut(false), Look] + [Place(0)], Waiting(s, t, role));
  }

  /** A sender finds the queue full, and waits. */
  function Blocks(t: Task): seq<Step> {
    Waits(t, Sender) + ([UnlockTx, UnlockRx] + [ResumeAll])
  }

  lemma Unlocks(s: Queue, t: Task)
    requires s.holder.Nobody? && Unlocked(s)
    ensures var u, r := Waiting(s, t, Sender), s.(senders := s.senders.(waiting := [t] + s.senders.waiting));
            Leads(u, [UnlockTx, UnlockRx] + [ResumeAll], r) && AlwaysFit(u, [UnlockTx, UnlockRx] + [ResumeAll])
  {
    var u := Waiting(s, t, Sender);
    var r := s.(senders := s.senders.(waiting := [t] + s.senders.waiting));
    var v := r.(holder := Holder(t, Sender, RxUnlocked));
    assert Apply(Apply(u, UnlockTx), UnlockRx) == v;
    assert Apply(v, ResumeAll) == r;
    TwoSteps(u, UnlockTx, UnlockRx);
    OneStep(v, ResumeAll);
    hide Apply, Enabled, Leads, AlwaysFit, CanRun, Waiting;
    Both(u, [UnlockTx, UnlockRx], v, [ResumeAll], r);
  }

  lemma SenderBlocks(s: Queue, t: Task)
    requires Enabled(s, SuspendAll(t, Sender)) && s.count == s.length && Unlocked(s)
    ensures Leads(s, Blocks(t), s.(senders := s.senders.(waiting := [t] + s.senders.waiting)))
    ensures AlwaysFit(s, Blocks(t))
  {
    var u := Waiting(s, t, Sender);
    var r := s.(senders := s.senders.(waiting := [t] + s.senders.waiting));
    WaitsRun(s, t, Sender);
    Unlocks(s, t);
    hide Apply, Enabled, Leads, AlwaysFit, CanRun, Waiting, Waits;
    Both(s, Waits(t, Sender), u, [UnlockTx, UnlockRx] + [ResumeAll], r);
  }

  // ---- a reset strands a sender -------------------------------------------------------------------

  /** The queue is filled, and tasks 1 and 2 wait to send. */
  function TwoSendersWait(length: nat): seq<Step> {
    Repeat(Send(0, false), length) + (Blocks(1) + Blocks(2))
  }

  lemma TwoSendersWaitRun(length: nat)
    ensures Leads(Fresh(length, 0), TwoSendersWait(length), Fresh(length, length).(senders := Side([2, 1], {}, UNLOCKED)))
    ensures AlwaysFit(Fresh(length, 0), TwoSendersWait(length))
  {
    var full := Fresh(length, length);
    var one := full.(senders := Side([1], {}, UNLOCKED));
    var two := full.(senders := Side([2, 1], {}, UNLOCKED));
    Fill(length, 0, length);
    SenderBlocks(full, 1);
    assert [1] + full.senders.waiting == [1];
    SenderBlocks(one, 2);
    assert [2] + one.senders.waiting == [2, 1];
    hide Leads, CanRun, AlwaysFit, Blocks, Repeat, Fresh;
    Both(full, Blocks(1), one, Blocks(2), two);
    Both(Fresh(length, 0), Repeat(Send(0, false), length), full, Blocks(1) + Blocks(2), two);
  }

  /** For every queue with two slots or more a run leads to a reset that wakes one sender and
      leaves the other waiting although every slot is free. */
  lemma ResetStrandsSender(length: nat)
    requires length >= 2
    ensures var s, steps := Fresh(length, 0), TwoSendersWait(length);
            && CanRun(s, steps) && AlwaysFit(s, steps)
            && var r := Run(s, steps);
               && Structure(r) && SendersServed(r) && Enabled(r, Reset)
               && var u := DoReset(r);
                  u.count == 0 && u.senders.waiting == [1] && u.senders.woken == {2} && !SendersServed(u)
  {
    TwoSendersWaitRun(length);
    var r := Fresh(length, length).(senders := Side([2, 1], {}, UNLOCKED));
    assert Wake(r.senders) == Side([1], {2}, UNLOCKED);
    hide Run, CanRun, AlwaysFit, TwoSendersWait;
  }

  // ---- lock counts that wrap ------------------------------------------------------------------------

  lemma {:induction false} IsrSends(s: Queue, n: nat)
    requires s.receivers.lock >= 0 && s.receivers.lock + n <= 127 && s.count + n <= s.length
    ensures Leads(s, Repeat(IsrSend(false), n),
                  s.(count := s.count + n, receivers := s.receivers.(lock := s.receivers.lock + n)))
    decreases n
  {
    if n > 0 {
      var u := Apply(s, IsrSend(false));
      assert u == s.(count := s.count + 1, receivers := s.receivers.(lock := s.receivers.lock + 1));
      IsrSends(u, n - 1);
      var r := s.(count := s.count + n, receivers := s.receivers.(lock := s.receivers.lock + n));
      hide Enabled, Apply, Leads;
      First(s, IsrSend(false), u, Repeat(IsrSend(false), n - 1), r);
    }
  }

  lemma {:induction false} IsrReceives(s: Queue, n: nat)
    requires s.senders.lock >= 0 && s.senders.lock + n <= 127 && n <= s.count
    ensures Leads(s, Repeat(IsrReceive, n), s.(count := s.count - n, senders := s.senders.(lock := s.senders.lock + n)))
    decreases n
  {
    if n > 0 {
      var u := Apply(s, IsrReceive);
      assert u == s.(count := s.count - 1, senders := s.senders.(lock := s.senders.lock + 1));
      IsrReceives(u, n - 1);
      var r := s.(count := s.count - n, senders := s.senders.(lock := s.senders.lock + n));
      hide Enabled, Apply, Leads;
      First(s, IsrReceive, u, Repeat(IsrReceive, n - 1), r);
    }
  }

  lemma Further(s: Queue, a: seq<Step>, u: Queue, b: seq<Step>)
    requires Leads(s, a, u) && CanRun(u, b)
    ensures CanRun(s, a + b) && Run(s, a + b) == Run(u, b)
  {
    Both(s, a, u, b, Run(u, b));
  }

  /** Task 1 waits to receive, and 127 interrupts send. */
  function ManySends(): seq<Step> {
    Waits(1, Receiver) + Repeat(IsrSend(false), 127)
  }

  lemma ManySendsRun(length: nat) returns (r: Queue)
    requires length >= 128
    ensures Leads(Fresh(length, 0), ManySends(), r)
    ensures r == Queue(length, 127, Side([1], {}, 127), Side([], {}, 0), Holder(1, Receiver, OnList))
  {
    var s := Fresh(length, 0);
    var u := Queue(length, 0, Side([1], {}, 0), Side([], {}, 0), Holder(1, Receiver, OnList));
    r := Queue(length, 127, Side([1], {}, 127), Side([], {}, 0), Holder(1, Receiver, OnList));
    assert [1] + [] == [1];
    assert Waiting(s, 1, Receiver) == u;
    WaitsRun(s, 1, Receiver);
    IsrSends(u, 127);
    hide Leads, Waits, Waiting, Repeat, Fresh;
    Both(s, Waits(1, Receiver), u, Repeat(IsrSend(false), 127), r);
  }

  /** For every queue with 128 slots or more a run leads to a send by an interrupt, and an unlock,
      after which a receiver waits and too few have been woken. */
  lemma WrappedCountReached(length: nat)
    requires length >= 128
    ensures var s, steps := Fresh(length, 0), ManySends() + [IsrSend(false), UnlockTx];
            CanRun(s, steps) && !ReceiversServed(Run(s, steps))
  {
    var u := ManySendsRun(length);
    WrappedCountLosesWakeUps(u);
    hide Leads, CanRun, Run, ReceiversServed;
    Further(Fresh(length, 0), ManySends(), u, [IsrSend(false), UnlockTx]);
  }

  /** The queue is filled, task 1 waits to send, and 127 interrupts receive. */
  function ManyReceives(length: nat): seq<Step> {
    Repeat(Send(0, false), length) + (Waits(1, Sender) + ([UnlockTx] + Repeat(IsrReceive, 127)))
  }

  lemma ManyReceivesRun(length: nat) returns (r: Queue)
    requires length >= 128
    ensures Leads(Fresh(length, 0), ManyReceives(length), r)
    ensures r == Queue(length, length - 127, Side([], {}, UNLOCKED), Side([1], {}, 127), Holder(1, Sender, TxUnlocked))
  {
    var s, f := Fresh(length, 0), Fresh(length, length);
    var u := Queue(length, length, Side([], {}, 0), Side([1], {}, 0), Holder(1, Sender, OnList));
    var v := Queue(length, length, Side([], {}, UNLOCKED), Side([1], {}, 0), Holder(1, Sender, TxUnlocked));
    r := Queue(length, length - 127, Side([], {}, UNLOCKED), Side([1], {}, 127), Holder(1, Sender, TxUnlocked));
    assert [1] + [] == [1];
    assert Waiting(f, 1, Sender) == u && Apply(u, UnlockTx) == v;
    Fill(length, 0, length);
    WaitsRun(f, 1, Sender);
    OneStep(u, UnlockTx);
    IsrReceives(v, 127);
    hide Leads, Waits, Waiting, Repeat, Fresh, Apply, Enabled;
    Both(u, [UnlockTx], v, Repeat(IsrReceive, 127), r);
    Both(f, Waits(1, Sender), u, [UnlockTx] + Repeat(IsrReceive, 127), r);
    Both(s, Repeat(Send(0, false), length), f, Waits(1, Sender) + ([UnlockTx] + Repeat(IsrReceive, 127)), r);
  }

  /** The mirror: a receive by an interrupt, and an unlock, after which a sender waits and too few
      have been woken. */
  lemma WrappedRxCountReached(length: nat)
    requires length >= 128
    ensures var s, steps := Fresh(length, 0), ManyReceives(length) + [IsrReceive, UnlockRx];
            CanRun(s, steps) && !SendersServed(Run(s, steps))
  {
    var u := ManyReceivesRun(length);
    WrappedRxCountLosesWakeUps(u);
    hide Leads, CanRun, Run, SendersServed;
    Further(Fresh(length, 0), ManyReceives(length), u, [IsrReceive, UnlockRx]);
  }
}
