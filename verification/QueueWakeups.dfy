/**
 The wake-up protocol of a queue, semaphore or mutex (queue.c).  Tasks that find the queue
 empty or full wait in its event lists; interrupts that send or receive while a task has
 the queue locked may not touch those lists and count in a lock instead.  Each critical
 section and each interrupt is one step, and interrupts come between any two.
 */
module QueueWakeups {
  import opened Sequences

  type Task = nat

  type Int8 = x: int | -128 <= x < 128

  const UNLOCKED: Int8 := -1

  /** One event list with its lock count: the receivers with `cTxLock`, the senders with
      `cRxLock`.  `woken` are the tasks taken off the list that have yet to run again. */
  datatype Side = Side(waiting: seq<Task>, woken: set<Task>, lock: Int8)

  datatype Role = Receiver | Sender

  /** How far the task that suspended the scheduler has come. */
  datatype Phase = Suspended | Locked | InTime | SawNone | OnList | NotBlocking | TxUnlocked | RxUnlocked

  datatype Holder = Nobody | Holder(task: Task, role: Role, phase: Phase)

  datatype Queue = Queue(length: nat, count: nat, receivers: Side, senders: Side, holder: Holder)

  // ---- one event list ------------------------------------------------------------------------

  /** `xTaskRemoveFromEventList` of the head, if there is one. */
  function Wake(d: Side): Side {
    if d.waiting == [] then d else d.(waiting := d.waiting[1..], woken := d.woken + {d.waiting[0]})
  }

  /** The lock count is an 8-bit signed integer. */
  function Increment(x: Int8): Int8 {
    if x == 127 then -128 else x + 1
  }

  /** An interrupt has made one more item or slot available. */
  function FromISR(d: Side): Side {
    if d.lock == UNLOCKED then Wake(d) else d.(lock := Increment(d.lock))
  }

  /** `prvLockQueue`, one of the two lock counts. */
  function LockSide(d: Side): Side {
    if d.lock == UNLOCKED then d.(lock := 0) else d
  }

  function WakeTimes(d: Side, n: int): Side
    decreases |d.waiting|
  {
    if n <= 0 || d.waiting == [] then d else WakeTimes(Wake(d), n - 1)
  }

  /** `prvUnlockQueue`, one of the two loops. */
  function UnlockSide(d: Side): Side {
    WakeTimes(d, d.lock).(lock := UNLOCKED)
  }

  function Max0(x: int): nat {
    if x > 0 then x else 0
  }

  ghost predicate Apart(d: Side) {
    && Distinct(d.waiting)
    && (forall t :: t in d.waiting ==> t !in d.woken)
  }

  /** No wake-up is lost: if anyone waits, every available item (or slot) has its own woken
      task or is still counted in the lock. */
  ghost predicate Served(d: Side, available: int) {
    d.waiting != [] ==> available <= |d.woken| + Max0(d.lock)
  }

  // ---- steps ------------------------------------------------------------------------------------

  datatype Step =
    | Send(task: Task, overwrite: bool)
    | Receive(task: Task, peek: bool)
    | IsrSend(overwrite: bool)
    | IsrReceive
    | SuspendAll(task: Task, role: Role)
    | LockQueue
    | CheckTimeOut(expired: bool)
    | Look
    | Place(at: nat)
    | UnlockTx
    | UnlockRx
    | ResumeAll
    | Expire(task: Task)
    | Reset

  predicate Outside(d: Side, t: Task) {
    t !in d.waiting && t !in d.woken
  }

  /** A task that waits does nothing, and a woken one runs its call again before anything
      else; all others may start any call.  While the scheduler is suspended only the holder
      and the interrupts run, and time does not expire. */
  predicate Enabled(s: Queue, step: Step) {
    match step
    case Send(t, overwrite) =>
      && s.holder.Nobody? && Outside(s.receivers, t) && t !in s.senders.waiting
      && (overwrite ==> t !in s.senders.woken && s.length == 1)
    case Receive(t, _) => s.holder.Nobody? && Outside(s.senders, t) && t !in s.receivers.waiting
    case IsrSend(overwrite) => overwrite ==> s.length == 1
    case IsrReceive => true
    case SuspendAll(t, _) => s.holder.Nobody? && Outside(s.receivers, t) && Outside(s.senders, t)
    case LockQueue => s.holder.Holder? && s.holder.phase == Suspended
    case CheckTimeOut(_) => s.holder.Holder? && s.holder.phase == Locked
    case Look => s.holder.Holder? && s.holder.phase == InTime
    case Place(at) =>
      && s.holder.Holder? && s.holder.phase == SawNone
      && at <= |if s.holder.role == Receiver then s.receivers.waiting else s.senders.waiting|
    case UnlockTx => s.holder.Holder? && s.holder.phase in {OnList, NotBlocking}
    case UnlockRx => s.holder.Holder? && s.holder.phase == TxUnlocked
    case ResumeAll => s.holder.Holder? && s.holder.phase == RxUnlocked
    case Expire(t) => s.holder.Nobody?
    case Reset => s.holder.Nobody?
  }

  function Leave(d: Side, t: Task): Side {
    d.(woken := d.woken - {t})
  }

  /** `vTaskPlaceOnEventList`: at the place its priority gives it. */
  function PlaceAt(d: Side, t: Task, at: nat): Side
    requires at <= |d.waiting|
  {
    d.(waiting := d.waiting[..at] + [t] + d.waiting[at..])
  }

  function DoSend(s: Queue, t: Task, overwrite: bool): Queue {
    var u := s.(senders := Leave(s.senders, t));
    if s.count < s.length || overwrite then
      u.(count := if overwrite && s.count > 0 then s.count else s.count + 1, receivers := Wake(s.receivers))
    else u
  }

  function DoReceive(s: Queue, t: Task, peek: bool): Queue {
    var u := s.(receivers := Leave(s.receivers, t));
    if s.count == 0 then u
    else if peek then u.(receivers := Wake(u.receivers))
    else u.(count := s.count - 1, senders := Wake(s.senders))
  }

  function DoIsrSend(s: Queue, overwrite: bool): Queue {
    if s.count < s.length || overwrite then
      s.(count := if overwrite && s.count > 0 then s.count else s.count + 1, receivers := FromISR(s.receivers))
    else s
  }

  function DoIsrReceive(s: Queue): Queue {
    if s.count > 0 then s.(count := s.count - 1, senders := FromISR(s.senders)) else s
  }

  /** What the holder can be waiting for is not there. */
  predicate NoneFor(s: Queue, role: Role) {
    if role == Receiver then s.count == 0 else s.count == s.length
  }

  function DoPlace(s: Queue, at: nat): Queue
    requires Enabled(s, Place(at))
  {
    var u := s.(holder := s.holder.(phase := OnList));
    if s.holder.role == Receiver then u.(receivers := PlaceAt(s.receivers, s.holder.task, at))
    else u.(senders := PlaceAt(s.senders, s.holder.task, at))
  }

  /** `xQueueGenericReset` of a queue in use. */
  function DoReset(s: Queue): Queue {
    s.(count := 0, receivers := s.receivers.(lock := UNLOCKED), senders := Wake(s.senders.(lock := UNLOCKED)))
  }

  function Apply(s: Queue, step: Step): Queue
    requires Enabled(s, step)
  {
    match step
    case Send(t, overwrite) => DoSend(s, t, overwrite)
    case Receive(t, peek) => DoReceive(s, t, peek)
    case IsrSend(overwrite) => DoIsrSend(s, overwrite)
    case IsrReceive => DoIsrReceive(s)
    case SuspendAll(t, role) => s.(holder := Holder(t, role, Suspended))
    case LockQueue =>
      s.(receivers := LockSide(s.receivers), senders := LockSide(s.senders), holder := s.holder.(phase := Locked))
    case CheckTimeOut(expired) => s.(holder := s.holder.(phase := if expired then NotBlocking else InTime))
    case Look => s.(holder := s.holder.(phase := if NoneFor(s, s.holder.role) then SawNone else NotBlocking))
    case Place(at) => DoPlace(s, at)
    case UnlockTx => s.(receivers := UnlockSide(s.receivers), holder := s.holder.(phase := TxUnlocked))
    case UnlockRx => s.(senders := UnlockSide(s.senders), holder := s.holder.(phase := RxUnlocked))
    case ResumeAll => s.(holder := Nobody)
    case Expire(t) =>
      s.(receivers := s.receivers.(waiting := Without(s.receivers.waiting, t)),
         senders := s.senders.(waiting := Without(s.senders.waiting, t)))
    case Reset => DoReset(s)
  }

  predicate CanRun(s: Queue, steps: seq<Step>)
    decreases |steps|
  {
    steps == [] || (Enabled(s, steps[0]) && CanRun(Apply(s, steps[0]), steps[1..]))
  }

  function Run(s: Queue, steps: seq<Step>): Queue
    requires CanRun(s, steps)
    decreases |steps|
  {
    if steps == [] then s else Run(Apply(s, steps[0]), steps[1..])
  }

  /** The source asserts that an interrupt never finds a lock count at its maximum. */
  predicate CountsFit(s: Queue, step: Step) {
    && (step.IsrSend? ==> s.receivers.lock < 127)
    && (step.IsrReceive? ==> s.senders.lock < 127)
  }

  predicate AlwaysFit(s: Queue, steps: seq<Step>)
    requires CanRun(s, steps)
    decreases |steps|
  {
    steps == [] || (CountsFit(s, steps[0]) && AlwaysFit(Apply(s, steps[0]), steps[1..]))
  }

  // ---- what every step keeps -----------------------------------------------------------------

  /** The lock counts agree with how far the holder is; once it has seen the queue empty
      (full), whatever has arrived (left) since is counted. */
  ghost predicate HolderAgrees(s: Queue) {
    && (s.receivers.lock == UNLOCKED <==>
        s.holder.Nobody? || s.holder.phase in {Suspended, TxUnlocked, RxUnlocked})
    && (s.senders.lock == UNLOCKED <==> s.holder.Nobody? || s.holder.phase in {Suspended, RxUnlocked})
    && s.receivers.lock >= UNLOCKED && s.senders.lock >= UNLOCKED
    && (s.holder.Holder? && s.holder.phase == SawNone ==>
          if s.holder.role == Receiver then s.count <= s.receivers.lock else s.length - s.count <= s.senders.lock)
    && (s.holder.Holder? && s.holder.phase in {Suspended, Locked, InTime, SawNone} ==>
          Outside(s.receivers, s.holder.task) && Outside(s.senders, s.holder.task))
  }

  ghost predicate Structure(s: Queue) {
    s.count <= s.length && Apart(s.receivers) && Apart(s.senders) && HolderAgrees(s)
  }

  lemma WakeServes(d: Side, a: int)
    requires Apart(d) && Served(d, a)
    ensures Apart(Wake(d)) && Served(Wake(d), a + 1) && Wake(d).lock == d.lock
    ensures forall t :: Outside(d, t) ==> Outside(Wake(d), t)
  {
    if d.waiting != [] {
      assert d.waiting[0] in d.waiting;
      assert forall t :: t in d.waiting[1..] ==> t in d.waiting;
    }
  }

  lemma FromISRServes(d: Side, a: int)
    requires Apart(d) && Served(d, a) && UNLOCKED <= d.lock < 127
    ensures Apart(FromISR(d)) && Served(FromISR(d), a + 1)
    ensures forall t :: Outside(d, t) ==> Outside(FromISR(d), t)
  {
    WakeServes(d, a);
  }

  /** A woken task that runs again uses up at most one item. */
  lemma LeaveServes(d: Side, t: Task, a: int)
    requires Apart(d) && Served(d, a)
    ensures Apart(Leave(d, t)) && Served(Leave(d, t), a - 1)
  {
    if t in d.woken {
      assert |d.woken - {t}| == |d.woken| - 1;
    } else {
      assert d.woken - {t} == d.woken;
    }
  }

  lemma WokenGrows(d: Side)
    requires Apart(d) && d.waiting != []
    ensures |Wake(d).woken| == |d.woken| + 1 && |Wake(d).waiting| == |d.waiting| - 1
  {
    assert d.waiting[0] in d.waiting;
  }

  lemma {:induction false} WakeTimesServes(d: Side, n: int, a: int)
    requires Apart(d) && (d.waiting != [] ==> a <= |d.woken| + Max0(n))
    ensures var r := WakeTimes(d, n);
            Apart(r) && (r.waiting != [] ==> a <= |r.woken|) && r.lock == d.lock
    decreases |d.waiting|
  {
    if n > 0 && d.waiting != [] {
      WakeServes(d, |d.woken| + Max0(d.lock));
      WokenGrows(d);
      hide Apart, Wake;
      WakeTimesServes(Wake(d), n - 1, a);
    }
  }

  lemma PlaceServes(d: Side, t: Task, at: nat, a: int)
    requires Apart(d) && Outside(d, t) && at <= |d.waiting| && 0 <= d.lock && a <= d.lock
    ensures Apart(PlaceAt(d, t, at)) && Served(PlaceAt(d, t, at), a) && PlaceAt(d, t, at).lock == d.lock
  {
    InsertDistinct(d.waiting, t, at);
    var s := d.waiting;
    assert s == s[..at] + s[at..];
    assert forall u :: u in PlaceAt(d, t, at).waiting ==> u == t || u in s;
  }

  lemma ExpireServes(d: Side, t: Task, a: int)
    requires Apart(d) && Served(d, a)
    ensures var r := d.(waiting := Without(d.waiting, t)); Apart(r) && Served(r, a)
  {
    WithoutDistinct(d.waiting, t);
    var r := d.(waiting := Without(d.waiting, t));
    if r.waiting != [] {
      assert r.waiting[0] in d.waiting;
    }
  }

  // ---- every run ------------------------------------------------------------------------------

  ghost predicate ReceiversServed(s: Queue) {
    Served(s.receivers, s.count)
  }

  ghost predicate SendersServed(s: Queue) {
    Served(s.senders, s.length - s.count)
  }

  /** From s to r each served side stays served; a reset may strand senders. */
  ghost predicate Keeps(s: Queue, r: Queue, step: Step) {
    && Structure(r) && r.length == s.length
    && (ReceiversServed(s) ==> ReceiversServed(r))
    && (SendersServed(s) && !step.Reset? ==> SendersServed(r))
  }

  lemma FewerServed(d: Side, a: int, b: int)
    requires Served(d, a) && b <= a
    ensures Served(d, b)
  {
  }

  lemma NoneServed(d: Side)
    ensures Served(d, 0)
  {
  }

  lemma SendKeeps(s: Queue, t: Task, overwrite: bool)
    requires Structure(s) && Enabled(s, Send(t, overwrite))
    ensures Keeps(s, DoSend(s, t, overwrite), Send(t, overwrite))
  {
    hide Apart, Wake, Served, Leave;
    ApartLeave(s.senders, t);
    ApartWake(s.receivers);
    NoneServed(Leave(s.senders, t));
    if SendersServed(s) { LeaveServes(s.senders, t, s.length - s.count); }
    if ReceiversServed(s) {
      WakeServes(s.receivers, s.count);
      FewerServed(Wake(s.receivers), s.count + 1, s.count);
    }
  }

  lemma ReceiveKeeps(s: Queue, t: Task, peek: bool)
    requires Structure(s) && Enabled(s, Receive(t, peek))
    ensures Keeps(s, DoReceive(s, t, peek), Receive(t, peek))
  {
    hide Apart, Wake, Served, Leave;
    var d := Leave(s.receivers, t);
    ApartLeave(s.receivers, t);
    ApartWake(d);
    NoneServed(d);
    if ReceiversServed(s) {
      LeaveServes(s.receivers, t, s.count);
      WakeServes(d, s.count - 1);
    }
    ApartWake(s.senders);
    if SendersServed(s) { WakeServes(s.senders, s.length - s.count); }
  }

  lemma ApartLeave(d: Side, t: Task)
    requires Apart(d)
    ensures Apart(Leave(d, t)) && Leave(d, t).lock == d.lock
    ensures t !in d.woken ==> Leave(d, t) == d
  {
  }

  lemma ApartWake(d: Side)
    requires Apart(d)
    ensures Apart(Wake(d)) && Wake(d).lock == d.lock
    ensures forall t :: Outside(d, t) ==> Outside(Wake(d), t)
  {
    WakeServes(d, 0 - |d.waiting|);
  }

  lemma ApartFromISR(d: Side)
    requires Apart(d)
    ensures Apart(FromISR(d))
    ensures FromISR(d).lock == if d.lock == UNLOCKED then d.lock else Increment(d.lock)
    ensures forall t :: Outside(d, t) ==> Outside(FromISR(d), t)
  {
    ApartWake(d);
  }

  lemma IsrKeeps(s: Queue, step: Step)
    requires Structure(s) && Enabled(s, step) && CountsFit(s, step) && (step.IsrSend? || step.IsrReceive?)
    ensures Keeps(s, Apply(s, step), step)
  {
    hide Apart, FromISR, DoPlace, Served;
    ApartFromISR(s.receivers);
    ApartFromISR(s.senders);
    if ReceiversServed(s) {
      FewerServed(s.receivers, s.count, s.count - 1);
      if step.IsrSend? {
        FromISRServes(s.receivers, s.count);
        FewerServed(FromISR(s.receivers), s.count + 1, s.count);
      }
    }
    if SendersServed(s) {
      FewerServed(s.senders, s.length - s.count, s.length - s.count - 1);
      if step.IsrReceive? { FromISRServes(s.senders, s.length - s.count); }
    }
  }

  lemma ExpireKeeps(s: Queue, t: Task)
    requires Structure(s) && Enabled(s, Expire(t))
    ensures Keeps(s, Apply(s, Expire(t)), Expire(t))
  {
    hide Apart;
    assert !s.holder.Holder?;
    ExpireServes(s.receivers, t, if ReceiversServed(s) then s.count else -1);
    ExpireServes(s.senders, t, if SendersServed(s) then s.length - s.count else -1);
  }

  lemma UnlockServes(d: Side, a: int)
    requires Apart(d) && Served(d, a)
    ensures Apart(UnlockSide(d)) && Served(UnlockSide(d), a)
  {
    WakeTimesServes(d, d.lock, a);
  }

  lemma HolderStepKeeps(s: Queue, step: Step)
    requires Structure(s) && Enabled(s, step)
    requires step.LockQueue? || step.Look? || step.Place? || step.UnlockTx? || step.UnlockRx?
    ensures Keeps(s, Apply(s, step), step)
  {
    hide Apart, WakeTimes, PlaceAt;
    match step
    case LockQueue =>
      assert Apart(LockSide(s.receivers)) && Apart(LockSide(s.senders)) by { ApartLock(s.receivers); ApartLock(s.senders); }
    case Look =>
    case Place(at) =>
      if s.holder.role == Receiver { PlaceServes(s.receivers, s.holder.task, at, s.count); }
      else { PlaceServes(s.senders, s.holder.task, at, s.length - s.count); }
    case UnlockTx => UnlockServes(s.receivers, if ReceiversServed(s) then s.count else -1);
    case UnlockRx => UnlockServes(s.senders, if SendersServed(s) then s.length - s.count else -1);
  }

  lemma ApartLock(d: Side)
    requires Apart(d)
    ensures Apart(LockSide(d))
  {
  }

  lemma ResetKeeps(s: Queue)
    requires Structure(s) && Enabled(s, Reset)
    ensures Keeps(s, DoReset(s), Reset)
  {
    hide Apart, Wake;
    assert s.senders.(lock := UNLOCKED) == s.senders;
    ApartWake(s.senders);
    assert s.receivers.(lock := UNLOCKED) == s.receivers;
  }

  lemma StepKeeps(s: Queue, step: Step)
    requires Structure(s) && Enabled(s, step) && CountsFit(s, step)
    ensures Keeps(s, Apply(s, step), step)
  {
    hide Apart, Wake, FromISR, UnlockSide, LockSide;
    match step
    case Send(t, overwrite) => SendKeeps(s, t, overwrite);
    case Receive(t, peek) => ReceiveKeeps(s, t, peek);
    case IsrSend(_) => IsrKeeps(s, step);
    case IsrReceive => IsrKeeps(s, step);
    case Expire(t) => ExpireKeeps(s, t);
    case Reset => ResetKeeps(s);
    case SuspendAll(_, _) =>
    case CheckTimeOut(_) =>
    case ResumeAll =>
    case _ => HolderStepKeeps(s, step);
  }

  lemma {:induction false} RunKeeps(s: Queue, steps: seq<Step>)
    requires Structure(s) && ReceiversServed(s) && CanRun(s, steps) && AlwaysFit(s, steps)
    ensures var r := Run(s, steps);
            && Structure(r) && ReceiversServed(r) && r.length == s.length
            && (SendersServed(s) && Reset !in steps ==> SendersServed(r))
    decreases |steps|
  {
    hide Structure, ReceiversServed, SendersServed, Enabled, Apply, CountsFit;
    if steps != [] {
      StepKeeps(s, steps[0]);
      RunKeeps(Apply(s, steps[0]), steps[1..]);
    }
  }

  /** A queue nobody has used yet. */
  function Fresh(length: nat, count: nat): Queue
    requires count <= length
  {
    Queue(length, count, Side([], {}, UNLOCKED), Side([], {}, UNLOCKED), Nobody)
  }

  /** No wake-up is lost.  Whatever the interleaving, if a task waits to receive then every
      message has a woken receiver that has yet to run or is counted in `cTxLock`; the same
      holds of senders, free slots and `cRxLock` as long as nobody resets the queue. */
  lemma NoLostWakeUp(length: nat, count: nat, steps: seq<Step>)
    requires count <= length && CanRun(Fresh(length, count), steps) && AlwaysFit(Fresh(length, count), steps)
    ensures var r := Run(Fresh(length, count), steps);
            && r.count <= r.length
            && (r.receivers.waiting != [] ==> r.count <= |r.receivers.woken| + Max0(r.receivers.lock))
            && (Reset !in steps && r.senders.waiting != [] ==>
                  r.length - r.count <= |r.senders.woken| + Max0(r.senders.lock))
  {
    RunKeeps(Fresh(length, count), steps);
  }

  /** So once all woken tasks have run and nobody holds the scheduler, a waiting receiver
      means an empty queue and a waiting sender a full one. */
  lemma SettledMeansJustified(length: nat, count: nat, steps: seq<Step>)
    requires count <= length && CanRun(Fresh(length, count), steps) && AlwaysFit(Fresh(length, count), steps)
    requires var r := Run(Fresh(length, count), steps);
             r.holder.Nobody? && r.receivers.woken == {} && r.senders.woken == {}
    ensures var r := Run(Fresh(length, count), steps);
            && (r.receivers.waiting != [] ==> r.count == 0)
            && (r.senders.waiting != [] && Reset !in steps ==> r.count == r.length)
  {
    RunKeeps(Fresh(length, count), steps);
  }

  /** A reset frees every slot but wakes at most one sender: the senders stay served exactly
      when no second one waits or enough have been woken before. */
  lemma ResetServesSenders(s: Queue)
    requires Structure(s) && Enabled(s, Reset)
    ensures SendersServed(DoReset(s)) <==>
            |s.senders.waiting| <= 1 || s.length <= |s.senders.woken| + 1
  {
    if s.senders.waiting != [] { WokenGrows(s.senders); }
  }

  /** An interrupt that finds the lock count at its maximum wraps it to -128.  The unlock then
      wakes nobody, and the receivers are served only if enough had been woken before. */
  lemma WrappedCountLosesWakeUps(s: Queue)
    requires Structure(s) && s.holder.Holder? && s.holder.phase == OnList && s.count < s.length
    requires s.receivers.lock == 127 && s.receivers.waiting != []
    ensures CanRun(s, [IsrSend(false), UnlockTx])
    ensures var r := Run(s, [IsrSend(false), UnlockTx]);
            ReceiversServed(r) <==> s.count + 1 <= |s.receivers.woken|
  {
    var u := Apply(s, IsrSend(false));
    var r := Apply(u, UnlockTx);
    assert [IsrSend(false), UnlockTx][1..] == [UnlockTx];
    assert [UnlockTx][1..] == [];
    assert Run(r, []) == r;
    assert Run(u, [UnlockTx]) == r;
  }

  /** The mirror, for an interrupt that receives. */
  lemma WrappedRxCountLosesWakeUps(s: Queue)
    requires Structure(s) && s.holder.Holder? && s.holder.phase == TxUnlocked && s.count > 0
    requires s.senders.lock == 127 && s.senders.waiting != []
    ensures CanRun(s, [IsrReceive, UnlockRx])
    ensures var r := Run(s, [IsrReceive, UnlockRx]);
            SendersServed(r) <==> s.length - s.count + 1 <= |s.senders.woken|
  {
    var u := Apply(s, IsrReceive);
    var r := Apply(u, UnlockRx);
    assert [IsrReceive, UnlockRx][1..] == [UnlockRx];
    assert [UnlockRx][1..] == [];
    assert Run(r, []) == r;
    assert Run(u, [UnlockRx]) == r;
  }

  // ---- the queue in place -----------------------------------------------------------------------

  /** The fields of a `Queue_t` that the protocol uses, and the steps that write them.  The
      woken tasks and the holder belong to the scheduler. */
  class QueueControl {
    const length: nat
    var count: nat
    var txLock: Int8
    var rxLock: Int8
    var waitingToReceive: seq<Task>
    var waitingToSend: seq<Task>
    var wokenReceivers: set<Task>
    var wokenSenders: set<Task>

    ghost function State(holder: Holder): Queue
      reads this
    {
      Queue(length, count, Side(waitingToReceive, wokenReceivers, txLock),
            Side(waitingToSend, wokenSenders, rxLock), holder)
    }

    constructor (length: nat, count: nat)
      requires count <= length
      ensures State(Nobody) == Fresh(length, count)
    {
      this.length, this.count := length, count;
      txLock, rxLock := UNLOCKED, UNLOCKED;
      waitingToReceive, waitingToSend, wokenReceivers, wokenSenders := [], [], {}, {};
    }

    method WakeReceiver()
      modifies this`waitingToReceive, this`wokenReceivers
      ensures State(Nobody) == old(State(Nobody)).(receivers := Wake(old(State(Nobody)).receivers))
    {
      if waitingToReceive != [] {
        wokenReceivers := wokenReceivers + {waitingToReceive[0]};
        waitingToReceive := waitingToReceive[1..];
      }
    }

    method WakeSender()
      modifies this`waitingToSend, this`wokenSenders
      ensures State(Nobody) == old(State(Nobody)).(senders := Wake(old(State(Nobody)).senders))
    {
      if waitingToSend != [] {
        wokenSenders := wokenSenders + {waitingToSend[0]};
        waitingToSend := waitingToSend[1..];
      }
    }

    /** The critical section of `xQueueGenericSend` in which task t sends. */
    method Send(t: Task, overwrite: bool) returns (sent: bool)
      modifies this
      ensures State(Nobody) == DoSend(old(State(Nobody)), t, overwrite)
      ensures sent == (old(count) < length || overwrite)
    {
      wokenSenders := wokenSenders - {t};
      sent := count < length || overwrite;
      if sent {
        if !(overwrite && count > 0) {
          count := count + 1;
        }
        WakeReceiver();
      }
    }

    /** That of `xQueueReceive` and of `xQueueSemaphoreTake`. */
    method Receive(t: Task) returns (received: bool)
      modifies this
      ensures State(Nobody) == DoReceive(old(State(Nobody)), t, false)
      ensures received == (old(count) > 0)
    {
      wokenReceivers := wokenReceivers - {t};
      received := count > 0;
      if received {
        count := count - 1;
        WakeSender();
      }
    }

    /** That of `xQueuePeek`: the data stays, so another receiver may have it. */
    method Peek(t: Task) returns (received: bool)
      modifies this
      ensures State(Nobody) == DoReceive(old(State(Nobody)), t, true)
      ensures received == (old(count) > 0)
    {
      wokenReceivers := wokenReceivers - {t};
      received := count > 0;
      if received {
        WakeReceiver();
      }
    }

    /** `xQueueGenericSendFromISR` and `xQueueGiveFromISR`. */
    method SendFromISR(overwrite: bool) returns (sent: bool)
      modifies this
      ensures State(Nobody) == DoIsrSend(old(State(Nobody)), overwrite)
      ensures sent == (old(count) < length || overwrite)
    {
      sent := count < length || overwrite;
      if sent {
        if !(overwrite && count > 0) {
          count := count + 1;
        }
        if txLock == UNLOCKED {
          WakeReceiver();
        } else {
          txLock := Increment(txLock);
        }
      }
    }

    /** `xQueueReceiveFromISR`. */
    method ReceiveFromISR() returns (received: bool)
      modifies this
      ensures State(Nobody) == DoIsrReceive(old(State(Nobody)))
      ensures received == (old(count) > 0)
    {
      received := count > 0;
      if received {
        count := count - 1;
        if rxLock == UNLOCKED {
          WakeSender();
        } else {
          rxLock := Increment(rxLock);
        }
      }
    }

    /** `prvLockQueue`. */
    method Lock()
      modifies this`txLock, this`rxLock
      ensures var q := old(State(Nobody));
              State(Nobody) == q.(receivers := LockSide(q.receivers), senders := LockSide(q.senders))
    {
      if rxLock == UNLOCKED {
        rxLock := 0;
      }
      if txLock == UNLOCKED {
        txLock := 0;
      }
    }

    /** The first critical section of `prvUnlockQueue`. */
    method UnlockTx()
      modifies this`txLock, this`waitingToReceive, this`wokenReceivers
      ensures State(Nobody) == old(State(Nobody)).(receivers := UnlockSide(old(State(Nobody)).receivers))
    {
      var lock: int := txLock;
      ghost var was := State(Nobody).receivers;
      while lock > 0
        invariant txLock == old(txLock)
        invariant WakeTimes(State(Nobody).receivers, lock) == WakeTimes(was, was.lock)
      {
        if waitingToReceive == [] {
          break;
        }
        WakeReceiver();
        lock := lock - 1;
      }
      txLock := UNLOCKED;
    }

    /** The second. */
    method UnlockRx()
      modifies this`rxLock, this`waitingToSend, this`wokenSenders
      ensures State(Nobody) == old(State(Nobody)).(senders := UnlockSide(old(State(Nobody)).senders))
    {
      var lock: int := rxLock;
      ghost var was := State(Nobody).senders;
      while lock > 0
        invariant rxLock == old(rxLock)
        invariant WakeTimes(State(Nobody).senders, lock) == WakeTimes(was, was.lock)
      {
        if waitingToSend == [] {
          break;
        }
        WakeSender();
        lock := lock - 1;
      }
      rxLock := UNLOCKED;
    }

    /** `xQueueGenericReset` of a queue in use. */
    method GenericReset()
      modifies this
      ensures State(Nobody) == DoReset(old(State(Nobody)))
    {
      count, rxLock, txLock := 0, UNLOCKED, UNLOCKED;
      WakeSender();
    }
  }
}
