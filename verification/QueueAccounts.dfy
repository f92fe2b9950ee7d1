/**
 What the wake-up protocol of a queue does to the count and to those who wait: items are conserved,
 nobody is woken before a task that waits ahead of it, and nobody is woken for nothing.
 */
module QueueAccounts {
  import opened Sequences
  import opened QueueWakeups

  // ---- items ------------------------------------------------------------------------------------

  /** The step adds an item: a send that finds room, or that overwrites where nothing is. */
  predicate Puts(s: Queue, step: Step) {
    match step
    case Send(_, overwrite) => if overwrite then s.count == 0 else s.count < s.length
    case IsrSend(overwrite) => if overwrite then s.count == 0 else s.count < s.length
    case _ => false
  }

  /** The step takes one: a receive that finds something and does not just look. */
  predicate Gets(s: Queue, step: Step) {
    match step
    case Receive(_, peek) => !peek && s.count > 0
    case IsrReceive => s.count > 0
    case _ => false
  }

  function PutsIn(s: Queue, steps: seq<Step>): nat
    requires CanRun(s, steps)
    decreases |steps|
  {
    if steps == [] then 0 else (if Puts(s, steps[0]) then 1 else 0) + PutsIn(Apply(s, steps[0]), steps[1..])
  }

  function GetsIn(s: Queue, steps: seq<Step>): nat
    requires CanRun(s, steps)
    decreases |steps|
  {
    if steps == [] then 0 else (if Gets(s, steps[0]) then 1 else 0) + GetsIn(Apply(s, steps[0]), steps[1..])
  }

  lemma StepConserves(s: Queue, step: Step)
    requires Enabled(s, step) && !step.Reset?
    ensures Apply(s, step).count + (if Gets(s, step) then 1 else 0) == s.count + (if Puts(s, step) then 1 else 0)
    ensures Apply(s, step).length == s.length
  {
    hide Wake, FromISR, UnlockSide, LockSide, Leave, PlaceAt, Outside;
  }

  /** In every run without a reset the count is what it was, plus the items added, less those
      taken. */
  lemma {:induction false} ItemsAreConserved(s: Queue, steps: seq<Step>)
    requires CanRun(s, steps) && Reset !in steps
    ensures Run(s, steps).count + GetsIn(s, steps) == s.count + PutsIn(s, steps)
    decreases |steps|
  {
    hide Enabled, Apply, Puts, Gets;
    if steps != [] {
      assert steps[0] in steps;
      StepConserves(s, steps[0]);
      ItemsAreConserved(Apply(s, steps[0]), steps[1..]);
    }
  }

  // ---- those who wait -----------------------------------------------------------------------------

  function SideOf(s: Queue, role: Role): Side {
    if role == Receiver then s.receivers else s.senders
  }

  /** If a still waits, so does b, and behind it. */
  ghost predicate Behind(r: Side, a: Task, b: Task) {
    a in r.waiting ==> b in r.waiting && Ahead(r.waiting, a, b)
  }

  lemma AheadMembers(q: seq<Task>, a: Task, b: Task)
    requires Ahead(q, a, b)
    ensures a in q && b in q
  {
  }

  lemma WakeOrder(d: Side, a: Task, b: Task)
    requires Distinct(d.waiting) && Ahead(d.waiting, a, b)
    ensures Behind(Wake(d), a, b) && Distinct(Wake(d).waiting)
    ensures a in Wake(d).waiting ==> Ahead(Wake(d).waiting, a, b)
  {
    var q := d.waiting;
    assert q == [q[0]] + q[1..];
    AheadTail(q[0], q[1..], a, b);
    if a in q[1..] {
      assert a != q[0];
      AheadMembers(q[1..], a, b);
    }
  }

  lemma {:induction false} WakeTimesOrder(d: Side, n: int, a: Task, b: Task)
    requires Distinct(d.waiting) && Ahead(d.waiting, a, b)
    ensures Behind(WakeTimes(d, n), a, b)
    decreases |d.waiting|
  {
    hide Distinct, Ahead, Wake;
    if n > 0 && d.waiting != [] {
      WakeOrder(d, a, b);
      if a in Wake(d).waiting {
        WakeLess(d);
        WakeTimesOrder(Wake(d), n - 1, a, b);
      } else {
        WakeLess(d);
        WakeTimesMembers(Wake(d), n - 1);
      }
    } else {
      AheadMembers(d.waiting, a, b);
    }
  }

  lemma WakeLess(d: Side)
    requires d.waiting != []
    ensures |Wake(d).waiting| == |d.waiting| - 1
    ensures forall t :: t in Wake(d).waiting ==> t in d.waiting
  {
  }

  lemma {:induction false} WakeTimesMembers(d: Side, n: int)
    ensures var r := WakeTimes(d, n);
            && |d.waiting| - Max0(n) <= |r.waiting| <= |d.waiting|
            && forall t :: t in r.waiting ==> t in d.waiting
    decreases |d.waiting|
  {
    hide Wake;
    if n > 0 && d.waiting != [] {
      WakeLess(d);
      WakeTimesMembers(Wake(d), n - 1);
    }
  }

  lemma InsertAhead(q: seq<Task>, t: Task, at: nat, a: Task, b: Task)
    requires Ahead(q, a, b) && at <= |q|
    ensures Ahead(q[..at] + [t] + q[at..], a, b)
  {
    var r := q[..at] + [t] + q[at..];
    var i, j :| 0 <= i < j < |q| && q[i] == a && q[j] == b;
    var k, l := if i < at then i else i + 1, if j < at then j else j + 1;
    assert r[k] == a && r[l] == b;
  }

  /** What a step can do to one of the two lists. */
  ghost predicate Moves(d: Side, r: Side, step: Step) {
    || r.waiting == d.waiting
    || (!step.Expire? && !step.Place? && (r.waiting == Wake(d).waiting || r.waiting == WakeTimes(d, d.lock).waiting))
    || (step.Expire? && r.waiting == Without(d.waiting, step.task))
    || (step.Place? && exists t :: step.at <= |d.waiting| && r.waiting == d.waiting[..step.at] + [t] + d.waiting[step.at..])
  }

  lemma StepMoves(s: Queue, step: Step, role: Role)
    requires Enabled(s, step)
    ensures Moves(SideOf(s, role), SideOf(Apply(s, step), role), step)
  {
    hide WakeTimes, Without;
    match step
    case Place(at) =>
      var d, r := SideOf(s, role), SideOf(Apply(s, step), role);
      if role == s.holder.role {
        assert r.waiting == d.waiting[..at] + [s.holder.task] + d.waiting[at..];
      }
    case Send(t, _) => LeaveWake(SideOf(s, role), t);
    case Receive(t, _) => LeaveWake(SideOf(s, role), t);
    case _ =>
  }

  lemma LeaveWake(d: Side, t: Task)
    ensures Wake(Leave(d, t)).waiting == Wake(d).waiting && Leave(d, t).waiting == d.waiting
  {
  }

  lemma MovesOrder(d: Side, r: Side, step: Step, a: Task, b: Task)
    requires Moves(d, r, step) && Distinct(d.waiting) && Ahead(d.waiting, a, b) && step != Expire(b)
    ensures Behind(r, a, b)
  {
    hide Ahead, Distinct, Wake, WakeTimes;
    AheadMembers(d.waiting, a, b);
    WakeOrder(d, a, b);
    WakeTimesOrder(d, d.lock, a, b);
    if step.Expire? && step.task != a { WithoutAhead(d.waiting, step.task, a, b); }
    if step.Place? && r.waiting != d.waiting {
      var t :| step.at <= |d.waiting| && r.waiting == d.waiting[..step.at] + [t] + d.waiting[step.at..];
      InsertAhead(d.waiting, t, step.at, a, b);
      AheadMembers(r.waiting, a, b);
    }
  }

  /** a waits at every point of the run. */
  ghost predicate WaitsOn(s: Queue, steps: seq<Step>, role: Role, a: Task)
    requires CanRun(s, steps)
    decreases |steps|
  {
    a in SideOf(s, role).waiting && (steps == [] || WaitsOn(Apply(s, steps[0]), steps[1..], role, a))
  }

  lemma StructureIsDistinct(s: Queue, role: Role)
    requires Structure(s)
    ensures Distinct(SideOf(s, role).waiting)
  {
    hide HolderAgrees;
  }

  /** Nobody is woken before a task that waits ahead of it: as long as a waits, b, which waits behind
      it, waits behind it still, unless its own wait expires. */
  lemma {:induction false} WokenInOrder(s: Queue, steps: seq<Step>, role: Role, a: Task, b: Task)
    requires Structure(s) && CanRun(s, steps) && AlwaysFit(s, steps) && WaitsOn(s, steps, role, a)
    requires Ahead(SideOf(s, role).waiting, a, b) && Expire(b) !in steps
    ensures Ahead(SideOf(Run(s, steps), role).waiting, a, b)
    decreases |steps|
  {
    hide Structure, Enabled, Apply, Ahead, Moves, CountsFit, SideOf;
    if steps != [] {
      var u := Apply(s, steps[0]);
      StepKeeps(s, steps[0]);
      StepMoves(s, steps[0], role);
      StructureIsDistinct(s, role);
      assert steps[0] in steps;
      MovesOrder(SideOf(s, role), SideOf(u, role), steps[0], a, b);
      WokenInOrder(u, steps[1..], role, a, b);
    }
  }

  /** Whose time expires waits no more; who else stops waiting has been woken. */
  lemma LeaversExactly(s: Queue, step: Step, role: Role, t: Task)
    requires Enabled(s, step) && t in SideOf(s, role).waiting
    ensures var r := SideOf(Apply(s, step), role);
            && (step == Expire(t) ==> t !in r.waiting)
            && (t !in r.waiting && step != Expire(t) ==> t in r.woken)
  {
    hide WakeTimes;
    UnlockLeavers(SideOf(s, role), t);
    if step.Place? && role == s.holder.role {
      var q := SideOf(s, role).waiting;
      assert q == q[..step.at] + q[step.at..];
    }
  }

  lemma UnlockLeavers(d: Side, t: Task)
    requires t in d.waiting
    ensures t in UnlockSide(d).waiting || t in UnlockSide(d).woken
  {
    WakeTimesLeavers(d, d.lock, t);
  }

  lemma {:induction false} WakeTimesLeavers(d: Side, n: int, t: Task)
    requires t in d.waiting || t in d.woken
    ensures t in WakeTimes(d, n).waiting || t in WakeTimes(d, n).woken
    decreases |d.waiting|
  {
    if n > 0 && d.waiting != [] {
      assert d.waiting == [d.waiting[0]] + d.waiting[1..];
      WakeTimesLeavers(Wake(d), n - 1, t);
    }
  }

  /** Whether the last check of its time in the run found a call expired. */
  function LastExpired(steps: seq<Step>, before: bool): bool {
    if steps == [] then before
    else LastExpired(steps[1..], if steps[0].CheckTimeOut? then steps[0].expired else before)
  }

  /** The holder is on its way to wait. */
  predicate MayWait(s: Queue) {
    s.holder.Holder? && s.holder.phase in {InTime, SawNone}
  }

  lemma MayWaitStep(s: Queue, step: Step)
    requires Enabled(s, step) && MayWait(Apply(s, step))
    ensures if step.CheckTimeOut? then !step.expired else MayWait(s)
    ensures step.Look? ==> NoneFor(s, s.holder.role)
  {
    hide Wake, WakeTimes, Without;
  }

  lemma {:induction false} MayWaitRun(s: Queue, steps: seq<Step>, before: bool)
    requires CanRun(s, steps) && (MayWait(s) ==> !before)
    ensures MayWait(Run(s, steps)) ==> !LastExpired(steps, before)
    decreases |steps|
  {
    hide Enabled, Apply, MayWait;
    if steps != [] {
      var u := Apply(s, steps[0]);
      if MayWait(u) { MayWaitStep(s, steps[0]); }
      MayWaitRun(u, steps[1..], if steps[0].CheckTimeOut? then steps[0].expired else before);
    }
  }

  /** In every run a call that is about to wait has been found in time at its last check. */
  lemma WaitsOnlyInTime(length: nat, count: nat, steps: seq<Step>, at: nat)
    requires count <= length && CanRun(Fresh(length, count), steps)
    requires Enabled(Run(Fresh(length, count), steps), Place(at))
    ensures !LastExpired(steps, true)
  {
    hide Run, CanRun;
    MayWaitRun(Fresh(length, count), steps, true);
  }

  // ---- what a wake-up costs -------------------------------------------------------------------------

  /** The step offers one item (or slot), or hands on the right to one. */
  predicate Offers(s: Queue, step: Step, role: Role) {
    if role == Receiver then
      match step
      case Send(_, overwrite) => overwrite || s.count < s.length
      case IsrSend(overwrite) => overwrite || s.count < s.length
      case Receive(_, peek) => peek && s.count > 0
      case _ => false
    else
      match step
      case Receive(_, peek) => !peek && s.count > 0
      case IsrReceive => s.count > 0
      case Reset => true
      case _ => false
  }

  /** How many the step has woken. */
  function Wakes(s: Queue, step: Step, role: Role): int
    requires Enabled(s, step)
  {
    if step.Expire? || step.Place? then 0
    else |SideOf(s, role).waiting| - |SideOf(Apply(s, step), role).waiting|
  }

  function WakesIn(s: Queue, steps: seq<Step>, role: Role): int
    requires CanRun(s, steps)
    decreases |steps|
  {
    if steps == [] then 0 else Wakes(s, steps[0], role) + WakesIn(Apply(s, steps[0]), steps[1..], role)
  }

  function OffersIn(s: Queue, steps: seq<Step>, role: Role): nat
    requires CanRun(s, steps)
    decreases |steps|
  {
    if steps == [] then 0
    else (if Offers(s, steps[0], role) then 1 else 0) + OffersIn(Apply(s, steps[0]), steps[1..], role)
  }

  lemma WakeOne(d: Side)
    ensures |d.waiting| - 1 <= |Wake(d).waiting| <= |d.waiting| && Wake(d).lock == d.lock
  {
  }

  lemma UnlockWakes(d: Side)
    ensures |d.waiting| - |UnlockSide(d).waiting| <= Max0(d.lock) && UnlockSide(d).lock == UNLOCKED
    ensures |UnlockSide(d).waiting| <= |d.waiting|
  {
    WakeTimesMembers(d, d.lock);
    hide WakeTimes;
  }

  lemma StepPays(s: Queue, step: Step, role: Role)
    requires Enabled(s, step)
    ensures 0 <= Wakes(s, step, role)
    ensures Wakes(s, step, role) + Max0(SideOf(Apply(s, step), role).lock) <=
            Max0(SideOf(s, role).lock) + if Offers(s, step, role) then 1 else 0
  {
    hide Wake, UnlockSide, Outside, Without, NoneFor;
    var d := SideOf(s, role);
    WakeOne(d);
    UnlockWakes(d);
    WakeOne(d.(lock := UNLOCKED));
    match step
    case Send(t, _) => WakeOne(Leave(d, t));
    case Receive(t, _) => WakeOne(Leave(d, t));
    case _ =>
  }

  /** Nobody is woken for nothing: in every run the tasks woken and the wake-ups still counted in
      the lock are no more than the items (or slots) offered and the count at the start. */
  lemma {:induction false} WakesArePaid(s: Queue, steps: seq<Step>, role: Role)
    requires CanRun(s, steps)
    ensures WakesIn(s, steps, role) + Max0(SideOf(Run(s, steps), role).lock) <=
            OffersIn(s, steps, role) + Max0(SideOf(s, role).lock)
    decreases |steps|
  {
    hide Enabled, Apply, Offers, Wakes, SideOf, Max0;
    if steps != [] {
      StepPays(s, steps[0], role);
      WakesArePaid(Apply(s, steps[0]), steps[1..], role);
    }
  }
}
