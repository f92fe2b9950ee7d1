/**
 What the scheduler's invariant buys: on-time wake-ups, ticks that a suspended
 scheduler neither loses nor reorders, and a ready bitmap that can be trusted.
 */
module KernelTheorems {
  import opened Sequences
  import opened Ticks
  import opened Lists
  import opened Kernel
  import opened KernelInvariants
  import opened KernelRuns

  // ---- waking on time ----------------------------------------------------------------

  /** Task t waits for true tick d: blocked before it, ready from it on. */
  ghost predicate Sleeping(s: State, t: Task, d: nat) {
    if Now(s) < d then Due(s, t, d) && t !in s.pending else IsReady(s, t)
  }

  /** A step that acts on t itself other than by the passing of time. */
  predicate Touches(step: Step, t: Task) {
    match step
    case BlockStep(u, _, _, _) => u == t
    case EventWake(u) => u == t
    case Notify(u) => u == t
    case DirectWake(u) => u == t
    case CreateStep(u, _) => u == t
    case DeleteStep(u) => u == t
    case SuspendStep(u) => u == t
    case _ => false
  }

  /** Nothing about where t is has changed. */
  ghost predicate SameFor(s: State, r: State, t: Task) {
    && (t in s.home ==> t in r.home && r.home[t] == s.home[t])
    && PrioOf(r, t) == PrioOf(s, t)
    && r.tick == s.tick && r.overflows == s.overflows
    && (forall e: Entry<Task> :: e.owner == t ==> (e in r.lists[DELAYED].entries <==> e in s.lists[DELAYED].entries))
    && (forall e: Entry<Task> :: e.owner == t ==> (e in r.lists[OVERFLOWED].entries <==> e in s.lists[OVERFLOWED].entries))
    && (t in r.pending ==> t in s.pending)
  }

  lemma SameSleeping(s: State, r: State, t: Task, d: nat)
    requires SameFor(s, r, t) && Sleeping(s, t, d)
    ensures Sleeping(r, t, d)
  {
  }

  /** A sleeping task is in the delayed list its deadline belongs to. */
  lemma DueIsBlocked(s: State, t: Task, d: nat)
    requires IsLinked(s) && Due(s, t, d)
    ensures t in s.home && (s.home[t] == DELAYED || s.home[t] == OVERFLOWED)
    ensures !IsReady(s, t)
  {
    var e := Entry(t, Low(d));
    if e in s.lists[DELAYED].entries {
    } else {
      assert e in s.lists[OVERFLOWED].entries;
    }
  }

  lemma MakeReadySame(s: State, u: Task, t: Task)
    requires IsLinked(s) && u != t
    ensures SameFor(s, MakeReady(s, u), t)
  {
    hide Linked, Remove, InsertEnd;
    MakeReadyEffect(s, u);
    MakeReadyEntries(s, u, DELAYED);
    MakeReadyEntries(s, u, OVERFLOWED);
  }

  lemma TickSleeping(s: State, t: Task, d: nat)
    requires Core(s) && Sleeping(s, t, d)
    ensures Sleeping(TickAwake(s), t, d)
  {
    hide Linked, TopExact, Placed, Timely, TickAwake;
    TickCore(s);
    TickWakesExactlyTheDue(s);
    if d <= Now(s) {
      TickReady(s, t);
    }
  }

  /** A ready task stays ready through a tick. */
  lemma TickReady(s: State, t: Task)
    requires Core(s) && IsReady(s, t)
    ensures IsReady(TickAwake(s), t)
  {
    hide Linked, TopExact, Timely, Events, WakeExpired, SwapHomes, ResetUnblock;
    TickedKeeps(s);
    CacheIsSound(Ticked(s));
    var u := s.(tick := Add(s.tick, 1));
    if u.tick == 0 {
      SwitchEffect(u);
    }
  }

  lemma {:induction false} TicksSleeping(s: State, n: nat, t: Task, d: nat)
    requires Core(s) && Sleeping(s, t, d)
    ensures Sleeping(TickTimes(s, n), t, d)
    decreases n
  {
    hide Core, Sleeping, TickAwake;
    if n > 0 {
      TickCore(s);
      TickSleeping(s, t, d);
      TicksSleeping(TickAwake(s), n - 1, t, d);
    }
  }

  lemma {:induction false} DrainSleeping(s: State, t: Task, d: nat)
    requires Core(s) && Sleeping(s, t, d)
    ensures Sleeping(DrainPending(s), t, d)
    decreases |s.pending|
  {
    hide Linked, TopExact, Timely, Placed, Due, MakeReady;
    if s.pending != [] {
      var p := s.pending[0];
      var u := s.(pending := s.pending[1..]);
      var r := MakeReady(u, p);
      assert Core(u) && Live(u, p);
      MakeReadyCore(u, p);
      MakeReadyEffect(u, p);
      assert Sleeping(u, t, d) by { DuePending(s, t, d); }
      if p != t {
        MakeReadySame(u, p, t);
        SameSleeping(u, r, t, d);
      }
      DrainSleeping(r, t, d);
    }
  }

  lemma DuePending(s: State, t: Task, d: nat)
    requires s.pending != []
    ensures Due(s.(pending := s.pending[1..]), t, d) == Due(s, t, d)
  {
  }

  lemma ResumeAllSleeping(s: State, t: Task, d: nat)
    requires Inv(s) && s.locks > 0 && s.count > 0 && Sleeping(s, t, d)
    ensures Sleeping(ResumeAll(s), t, d)
  {
    hide Linked, TopExact, Timely, Placed, DrainPending, TickTimes;
    var u := s.(locks := s.locks - 1);
    assert Core(u);
    if u.locks == 0 {
      DrainCore(u);
      DrainSleeping(u, t, d);
      var v := DrainPending(u);
      ResetCore(v);
      var w := if u.pending != [] then ResetUnblock(v) else v;
      TicksSleeping(w, s.pended, t, d);
    }
  }

  lemma UnlinkSame(s: State, u: Task, t: Task)
    requires IsLinked(s) && u != t
    ensures SameFor(s, Unlink(s, u), t)
  {
    hide Linked, Remove;
    UnlinkEntries(s, u, DELAYED);
    UnlinkEntries(s, u, OVERFLOWED);
  }

  lemma AppendSame(s: State, u: Task, i: ListId, t: Task)
    requires IsLinked(s) && u !in s.home && u != t
    ensures SameFor(s, Append(s, u, i), t)
  {
    hide Linked, InsertEnd;
    AppendLinked(s, u, i);
  }

  lemma BlockSame(s: State, d: Tick, indefinitely: bool, onEvent: bool, t: Task)
    requires Inv(s) && Enabled(s, BlockStep(s.running, d, indefinitely, onEvent)) && s.running != t
    ensures SameFor(s, Block(s, d, indefinitely, onEvent), t)
  {
    hide Linked, TopExact, Timely, Placed, Events, Counted, UnlinkAndReset, Insert, InsertEnd;
    var x := s.running;
    var w := if onEvent then s.(waiting := s.waiting + {x}) else s;
    LeaveKeeps(w, x);
    var u := UnlinkAndReset(w, x, PrioOf(s, x));
    if d == MAX_DELAY && indefinitely {
      AppendSame(u, x, SUSPENDED, t);
    } else {
      FileKeeps(u, x, d);
    }
  }

  lemma ReprioritiseSleeping(s: State, u: Task, p: Priority, t: Task, d: nat)
    requires Inv(s) && Live(s, u) && Sleeping(s, t, d)
    ensures Sleeping(Reprioritise(s, u, p, PrioOf(s, u)), t, d)
  {
    hide Linked, TopExact, Timely, Placed, UnlinkAndReset, AddReady;
    if IsReady(s, u) {
      LeaveKeeps(s, u);
      var v := UnlinkAndReset(s, u, PrioOf(s, u)).(prio := s.prio[u := p]);
      AddReadyEffect(v, u);
      AddReadyFar(v, u, DELAYED);
      AddReadyFar(v, u, OVERFLOWED);
      if u == t && Now(s) < d { DueIsBlocked(s, t, d); }
    }
  }

  lemma AddReadyFar(s: State, u: Task, i: ListId)
    requires i >= PRIORITIES
    ensures AddReady(s, u).lists[i] == s.lists[i]
  {
  }

  lemma DetachSame(s: State, u: Task, t: Task)
    requires IsLinked(s) && u != t
    ensures SameFor(s, Detach(s, u), t)
  {
    hide Linked, Unlink;
    UnlinkSame(s, u, t);
  }

  lemma RemovalSame(s: State, step: Step, t: Task)
    requires Inv(s) && Enabled(s, step) && !Touches(step, t) && t in s.home && s.home[t] != TERMINATING
    requires step.DeleteStep? || step.SuspendStep? || step.ReapStep?
    ensures SameFor(s, Apply(s, step), t)
  {
    hide Linked, TopExact, Timely, Placed, Events, Detach, Unlink, InsertEnd;
    match step
    case DeleteStep(u) =>
      DetachSame(s, u, t);
      DetachKeeps(s, u);
      AppendSame(Detach(s, u), u, TERMINATING, t);
    case ReapStep =>
      var e := s.lists[TERMINATING].entries[0];
      assert e.owner != t by { ReapHead(s); }
      UnlinkSame(s, e.owner, t);
    case SuspendStep(u) =>
      DetachSame(s, u, t);
      DetachKeeps(s, u);
      AppendSame(Detach(s, u), u, SUSPENDED, t);
  }

  /** Steps that concern other tasks leave t alone. */
  lemma StepSame(s: State, step: Step, t: Task)
    requires Inv(s) && Enabled(s, step) && !Touches(step, t) && t in s.home && s.home[t] != TERMINATING
    requires !step.Tick? && !step.ResumeAllStep? && !step.PriorityStep? && !step.DisinheritStep?
    requires step.ResumeStep? ==> step.task != t
    ensures SameFor(s, Apply(s, step), t)
  {
    hide Linked, TopExact, Timely, Placed, Events, Counted;
    hide Detach, MakeReady, Block, AddReady, Delete, Reap, SuspendTask, HighestBit;
    match step
    case BlockStep(_, d, indefinitely, onEvent) => BlockSame(s, d, indefinitely, onEvent, t);
    case EventWake(u) => MakeReadySame(s.(waiting := s.waiting - {u}), u, t);
    case Notify(u) => MakeReadySame(s.(waiting := s.waiting - {u}), u, t);
    case DirectWake(u) => MakeReadySame(s.(waiting := s.waiting - {u}), u, t);
    case CreateStep(u, p) =>
      var v := s.(prio := s.prio[u := p], count := s.count + 1);
      AddReadyEffect(v, u);
      AddReadyFar(v, u, DELAYED);
      AddReadyFar(v, u, OVERFLOWED);
    case DeleteStep(_) => RemovalSame(s, step, t);
    case ReapStep => RemovalSame(s, step, t);
    case SuspendStep(_) => RemovalSame(s, step, t);
    case ResumeStep(u) => MakeReadySame(s, u, t);
    case SuspendAllStep =>
    case SwitchStep =>
  }

  lemma StepSleeping(s: State, step: Step, t: Task, d: nat)
    requires Inv(s) && Enabled(s, step) && !Touches(step, t) && Sleeping(s, t, d)
    ensures Sleeping(Apply(s, step), t, d)
  {
    hide Linked, TopExact, Timely, Placed, Events, Reprioritise, ResumeAll, TickAwake, Detach;
    assert t in s.home && s.home[t] != TERMINATING && s.home[t] != SUSPENDED by {
      if Now(s) < d { DueIsBlocked(s, t, d); }
    }
    match step
    case Tick =>
      if s.locks == 0 { TickSleeping(s, t, d); }
    case ResumeAllStep => ResumeAllSleeping(s, t, d);
    case PriorityStep(u, p) => ReprioritiseSleeping(s, u, p, t, d);
    case DisinheritStep(u, base, held, highest) =>
      DisinheritIsReprioritise(s, u, base, held, highest);
      ReprioritiseSleeping(s, u, if base < highest then highest else base, t, d);
    case _ =>
      if step != ResumeStep(t) {
        StepSame(s, step, t);
        SameSleeping(s, Apply(s, step), t, d);
      }
  }

  lemma {:induction false} RunSleeping(s: State, steps: seq<Step>, t: Task, d: nat)
    requires Inv(s) && CanRun(s, steps) && Sleeping(s, t, d)
    requires forall step :: step in steps ==> !Touches(step, t)
    ensures Sleeping(Run(s, steps), t, d)
    decreases |steps|
  {
    hide Inv, Enabled, Sleeping, Apply;
    if steps != [] {
      assert steps[0] in steps;
      StepKeeps(s, steps[0]);
      StepSleeping(s, steps[0], t, d);
      RunSleeping(Apply(s, steps[0]), steps[1..], t, d);
    }
  }

  /** Blocking for d ticks at true time T sets the deadline T + d, in whichever list. */
  lemma BlockSleeping(s: State, d: Tick, indefinitely: bool, onEvent: bool)
    requires Inv(s) && Enabled(s, BlockStep(s.running, d, indefinitely, onEvent))
    requires !(d == MAX_DELAY && indefinitely)
    ensures var r := Block(s, d, indefinitely, onEvent);
            Now(r) == Now(s) && Sleeping(r, s.running, Now(s) + d)
  {
    hide Linked, TopExact, Timely, Placed, Events, UnlinkAndReset, Insert;
    var x := s.running;
    var w := if onEvent then s.(waiting := s.waiting + {x}) else s;
    LeaveKeeps(w, x);
    FileKeeps(UnlinkAndReset(w, x, PrioOf(s, x)), x, d);
    Join(s.overflows, s.tick);
    AddWords(Now(s), d);
  }

  /** A task that blocks for d ticks at true time T, and that nothing but time acts on, is
      still blocked at every state before T + d and ready at every state from T + d on, in
      every run, whatever wraps and suspended ticks it contains. */
  lemma WakesOnTime(s: State, d: Tick, indefinitely: bool, onEvent: bool, steps: seq<Step>)
    requires Inv(s) && Enabled(s, BlockStep(s.running, d, indefinitely, onEvent))
    requires !(d == MAX_DELAY && indefinitely)
    requires CanRun(Block(s, d, indefinitely, onEvent), steps)
    requires forall step :: step in steps ==> !Touches(step, s.running)
    ensures var r := Run(Block(s, d, indefinitely, onEvent), steps);
            if Now(r) < Now(s) + d then Due(r, s.running, Now(s) + d) && !IsReady(r, s.running)
            else IsReady(r, s.running)
  {
    hide Linked, TopExact, Timely, Placed, Events, Block, Due;
    BlockKeeps(s, d, indefinitely, onEvent);
    BlockSleeping(s, d, indefinitely, onEvent);
    var b := Block(s, d, indefinitely, onEvent);
    RunSleeping(b, steps, s.running, Now(s) + d);
    RunKeeps(b, steps);
    if Now(Run(b, steps)) < Now(s) + d {
      DueIsBlocked(Run(b, steps), s.running, Now(s) + d);
    }
  }

  // ---- ticks while suspended -------------------------------------------------------------

  lemma {:induction false} WakeExpiredPended(s: State, k: nat)
    ensures WakeExpired(s.(pended := k)) == WakeExpired(s).(pended := k)
    decreases |s.lists[DELAYED].entries|
  {
    var d := s.lists[DELAYED].entries;
    if !(d == [] || s.tick < d[0].value) {
      WakeExpiredPended(WakeHead(s), k);
      assert WakeHead(s.(pended := k)) == WakeHead(s).(pended := k);
    }
  }

  lemma TickAwakePended(s: State, k: nat)
    ensures TickAwake(s.(pended := k)) == TickAwake(s).(pended := k)
  {
    hide WakeExpired;
    assert Ticked(s.(pended := k)) == Ticked(s).(pended := k);
    WakeExpiredPended(Ticked(s), k);
    assert forall u :: TickAwake(u) == ScanIfReached(Ticked(u));
  }

  lemma {:induction false} DrainPended(s: State, k: nat)
    ensures DrainPending(s.(pended := k)) == DrainPending(s).(pended := k)
    decreases |s.pending|
  {
    if s.pending != [] {
      var u := s.(pending := s.pending[1..]);
      DrainPended(MakeReady(u, s.pending[0]), k);
      assert MakeReady(u.(pended := k), s.pending[0]) == MakeReady(u, s.pending[0]).(pended := k);
    }
  }

  lemma {:induction false} TickTimesLast(s: State, n: nat, k: nat)
    ensures TickTimes(s.(pended := k), n + 1).(pended := 0) == TickAwake(TickTimes(s, n).(pended := 0))
    decreases n
  {
    hide TickAwake;
    TickAwakePended(s, k);
    TickAwakePended(s, 0);
    if n > 0 {
      TickTimesLast(TickAwake(s), n - 1, k);
    }
  }

  /** A tick taken just before the scheduler resumes does what it would have done just
      after: same tick count, same delayed lists, same order in every ready list. */
  lemma TickThenResume(s: State)
    requires s.locks == 1 && s.count > 0
    ensures Apply(Apply(s, Tick), ResumeAllStep) == TickAwake(ResumeAll(s))
  {
    hide DrainPending, TickAwake;
    var u, v := s.(locks := 0), s.(locks := 0, pended := s.pended + 1);
    DrainPended(u, s.pended + 1);
    assert DrainPending(v) == DrainPending(u).(pended := s.pended + 1);
    var w := if u.pending != [] then ResetUnblock(DrainPending(u)) else DrainPending(u);
    assert w.(pended := s.pended + 1) ==
      if v.pending != [] then ResetUnblock(DrainPending(v)) else DrainPending(v);
    TickTimesLast(w, s.pended, s.pended + 1);
  }

  /** Resuming with k pended ticks is resuming with none and then taking k ticks. */
  lemma {:induction false} PendedTicksReplay(s: State, k: nat)
    requires s.locks == 1 && s.count > 0 && s.pended == 0
    ensures ResumeAll(s.(pended := k)) == TickTimes(ResumeAll(s), k)
    decreases k
  {
    hide ResumeAll, TickAwake;
    if k > 0 {
      PendedTicksReplay(s, k - 1);
      TickThenResume(s.(pended := k - 1));
      TickTimesSnoc(ResumeAll(s), k - 1);
    }
  }

  lemma {:induction false} TickTimesSnoc(s: State, n: nat)
    ensures TickTimes(s, n + 1) == TickAwake(TickTimes(s, n))
    decreases n
  {
    hide TickAwake;
    if n > 0 {
      TickTimesSnoc(TickAwake(s), n - 1);
    }
  }

  function TicksIn(steps: seq<Step>): nat {
    if steps == [] then 0 else (if steps[0].Tick? then 1 else 0) + TicksIn(steps[1..])
  }

  predicate SameClock(s: State, r: State) {
    r.tick == s.tick && r.overflows == s.overflows && r.pended == s.pended
  }

  lemma RemovalClockStands(s: State, step: Step)
    requires Enabled(s, step) && (step.DeleteStep? || step.SuspendStep? || step.ReapStep?)
    ensures SameClock(s, Apply(s, step))
  {
    hide Remove, InsertEnd, Without;
  }

  /** Only a tick and a resume touch the clock and the pended ticks. */
  lemma ClockStands(s: State, step: Step)
    requires Enabled(s, step) && !step.Tick? && !step.ResumeAllStep?
    ensures SameClock(s, Apply(s, step))
  {
    hide Remove, Insert, InsertEnd, HighestBit, Next, Delete, SuspendTask, Reap, PrioOf, SwapHomes;
    if step.DeleteStep? || step.SuspendStep? || step.ReapStep? {
      RemovalClockStands(s, step);
    }
  }

  lemma StepConservesTicks(s: State, step: Step)
    requires Inv(s) && Enabled(s, step)
    ensures var r := Apply(s, step);
            Now(r) + r.pended == Now(s) + s.pended + if step.Tick? then 1 else 0
  {
    hide Base, Counted, Events, OnTime, ResumeAll, TickAwake, Remove, Insert, InsertEnd, HighestBit, Without;
    match step
    case Tick => if s.locks == 0 { TickCore(s); }
    case ResumeAllStep => ResumeAllKeeps(s);
    case _ => ClockStands(s, step);
  }

  /** In every run the tick count plus the pended ticks is the number of tick interrupts
      taken, and nothing stays pended or pending once the scheduler runs. */
  lemma {:induction false} TicksAreConserved(s: State, steps: seq<Step>)
    requires Inv(s) && CanRun(s, steps)
    ensures var r := Run(s, steps);
            && Now(r) + r.pended == Now(s) + s.pended + TicksIn(steps)
            && (r.locks == 0 ==> r.pended == 0 && r.pending == [])
    decreases |steps|
  {
    hide Core, Enabled, Apply, Now;
    if steps != [] {
      StepKeeps(s, steps[0]);
      StepConservesTicks(s, steps[0]);
      TicksAreConserved(Apply(s, steps[0]), steps[1..]);
    }
  }
}
