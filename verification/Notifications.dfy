/**
 Direct-to-task notifications used as a counting semaphore (tasks.c): interrupts give,
 the task takes, in two critical sections between which anything may happen.  The
 scheduler underneath is the one of module `Kernel`.
 */
module Notifications {
  import opened Lists
  import opened Ticks
  import K = Kernel
  import opened KernelInvariants
  import KernelRuns
  import KernelTheorems
  import Scheduler

  /** `ulNotifiedValue` is 32 bits wide. */
  type Value = v: nat | v < 0x1_0000_0000

  datatype NotifyState = NotWaiting | Waiting | Received

  /** One task, one notification index.  `gives`, `taken` and `returned` are history. */
  datatype System = System(
    k: K.State,
    value: Value,
    state: NotifyState,
    inTake: bool,      // between the two critical sections of the take
    clear: bool,       // xClearCountOnExit of that take
    gives: nat,
    taken: nat,        // what the takes have removed from the count
    returned: nat)     // what they have returned

  datatype Step =
    | Give                                  // from an interrupt
    | TaskGive                              // from a task
    | Enter(wait: Tick, clear: bool)
    | Leave
    | Other(step: K.Step)

  /** Task t takes only while it runs, and does not block with the scheduler suspended. */
  predicate Enabled(s: System, t: K.Task, step: Step) {
    match step
    case Give => K.Live(s.k, t)
    case TaskGive => K.Live(s.k, t)
    case Enter(wait, _) =>
      && !s.inTake && s.k.running == t && K.IsReady(s.k, t)
      && t !in s.k.waiting
      && (wait > 0 ==> s.k.locks == 0)
    case Leave => s.inTake && s.k.running == t && K.IsReady(s.k, t)
    case Other(step) => K.Enabled(s.k, step) && (s.inTake ==> !KernelTheorems.Touches(step, t))
  }

  /** `vTaskGenericNotifyGiveFromISR`. */
  function Increment(v: Value): Value {
    if v == 0xffff_ffff then 0 else v + 1
  }

  /** The count and the state after a give. */
  function Given(s: System): System {
    s.(value := Increment(s.value), state := Received, gives := s.gives + 1)
  }

  function Apply(s: System, t: K.Task, step: Step): System
    requires Enabled(s, t, step)
  {
    match step
    case Give =>
      Given(s).(k := if s.state == Waiting then K.Unblock(s.k, t) else s.k)
    case TaskGive =>
      Given(s).(k := if s.state == Waiting then K.UnblockDirectly(s.k, t) else s.k)
    case Enter(wait, clear) =>
      var u := s.(inTake := true, clear := clear);
      if s.value != 0 then u
      else u.(state := Waiting, k := if wait > 0 then K.Block(s.k, wait, true, false) else s.k)
    case Leave =>
      var v := if s.value == 0 || s.clear then 0 else s.value - 1;
      s.(value := v, state := NotWaiting, inTake := false,
         taken := s.taken + (s.value - v), returned := s.returned + s.value)
    case Other(step) => s.(k := K.Apply(s.k, step))
  }

  predicate CanRun(s: System, t: K.Task, steps: seq<Step>)
    decreases |steps|
  {
    steps == [] || (Enabled(s, t, steps[0]) && CanRun(Apply(s, t, steps[0]), t, steps[1..]))
  }

  function Run(s: System, t: K.Task, steps: seq<Step>): System
    requires CanRun(s, t, steps)
    decreases |steps|
  {
    if steps == [] then s else Run(Apply(s, t, steps[0]), t, steps[1..])
  }

  /** What is stored and what has been taken away make up what was given. */
  ghost predicate Conserved(s: System) {
    (s.gives - s.taken - s.value) % 0x1_0000_0000 == 0
  }

  /** A task asleep in its take has either had no give or is already held pending. */
  ghost predicate Sound(s: System, t: K.Task) {
    && (s.state == Waiting ==> s.inTake && s.value == 0 && t !in s.k.pending)
    && (s.inTake ==>
          && K.Live(s.k, t) && t !in s.k.waiting
          && (Blocked(s.k.home, t) && s.state != Waiting ==> t in s.k.pending))
  }

  ghost predicate NotifyInv(s: System, t: K.Task) {
    Inv(s.k) && Conserved(s) && Sound(s, t)
  }

  /** Before the first give and the first take. */
  function Start(k: K.State): System {
    System(k, 0, NotWaiting, false, false, 0, 0, 0)
  }

  /** The notification of one task: its two fields, changed in place, and the scheduler. */
  class Notified {
    const task: K.Task
    const kernel: Scheduler.Kernel
    var value: Value
    var state: NotifyState
    ghost var inTake: bool
    ghost var clear: bool
    ghost var gives: nat
    ghost var taken: nat
    ghost var returned: nat

    ghost function View(): System
      reads this, kernel
    {
      System(kernel.State(), value, state, inTake, clear, gives, taken, returned)
    }

    constructor (task: K.Task, kernel: Scheduler.Kernel)
      ensures View() == Start(kernel.State()) && this.task == task && this.kernel == kernel
    {
      this.task, this.kernel := task, kernel;
      value, state := 0, NotWaiting;
      inTake, clear, gives, taken, returned := false, false, 0, 0, 0;
    }

    /** `vTaskGenericNotifyGiveFromISR`; the task's event item is on no list. */
    method GiveFromISR()
      requires Enabled(View(), task, Give)
      modifies this, kernel
      ensures View() == Apply(old(View()), task, Give)
    {
      hide K.Unblock;
      var original := state;
      state := Received;
      value := Increment(value);
      gives := gives + 1;
      if original == Waiting {
        var higher := kernel.RemoveFromEventList(task);
      }
    }

    /** `xTaskGenericNotify` with the action that increments; returns whether that asks
        for a switch. */
    method GiveFromTask() returns (higher: bool)
      requires Enabled(View(), task, TaskGive) && task !in kernel.waiting
      modifies this, kernel
      ensures View() == Apply(old(View()), task, TaskGive)
      ensures higher == (old(state) == Waiting &&
                         K.PrioOf(kernel.State(), task) > K.PrioOf(kernel.State(), kernel.running))
    {
      hide K.MakeReady, K.Apply, Enabled;
      var original := state;
      state := Received;
      value := Increment(value);
      gives := gives + 1;
      higher := false;
      if original == Waiting {
        higher := kernel.ReadyNotified(task);
      }
    }

    /** The first critical section of `ulTaskGenericNotifyTake`. */
    method TakeFirst(wait: Tick, clearOnExit: bool)
      requires Enabled(View(), task, Enter(wait, clearOnExit))
      modifies this, kernel
      ensures View() == Apply(old(View()), task, Enter(wait, clearOnExit))
    {
      hide K.Block;
      inTake, clear := true, clearOnExit;
      if value == 0 {
        state := Waiting;
        if wait > 0 {
          kernel.AddCurrentTaskToDelayedList(wait, true);
        }
      }
    }

    /** The second. */
    method TakeSecond(clearOnExit: bool) returns (result: Value)
      requires Enabled(View(), task, Leave) && clearOnExit == clear
      modifies this
      ensures View() == Apply(old(View()), task, Leave) && returned == old(returned) + result
      ensures result == old(value) && (result != 0 ==> value == if clearOnExit then 0 else result - 1)
    {
      result := value;
      if result != 0 {
        if clearOnExit {
          value := 0;
        } else {
          value := result - 1;
        }
      }
      state := NotWaiting;
      inTake, taken, returned := false, taken + (result - value), returned + result;
    }
  }

  lemma StartHolds(k: K.State, t: K.Task)
    requires Inv(k)
    ensures NotifyInv(Start(k), t)
  {
  }

  // ---- what the other steps of the system can do to a task in its take ----------------------

  /** From k to r task t may have been woken, nothing else. */
  ghost predicate OnlyWoken(k: K.State, r: K.State, t: K.Task) {
    && K.Live(r, t)
    && (Blocked(r.home, t) ==> Blocked(k.home, t) && (t in k.pending ==> t in r.pending))
    && (t in r.pending ==> t in k.pending)
    && (t in r.waiting ==> t in k.waiting)
  }

  lemma {:induction false} WakeExpiredWaiting(k: K.State)
    ensures K.WakeExpired(k).waiting <= k.waiting
    decreases |k.lists[K.DELAYED].entries|
  {
    var d := k.lists[K.DELAYED].entries;
    if !(d == [] || k.tick < d[0].value) {
      WakeExpiredWaiting(K.WakeHead(k));
    }
  }

  lemma TickOnlyWakes(k: K.State, t: K.Task)
    requires Core(k) && K.Live(k, t)
    ensures OnlyWoken(k, K.TickAwake(k), t) && Core(K.TickAwake(k))
  {
    hide Linked, TopExact, Placed, Timely, Events, K.WakeExpired, K.SwapHomes, K.ResetUnblock;
    KernelRuns.TickCore(k);
    TickedKeeps(k);
    CacheIsSound(Ticked(k));
    WakeExpiredWaiting(Ticked(k));
    var u := k.(tick := Add(k.tick, 1));
    if u.tick == 0 {
      SwitchEffect(u);
    }
  }

  lemma {:induction false} TicksOnlyWake(k: K.State, n: nat, t: K.Task)
    requires Core(k) && K.Live(k, t)
    ensures OnlyWoken(k, K.TickTimes(k, n), t)
    decreases n
  {
    hide Core, K.TickAwake;
    if n > 0 {
      TickOnlyWakes(k, t);
      TicksOnlyWake(K.TickAwake(k), n - 1, t);
    }
  }

  /** Once the pending list is drained no task that was on it is blocked. */
  lemma {:induction false} DrainOnlyWakes(k: K.State, t: K.Task)
    requires Core(k) && K.Live(k, t)
    ensures var r := K.DrainPending(k);
            && K.Live(r, t) && r.pending == [] && r.waiting == k.waiting
            && (Blocked(r.home, t) ==> Blocked(k.home, t) && t !in k.pending)
    decreases |k.pending|
  {
    hide Linked, TopExact, Timely, Placed, Remove, InsertEnd, K.MakeReady, K.PrioOf;
    if k.pending != [] {
      var p := k.pending[0];
      var u := k.(pending := k.pending[1..]);
      assert Core(u) && K.Live(u, p);
      KernelRuns.MakeReadyCore(u, p);
      MakeReadyEffect(u, p);
      DrainOnlyWakes(K.MakeReady(u, p), t);
    }
  }

  lemma ResumeAllOnlyWakes(k: K.State, t: K.Task)
    requires Inv(k) && k.locks > 0 && k.count > 0 && K.Live(k, t)
    ensures OnlyWoken(k, K.ResumeAll(k), t)
  {
    hide Linked, TopExact, Timely, Placed, Events, K.DrainPending, K.TickTimes;
    var u := k.(locks := k.locks - 1);
    assert Core(u);
    if u.locks == 0 {
      KernelRuns.DrainCore(u);
      DrainOnlyWakes(u, t);
      var v := K.DrainPending(u);
      KernelRuns.ResetCore(v);
      TicksOnlyWake(if u.pending != [] then K.ResetUnblock(v) else v, k.pended, t);
    }
  }

  lemma ReprioritiseOnlyWakes(k: K.State, u: K.Task, p: K.Priority, t: K.Task)
    requires Inv(k) && K.Live(k, u) && K.Live(k, t)
    ensures OnlyWoken(k, K.Reprioritise(k, u, p, K.PrioOf(k, u)), t)
  {
    hide Linked, TopExact, Timely, Events, Remove, InsertEnd;
  }

  predicate SameEvents(k: K.State, r: K.State, t: K.Task) {
    (t in r.pending <==> t in k.pending) && (t in r.waiting <==> t in k.waiting)
  }

  lemma RemovalLeavesEvents(k: K.State, step: K.Step, t: K.Task)
    requires K.Enabled(k, step) && !KernelTheorems.Touches(step, t)
    requires step.DeleteStep? || step.SuspendStep? || step.ReapStep?
    ensures SameEvents(k, K.Apply(k, step), t)
  {
    hide Remove, InsertEnd;
  }

  lemma StepLeavesEvents(k: K.State, step: K.Step, t: K.Task)
    requires K.Enabled(k, step) && !KernelTheorems.Touches(step, t)
    requires !step.Tick? && !step.ResumeAllStep? && !step.PriorityStep? && !step.DisinheritStep?
    ensures SameEvents(k, K.Apply(k, step), t)
  {
    hide Remove, Insert, InsertEnd, K.HighestBit, Next, K.Delete, K.SuspendTask, K.Reap, K.PrioOf;
    if step.DeleteStep? || step.SuspendStep? || step.ReapStep? {
      RemovalLeavesEvents(k, step, t);
    }
  }

  lemma OtherOnlyWakes(k: K.State, step: K.Step, t: K.Task)
    requires Inv(k) && K.Enabled(k, step) && !KernelTheorems.Touches(step, t) && K.Live(k, t)
    ensures OnlyWoken(k, K.Apply(k, step), t)
  {
    hide Linked, TopExact, Timely, Events, K.TickAwake, K.ResumeAll, K.Reprioritise, K.MakeReady;
    match step
    case Tick =>
      if k.locks == 0 { TickOnlyWakes(k, t); }
    case ResumeAllStep => ResumeAllOnlyWakes(k, t);
    case PriorityStep(u, p) => ReprioritiseOnlyWakes(k, u, p, t);
    case DisinheritStep(u, base, held, highest) =>
      KernelRuns.DisinheritIsReprioritise(k, u, base, held, highest);
      ReprioritiseOnlyWakes(k, u, if base < highest then highest else base, t);
    case _ =>
      StepLeavesEvents(k, step, t);
      if step == K.ResumeStep(t) {
        MakeReadyEffect(k, t);
      } else {
        KernelTheorems.StepSame(k, step, t);
      }
  }

  // ---- every run ------------------------------------------------------------------------------

  lemma GiveKeeps(s: System, t: K.Task)
    requires NotifyInv(s, t) && K.Live(s.k, t)
    ensures NotifyInv(Apply(s, t, Give), t)
  {
    hide Linked, TopExact, Timely, Placed, Remove, InsertEnd, Core, K.MakeReady;
    if s.state == Waiting {
      KernelRuns.UnblockKeeps(s.k, t);
      var u := s.k.(waiting := s.k.waiting - {t});
      MakeReadyEffect(u, t);
    }
  }

  lemma TaskGiveKeeps(s: System, t: K.Task)
    requires NotifyInv(s, t) && K.Live(s.k, t)
    ensures NotifyInv(Apply(s, t, TaskGive), t)
  {
    hide Linked, TopExact, Timely, Placed, Remove, InsertEnd, Core;
    if s.state == Waiting {
      KernelRuns.UnblockDirectlyKeeps(s.k, t);
      var u := s.k.(waiting := s.k.waiting - {t});
      MakeReadyEffect(u, t);
    }
  }

  /** A take that finds nothing while the task is still held pending from an earlier give. */
  predicate TakesWhilePended(s: System, t: K.Task, step: Step) {
    step.Enter? && s.value == 0 && t in s.k.pending
  }

  /** Entering a take keeps the books exactly if it is not such a take. */
  lemma EnterKeepsExactly(s: System, t: K.Task, wait: Tick, clear: bool)
    requires NotifyInv(s, t) && Enabled(s, t, Enter(wait, clear))
    ensures NotifyInv(Apply(s, t, Enter(wait, clear)), t) <==> !TakesWhilePended(s, t, Enter(wait, clear))
  {
    hide Linked, TopExact, Timely, Placed, K.Block;
    if s.value == 0 && wait > 0 {
      KernelRuns.BlockKeeps(s.k, wait, true, false);
      var i := KernelRuns.BlockLists(s.k, wait, true, false);
    }
  }

  /** What such a take leads to: the next give puts the task's one event item on the pending
      list a second time. */
  lemma TakesWhilePendedPendTwice(s: System, t: K.Task, wait: Tick, clear: bool)
    requires NotifyInv(s, t) && Enabled(s, t, Enter(wait, clear)) && TakesWhilePended(s, t, Enter(wait, clear))
    ensures Enabled(Apply(s, t, Enter(wait, clear)), t, Give)
    ensures var r := Apply(Apply(s, t, Enter(wait, clear)), t, Give);
            r.k.pending == s.k.pending + [t] && t in s.k.pending && !Inv(r.k)
  {
    hide Linked, TopExact, Timely, Placed, K.Block;
    var q := s.k.pending + [t];
    var i :| 0 <= i < |s.k.pending| && s.k.pending[i] == t;
    assert q[i] == q[|s.k.pending|];
  }

  lemma StepKeeps(s: System, t: K.Task, step: Step)
    requires NotifyInv(s, t) && Enabled(s, t, step) && !TakesWhilePended(s, t, step)
    ensures NotifyInv(Apply(s, t, step), t)
  {
    hide Core;
    match step
    case Give => GiveKeeps(s, t);
    case TaskGive => TaskGiveKeeps(s, t);
    case Enter(wait, clear) => EnterKeepsExactly(s, t, wait, clear);
    case Leave =>
    case Other(step) =>
      KernelRuns.StepKeeps(s.k, step);
      if s.inTake {
        OtherOnlyWakes(s.k, step, t);
      }
  }

  lemma StepFirst(s: System, t: K.Task, step: Step, rest: seq<Step>)
    requires Enabled(s, t, step) && CanRun(Apply(s, t, step), t, rest)
    ensures CanRun(s, t, [step] + rest) && Run(s, t, [step] + rest) == Run(Apply(s, t, step), t, rest)
    ensures NeverWhilePended(s, t, [step] + rest) <==>
            !TakesWhilePended(s, t, step) && NeverWhilePended(Apply(s, t, step), t, rest)
  {
    hide Enabled, Apply, TakesWhilePended;
    assert ([step] + rest)[1..] == rest;
  }

  /** A take without waiting while the scheduler is suspended, an interrupt giving between its
      two halves, and the same take again. */
  function GivenBetween(): seq<Step> {
    [Other(K.SuspendAllStep), Enter(0, true), Give, Leave]
  }

  /** Such a take can come: from any start in which t runs, this run leads to one. */
  lemma TakesWhilePendedReached(k: K.State, t: K.Task)
    requires Inv(k) && k.running == t && K.IsReady(k, t) && t !in k.waiting && t !in k.pending
    ensures var s := Start(k);
            && NotifyInv(s, t) && CanRun(s, t, GivenBetween()) && NeverWhilePended(s, t, GivenBetween())
            && var r := Run(s, t, GivenBetween());
               NotifyInv(r, t) && Enabled(r, t, Enter(0, true)) && TakesWhilePended(r, t, Enter(0, true))
  {
    hide Inv;
    StartHolds(k, t);
    var s := Start(k);
    var a := Apply(s, t, Other(K.SuspendAllStep));
    var b := Apply(a, t, Enter(0, true));
    var c := Apply(b, t, Give);
    var d := Apply(c, t, Leave);
    hide NotifyInv;
    StepKeeps(s, t, Other(K.SuspendAllStep));
    StepKeeps(a, t, Enter(0, true));
    StepKeeps(b, t, Give);
    StepKeeps(c, t, Leave);
    assert d.k == k.(locks := k.locks + 1, waiting := k.waiting - {t}, pending := k.pending + [t]);
    hide Apply, Enabled, TakesWhilePended;
    StepFirst(c, t, Leave, []);
    StepFirst(b, t, Give, [Leave]);
    assert [Give] + [Leave] == [Give, Leave];
    StepFirst(a, t, Enter(0, true), [Give, Leave]);
    assert [Enter(0, true)] + [Give, Leave] == [Enter(0, true), Give, Leave];
    StepFirst(s, t, Other(K.SuspendAllStep), [Enter(0, true), Give, Leave]);
    assert GivenBetween() == [Other(K.SuspendAllStep)] + [Enter(0, true), Give, Leave];
  }

  predicate NeverWhilePended(s: System, t: K.Task, steps: seq<Step>)
    requires CanRun(s, t, steps)
    decreases |steps|
  {
    steps == [] ||
    (!TakesWhilePended(s, t, steps[0]) && NeverWhilePended(Apply(s, t, steps[0]), t, steps[1..]))
  }

  lemma {:induction false} RunKeeps(s: System, t: K.Task, steps: seq<Step>)
    requires NotifyInv(s, t) && CanRun(s, t, steps) && NeverWhilePended(s, t, steps)
    ensures NotifyInv(Run(s, t, steps), t)
    decreases |steps|
  {
    hide NotifyInv, Enabled, Apply, TakesWhilePended;
    if steps != [] {
      StepKeeps(s, t, steps[0]);
      RunKeeps(Apply(s, t, steps[0]), t, steps[1..]);
    }
  }

  /** In every run what the takes removed and what is stored add up to the gives, modulo
      the width of the count; and a task asleep in its take with a non-zero count is
      already held pending, for the scheduler to release. */
  lemma NotificationsAreConserved(s: System, t: K.Task, steps: seq<Step>)
    requires NotifyInv(s, t) && CanRun(s, t, steps) && NeverWhilePended(s, t, steps)
    ensures var r := Run(s, t, steps);
            && (r.taken + r.value) % 0x1_0000_0000 == r.gives % 0x1_0000_0000
            && (r.inTake && Blocked(r.k.home, t) && r.value != 0 ==> t in r.k.pending && r.k.locks > 0)
  {
    hide Core, K.Apply, Run, CanRun, NeverWhilePended, Conserved;
    RunKeeps(s, t, steps);
    ConservedAdds(Run(s, t, steps));
  }

  lemma ConservedAdds(s: System)
    requires Conserved(s)
    ensures (s.taken + s.value) % 0x1_0000_0000 == s.gives % 0x1_0000_0000
  {
  }

  predicate AllClear(s: System, steps: seq<Step>) {
    && (s.inTake ==> s.clear)
    && (forall step :: step in steps && step.Enter? ==> step.clear)
  }

  lemma {:induction false} ClearTakesReturn(s: System, t: K.Task, steps: seq<Step>)
    requires CanRun(s, t, steps) && AllClear(s, steps)
    ensures var r := Run(s, t, steps); r.returned - s.returned == r.taken - s.taken
    decreases |steps|
  {
    if steps != [] {
      assert steps[0] in steps;
      ClearTakesReturn(Apply(s, t, steps[0]), t, steps[1..]);
    }
  }

  /** When every take clears the count, the values returned plus the value stored are the
      number of gives, modulo 2^32. */
  lemma ReturnedPlusStored(s: System, t: K.Task, steps: seq<Step>)
    requires NotifyInv(s, t) && CanRun(s, t, steps) && NeverWhilePended(s, t, steps) && AllClear(s, steps)
    requires s.returned == s.taken
    ensures var r := Run(s, t, steps); (r.returned + r.value) % 0x1_0000_0000 == r.gives % 0x1_0000_0000
  {
    hide NotifyInv, Apply, Enabled, Run, CanRun, NeverWhilePended;
    ClearTakesReturn(s, t, steps);
    NotificationsAreConserved(s, t, steps);
  }

  // ---- every give is good for one take ---------------------------------------------------------

  function GivesIn(steps: seq<Step>): nat {
    if steps == [] then 0 else (if steps[0].Give? || steps[0].TaskGive? then 1 else 0) + GivesIn(steps[1..])
  }

  /** The takes of the run that have returned something. */
  function TakesReturning(s: System, t: K.Task, steps: seq<Step>): nat
    requires CanRun(s, t, steps)
    decreases |steps|
  {
    if steps == [] then 0
    else
      var u := Apply(s, t, steps[0]);
      (if steps[0].Leave? && u.returned != s.returned then 1 else 0) + TakesReturning(u, t, steps[1..])
  }

  predicate NoneClears(s: System, steps: seq<Step>) {
    && (s.inTake ==> !s.clear)
    && (forall step :: step in steps && step.Enter? ==> !step.clear)
  }

  lemma NoneClearsOn(s: System, t: K.Task, steps: seq<Step>)
    requires steps != [] && Enabled(s, t, steps[0]) && NoneClears(s, steps)
    ensures NoneClears(Apply(s, t, steps[0]), steps[1..])
  {
    hide K.Enabled, K.Unblock, K.UnblockDirectly, K.Block, K.Apply;
    assert steps[0] in steps;
  }

  lemma StepCounts(s: System, t: K.Task, step: Step)
    requires Enabled(s, t, step) && (s.inTake ==> !s.clear)
    ensures var u := Apply(s, t, step);
            (u.value + (if step.Leave? && u.returned != s.returned then 1 else 0)
             - s.value - (if step.Give? || step.TaskGive? then 1 else 0)) % 0x1_0000_0000 == 0
  {
    hide K.Enabled, K.Unblock, K.UnblockDirectly, K.Block, K.Apply;
  }

  /** When no take clears the count, each give is good for exactly one take: the takes that have
      returned something and the count stored are together the count at the start and the gives
      since, modulo 2^32. */
  lemma {:induction false} OneTakePerGive(s: System, t: K.Task, steps: seq<Step>)
    requires CanRun(s, t, steps) && NoneClears(s, steps)
    ensures (TakesReturning(s, t, steps) + Run(s, t, steps).value - s.value - GivesIn(steps)) % 0x1_0000_0000 == 0
    decreases |steps|
  {
    hide Enabled, Apply, NoneClears;
    if steps != [] {
      NoneClearsNow(s, steps);
      StepCounts(s, t, steps[0]);
      NoneClearsOn(s, t, steps);
      OneTakePerGive(Apply(s, t, steps[0]), t, steps[1..]);
      var u, r := Apply(s, t, steps[0]), Run(s, t, steps);
      ghost var back := if steps[0].Leave? && u.returned != s.returned then 1 else 0;
      ghost var given := if steps[0].Give? || steps[0].TaskGive? then 1 else 0;
      WholeTurns(u.value + back - s.value - given,
                 TakesReturning(u, t, steps[1..]) + r.value - u.value - GivesIn(steps[1..]));
    }
  }

  lemma WholeTurns(a: int, b: int)
    requires a % 0x1_0000_0000 == 0 && b % 0x1_0000_0000 == 0
    ensures (a + b) % 0x1_0000_0000 == 0
  {
  }

  lemma NoneClearsNow(s: System, steps: seq<Step>)
    requires NoneClears(s, steps)
    ensures s.inTake ==> !s.clear
  {
  }

  /** A take puts its task to sleep exactly if it finds nothing and may wait. */
  lemma EnterBlocksExactly(s: System, t: K.Task, wait: Tick, clear: bool)
    requires NotifyInv(s, t) && Enabled(s, t, Enter(wait, clear))
    ensures K.IsReady(Apply(s, t, Enter(wait, clear)).k, t) <==> !(s.value == 0 && wait > 0)
  {
    hide Linked, TopExact, Timely, Placed, Events, K.Block;
    if s.value == 0 && wait > 0 {
      var i := KernelRuns.BlockLists(s.k, wait, true, false);
    }
  }
}
