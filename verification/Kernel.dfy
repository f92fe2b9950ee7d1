/**
 The scheduler's state and its operations (tasks.c), each operation one critical
 section or one interrupt.  A task is in exactly one state list; the thirty-six
 state lists are numbered so that the ready list of priority p is list p.
 */
module Kernel {
  import opened Sequences
  import opened Ticks
  import opened Lists

  type Task = nat

  const PRIORITIES: nat := 32
  const DELAYED: nat := 32
  const OVERFLOWED: nat := 33
  const TERMINATING: nat := 34
  const SUSPENDED: nat := 35
  const LISTS: nat := 36

  type Priority = p: nat | p < 32
  type ListId = i: nat | i < 36
  type StateLists = s: seq<List<Task>> | |s| == 36
    witness seq(36, _ => List([], 0))

  datatype State = State(
    tick: Tick,                  // xTickCount
    overflows: nat,              // xNumOfOverflows
    nextUnblock: Tick,           // xNextTaskUnblockTime
    lists: StateLists,
    home: map<Task, ListId>,     // pxContainer of each xStateListItem
    prio: map<Task, Priority>,   // uxPriority of each task
    top: set<nat>,               // uxTopReadyPriority, as the set of its one bits
    waiting: set<Task>,          // tasks whose event item is in an object's event list
    pending: seq<Task>,          // xPendingReadyList
    locks: nat,                  // uxSchedulerSuspended
    pended: nat,                 // xPendedTicks
    count: int,                  // uxCurrentNumberOfTasks
    reap: nat,                   // uxDeletedTasksWaitingCleanUp
    running: Task)               // pxCurrentTCB

  /** The true tick count. */
  function Now(s: State): nat {
    At(s.overflows, s.tick)
  }

  function PrioOf(s: State, t: Task): Priority {
    if t in s.prio then s.prio[t] else 0
  }

  // ---- list primitives -------------------------------------------------------

  /** `uxListRemove` of the state item. */
  function Unlink(s: State, t: Task): State {
    if t in s.home then
      s.(lists := s.lists[s.home[t] := Remove(s.lists[s.home[t]], t)], home := s.home - {t})
    else s
  }

  /** `vListInsertEnd` of the state item.  Its value is not read in an unsorted list. */
  function Append(s: State, t: Task, i: ListId): State {
    s.(lists := s.lists[i := InsertEnd(s.lists[i], Entry(t, 0))], home := s.home[t := i])
  }

  /** `vListInsert` of the state item, sorted by wake time. */
  function File(s: State, t: Task, i: ListId, wake: Tick): State {
    s.(lists := s.lists[i := Insert(s.lists[i], Entry(t, wake))], home := s.home[t := i])
  }

  /** `prvAddTaskToReadyList`. */
  function AddReady(s: State, t: Task): State {
    Append(s, t, PrioOf(s, t)).(top := s.top + {PrioOf(s, t)})
  }

  /** `uxListRemove` then `prvAddTaskToReadyList`. */
  function MakeReady(s: State, t: Task): State {
    AddReady(Unlink(s, t), t)
  }

  /** `uxListRemove`; if that emptied the list, clear bit `bit`. */
  function UnlinkAndReset(s: State, t: Task, bit: nat): State {
    var u := Unlink(s, t);
    if t in s.home && u.lists[s.home[t]].entries == [] then u.(top := u.top - {bit}) else u
  }

  // ---- ticks and the delayed lists ------------------------------------------

  /** `prvResetNextTaskUnblockTime`. */
  function ResetUnblock(s: State): State {
    var d := s.lists[DELAYED].entries;
    s.(nextUnblock := if d == [] || d[0].value >= WRAP then MAX_DELAY else d[0].value)
  }

  function Swapped(i: ListId): ListId {
    if i == DELAYED then OVERFLOWED else if i == OVERFLOWED then DELAYED else i
  }

  function SwapHomes(home: map<Task, ListId>): map<Task, ListId> {
    map t | t in home :: Swapped(home[t])
  }

  /** `taskSWITCH_DELAYED_LISTS`: the two list pointers change places. */
  function SwitchDelayed(s: State): State {
    ResetUnblock(s.(lists := s.lists[DELAYED := s.lists[OVERFLOWED]][OVERFLOWED := s.lists[DELAYED]],
                    home := SwapHomes(s.home),
                    overflows := s.overflows + 1))
  }

  /** Unblock the task at the head of the delayed list, event item included. */
  function WakeHead(s: State): State
    requires s.lists[DELAYED].entries != []
  {
    var t := s.lists[DELAYED].entries[0].owner;
    AddReady(s.(lists := s.lists[DELAYED := RemoveAt(s.lists[DELAYED], 0)],
                home := s.home - {t}, waiting := s.waiting - {t}), t)
  }

  /** The scan of the delayed list in `xTaskIncrementTick`. */
  function WakeExpired(s: State): State
    decreases |s.lists[DELAYED].entries|
  {
    var d := s.lists[DELAYED].entries;
    if d == [] || s.tick < d[0].value then ResetUnblock(s) else WakeExpired(WakeHead(s))
  }

  /** `xTaskIncrementTick` while the scheduler is not suspended. */
  function TickAwake(s: State): State {
    var next := Add(s.tick, 1);
    var u := s.(tick := next);
    var v := if next == 0 then SwitchDelayed(u) else u;
    if next >= v.nextUnblock then WakeExpired(v) else v
  }

  function TickTimes(s: State, n: nat): State
    decreases n
  {
    if n == 0 then s else TickTimes(TickAwake(s), n - 1)
  }

  /** `prvAddCurrentTaskToDelayedList`, after placing the event item if there is one. */
  function Block(s: State, d: Tick, indefinitely: bool, onEvent: bool): State {
    var t := s.running;
    var w := if onEvent then s.(waiting := s.waiting + {t}) else s;
    var u := UnlinkAndReset(w, t, PrioOf(s, t));
    var wake := Add(s.tick, d);
    if d == MAX_DELAY && indefinitely then Append(u, t, SUSPENDED)
    else if wake < s.tick then File(u, t, OVERFLOWED, wake)
    else File(u, t, DELAYED, wake).(nextUnblock := if wake < s.nextUnblock then wake else s.nextUnblock)
  }

  // ---- wake-ups and scheduler suspension ------------------------------------

  /** The common end of `xTaskRemoveFromEventList` and of a notification from an
      interrupt: straight to the ready list, or held pending. */
  function Unblock(s: State, t: Task): State {
    var u := s.(waiting := s.waiting - {t});
    if s.locks == 0 then MakeReady(u, t) else u.(pending := u.pending + [t])
  }

  /** `vTaskRemoveFromUnorderedEventList`, and the wake-up in `xTaskGenericNotify`: straight to
      the ready list even while the scheduler is suspended. */
  function UnblockDirectly(s: State, t: Task): State {
    MakeReady(s.(waiting := s.waiting - {t}), t)
  }

  function DrainPending(s: State): State
    decreases |s.pending|
  {
    if s.pending == [] then s
    else DrainPending(MakeReady(s.(pending := s.pending[1..]), s.pending[0]))
  }

  /** `xTaskResumeAll`. */
  function ResumeAll(s: State): State
    requires s.locks > 0
  {
    var u := s.(locks := s.locks - 1);
    if u.locks > 0 || u.count <= 0 then u
    else
      var v := DrainPending(u);
      var w := if u.pending != [] then ResetUnblock(v) else v;
      TickTimes(w, s.pended).(pended := 0)
  }

  // ---- tasks ------------------------------------------------------------------

  /** `prvAddNewTaskToReadyList`. */
  function Create(s: State, t: Task, p: Priority): State {
    AddReady(s.(prio := s.prio[t := p], count := s.count + 1), t)
  }

  /** The unlinking that `vTaskDelete` and `vTaskSuspend` share: the ready bit goes
      only if the ready list of that priority is empty. */
  function Detach(s: State, t: Task): State {
    var p := PrioOf(s, t);
    var u := Unlink(s, t);
    var v := if t in s.home && u.lists[s.home[t]].entries == [] && u.lists[p].entries == []
             then u.(top := u.top - {p}) else u;
    v.(waiting := v.waiting - {t}, pending := Without(v.pending, t))
  }

  /** `vTaskDelete`. */
  function Delete(s: State, t: Task): State {
    var u := Detach(s, t);
    if t == s.running then Append(u, t, TERMINATING).(reap := s.reap + 1)
    else ResetUnblock(u.(count := s.count - 1, prio := s.prio - {t}))
  }

  /** `prvCheckTasksWaitingTermination`, one turn. */
  function Reap(s: State): State
    requires s.reap > 0 && s.lists[TERMINATING].entries != []
  {
    var t := s.lists[TERMINATING].entries[0].owner;
    Unlink(s, t).(count := s.count - 1, reap := s.reap - 1, prio := s.prio - {t})
  }

  /** `prvCheckTasksWaitingTermination`. */
  function ReapAll(s: State): State
    decreases s.reap
  {
    if s.reap == 0 || s.lists[TERMINATING].entries == [] then s else ReapAll(Reap(s))
  }

  /** `vTaskSuspend`. */
  function SuspendTask(s: State, t: Task): State {
    ResetUnblock(Append(Detach(s, t), t, SUSPENDED))
  }

  /** `prvTaskIsTaskSuspended`. */
  predicate IsSuspended(s: State, t: Task) {
    t in s.home && s.home[t] == SUSPENDED && t !in s.pending && t !in s.waiting
  }

  /** `vTaskResume`. */
  function ResumeTask(s: State, t: Task): State {
    if t != s.running && IsSuspended(s, t) then MakeReady(s, t) else s
  }

  /** A change of effective priority, moving a ready task between ready lists.  `bit`
      is the bit cleared when the old list empties. */
  function Reprioritise(s: State, t: Task, p: Priority, bit: nat): State {
    if t in s.home && s.home[t] == PrioOf(s, t) then
      AddReady(UnlinkAndReset(s, t, bit).(prio := s.prio[t := p]), t)
    else s.(prio := s.prio[t := p])
  }

  /** `vTaskPriorityDisinheritAfterTimeout`.  The holder's new priority is already in its
      control block when the ready bit is cleared, so the bit cleared is the new one. */
  function DisinheritAfterTimeout(s: State, t: Task, base: Priority, held: nat, highestWaiting: Priority): State {
    var use := if base < highestWaiting then highestWaiting else base;
    if PrioOf(s, t) != use && held == 1 then Reprioritise(s, t, use, use) else s
  }

  /** It takes t out of a ready list that then is empty, and leaves that list's bit behind. */
  predicate SpoilsBitmap(s: State, t: Task, base: Priority, held: nat, highestWaiting: Priority) {
    && IsReady(s, t) && |s.lists[PrioOf(s, t)].entries| <= 1
    && held == 1 && PrioOf(s, t) != if base < highestWaiting then highestWaiting else base
  }

  // ---- selection --------------------------------------------------------------

  /** `portGET_HIGHEST_PRIORITY`: the highest one bit below n. */
  function HighestBit(top: set<nat>, n: nat): nat {
    if n == 0 then 0 else if n - 1 in top then n - 1 else HighestBit(top, n - 1)
  }

  /** The generic form: scan down from p to a non-empty list. */
  function ScanDown(lists: StateLists, p: Priority): Priority {
    if lists[p].entries != [] || p == 0 then p else ScanDown(lists, p - 1)
  }

  /** `vTaskSwitchContext` with the port-optimised selection. */
  function SwitchContext(s: State): State {
    var p := HighestBit(s.top, PRIORITIES);
    if s.locks > 0 || p >= PRIORITIES || s.lists[p].entries == [] then s
    else
      var l := Next(s.lists[p]);
      s.(lists := s.lists[p := l], running := l.entries[l.index - 1].owner)
  }

  // ---- runs ---------------------------------------------------------------------

  datatype Step =
    | Tick
    | BlockStep(task: Task, ticks: Tick, indefinitely: bool, onEvent: bool)
    | EventWake(task: Task)
    | Notify(task: Task)
    | DirectWake(task: Task)
    | SuspendAllStep
    | ResumeAllStep
    | SwitchStep
    | CreateStep(task: Task, p: Priority)
    | DeleteStep(task: Task)
    | ReapStep
    | SuspendStep(task: Task)
    | ResumeStep(task: Task)
    | PriorityStep(task: Task, p: Priority)
    | DisinheritStep(task: Task, base: Priority, held: nat, highestWaiting: Priority)

  /** Ready in the list of its own priority. */
  predicate IsReady(s: State, t: Task) {
    t in s.home && s.home[t] == PrioOf(s, t)
  }

  predicate Live(s: State, t: Task) {
    t in s.home && s.home[t] != TERMINATING
  }

  /** When the kernel can take a step.  The scheduler is running, so the idle task exists
      and a resume finds at least one task.  A timed-out wait undoes an inheritance only
      where that does not spoil the ready bitmap. */
  predicate Enabled(s: State, step: Step) {
    match step
    case Tick => true
    case BlockStep(t, d, _, _) => t == s.running && IsReady(s, t) && d > 0 && t !in s.waiting && t !in s.pending
    case EventWake(t) => t in s.waiting
    case Notify(t) => Live(s, t) && t !in s.waiting && t !in s.pending
    case DirectWake(t) => Live(s, t) && t !in s.pending
    case SuspendAllStep => true
    case ResumeAllStep => s.locks > 0 && s.count > 0
    case SwitchStep => true
    case CreateStep(t, _) => t !in s.home
    case DeleteStep(t) => Live(s, t)
    case ReapStep => s.reap > 0 && s.lists[TERMINATING].entries != []
    case SuspendStep(t) => Live(s, t)
    case ResumeStep(t) => true
    case PriorityStep(t, _) => Live(s, t)
    case DisinheritStep(t, base, held, highest) => Live(s, t) && !SpoilsBitmap(s, t, base, held, highest)
  }

  function Apply(s: State, step: Step): State
    requires Enabled(s, step)
  {
    match step
    case Tick => if s.locks == 0 then TickAwake(s) else s.(pended := s.pended + 1)
    case BlockStep(_, d, indefinitely, onEvent) => Block(s, d, indefinitely, onEvent)
    case EventWake(t) => Unblock(s, t)
    case Notify(t) => Unblock(s, t)
    case DirectWake(t) => UnblockDirectly(s, t)
    case SuspendAllStep => s.(locks := s.locks + 1)
    case ResumeAllStep => ResumeAll(s)
    case SwitchStep => SwitchContext(s)
    case CreateStep(t, p) => Create(s, t, p)
    case DeleteStep(t) => Delete(s, t)
    case ReapStep => Reap(s)
    case SuspendStep(t) => SuspendTask(s, t)
    case ResumeStep(t) => ResumeTask(s, t)
    case PriorityStep(t, p) => Reprioritise(s, t, p, PrioOf(s, t))
    case DisinheritStep(t, base, held, highest) => DisinheritAfterTimeout(s, t, base, held, highest)
  }

  predicate CanRun(s: State, steps: seq<Step>)
    decreases |steps|
  {
    steps == [] || (Enabled(s, steps[0]) && CanRun(Apply(s, steps[0]), steps[1..]))
  }

  function Run(s: State, steps: seq<Step>): State
    requires CanRun(s, steps)
    decreases |steps|
  {
    if steps == [] then s else Run(Apply(s, steps[0]), steps[1..])
  }

  /** The scheduler just started, before the first task. */
  function Initial(): State {
    State(0, 0, MAX_DELAY, seq(36, _ => List([], 0)), map[], map[], {}, {}, [], 0, 0, 0, 0, 0)
  }
}
