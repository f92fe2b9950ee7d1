/**
 Mutexes with priority inheritance (queue.c and tasks.c).  Each step is what one task
 does between two points at which another can run.  Tasks that wait for a mutex hold
 none, mutexes are used outside `vTaskSuspendAll`, and no task is deleted, suspended or
 given a new base priority.
 */
module Mutexes {
  import opened Lists
  import K = Kernel

  type Task = K.Task
  type MutexId = nat

  datatype Tcb = Tcb(prio: nat, base: nat, held: nat)

  datatype Owner = Free | Held(task: Task)

  /** Waiters are filed under 32 - priority, the highest priority first. */
  datatype Mutex = Mutex(holder: Owner, waiters: List<Task>)

  /** `retry` are the tasks that giving a mutex has woken and that have not run again; `lent`
      are those that wait, or have waited, in a take for which inheritance is in force. */
  datatype System = System(
    tasks: seq<Tcb>,
    ready: set<Task>,
    running: Task,
    mutexes: seq<Mutex>,
    retry: map<Task, MutexId>,
    lent: map<Task, MutexId>)      // xInheritanceOccurred of the take each is in

  // ---- the functions of tasks.c --------------------------------------------------------------

  /** `xTaskPriorityInherit`: the holder rises to the priority of the task that is to wait. */
  function Inherited(holder: Tcb, prio: nat): Tcb {
    if holder.prio < prio then holder.(prio := prio) else holder
  }

  /** Its result: whether the holder now owes anything to that priority. */
  predicate Lends(holder: Tcb, prio: nat) {
    holder.prio < prio || holder.base < prio
  }

  predicate Disinherits(t: Tcb) {
    t.prio != t.base && t.held == 1
  }

  /** `xTaskPriorityDisinherit`. */
  function Disinherit(t: Tcb): Tcb
    requires t.held > 0
  {
    Tcb(if Disinherits(t) then t.base else t.prio, t.base, t.held - 1)
  }

  /** `prvGetDisinheritPriorityAfterTimeout`. */
  function HighestWaiting(waiters: List<Task>): nat {
    if waiters.entries == [] || waiters.entries[0].value > K.PRIORITIES then 0
    else K.PRIORITIES - waiters.entries[0].value
  }

  /** `vTaskPriorityDisinheritAfterTimeout`. */
  function DisinheritAfterTimeout(t: Tcb, highest: nat): Tcb {
    var use := if t.base < highest then highest else t.base;
    if t.prio != use && t.held == 1 then t.(prio := use) else t
  }

  /** The fields of a task control block that mutexes change, and the functions that do. */
  class TaskControlBlock {
    var prio: nat
    var base: nat
    var held: nat

    function State(): Tcb
      reads this
    {
      Tcb(prio, base, held)
    }

    /** `xTaskPriorityInherit` on the holder, for a task of priority `current`. */
    method PriorityInherit(current: nat) returns (inherited: bool)
      modifies this`prio
      ensures State() == Inherited(old(State()), current) && inherited == Lends(old(State()), current)
    {
      inherited := false;
      if prio < current {
        prio := current;
        inherited := true;
      } else if base < current {
        inherited := true;
      }
    }

    /** `xTaskPriorityDisinherit`; true if the priority was lowered. */
    method PriorityDisinherit() returns (yieldNeeded: bool)
      requires held > 0
      modifies this`prio, this`held
      ensures State() == Disinherit(old(State())) && yieldNeeded == Disinherits(old(State()))
    {
      yieldNeeded := false;
      held := held - 1;
      if prio != base {
        if held == 0 {
          prio := base;
          yieldNeeded := true;
        }
      }
    }

    /** `vTaskPriorityDisinheritAfterTimeout`. */
    method PriorityDisinheritAfterTimeout(highestWaiting: nat)
      modifies this`prio
      ensures State() == DisinheritAfterTimeout(old(State()), highestWaiting)
    {
      var use := if base < highestWaiting then highestWaiting else base;
      if prio != use {
        if held == 1 {
          prio := use;
        }
      }
    }
  }

  // ---- steps --------------------------------------------------------------------------------------

  datatype Step =
    | TryTake(m: MutexId)                          // first critical section of a take
    | BlockOn(m: MutexId, next: Task)              // found it held: inherit and wait
    | Give(m: MutexId, next: Task)
    | TimeOut(t: Task, m: MutexId, next: Task)     // a wait expires
    | AfterTimeOut(m: MutexId)                     // the task whose wait expired undoes the inheritance
    | WakeOther(t: Task, next: Task)               // tasks also block and wake for other reasons
    | BlockOther(next: Task)
    | Yield(next: Task)

  /** `next` is what the scheduler picks: a ready task of the highest priority. */
  ghost predicate Top(tasks: seq<Tcb>, ready: set<Task>, next: Task) {
    && next in ready && next < |tasks|
    && (forall t :: t in ready && t < |tasks| ==> tasks[t].prio <= tasks[next].prio)
  }

  /** Whether giving ends in a yield: if a waiter was woken, only its priority is looked at. */
  predicate GiveYields(s: System, m: MutexId)
    requires s.running < |s.tasks| && m < |s.mutexes|
  {
    var x := s.tasks[s.running];
    var w := s.mutexes[m].waiters.entries;
    if w != [] && w[0].owner < |s.tasks|
    then s.tasks[w[0].owner].prio > if Disinherits(x) then x.base else x.prio
    else Disinherits(x)
  }

  function TakeBy(s: System, m: MutexId): System
    requires s.running < |s.tasks| && m < |s.mutexes|
  {
    var u := s.(retry := s.retry - {s.running});
    if s.mutexes[m].holder == Free then
      u.(mutexes := s.mutexes[m := s.mutexes[m].(holder := Held(s.running))],
         tasks := s.tasks[s.running := s.tasks[s.running].(held := s.tasks[s.running].held + 1)],
         lent := s.lent - {s.running})
    else u
  }

  function Wait(s: System, m: MutexId): System
    requires s.running < |s.tasks| && m < |s.mutexes|
    requires s.mutexes[m].holder.Held? && s.mutexes[m].holder.task < |s.tasks|
    requires s.tasks[s.running].prio <= K.PRIORITIES
  {
    var x, h, p := s.running, s.mutexes[m].holder.task, s.tasks[s.running].prio;
    s.(tasks := s.tasks[h := Inherited(s.tasks[h], p)],
       mutexes := s.mutexes[m := s.mutexes[m].(waiters := Insert(s.mutexes[m].waiters, Entry(x, K.PRIORITIES - p)))],
       ready := s.ready - {x},
       lent := if Lends(s.tasks[h], p) then s.lent[x := m] else s.lent - {x})
  }

  /** The mutex is free, the giver disinherits, and the first waiter is woken to try again. */
  function Release(s: System, m: MutexId): System
    requires s.running < |s.tasks| && m < |s.mutexes| && s.tasks[s.running].held > 0
  {
    var x := s.mutexes[m];
    var u := s.(tasks := s.tasks[s.running := Disinherit(s.tasks[s.running])]);
    if x.waiters.entries == [] then u.(mutexes := s.mutexes[m := x.(holder := Free)])
    else
      var w := x.waiters.entries[0].owner;
      u.(mutexes := s.mutexes[m := Mutex(Free, RemoveAt(x.waiters, 0))],
         ready := s.ready + {w}, retry := s.retry[w := m])
  }

  function Expire(s: System, t: Task, m: MutexId): System
    requires m < |s.mutexes|
  {
    s.(mutexes := s.mutexes[m := s.mutexes[m].(waiters := Remove(s.mutexes[m].waiters, t))],
       ready := s.ready + {t})
  }

  function Undo(s: System, m: MutexId): System
    requires m < |s.mutexes|
  {
    var x := s.mutexes[m];
    if x.holder.Held? && x.holder.task < |s.tasks| then
      var h := x.holder.task;
      s.(tasks := s.tasks[h := DisinheritAfterTimeout(s.tasks[h], HighestWaiting(x.waiters))])
    else s
  }

  function Prio(s: System, t: Task): nat
    requires t < |s.tasks|
  {
    s.tasks[t].prio
  }

  predicate RunsOn(s: System, next: Task) {
    next == s.running && s.running in s.ready && s.running < |s.tasks|
  }

  /** A wake looks only at the woken task's priority and the running one's: the tick asks for a
      switch if it is not below it, an event only if it is above it.  So after a give that has
      missed its yield the giver may run on, and a task above it stay ready, through later wakes. */
  ghost predicate Enabled(s: System, step: Step) {
    s.running < |s.tasks| && s.tasks[s.running].prio < K.PRIORITIES &&
    match step
    case TryTake(m) => m < |s.mutexes| && (s.running in s.retry ==> s.retry[s.running] == m)
    case BlockOn(m, next) =>
      && m < |s.mutexes| && s.running !in s.retry && s.tasks[s.running].held == 0
      && s.mutexes[m].holder.Held? && s.mutexes[m].holder.task < |s.tasks|
      && Top(Wait(s, m).tasks, Wait(s, m).ready, next)
    case Give(m, next) =>
      && m < |s.mutexes| && s.running !in s.retry
      && s.mutexes[m].holder == Held(s.running) && s.tasks[s.running].held > 0
      && (if GiveYields(s, m) then Top(Release(s, m).tasks, Release(s, m).ready, next) else next == s.running)
    case TimeOut(t, m, next) =>
      && m < |s.mutexes| && Has(s.mutexes[m].waiters.entries, t)
      && (Top(s.tasks, s.ready + {t}, next) || (RunsOn(s, next) && t < |s.tasks| && Prio(s, t) < Prio(s, next)))
    case AfterTimeOut(m) =>
      && m < |s.mutexes| && s.running !in s.retry && s.tasks[s.running].held == 0
      && s.running in s.lent && s.lent[s.running] == m
    case WakeOther(t, next) =>
      && t < |s.tasks| && (forall m :: 0 <= m < |s.mutexes| ==> !Has(s.mutexes[m].waiters.entries, t))
      && (Top(s.tasks, s.ready + {t}, next) || (RunsOn(s, next) && Prio(s, t) <= Prio(s, next)))
    case BlockOther(next) => s.running !in s.retry && Top(s.tasks, s.ready - {s.running}, next)
    case Yield(next) => Top(s.tasks, s.ready, next)
  }

  ghost function Apply(s: System, step: Step): System
    requires Enabled(s, step)
  {
    match step
    case TryTake(m) => TakeBy(s, m)
    case BlockOn(m, next) => Wait(s, m).(running := next)
    case Give(m, next) => Release(s, m).(running := next)
    case TimeOut(t, m, next) => Expire(s, t, m).(running := next)
    case AfterTimeOut(m) => Undo(s, m).(lent := s.lent - {s.running})
    case WakeOther(t, next) => s.(ready := s.ready + {t}, running := next)
    case BlockOther(next) => s.(ready := s.ready - {s.running}, running := next)
    case Yield(next) => s.(running := next)
  }

  // ---- the invariant ------------------------------------------------------------------------------

  /** How many of the mutexes name t as their holder. */
  function HoldsIn(mutexes: seq<Mutex>, t: Task): nat {
    if mutexes == [] then 0
    else (if mutexes[0].holder == Held(t) then 1 else 0) + HoldsIn(mutexes[1..], t)
  }

  /** Effective priority is at least base, and exactly base while no mutex is held; the
      held count counts. */
  ghost predicate TaskOk(c: Tcb, t: Task, mutexes: seq<Mutex>) {
    && c.base <= c.prio < K.PRIORITIES
    && (c.held == 0 ==> c.prio == c.base)
    && c.held == HoldsIn(mutexes, t)
  }

  ghost predicate TasksOk(tasks: seq<Tcb>, mutexes: seq<Mutex>) {
    forall t :: 0 <= t < |tasks| ==> TaskOk(tasks[t], t, mutexes)
  }

  /** Waiters are blocked, hold nothing, and are filed under their priority. */
  ghost predicate WaitersOk(tasks: seq<Tcb>, ready: set<Task>, waiters: List<Task>) {
    && Valid(waiters) && Sorted(waiters.entries)
    && (forall e :: e in waiters.entries ==>
          && e.owner < |tasks| && e.owner !in ready
          && tasks[e.owner].held == 0 && e.value == K.PRIORITIES - tasks[e.owner].prio)
  }

  /** The priority p is at least that of every waiter. */
  ghost predicate Covers(tasks: seq<Tcb>, p: nat, waiters: List<Task>) {
    forall e :: e in waiters.entries && e.owner < |tasks| ==> tasks[e.owner].prio <= p
  }

  /** A held mutex's holder covers its waiters; a free one has a woken task that does. */
  ghost predicate Covered(s: System, m: MutexId)
    requires m < |s.mutexes|
  {
    var x := s.mutexes[m];
    if x.holder.Held? then x.holder.task < |s.tasks| && Covers(s.tasks, s.tasks[x.holder.task].prio, x.waiters)
    else x.waiters.entries == [] || exists r :: Baton(s, r, m)
  }

  ghost predicate Baton(s: System, r: Task, m: MutexId)
    requires m < |s.mutexes|
  {
    r in s.ready && r < |s.tasks| && r in s.retry && s.retry[r] == m
    && Covers(s.tasks, s.tasks[r].prio, s.mutexes[m].waiters)
  }

  ghost predicate OneListEach(mutexes: seq<Mutex>) {
    forall i, j, t :: 0 <= i < j < |mutexes| && Has(mutexes[i].waiters.entries, t) ==>
      !Has(mutexes[j].waiters.entries, t)
  }

  ghost predicate RetryOk(s: System) {
    forall r :: r in s.retry ==> r in s.ready && r < |s.tasks| && s.tasks[r].held == 0
  }

  ghost predicate ListsOk(s: System) {
    forall m :: 0 <= m < |s.mutexes| ==> WaitersOk(s.tasks, s.ready, s.mutexes[m].waiters)
  }

  ghost predicate AllCovered(s: System) {
    forall m :: 0 <= m < |s.mutexes| ==> Covered(s, m)
  }

  ghost predicate Inv(s: System) {
    && TasksOk(s.tasks, s.mutexes)
    && ListsOk(s)
    && OneListEach(s.mutexes)
    && RetryOk(s)
    && AllCovered(s)
    && s.running in s.ready
    && (forall t :: t in s.ready ==> t < |s.tasks|)
  }

  /** What of this does not speak of priorities across mutexes: it stands even where a take has
      overtaken a waiter. */
  ghost predicate Filed(s: System) {
    && TasksOk(s.tasks, s.mutexes) && ListsOk(s) && OneListEach(s.mutexes) && RetryOk(s)
    && HoldersKnown(s)
    && s.running in s.ready
    && (forall t :: t in s.ready ==> t < |s.tasks|)
  }

  ghost predicate HoldersKnown(s: System) {
    forall m :: 0 <= m < |s.mutexes| && s.mutexes[m].holder.Held? ==> s.mutexes[m].holder.task < |s.tasks|
  }

  lemma InvFiled(s: System)
    requires Inv(s)
    ensures Filed(s)
  {
    hide TasksOk, ListsOk, OneListEach, RetryOk;
    forall m | 0 <= m < |s.mutexes| && s.mutexes[m].holder.Held?
      ensures s.mutexes[m].holder.task < |s.tasks|
    {
      assert Covered(s, m);
    }
  }

  ghost predicate RunsTop(s: System) {
    Top(s.tasks, s.ready, s.running)
  }

  // ---- counting ------------------------------------------------------------------------------------

  function One(b: bool): nat {
    if b then 1 else 0
  }

  lemma {:induction false} HoldsInUpdate(mutexes: seq<Mutex>, m: MutexId, x: Mutex, t: Task)
    requires m < |mutexes|
    ensures HoldsIn(mutexes[m := x], t) + One(mutexes[m].holder == Held(t)) ==
            HoldsIn(mutexes, t) + One(x.holder == Held(t))
  {
    if m == 0 {
      assert mutexes[m := x][1..] == mutexes[1..];
    } else {
      assert mutexes[m := x][1..] == mutexes[1..][m - 1 := x];
      HoldsInUpdate(mutexes[1..], m - 1, x, t);
    }
  }

  lemma {:induction false} HolderCounts(mutexes: seq<Mutex>, m: MutexId, t: Task)
    requires m < |mutexes| && mutexes[m].holder == Held(t)
    ensures HoldsIn(mutexes, t) >= 1
    ensures HoldsIn(mutexes, t) == 1 ==>
              forall i :: 0 <= i < |mutexes| && mutexes[i].holder == Held(t) ==> i == m
    decreases |mutexes|
  {
    if m > 0 {
      HolderCounts(mutexes[1..], m - 1, t);
    }
    forall i | 0 < i < |mutexes| && mutexes[i].holder == Held(t)
      ensures HoldsIn(mutexes[1..], t) >= 1
    {
      HolderCounts(mutexes[1..], i - 1, t);
    }
  }

  lemma HoldersHold(s: System, m: MutexId)
    requires Filed(s) && m < |s.mutexes| && s.mutexes[m].holder.Held?
    ensures s.mutexes[m].holder.task < |s.tasks|
    ensures var h := s.mutexes[m].holder.task;
            && s.tasks[h].held >= 1
            && (s.tasks[h].held == 1 ==>
                  forall i :: 0 <= i < |s.mutexes| && s.mutexes[i].holder == Held(h) ==> i == m)
  {
    hide ListsOk, OneListEach, RetryOk;
    HolderCounts(s.mutexes, m, s.mutexes[m].holder.task);
  }

  // ---- steps ------------------------------------------------------------------------------------------

  lemma TakeTasks(s: System, m: MutexId)
    requires Filed(s) && m < |s.mutexes| && s.running < |s.tasks|
    ensures TasksOk(TakeBy(s, m).tasks, TakeBy(s, m).mutexes)
  {
    hide ListsOk, OneListEach, RetryOk;
    var r := TakeBy(s, m);
    if s.mutexes[m].holder == Free {
      forall t | 0 <= t < |s.tasks|
        ensures TaskOk(r.tasks[t], t, r.mutexes)
      {
        assert TaskOk(s.tasks[t], t, s.mutexes);
        HoldsInUpdate(s.mutexes, m, s.mutexes[m].(holder := Held(s.running)), t);
      }
    }
  }

  /** Taking the mutex overtakes its first waiter: that one is above the taker. */
  predicate Overtakes(s: System, m: MutexId)
    requires s.running < |s.tasks| && m < |s.mutexes|
  {
    var q := s.mutexes[m].waiters.entries;
    s.mutexes[m].holder == Free && q != [] && q[0].owner < |s.tasks|
    && s.tasks[q[0].owner].prio > s.tasks[s.running].prio
  }

  /** A task of the highest ready priority overtakes nobody: one of those ready covers the
      waiters of a free mutex. */
  lemma TopOvertakesNobody(s: System, m: MutexId)
    requires Inv(s) && RunsTop(s) && m < |s.mutexes|
    ensures !Overtakes(s, m)
  {
    hide TasksOk, OneListEach, Sorted, Valid;
    assert Covered(s, m);
    var q := s.mutexes[m].waiters.entries;
    assert q == [] || q[0] in q;
    if q != [] && s.mutexes[m].holder == Free {
      var b :| Baton(s, b, m);
    }
  }

  lemma TakeCovers(s: System, m: MutexId)
    requires Inv(s) && Enabled(s, TryTake(m)) && s.mutexes[m].holder == Free
    ensures Covers(s.tasks, s.tasks[s.running].prio, s.mutexes[m].waiters) <==> !Overtakes(s, m)
  {
    hide OneListEach, RetryOk, AllCovered;
    var q := s.mutexes[m].waiters;
    assert WaitersOk(s.tasks, s.ready, q);
    assert forall t :: 0 <= t < |s.tasks| ==> TaskOk(s.tasks[t], t, s.mutexes);
    hide TasksOk, Sorted, Valid;
    if q.entries != [] {
      HeadCovers(s.tasks, s.ready, q);
    }
  }

  lemma TakeKeeps(s: System, m: MutexId)
    requires Inv(s) && Enabled(s, TryTake(m)) && !Overtakes(s, m)
    ensures Inv(Apply(s, TryTake(m)))
  {
    hide TasksOk, OneListEach, Sorted, Valid, Has;
    InvFiled(s);
    var x, r := s.running, TakeBy(s, m);
    TakeTasks(s, m);
    if s.mutexes[m].holder == Free { TakeCovers(s, m); }
    assert OneListEach(r.mutexes) by { SameLists(s.mutexes, r.mutexes); }
    forall i | 0 <= i < |s.mutexes|
      ensures WaitersOk(r.tasks, r.ready, r.mutexes[i].waiters) && Covered(r, i)
    {
      assert WaitersOk(s.tasks, s.ready, s.mutexes[i].waiters) && Covered(s, i);
      if i != m && s.mutexes[i].holder == Free && s.mutexes[i].waiters.entries != [] {
        var b :| Baton(s, b, i);
        assert Baton(r, b, i);
      }
    }
  }

  /** Each mutex's holder has at least the priority of every task that waits for it. */
  ghost predicate HoldersCover(s: System) {
    forall m, e :: 0 <= m < |s.mutexes| && e in s.mutexes[m].waiters.entries && s.mutexes[m].holder.Held? ==>
      && s.mutexes[m].holder.task < |s.tasks| && e.owner < |s.tasks|
      && s.tasks[e.owner].prio <= s.tasks[s.mutexes[m].holder.task].prio
  }

  lemma InvHoldersCover(s: System)
    requires Inv(s)
    ensures HoldersCover(s)
  {
    hide TasksOk, OneListEach, RetryOk;
    forall m, e | 0 <= m < |s.mutexes| && e in s.mutexes[m].waiters.entries && s.mutexes[m].holder.Held?
      ensures s.mutexes[m].holder.task < |s.tasks| && e.owner < |s.tasks|
      ensures s.tasks[e.owner].prio <= s.tasks[s.mutexes[m].holder.task].prio
    {
      assert Covered(s, m) && WaitersOk(s.tasks, s.ready, s.mutexes[m].waiters);
    }
  }

  /** Taking keeps every holder above its waiters, and the invariant, exactly if it overtakes
      nobody.  That the taker is of the highest ready priority is not needed. */
  lemma TakeKeepsExactly(s: System, m: MutexId)
    requires Inv(s) && Enabled(s, TryTake(m))
    ensures Inv(Apply(s, TryTake(m))) <==> !Overtakes(s, m)
    ensures HoldersCover(Apply(s, TryTake(m))) <==> !Overtakes(s, m)
  {
    if Overtakes(s, m) {
      var r := Apply(s, TryTake(m));
      var q := s.mutexes[m].waiters.entries;
      assert r.mutexes[m].waiters.entries == q && q[0] in q && r.mutexes[m].holder == Held(s.running);
      hide Inv;
      assert !HoldersCover(r);
      if Inv(r) { InvHoldersCover(r); }
    } else {
      TakeKeeps(s, m);
      InvHoldersCover(Apply(s, TryTake(m)));
    }
  }

  lemma SameLists(a: seq<Mutex>, b: seq<Mutex>)
    requires OneListEach(a) && |a| == |b|
    requires forall i, t :: 0 <= i < |a| && Has(b[i].waiters.entries, t) ==> Has(a[i].waiters.entries, t)
    ensures OneListEach(b)
  {
    hide Has;
  }

  lemma BlockOnTasks(s: System, m: MutexId, next: Task)
    requires Filed(s) && Enabled(s, BlockOn(m, next))
    ensures TasksOk(Wait(s, m).tasks, Wait(s, m).mutexes)
  {
    hide ListsOk, OneListEach, RetryOk, Insert;
    HoldersHold(s, m);
    var r := Wait(s, m);
    forall t | 0 <= t < |s.tasks|
      ensures TaskOk(r.tasks[t], t, r.mutexes)
    {
      assert TaskOk(s.tasks[t], t, s.mutexes);
      HoldsInUpdate(s.mutexes, m, r.mutexes[m], t);
    }
  }

  lemma WaitInserts(s: System, m: MutexId, next: Task)
    requires Filed(s) && Enabled(s, BlockOn(m, next))
    ensures var r, e := Wait(s, m), Entry(s.running, K.PRIORITIES - s.tasks[s.running].prio);
            && Valid(r.mutexes[m].waiters) && Sorted(r.mutexes[m].waiters.entries)
            && (forall x :: x in r.mutexes[m].waiters.entries <==> x in s.mutexes[m].waiters.entries || x == e)
  {
    hide TasksOk, OneListEach, RetryOk, AllCovered, Insert, Sorted, Valid;
    assert WaitersOk(s.tasks, s.ready, s.mutexes[m].waiters);
    InsertKeeps(s.mutexes[m].waiters, Entry(s.running, K.PRIORITIES - s.tasks[s.running].prio));
  }

  lemma BlockOnLists(s: System, m: MutexId, next: Task)
    requires Filed(s) && Enabled(s, BlockOn(m, next))
    ensures ListsOk(Wait(s, m)) && OneListEach(Wait(s, m).mutexes)
  {
    hide AllCovered, RetryOk, Insert, Sorted, Valid, TasksOk;
    HoldersHold(s, m);
    WaitInserts(s, m, next);
    var r := Wait(s, m);
    forall i | 0 <= i < |s.mutexes|
      ensures WaitersOk(r.tasks, r.ready, r.mutexes[i].waiters)
    {
      assert WaitersOk(s.tasks, s.ready, s.mutexes[i].waiters);
    }
    assert forall i :: 0 <= i < |s.mutexes| ==> !Has(s.mutexes[i].waiters.entries, s.running);
    forall i, j, t | 0 <= i < j < |r.mutexes| && Has(r.mutexes[i].waiters.entries, t)
      ensures !Has(r.mutexes[j].waiters.entries, t)
    {
      assert t != s.running ==> Has(s.mutexes[i].waiters.entries, t);
    }
  }

  lemma BlockOnCovered(s: System, m: MutexId, next: Task)
    requires Inv(s) && Enabled(s, BlockOn(m, next))
    ensures AllCovered(Wait(s, m))
  {
    hide Insert, Sorted, Valid, TasksOk, OneListEach, Top;
    InvFiled(s);
    WaitInserts(s, m, next);
    HoldersHold(s, m);
    var r := Wait(s, m);
    forall i | 0 <= i < |s.mutexes|
      ensures Covered(r, i)
    {
      assert Covered(s, i) && WaitersOk(s.tasks, s.ready, s.mutexes[i].waiters);
      if i != m && s.mutexes[i].holder == Free && s.mutexes[i].waiters.entries != [] {
        var b :| Baton(s, b, i);
        assert Baton(r, b, i);
      }
    }
  }

  /** All of the invariant but what concerns the running task. */
  ghost predicate Rest(s: System) {
    && TasksOk(s.tasks, s.mutexes) && ListsOk(s) && OneListEach(s.mutexes) && RetryOk(s) && AllCovered(s)
    && (forall t :: t in s.ready ==> t < |s.tasks|)
  }

  /** The invariant does not depend on who runs, nor on what takes have lent. */
  lemma Dispatch(r: System, u: System)
    requires Rest(r) && u == r.(running := u.running, lent := u.lent)
    ensures u.running in u.ready ==> Inv(u)
  {
    hide TasksOk, OneListEach, WaitersOk, Covers;
    assert forall m, b :: 0 <= m < |r.mutexes| && Baton(r, b, m) ==> Baton(u, b, m);
    forall m | 0 <= m < |r.mutexes|
      ensures Covered(u, m)
    {
      assert Covered(r, m);
    }
    forall m | 0 <= m < |r.mutexes|
      ensures WaitersOk(u.tasks, u.ready, u.mutexes[m].waiters)
    {
      assert WaitersOk(r.tasks, r.ready, r.mutexes[m].waiters);
    }
  }

  lemma BlockOnKeeps(s: System, m: MutexId, next: Task)
    requires Inv(s) && Enabled(s, BlockOn(m, next))
    ensures Inv(Apply(s, BlockOn(m, next))) && RunsTop(Apply(s, BlockOn(m, next)))
  {
    hide Insert, TasksOk, ListsOk, OneListEach, AllCovered;
    InvFiled(s);
    BlockOnTasks(s, m, next);
    BlockOnLists(s, m, next);
    BlockOnCovered(s, m, next);
    assert RetryOk(Wait(s, m)) by { HoldersHold(s, m); }
    Dispatch(Wait(s, m), Apply(s, BlockOn(m, next)));
  }

  /** The head of a waiting list is filed under the smallest value: it covers the list. */
  lemma HeadCovers(tasks: seq<Tcb>, ready: set<Task>, waiters: List<Task>)
    requires WaitersOk(tasks, ready, waiters) && waiters.entries != []
    requires forall t :: 0 <= t < |tasks| ==> tasks[t].prio < K.PRIORITIES
    ensures waiters.entries[0] in waiters.entries
    ensures Covers(tasks, tasks[waiters.entries[0].owner].prio, waiters)
    ensures HighestWaiting(waiters) == tasks[waiters.entries[0].owner].prio
  {
    assert waiters.entries[0] in waiters.entries;
  }

  // ---- giving -----------------------------------------------------------------------------------------

  lemma ReleaseTasks(s: System, m: MutexId)
    requires Filed(s) && m < |s.mutexes| && s.running < |s.tasks| && s.mutexes[m].holder == Held(s.running)
    ensures s.tasks[s.running].held > 0
    ensures TasksOk(Release(s, m).tasks, Release(s, m).mutexes)
  {
    hide ListsOk, OneListEach, RetryOk;
    HolderCounts(s.mutexes, m, s.running);
    assert TaskOk(s.tasks[s.running], s.running, s.mutexes);
    var r := Release(s, m);
    forall t | 0 <= t < |s.tasks|
      ensures TaskOk(r.tasks[t], t, r.mutexes)
    {
      assert TaskOk(s.tasks[t], t, s.mutexes);
      HoldsInUpdate(s.mutexes, m, r.mutexes[m], t);
    }
  }

  lemma HeadRemoved(l: List<Task>)
    requires Valid(l) && Sorted(l.entries) && l.entries != []
    ensures Valid(RemoveAt(l, 0)) && Sorted(RemoveAt(l, 0).entries)
    ensures !Has(RemoveAt(l, 0).entries, l.entries[0].owner)
    ensures forall x :: x in RemoveAt(l, 0).entries ==> x in l.entries
  {
    var r := RemoveAt(l, 0).entries;
    assert forall i :: 0 <= i < |r| ==> r[i] == l.entries[i + 1];
  }

  lemma ReleaseLists(s: System, m: MutexId)
    requires Filed(s) && m < |s.mutexes| && s.running < |s.tasks| && s.mutexes[m].holder == Held(s.running)
    requires s.tasks[s.running].held > 0
    ensures ListsOk(Release(s, m)) && OneListEach(Release(s, m).mutexes)
  {
    hide AllCovered, RetryOk, TasksOk, Sorted, Valid, RemoveAt;
    var r, q := Release(s, m), s.mutexes[m].waiters;
    assert WaitersOk(s.tasks, s.ready, q);
    if q.entries != [] {
      HeadRemoved(q);
      assert q.entries[0] in q.entries;
    }
    assert forall x :: x in r.mutexes[m].waiters.entries ==> x in q.entries;
    assert q.entries != [] ==> Has(q.entries, q.entries[0].owner);
    forall i | 0 <= i < |s.mutexes|
      ensures WaitersOk(r.tasks, r.ready, r.mutexes[i].waiters)
    {
      assert WaitersOk(s.tasks, s.ready, s.mutexes[i].waiters);
    }
    SameLists(s.mutexes, r.mutexes);
  }

  /** The task woken by a give covers those still waiting. */
  lemma ReleaseHandsOn(s: System, m: MutexId)
    requires Inv(s) && m < |s.mutexes| && s.running < |s.tasks| && s.mutexes[m].holder == Held(s.running)
    requires s.running !in s.retry && s.tasks[s.running].held > 0
    ensures Covered(Release(s, m), m) && RetryOk(Release(s, m))
  {
    hide OneListEach, Sorted, Valid, RemoveAt, AllCovered;
    var r, q := Release(s, m), s.mutexes[m].waiters;
    assert WaitersOk(s.tasks, s.ready, q);
    if q.entries != [] {
      HeadRemoved(q);
      HeadCovers(s.tasks, s.ready, q);
      assert Baton(r, q.entries[0].owner, m);
    }
  }

  lemma ReleaseCovered(s: System, m: MutexId)
    requires Inv(s) && m < |s.mutexes| && s.running < |s.tasks| && s.mutexes[m].holder == Held(s.running)
    requires s.running !in s.retry && s.tasks[s.running].held > 0
    ensures AllCovered(Release(s, m)) && RetryOk(Release(s, m))
  {
    hide OneListEach, Sorted, Valid, RemoveAt;
    InvFiled(s);
    ReleaseHandsOn(s, m);
    HoldersHold(s, m);
    var r := Release(s, m);
    forall i | 0 <= i < |s.mutexes|
      ensures Covered(r, i)
    {
      assert Covered(s, i) && WaitersOk(s.tasks, s.ready, s.mutexes[i].waiters);
      if i != m && s.mutexes[i].holder == Free && s.mutexes[i].waiters.entries != [] {
        var b :| Baton(s, b, i);
        assert Baton(r, b, i);
      }
    }
  }

  /** Giving a mutex misses a yield it owes when the giver drops to its base priority, wakes a
      waiter that is not above it, and thereby leaves a third task above it ready. */
  predicate YieldMissed(s: System, m: MutexId)
    requires s.running < |s.tasks| && m < |s.mutexes|
  {
    var x := s.tasks[s.running];
    && Disinherits(x) && !GiveYields(s, m)
    && exists u :: u in s.ready && u < |s.tasks| && u != s.running && s.tasks[u].prio > x.base
  }

  /** That takes a waiter: it is the first one, and not above the giver's base. */
  lemma MissedExactly(s: System, m: MutexId)
    requires Filed(s) && s.running < |s.tasks| && m < |s.mutexes|
    ensures YieldMissed(s, m) <==>
            && Disinherits(s.tasks[s.running])
            && s.mutexes[m].waiters.entries != []
            && s.mutexes[m].waiters.entries[0].owner < |s.tasks|
            && s.tasks[s.mutexes[m].waiters.entries[0].owner].prio <= s.tasks[s.running].base
            && exists u :: u in s.ready && u < |s.tasks| && u != s.running && s.tasks[u].prio > s.tasks[s.running].base
  {
    var q := s.mutexes[m].waiters;
    assert WaitersOk(s.tasks, s.ready, q);
    assert q.entries == [] || q.entries[0] in q.entries;
    hide TasksOk, ListsOk, OneListEach, RetryOk, Valid, Sorted;
  }

  lemma ReleaseRest(s: System, m: MutexId, next: Task)
    requires Inv(s) && Enabled(s, Give(m, next))
    ensures Rest(Release(s, m)) && s.running in Release(s, m).ready
  {
    hide TasksOk, OneListEach, AllCovered, RemoveAt;
    InvFiled(s);
    ReleaseTasks(s, m);
    ReleaseLists(s, m);
    ReleaseCovered(s, m);
    var q := s.mutexes[m].waiters.entries;
    assert WaitersOk(s.tasks, s.ready, s.mutexes[m].waiters);
    assert q == [] || q[0] in q;
  }

  lemma ReleaseTop(s: System, m: MutexId)
    requires Inv(s) && RunsTop(s) && Enabled(s, Give(m, s.running)) && !GiveYields(s, m)
    ensures RunsTop(Release(s, m)) <==> !YieldMissed(s, m)
  {
    hide TasksOk, OneListEach, AllCovered, Valid, Sorted, RetryOk, RemoveAt;
    var x, r := s.running, Release(s, m);
    var q := s.mutexes[m].waiters;
    assert WaitersOk(s.tasks, s.ready, q);
    assert q.entries == [] || q.entries[0] in q.entries;
    assert forall u :: u in r.ready <==> u in s.ready || (q.entries != [] && u == q.entries[0].owner);
    assert forall u :: 0 <= u < |s.tasks| && u != x ==> r.tasks[u].prio == s.tasks[u].prio;
  }

  /** Giving keeps the invariant. */
  lemma GiveKeeps(s: System, m: MutexId, next: Task)
    requires Inv(s) && Enabled(s, Give(m, next))
    ensures Inv(Apply(s, Give(m, next)))
  {
    ReleaseRest(s, m, next);
    hide Rest, Inv, Release;
    Dispatch(Release(s, m), Apply(s, Give(m, next)));
  }

  /** After a give the running task is still one of the highest priority exactly if the give has
      not missed its yield. */
  lemma GiveTop(s: System, m: MutexId, next: Task)
    requires Inv(s) && RunsTop(s) && Enabled(s, Give(m, next))
    ensures RunsTop(Apply(s, Give(m, next))) <==> !YieldMissed(s, m)
  {
    if !GiveYields(s, m) {
      ReleaseTop(s, m);
      assert Apply(s, Give(m, next)) == Release(s, m).(running := s.running);
    }
  }

  // ---- time-outs and other tasks -------------------------------------------------------------------

  lemma WaitersDoNotHold(s: System, m: MutexId, q: List<Task>)
    requires TasksOk(s.tasks, s.mutexes) && m < |s.mutexes|
    ensures TasksOk(s.tasks, s.mutexes[m := s.mutexes[m].(waiters := q)])
  {
    var r := s.mutexes[m := s.mutexes[m].(waiters := q)];
    forall t | 0 <= t < |s.tasks|
      ensures TaskOk(s.tasks[t], t, r)
    {
      assert TaskOk(s.tasks[t], t, s.mutexes);
      HoldsInUpdate(s.mutexes, m, r[m], t);
    }
  }

  lemma ExpireLists(s: System, t: Task, m: MutexId)
    requires Filed(s) && m < |s.mutexes| && Has(s.mutexes[m].waiters.entries, t)
    ensures var r := Expire(s, t, m);
            TasksOk(r.tasks, r.mutexes) && ListsOk(r) && OneListEach(r.mutexes) && t < |s.tasks|
  {
    hide TasksOk, Valid, Sorted, Remove, AllCovered, RetryOk;
    var r, q := Expire(s, t, m), s.mutexes[m].waiters;
    assert WaitersOk(s.tasks, s.ready, q);
    WaitersDoNotHold(s, m, Remove(q, t));
    RemoveValid(q, t);
    RemoveSorted(q, t);
    RemoveEntries(q, t);
    forall i | 0 <= i < |s.mutexes|
      ensures WaitersOk(r.tasks, r.ready, r.mutexes[i].waiters)
    {
      assert WaitersOk(s.tasks, s.ready, s.mutexes[i].waiters);
    }
    SameLists(s.mutexes, r.mutexes);
  }

  lemma ExpireCovered(s: System, t: Task, m: MutexId)
    requires Inv(s) && m < |s.mutexes| && Has(s.mutexes[m].waiters.entries, t)
    ensures AllCovered(Expire(s, t, m))
  {
    hide TasksOk, OneListEach, Valid, Sorted, Remove;
    var r, q := Expire(s, t, m), s.mutexes[m].waiters;
    assert WaitersOk(s.tasks, s.ready, q);
    RemoveEntries(q, t);
    forall i | 0 <= i < |s.mutexes|
      ensures Covered(r, i)
    {
      assert Covered(s, i);
      if s.mutexes[i].holder == Free && s.mutexes[i].waiters.entries != [] {
        var b :| Baton(s, b, i);
        assert Baton(r, b, i);
      }
    }
  }

  lemma TimeOutKeeps(s: System, t: Task, m: MutexId, next: Task)
    requires Inv(s) && Enabled(s, TimeOut(t, m, next))
    ensures Inv(Apply(s, TimeOut(t, m, next))) && (RunsTop(s) ==> RunsTop(Apply(s, TimeOut(t, m, next))))
  {
    hide TasksOk, ListsOk, OneListEach, AllCovered, Remove;
    InvFiled(s);
    ExpireLists(s, t, m);
    ExpireCovered(s, t, m);
    Dispatch(Expire(s, t, m), Apply(s, TimeOut(t, m, next)));
  }

  /** What undoing an inheritance does: at most the holder of m changes, to a priority between
      its own and the higher of its base and m's first waiter, and only if it holds m alone. */
  lemma UndoEffect(s: System, m: MutexId)
    requires Inv(s) && m < |s.mutexes|
    ensures var r, x := Undo(s, m), s.mutexes[m];
            && r == s.(tasks := r.tasks) && |r.tasks| == |s.tasks|
            && (forall t :: 0 <= t < |s.tasks| && x.holder != Held(t) ==> r.tasks[t] == s.tasks[t])
            && (x.holder.Held? && x.holder.task < |s.tasks| ==>
                  var h := x.holder.task;
                  && r.tasks[h].held == s.tasks[h].held && r.tasks[h].base == s.tasks[h].base
                  && r.tasks[h].base <= r.tasks[h].prio <= s.tasks[h].prio
                  && (r.tasks[h] != s.tasks[h] ==> s.tasks[h].held == 1)
                  && Covers(s.tasks, r.tasks[h].prio, x.waiters))
  {
    hide OneListEach, RetryOk, Sorted;
    var x := s.mutexes[m];
    assert Covered(s, m) && WaitersOk(s.tasks, s.ready, x.waiters);
    if x.holder.Held? {
      assert TaskOk(s.tasks[x.holder.task], x.holder.task, s.mutexes);
      if x.waiters.entries != [] {
        HeadCovers(s.tasks, s.ready, x.waiters);
      }
    }
  }

  /** And it is lowered as far as it may be: to the least priority not below its base that covers
      those still waiting. */
  lemma UndoIsLeast(s: System, m: MutexId)
    requires Filed(s) && m < |s.mutexes| && s.mutexes[m].holder.Held?
    ensures var h := s.mutexes[m].holder.task;
            && h < |s.tasks|
            && var r := Undo(s, m).tasks[h];
               if s.tasks[h].held == 1 then
                 && r.base <= r.prio && Covers(s.tasks, r.prio, s.mutexes[m].waiters)
                 && forall p :: r.base <= p && Covers(s.tasks, p, s.mutexes[m].waiters) ==> r.prio <= p
               else r == s.tasks[h]
  {
    hide OneListEach, RetryOk, Sorted, Valid;
    var q := s.mutexes[m].waiters;
    assert WaitersOk(s.tasks, s.ready, q);
    if q.entries != [] {
      TasksBelow(s);
      HeadCovers(s.tasks, s.ready, q);
    }
  }

  lemma TasksBelow(s: System)
    requires TasksOk(s.tasks, s.mutexes)
    ensures forall t :: 0 <= t < |s.tasks| ==> s.tasks[t].prio < K.PRIORITIES && s.tasks[t].base <= s.tasks[t].prio
  {
    forall t | 0 <= t < |s.tasks|
      ensures s.tasks[t].prio < K.PRIORITIES && s.tasks[t].base <= s.tasks[t].prio
    {
      assert TaskOk(s.tasks[t], t, s.mutexes);
    }
  }

  lemma UndoTasks(s: System, m: MutexId)
    requires Inv(s) && m < |s.mutexes|
    ensures TasksOk(Undo(s, m).tasks, s.mutexes)
  {
    InvFiled(s);
    UndoEffect(s, m);
    hide Undo, Covers, ListsOk, OneListEach, RetryOk;
    var r := Undo(s, m);
    if s.mutexes[m].holder.Held? { HoldersHold(s, m); }
    forall t | 0 <= t < |s.tasks|
      ensures TaskOk(r.tasks[t], t, s.mutexes)
    {
      assert TaskOk(s.tasks[t], t, s.mutexes);
    }
  }

  lemma UndoRest(s: System, m: MutexId)
    requires Inv(s) && m < |s.mutexes|
    ensures Rest(Undo(s, m))
  {
    hide Undo, TasksOk, OneListEach, Valid, Sorted;
    InvFiled(s);
    UndoEffect(s, m);
    UndoTasks(s, m);
    var r := Undo(s, m);
    if s.mutexes[m].holder.Held? { HoldersHold(s, m); }
    forall i | 0 <= i < |s.mutexes|
      ensures WaitersOk(r.tasks, r.ready, s.mutexes[i].waiters) && Covered(r, i)
    {
      assert WaitersOk(s.tasks, s.ready, s.mutexes[i].waiters) && Covered(s, i);
      if s.mutexes[i].holder == Free && s.mutexes[i].waiters.entries != [] {
        var b :| Baton(s, b, i);
        assert Baton(r, b, i);
      }
    }
  }

  lemma AfterTimeOutKeeps(s: System, m: MutexId)
    requires Inv(s) && Enabled(s, AfterTimeOut(m))
    ensures Inv(Apply(s, AfterTimeOut(m)))
    ensures RunsTop(s) ==> RunsTop(Apply(s, AfterTimeOut(m)))
  {
    InvFiled(s);
    UndoRest(s, m);
    UndoEffect(s, m);
    if s.mutexes[m].holder.Held? { HoldersHold(s, m); }
    hide Undo, TasksOk, ListsOk, OneListEach, AllCovered, RetryOk, Covers;
    Dispatch(Undo(s, m), Apply(s, AfterTimeOut(m)));
  }

  lemma WakeOtherKeeps(s: System, t: Task, next: Task)
    requires Inv(s) && Enabled(s, WakeOther(t, next))
    ensures Inv(Apply(s, WakeOther(t, next))) && (RunsTop(s) ==> RunsTop(Apply(s, WakeOther(t, next))))
  {
    hide TasksOk, Valid, Sorted, OneListEach;
    var r := s.(ready := s.ready + {t});
    forall i | 0 <= i < |s.mutexes|
      ensures WaitersOk(r.tasks, r.ready, r.mutexes[i].waiters) && Covered(r, i)
    {
      assert WaitersOk(s.tasks, s.ready, s.mutexes[i].waiters) && Covered(s, i);
      if s.mutexes[i].holder == Free && s.mutexes[i].waiters.entries != [] {
        var b :| Baton(s, b, i);
        assert Baton(r, b, i);
      }
    }
    Dispatch(r, Apply(s, WakeOther(t, next)));
  }

  lemma BlockOtherKeeps(s: System, next: Task)
    requires Inv(s) && Enabled(s, BlockOther(next))
    ensures Inv(Apply(s, BlockOther(next))) && RunsTop(Apply(s, BlockOther(next)))
  {
    hide TasksOk, Valid, Sorted, OneListEach;
    var r := s.(ready := s.ready - {s.running});
    forall i | 0 <= i < |s.mutexes|
      ensures WaitersOk(r.tasks, r.ready, r.mutexes[i].waiters) && Covered(r, i)
    {
      assert WaitersOk(s.tasks, s.ready, s.mutexes[i].waiters) && Covered(s, i);
      if s.mutexes[i].holder == Free && s.mutexes[i].waiters.entries != [] {
        var b :| Baton(s, b, i);
        assert Baton(r, b, i);
      }
    }
    Dispatch(r, Apply(s, BlockOther(next)));
  }

  /** What every step keeps, whether or not the running task is of the highest priority. */
  lemma StepKeepsExactly(s: System, step: Step)
    requires Inv(s) && Enabled(s, step)
    ensures Inv(Apply(s, step)) <==> !(step.TryTake? && Overtakes(s, step.m))
    ensures HoldersCover(Apply(s, step)) <==> !(step.TryTake? && Overtakes(s, step.m))
  {
    hide HoldersCover;
    match step
    case TryTake(m) => TakeKeepsExactly(s, m);
    case BlockOn(m, next) => BlockOnKeeps(s, m, next); InvHoldersCover(Apply(s, step));
    case Give(m, next) => GiveKeeps(s, m, next); InvHoldersCover(Apply(s, step));
    case TimeOut(t, m, next) => TimeOutKeeps(s, t, m, next); InvHoldersCover(Apply(s, step));
    case AfterTimeOut(m) => AfterTimeOutKeeps(s, m); InvHoldersCover(Apply(s, step));
    case WakeOther(t, next) => WakeOtherKeeps(s, t, next); InvHoldersCover(Apply(s, step));
    case BlockOther(next) => BlockOtherKeeps(s, next); InvHoldersCover(Apply(s, step));
    case Yield(next) =>
      hide TasksOk, ListsOk, OneListEach, AllCovered, RetryOk;
      Dispatch(s, Apply(s, step));
      InvHoldersCover(Apply(s, step));
  }

  /** The running task stays one of the highest ready priority except after a give that misses
      its yield. */
  lemma StepTop(s: System, step: Step)
    requires Inv(s) && RunsTop(s) && Enabled(s, step)
    ensures RunsTop(Apply(s, step)) <==> !(step.Give? && YieldMissed(s, step.m))
  {
    hide TasksOk, ListsOk, OneListEach, AllCovered, RetryOk, Insert, Remove;
    match step
    case Give(m, next) => GiveTop(s, m, next);
    case AfterTimeOut(m) => AfterTimeOutKeeps(s, m);
    case _ =>
  }
}
