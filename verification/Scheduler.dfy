/**
 The scheduler as tasks.c has it: file-scope variables changed in place, with the
 loops of the source.  Each method is tied to the operation of module `Kernel` that
 the theorems are about.
 */
module Scheduler {
  import opened Sequences
  import opened Ticks
  import opened Lists
  import K = Kernel
  import KernelInvariants
  import P = KernelPreemption
  import KernelRuns
  import KernelSelection

  class Kernel {
    var tick: Tick
    var overflows: nat
    var nextUnblock: Tick
    var lists: K.StateLists
    var home: map<K.Task, K.ListId>
    var prio: map<K.Task, K.Priority>
    var top: set<nat>
    var waiting: set<K.Task>
    var pending: seq<K.Task>
    var locks: nat
    var pended: nat
    var count: int
    var reap: nat
    var running: K.Task
    var yieldPending: bool       // xYieldPending
    var schedulerRunning: bool   // xSchedulerRunning

    ghost function State(): K.State
      reads this
    {
      K.State(tick, overflows, nextUnblock, lists, home, prio, top, waiting, pending,
              locks, pended, count, reap, running)
    }

    function PriorityOf(t: K.Task): (p: K.Priority)
      reads this
      ensures p == K.PrioOf(State(), t)
    {
      if t in prio then prio[t] else 0
    }

    /** The lists as `prvInitialiseTaskLists` leaves them, the scheduler just started. */
    constructor ()
      ensures KernelInvariants.Inv(State()) && K.Now(State()) == 0
      ensures home == map[] && count == 0
    {
      tick, overflows, nextUnblock := 0, 0, MAX_DELAY;
      lists := seq(36, _ => Empty());
      home, prio, top, waiting, pending := map[], map[], {}, {}, [];
      locks, pended, count, reap, running, yieldPending := 0, 0, 0, 0, 0, false;
      schedulerRunning := false;
    }

    method ResetNextTaskUnblockTime()
      modifies this`nextUnblock
      ensures State() == K.ResetUnblock(old(State()))
    {
      var d := lists[K.DELAYED].entries;
      if d == [] || d[0].value >= WRAP {
        nextUnblock := MAX_DELAY;
      } else {
        nextUnblock := d[0].value;
      }
    }

    method AddTaskToReadyList(t: K.Task)
      modifies this`lists, this`home, this`top
      ensures State() == K.AddReady(old(State()), t)
    {
      var p := PriorityOf(t);
      top := top + {p};
      lists, home := lists[p := InsertEnd(lists[p], Entry(t, 0))], home[t := p];
    }

    method ListRemove(t: K.Task)
      modifies this`lists, this`home
      ensures State() == K.Unlink(old(State()), t)
    {
      if t in home {
        lists, home := lists[home[t] := Remove(lists[home[t]], t)], home - {t};
      }
    }

    method SwitchDelayedLists()
      modifies this`lists, this`home, this`overflows, this`nextUnblock
      ensures State() == K.SwitchDelayed(old(State()))
    {
      lists := lists[K.DELAYED := lists[K.OVERFLOWED]][K.OVERFLOWED := lists[K.DELAYED]];
      home := K.SwapHomes(home);
      overflows := overflows + 1;
      ResetNextTaskUnblockTime();
    }

    /** Take the head of the delayed list, and its event item, to the ready list. */
    method WakeHead()
      requires lists[K.DELAYED].entries != []
      modifies this`lists, this`home, this`top, this`waiting
      ensures State() == K.WakeHead(old(State()))
    {
      hide InsertEnd, K.AddReady;
      var t := lists[K.DELAYED].entries[0].owner;
      lists := lists[K.DELAYED := RemoveAt(lists[K.DELAYED], 0)];
      home, waiting := home - {t}, waiting - {t};
      AddTaskToReadyList(t);
    }

    /** The loop of `xTaskIncrementTick`: until the list is empty or its head is not due. */
    method WakeExpiredTasks() returns (asks: bool)
      modifies this`lists, this`home, this`top, this`waiting, this`nextUnblock
      ensures State() == K.WakeExpired(old(State())) && asks == P.WakesAsk(old(State()))
    {
      asks := false;
      while lists[K.DELAYED].entries != [] && lists[K.DELAYED].entries[0].value <= tick
        invariant K.WakeExpired(State()) == K.WakeExpired(old(State()))
        invariant (asks || P.WakesAsk(State())) == P.WakesAsk(old(State()))
        decreases |lists[K.DELAYED].entries|
      {
        var t := lists[K.DELAYED].entries[0].owner;
        asks := asks || PriorityOf(t) >= PriorityOf(running);
        WakeHead();
      }
      ResetNextTaskUnblockTime();
    }

    /** `xTaskIncrementTick`: the tick, the wrap, and the scan of the delayed list; returns
        whether a context switch is required. */
    method IncrementTick() returns (switchRequired: bool)
      modifies this
      ensures State() == K.Apply(old(State()), K.Tick) && yieldPending == old(yieldPending)
      ensures switchRequired == (old(locks) == 0 && (P.TickAsks(old(State())) || yieldPending))
    {
      hide K.WakeExpired, P.WakesAsk;
      switchRequired := false;
      if locks > 0 {
        pended := pended + 1;
        return;
      }
      tick := Add(tick, 1);
      if tick == 0 {
        SwitchDelayedLists();
      }
      ghost var v := State();
      if tick >= nextUnblock {
        WakeExpiredFrame(v);
        switchRequired := WakeExpiredTasks();
      }
      var p := PriorityOf(running);
      if |lists[p].entries| > 1 {
        switchRequired := true;
      }
      if yieldPending {
        switchRequired := true;
      }
    }

    /** `uxListRemove` of the running task, clearing its ready bit if that emptied the list. */
    method LeaveReadyList()
      modifies this`lists, this`home, this`top
      ensures State() == K.UnlinkAndReset(old(State()), running, K.PrioOf(old(State()), running))
    {
      hide Remove;
      var t := running;
      if t in home {
        var from := home[t];
        ListRemove(t);
        if lists[from].entries == [] {
          top := top - {PriorityOf(t)};
        }
      }
    }

    /** `prvAddCurrentTaskToDelayedList`. */
    method AddCurrentTaskToDelayedList(ticksToWait: Tick, canBlockIndefinitely: bool)
      modifies this
      ensures State() == K.Block(old(State()), ticksToWait, canBlockIndefinitely, false)
    {
      hide K.UnlinkAndReset, Insert, InsertEnd;
      var t := running;
      LeaveReadyList();
      if ticksToWait == MAX_DELAY && canBlockIndefinitely {
        lists := lists[K.SUSPENDED := InsertEnd(lists[K.SUSPENDED], Entry(t, 0))];
        home := home[t := K.SUSPENDED];
      } else {
        var wake := Add(tick, ticksToWait);
        if wake < tick {
          lists := lists[K.OVERFLOWED := Insert(lists[K.OVERFLOWED], Entry(t, wake))];
          home := home[t := K.OVERFLOWED];
        } else {
          lists := lists[K.DELAYED := Insert(lists[K.DELAYED], Entry(t, wake))];
          home := home[t := K.DELAYED];
          if wake < nextUnblock {
            nextUnblock := wake;
          }
        }
      }
    }

    /** `xTaskRemoveFromEventList`, for the task at the head of the event list; returns whether
        that task is above the running one. */
    method RemoveFromEventList(t: K.Task) returns (higher: bool)
      modifies this
      ensures State() == K.Unblock(old(State()), t)
      ensures higher == (K.PrioOf(State(), t) > K.PrioOf(State(), running))
      ensures yieldPending == (old(yieldPending) || higher)
    {
      waiting := waiting - {t};
      if locks == 0 {
        ListRemove(t);
        AddTaskToReadyList(t);
      } else {
        pending := pending + [t];
      }
      higher := PriorityOf(t) > PriorityOf(running);
      if higher {
        yieldPending := true;
      }
    }

    /** `vTaskRemoveFromUnorderedEventList`: the woken task does not wait for the scheduler to be
        resumed; a switch to one above the running task does. */
    method RemoveFromUnorderedEventList(t: K.Task)
      modifies this
      ensures State() == K.UnblockDirectly(old(State()), t)
      ensures yieldPending == (old(yieldPending) || K.PrioOf(State(), t) > K.PrioOf(State(), running))
    {
      waiting := waiting - {t};
      ListRemove(t);
      AddTaskToReadyList(t);
      if PriorityOf(t) > PriorityOf(running) {
        yieldPending := true;
      }
    }

    /** The wake-up in `xTaskGenericNotify`; the task's event item is on no list. */
    method ReadyNotified(t: K.Task) returns (higher: bool)
      requires t !in waiting
      modifies this`lists, this`home, this`top
      ensures State() == K.UnblockDirectly(old(State()), t)
      ensures higher == (K.PrioOf(State(), t) > K.PrioOf(State(), running))
    {
      ListRemove(t);
      AddTaskToReadyList(t);
      higher := PriorityOf(t) > PriorityOf(running);
    }

    /** One turn of the first loop of `xTaskResumeAll`. */
    method ReadyPendingHead()
      requires pending != []
      modifies this`lists, this`home, this`top, this`pending, this`yieldPending
      ensures var s := old(State()); State() == K.MakeReady(s.(pending := s.pending[1..]), s.pending[0])
      ensures yieldPending == (old(yieldPending) || P.AtLeastRunning(old(State()), old(pending)[0]))
    {
      hide Remove, InsertEnd;
      var t := pending[0];
      if PriorityOf(t) >= PriorityOf(running) {
        yieldPending := true;
      }
      pending := pending[1..];
      ListRemove(t);
      AddTaskToReadyList(t);
    }

    /** The first loop of `xTaskResumeAll`. */
    method DrainPendingList()
      modifies this`lists, this`home, this`top, this`pending, this`yieldPending
      ensures State() == K.DrainPending(old(State()))
      ensures yieldPending == (old(yieldPending) || P.DrainAsks(old(State())))
    {
      hide K.MakeReady, P.AtLeastRunning;
      while pending != []
        invariant K.DrainPending(State()) == K.DrainPending(old(State()))
        invariant (yieldPending || P.DrainAsks(State())) == (old(yieldPending) || P.DrainAsks(old(State())))
        decreases |pending|
      {
        MakeReadyPending(State());
        ReadyPendingHead();
      }
    }

    /** The second loop of `xTaskResumeAll`. */
    method TakePendedTicks()
      requires locks == 0
      modifies this
      ensures State() == K.TickTimes(old(State()), old(pended)).(pended := 0)
      ensures yieldPending == (old(yieldPending) || P.TicksAsk(old(State()), old(pended)))
    {
      hide K.TickAwake, P.TickAsks;
      var left := pended;
      while left > 0
        invariant left >= 0 && locks == 0
        invariant K.TickTimes(State(), left) == K.TickTimes(old(State()), old(pended))
        invariant (yieldPending || P.TicksAsk(State(), left)) ==
                  (old(yieldPending) || P.TicksAsk(old(State()), old(pended)))
      {
        TickAwakeFrame(State());
        var asks := IncrementTick();
        if asks {
          yieldPending := true;
        }
        left := left - 1;
      }
      pended := 0;
    }

    /** `xTaskResumeAll`: empty the pending list, then take the pended ticks; returns whether that
        called for a yield. */
    method ResumeAll() returns (alreadyYielded: bool)
      requires locks > 0
      modifies this
      ensures State() == K.ResumeAll(old(State()))
      ensures alreadyYielded == (locks == 0 && count > 0 && (old(yieldPending) || P.ResumeAsks(old(State()))))
    {
      hide K.DrainPending, K.TickTimes, P.DrainAsks, P.TicksAsk;
      alreadyYielded := false;
      locks := locks - 1;
      if locks > 0 || count <= 0 {
        return;
      }
      var moved := pending != [];
      DrainFrame(State());
      DrainPendingList();
      if moved {
        ResetNextTaskUnblockTime();
      }
      TicksFrame(State(), pended);
      TakePendedTicks();
      alreadyYielded := yieldPending;
    }

    /** `vTaskPlaceOnEventList`: the event item, then the state item. */
    method PlaceOnEventList(ticksToWait: Tick)
      modifies this
      ensures State() == K.Block(old(State()), ticksToWait, true, true)
    {
      hide K.UnlinkAndReset, Insert, InsertEnd;
      waiting := waiting + {running};
      AddCurrentTaskToDelayedList(ticksToWait, true);
    }

    /** `prvAddNewTaskToReadyList`: before the scheduler runs, the new task may become the current
        one; afterwards the result says whether to yield to it. */
    method AddNewTaskToReadyList(t: K.Task, p: K.Priority) returns (mustYield: bool)
      modifies this
      ensures State() == if schedulerRunning then K.Create(old(State()), t, p) else P.CreateEarly(old(State()), t, p)
      ensures schedulerRunning == old(schedulerRunning)
      ensures mustYield == (schedulerRunning && K.PrioOf(State(), running) < p)
    {
      hide InsertEnd;
      count := count + 1;
      if !schedulerRunning {
        if count == 1 || PriorityOf(running) <= p {
          running := t;
        }
      }
      prio := prio[t := p];
      AddTaskToReadyList(t);
      mustYield := schedulerRunning && PriorityOf(running) < p;
    }

    /** What `vTaskDelete` and `vTaskSuspend` begin with: off the state list, off the event
        list, and the ready bit cleared only if the ready list is empty. */
    method Detach(t: K.Task)
      modifies this
      ensures State() == K.Detach(old(State()), t)
    {
      hide Remove;
      if t in home {
        var from := home[t];
        var p := PriorityOf(t);
        ListRemove(t);
        if lists[from].entries == [] && lists[p].entries == [] {
          top := top - {p};
        }
      }
      waiting, pending := waiting - {t}, Without(pending, t);
    }

    /** `vTaskDelete`: a task that deletes itself is left for the idle task to free. */
    method DeleteTask(t: K.Task)
      modifies this
      ensures State() == K.Delete(old(State()), t)
    {
      hide K.Detach, InsertEnd;
      DetachFrame(State(), t);
      Detach(t);
      if t == running {
        lists := lists[K.TERMINATING := InsertEnd(lists[K.TERMINATING], Entry(t, 0))];
        home, reap := home[t := K.TERMINATING], reap + 1;
      } else {
        count, prio := count - 1, prio - {t};
        ResetNextTaskUnblockTime();
      }
    }

    /** `prvCheckTasksWaitingTermination`: free tasks while any waits to be freed. */
    method CheckTasksWaitingTermination()
      requires KernelInvariants.Inv(State())
      modifies this
      ensures State() == K.ReapAll(old(State())) && KernelInvariants.Inv(State())
      ensures reap == 0 && lists[K.TERMINATING].entries == []
    {
      hide Remove, KernelInvariants.Core;
      KernelRuns.ReapAllKeeps(State());
      while reap > 0
        invariant KernelInvariants.Inv(State()) && K.ReapAll(State()) == K.ReapAll(old(State()))
      {
        KernelRuns.ReapKeeps(State());
        var t := lists[K.TERMINATING].entries[0].owner;
        ListRemove(t);
        count, reap, prio := count - 1, reap - 1, prio - {t};
      }
    }

    /** `vTaskSuspend`. */
    method SuspendTask(t: K.Task)
      modifies this
      ensures State() == K.SuspendTask(old(State()), t)
    {
      hide K.Detach, InsertEnd;
      Detach(t);
      lists := lists[K.SUSPENDED := InsertEnd(lists[K.SUSPENDED], Entry(t, 0))];
      home := home[t := K.SUSPENDED];
      ResetNextTaskUnblockTime();
    }

    /** `vTaskResume`. */
    method ResumeTask(t: K.Task)
      modifies this
      ensures State() == K.ResumeTask(old(State()), t)
    {
      hide Remove, InsertEnd;
      if t != running && t in home && home[t] == K.SUSPENDED && t !in pending && t !in waiting {
        ListRemove(t);
        AddTaskToReadyList(t);
      }
    }

    /** `vTaskPriorityDisinheritAfterTimeout`.  The new priority is stored before the ready bit
        is cleared. */
    method PriorityDisinheritAfterTimeout(t: K.Task, base: K.Priority, held: nat, highestWaiting: K.Priority)
      modifies this
      ensures State() == K.DisinheritAfterTimeout(old(State()), t, base, held, highestWaiting)
    {
      hide Remove, InsertEnd;
      var use := if base < highestWaiting then highestWaiting else base;
      var onEntry := PriorityOf(t);
      if onEntry != use && held == 1 {
        prio := prio[t := use];
        if t in home && home[t] == onEntry {
          ListRemove(t);
          if lists[onEntry].entries == [] {
            top := top - {prio[t]};
          }
          AddTaskToReadyList(t);
        }
      }
    }

    /** `vTaskSwitchContext` with the port-optimised selection.  While the scheduler is suspended
        the switch is only remembered. */
    method SwitchContext()
      modifies this`lists, this`running, this`yieldPending
      ensures State() == K.SwitchContext(old(State())) && yieldPending == (locks > 0)
    {
      hide K.HighestBit, Next;
      yieldPending := locks > 0;
      var p := K.HighestBit(top, K.PRIORITIES);
      if locks == 0 && p < K.PRIORITIES && lists[p].entries != [] {
        NextEntries(lists[p]);
        NextInRange(lists[p]);
        lists := lists[p := Next(lists[p])];
        running := lists[p].entries[lists[p].index - 1].owner;
      }
    }

    /** The generic task selection: scan down to a non-empty ready list. */
    method SelectByScan() returns (p: K.Priority)
      ensures p == K.ScanDown(lists, 31)
    {
      p := 31;
      while lists[p].entries == [] && p > 0
        invariant K.ScanDown(lists, p) == K.ScanDown(lists, 31)
      {
        p := p - 1;
      }
    }

    /** `prvListTasksWithinSingleList`: the loop ends when the traversal is back at the task
        it started from, one full round later. */
    method ListTasks(i: K.ListId) returns (report: seq<K.Task>)
      requires Valid(lists[i])
      modifies this`lists
      ensures report == KernelSelection.Listing(old(lists[i]))
      ensures lists == old(lists)[i := if old(lists[i]).entries == [] then old(lists[i]) else Next(old(lists[i]))]
    {
      hide Visits;
      report := [];
      if lists[i].entries == [] {
        assert lists == lists[i := lists[i]];
        return;
      }
      ghost var n := |lists[i].entries|;
      var l := Next(lists[i]);
      ghost var start := l;
      var first := l.entries[l.index - 1].owner;
      l := Next(l);
      var next := l.entries[l.index - 1].owner;
      report := [next];
      VisitsNil(start);
      VisitsSnoc(start, 0);
      while next != first
        invariant lists == old(lists)
        invariant 1 <= |report| <= n && report == Visits(start, |report|)
        invariant l == After(start, |report|) && l.entries == start.entries
        invariant 1 <= l.index <= n && next == l.entries[l.index - 1].owner
        invariant l.index == if start.index + |report| <= n then start.index + |report|
                             else start.index + |report| - n
        decreases n - |report|
      {
        VisitsSnoc(start, |report|);
        l := Next(l);
        next := l.entries[l.index - 1].owner;
        report := report + [next];
      }
      assert l == start && |report| == n;
      lists := lists[i := l];
    }

    /** What `uxTaskGetSystemState` does between suspending and resuming the scheduler: list
        after list, all of them if the caller's array has room for `count` lines. */
    method GetSystemState(arraySize: nat) returns (report: seq<K.Task>)
      requires KernelInvariants.Inv(State())
      modifies this`lists
      ensures forall i: K.ListId :: old(lists)[i].index <= |old(lists)[i].entries|
      ensures report == if arraySize >= count then KernelSelection.Report(old(lists), K.LISTS) else []
      ensures arraySize >= count ==>
                |report| == count && Distinct(report) && forall t :: t in report <==> t in home
      ensures forall i: K.ListId :: lists[i].entries == old(lists)[i].entries
    {
      hide KernelSelection.Listing, Next, Distinct;
      report := [];
      KernelSelection.ReportIsEveryTaskOnce(State());
      if arraySize >= count {
        var k := 0;
        while k < K.LISTS
          invariant k <= K.LISTS
          invariant report == KernelSelection.Report(old(lists), k)
          invariant forall j :: k <= j < K.LISTS ==>
                      lists[KernelSelection.Order(j)] == old(lists)[KernelSelection.Order(j)]
          invariant forall i: K.ListId :: lists[i].entries == old(lists)[i].entries
        {
          var i := KernelSelection.Order(k);
          NextEntries(lists[i]);
          var more := ListTasks(i);
          report := report + more;
          k := k + 1;
        }
      }
    }
  }

  lemma NextInRange<T>(l: List<T>)
    ensures l.entries != [] ==> 1 <= Next(l).index <= |l.entries|
  {
  }

  lemma DetachFrame(s: K.State, t: K.Task)
    ensures var r := K.Detach(s, t); r.running == s.running && r.count == s.count && r.prio == s.prio && r.reap == s.reap
  {
    hide Remove;
  }

  lemma NextEntries<T>(l: List<T>)
    ensures l.entries != [] ==> Next(l).entries == l.entries
  {
  }

  lemma VisitsNil<T>(l: List<T>)
    requires l.entries != [] && l.index <= |l.entries|
    ensures Visits(l, 0) == [] && After(l, 0) == l
  {
  }

  lemma {:induction false} WakeExpiredFrame(s: K.State)
    ensures KernelInvariants.OnlyWakes(s, K.WakeExpired(s))
    decreases |s.lists[K.DELAYED].entries|
  {
    var d := s.lists[K.DELAYED].entries;
    if !(d == [] || s.tick < d[0].value) {
      WakeExpiredFrame(K.WakeHead(s));
    }
  }

  lemma TickAwakeFrame(s: K.State)
    ensures K.TickAwake(s).locks == s.locks && K.TickAwake(s).count == s.count
  {
    hide K.WakeExpired;
    WakeExpiredFrame(KernelInvariants.Ticked(s));
  }

  lemma MakeReadyPending(s: K.State)
    requires s.pending != []
    ensures K.MakeReady(s.(pending := s.pending[1..]), s.pending[0]).pending == s.pending[1..]
  {
  }

  lemma {:induction false} TicksFrame(s: K.State, n: nat)
    ensures K.TickTimes(s, n).locks == s.locks && K.TickTimes(s, n).count == s.count
    decreases n
  {
    hide K.TickAwake;
    if n > 0 {
      TickAwakeFrame(s);
      TicksFrame(K.TickAwake(s), n - 1);
    }
  }

  lemma {:induction false} DrainFrame(s: K.State)
    ensures var r := K.DrainPending(s);
            r == s.(lists := r.lists, home := r.home, top := r.top, pending := [])
    decreases |s.pending|
  {
    if s.pending != [] {
      DrainFrame(K.MakeReady(s.(pending := s.pending[1..]), s.pending[0]));
    }
  }

  /** A list after n traversal steps. */
  function After<T>(l: List<T>, n: nat): List<T>
    requires l.entries != []
    decreases n
  {
    if n == 0 then l else After(Next(l), n - 1)
  }

  lemma {:induction false} VisitsSnoc<T>(l: List<T>, n: nat)
    requires l.entries != [] && l.index <= |l.entries|
    ensures After(l, n).entries == l.entries && After(l, n).index <= |l.entries|
    ensures After(l, n + 1) == Next(After(l, n))
    ensures Visits(l, n + 1) == Visits(l, n) + [After(l, n + 1).entries[After(l, n + 1).index - 1].owner]
    decreases n
  {
    if n > 0 {
      VisitsSnoc(Next(l), n - 1);
    }
  }
}
