/**
 Where raised priorities come from: in every run, overtaking or not, a task's priority is its own
 base or that of a task that has waited for a mutex it held, since it last held none.
 */
module LentPriorities {
  import opened Lists
  import K = Kernel
  import opened Mutexes
  import opened MutexRuns

  // ---- what every step keeps, even if it overtakes -----------------------------------------------

  lemma TakeFiled(s: System, m: MutexId)
    requires Filed(s) && Enabled(s, TryTake(m))
    ensures Filed(TakeBy(s, m))
  {
    hide TasksOk, OneListEach, Sorted, Valid;
    TakeTasks(s, m);
    var r := TakeBy(s, m);
    SameLists(s.mutexes, r.mutexes);
    forall i | 0 <= i < |s.mutexes|
      ensures WaitersOk(r.tasks, r.ready, r.mutexes[i].waiters)
    {
      assert WaitersOk(s.tasks, s.ready, s.mutexes[i].waiters);
    }
  }

  lemma WaitFiled(s: System, m: MutexId, next: Task)
    requires Filed(s) && Enabled(s, BlockOn(m, next))
    ensures Filed(Apply(s, BlockOn(m, next)))
  {
    hide TasksOk, OneListEach, ListsOk, Insert;
    BlockOnTasks(s, m, next);
    BlockOnLists(s, m, next);
    HoldersHold(s, m);
    SameFiled(Wait(s, m), Apply(s, BlockOn(m, next)));
  }

  lemma GiveFiled(s: System, m: MutexId, next: Task)
    requires Filed(s) && Enabled(s, Give(m, next))
    ensures Filed(Apply(s, Give(m, next)))
  {
    hide TasksOk, OneListEach, RemoveAt;
    ReleaseTasks(s, m);
    ReleaseLists(s, m);
    var q := s.mutexes[m].waiters.entries;
    assert WaitersOk(s.tasks, s.ready, s.mutexes[m].waiters);
    assert q == [] || q[0] in q;
    hide ListsOk, Valid, Sorted;
    SameFiled(Release(s, m), Apply(s, Give(m, next)));
  }

  /** Nothing of it depends on who runs and what takes have lent. */
  lemma SameFiled(r: System, u: System)
    requires TasksOk(r.tasks, r.mutexes) && ListsOk(r) && OneListEach(r.mutexes)
    requires u.tasks == r.tasks && u.mutexes == r.mutexes && u.ready == r.ready
    ensures TasksOk(u.tasks, u.mutexes) && ListsOk(u) && OneListEach(u.mutexes)
  {
    hide TasksOk, OneListEach;
    forall i | 0 <= i < |r.mutexes|
      ensures WaitersOk(u.tasks, u.ready, u.mutexes[i].waiters)
    {
      assert WaitersOk(r.tasks, r.ready, r.mutexes[i].waiters);
    }
  }

  lemma TimeOutFiled(s: System, t: Task, m: MutexId, next: Task)
    requires Filed(s) && Enabled(s, TimeOut(t, m, next))
    ensures Filed(Apply(s, TimeOut(t, m, next)))
  {
    hide TasksOk, OneListEach, ListsOk, Remove;
    ExpireLists(s, t, m);
    SameFiled(Expire(s, t, m), Apply(s, TimeOut(t, m, next)));
  }

  lemma UndoFiled(s: System, m: MutexId)
    requires Filed(s) && Enabled(s, AfterTimeOut(m))
    ensures Filed(Apply(s, AfterTimeOut(m)))
  {
    hide OneListEach, Sorted, Valid;
    TasksBelow(s);
    var x, r := s.mutexes[m], Undo(s, m);
    assert WaitersOk(s.tasks, s.ready, x.waiters);
    if x.waiters.entries != [] { HeadCovers(s.tasks, s.ready, x.waiters); }
    if x.holder.Held? { HoldersHold(s, m); }
    forall t | 0 <= t < |s.tasks|
      ensures TaskOk(r.tasks[t], t, r.mutexes)
    {
      assert TaskOk(s.tasks[t], t, s.mutexes);
    }
    forall i | 0 <= i < |s.mutexes|
      ensures WaitersOk(r.tasks, r.ready, r.mutexes[i].waiters)
    {
      assert WaitersOk(s.tasks, s.ready, s.mutexes[i].waiters);
    }
    hide TasksOk, ListsOk;
    SameFiled(r, Apply(s, AfterTimeOut(m)));
  }

  lemma OtherFiled(s: System, step: Step)
    requires Filed(s) && Enabled(s, step) && (step.WakeOther? || step.BlockOther? || step.Yield?)
    ensures Filed(Apply(s, step))
  {
    hide TasksOk, OneListEach, Sorted, Valid;
    var r := Apply(s, step);
    forall i | 0 <= i < |s.mutexes|
      ensures WaitersOk(r.tasks, r.ready, r.mutexes[i].waiters)
    {
      assert WaitersOk(s.tasks, s.ready, s.mutexes[i].waiters);
    }
  }

  lemma StepFiled(s: System, step: Step)
    requires Filed(s) && Enabled(s, step)
    ensures Filed(Apply(s, step))
  {
    hide Filed;
    match step
    case TryTake(m) => TakeFiled(s, m);
    case BlockOn(m, next) => WaitFiled(s, m, next);
    case Give(m, next) => GiveFiled(s, m, next);
    case TimeOut(t, m, next) => TimeOutFiled(s, t, m, next);
    case AfterTimeOut(m) => UndoFiled(s, m);
    case _ => OtherFiled(s, step);
  }

  // ---- where a priority comes from ------------------------------------------------------------------

  /** A task of priority p waits for a mutex that h holds. */
  ghost predicate WaitsFor(s: System, h: Task, p: nat) {
    exists m, e :: 0 <= m < |s.mutexes| && s.mutexes[m].holder == Held(h)
                   && e in s.mutexes[m].waiters.entries && e.owner < |s.tasks| && s.tasks[e.owner].prio == p
  }

  /** h holds some mutex at every point of the run. */
  ghost predicate HoldsOn(s: System, steps: seq<Step>, h: Task)
    requires CanRun(s, steps) && h < |s.tasks|
    decreases |steps|
  {
    s.tasks[h].held > 0 &&
    (steps == [] || (h < |Apply(s, steps[0]).tasks| && HoldsOn(Apply(s, steps[0]), steps[1..], h)))
  }

  /** At some point of the run a task of priority p waits for a mutex of h, which holds one from
      then on. */
  ghost predicate Lent(s: System, steps: seq<Step>, h: Task, p: nat)
    requires CanRun(s, steps) && h < |s.tasks|
    decreases |steps|
  {
    || (WaitsFor(s, h, p) && HoldsOn(s, steps, h))
    || (steps != [] && h < |Apply(s, steps[0]).tasks| && Lent(Apply(s, steps[0]), steps[1..], h, p))
  }

  lemma SameTasks(s: System, step: Step)
    requires Enabled(s, step)
    ensures var r := Apply(s, step);
            |r.tasks| == |s.tasks| && forall t :: 0 <= t < |s.tasks| ==> r.tasks[t].base == s.tasks[t].base
  {
    hide Insert, Remove, RemoveAt, Top;
  }

  lemma BlockOnRaises(s: System, m: MutexId, next: Task, h: Task)
    requires Filed(s) && Enabled(s, BlockOn(m, next)) && h < |s.tasks|
    ensures var r := Apply(s, BlockOn(m, next));
            |r.tasks| == |s.tasks| && (r.tasks[h].prio == s.tasks[h].prio || WaitsFor(r, h, r.tasks[h].prio))
  {
    WaitInserts(s, m, next);
    HoldersHold(s, m);
    hide TasksOk, ListsOk, OneListEach, RetryOk, Insert, Top;
    var r, e := Wait(s, m), Entry(s.running, K.PRIORITIES - s.tasks[s.running].prio);
    assert e in r.mutexes[m].waiters.entries;
  }

  lemma UndoLowers(s: System, m: MutexId, h: Task)
    requires Filed(s) && m < |s.mutexes| && h < |s.tasks|
    ensures var r := Undo(s, m);
            && |r.tasks| == |s.tasks| && r.mutexes == s.mutexes
            && (r.tasks[h].prio == s.tasks[h].prio || r.tasks[h].prio == s.tasks[h].base
                || WaitsFor(r, h, r.tasks[h].prio))
  {
    hide OneListEach, RetryOk, Sorted, Valid;
    var x, r := s.mutexes[m], Undo(s, m);
    assert WaitersOk(s.tasks, s.ready, x.waiters);
    TasksBelow(s);
    if x.waiters.entries != [] && x.holder == Held(h) {
      HeadCovers(s.tasks, s.ready, x.waiters);
      HoldersHold(s, m);
      var e := x.waiters.entries[0];
      assert s.tasks[h].held > 0 && s.tasks[e.owner].held == 0;
      assert r.tasks[e.owner] == s.tasks[e.owner];
      assert e in r.mutexes[m].waiters.entries;
    }
  }

  lemma StepPriority(s: System, step: Step, h: Task)
    requires Filed(s) && Enabled(s, step) && h < |s.tasks|
    ensures var r := Apply(s, step);
            && |r.tasks| == |s.tasks|
            && (r.tasks[h].prio == s.tasks[h].prio || r.tasks[h].prio == s.tasks[h].base
                || WaitsFor(r, h, r.tasks[h].prio))
  {
    match step
    case BlockOn(m, next) => BlockOnRaises(s, m, next, h);
    case AfterTimeOut(m) =>
      hide Undo, WaitsFor, Filed;
      UndoLowers(s, m, h);
      SameWaits(Undo(s, m), Apply(s, step), h);
    case _ => hide WaitsFor, Filed, Top, RemoveAt, Remove;
  }

  lemma SameWaits(s: System, r: System, h: Task)
    requires r.tasks == s.tasks && r.mutexes == s.mutexes
    ensures forall p :: WaitsFor(s, h, p) ==> WaitsFor(r, h, p)
  {
  }

  /** From a sound state on: the priority at the end is the base, or was lent in the run, or stands
      since the start. */
  lemma {:induction false} RunPriority(s: System, steps: seq<Step>, h: Task)
    requires Filed(s) && CanRun(s, steps) && h < |s.tasks|
    ensures var r := Run(s, steps);
            && |r.tasks| == |s.tasks| && r.tasks[h].base == s.tasks[h].base
            && (|| r.tasks[h].prio == s.tasks[h].base
                || Lent(s, steps, h, r.tasks[h].prio)
                || (r.tasks[h].prio == s.tasks[h].prio && HoldsOn(s, steps, h)))
    decreases |steps|
  {
    assert TaskOk(s.tasks[h], h, s.mutexes);
    hide Filed, Enabled, Apply, WaitsFor;
    if steps != [] {
      StepFiled(s, steps[0]);
      StepPriority(s, steps[0], h);
      SameTasks(s, steps[0]);
      RunPriority(Apply(s, steps[0]), steps[1..], h);
    }
  }

  /** In every run from a start, a task's priority is its base or that of a task that has waited
      for a mutex it held, since it last held none. */
  lemma PrioritiesAreLent(s: System, steps: seq<Step>, h: Task)
    requires Started(s) && CanRun(s, steps) && h < |s.tasks|
    ensures var r := Run(s, steps);
            && h < |r.tasks| && r.tasks[h].base == s.tasks[h].base
            && (r.tasks[h].prio == r.tasks[h].base || Lent(s, steps, h, r.tasks[h].prio))
  {
    StartedInv(s);
    InvFiled(s);
    hide Inv, Filed, Run, CanRun, Lent, HoldsOn;
    RunPriority(s, steps, h);
  }

  // ---- the end of a wait -------------------------------------------------------------------------------

  lemma GiveReadies(s: System, m: MutexId, i: MutexId, t: Task)
    requires m < |s.mutexes| && s.running < |s.tasks| && s.tasks[s.running].held > 0 && i < |s.mutexes|
    requires Has(s.mutexes[i].waiters.entries, t)
    ensures Has(Release(s, m).mutexes[i].waiters.entries, t) || (t in Release(s, m).ready && i == m)
  {
    var q := s.mutexes[m].waiters.entries;
    if q != [] && i == m {
      var e :| e in q && e.owner == t;
      var k :| 0 <= k < |q| && q[k] == e;
      assert RemoveAt(s.mutexes[m].waiters, 0).entries == q[1..];
      assert k > 0 ==> q[1..][k - 1] == e;
    }
  }

  /** Who stops waiting for a mutex is ready: a wait ends by a give or by its time, never otherwise. */
  lemma LeaversAreReady(s: System, step: Step, i: MutexId, t: Task)
    requires Filed(s) && Enabled(s, step) && i < |s.mutexes| && Has(s.mutexes[i].waiters.entries, t)
    ensures var r := Apply(s, step);
            && |r.mutexes| == |s.mutexes|
            && (Has(r.mutexes[i].waiters.entries, t) || (t in r.ready && (step.Give? || step.TimeOut?) && step.m == i))
  {
    hide TasksOk, OneListEach, RetryOk, Top, Has, Remove, RemoveAt, Insert;
    match step
    case Give(m, _) =>
      GiveReadies(s, m, i, t);
    case BlockOn(m, next) => if i == m { InsertKeepsHas(s, m, next, t); }
    case TimeOut(x, m, _) => if i == m { ExpireKeepsHas(s, x, m, t); }
    case _ =>
  }

  lemma InsertKeepsHas(s: System, m: MutexId, next: Task, t: Task)
    requires Filed(s) && Enabled(s, BlockOn(m, next)) && Has(s.mutexes[m].waiters.entries, t)
    ensures Has(Wait(s, m).mutexes[m].waiters.entries, t)
  {
    hide Filed, Insert, Top;
    WaitInserts(s, m, next);
  }

  lemma ExpireKeepsHas(s: System, x: Task, m: MutexId, t: Task)
    requires Filed(s) && m < |s.mutexes| && Has(s.mutexes[m].waiters.entries, t)
    ensures Has(Expire(s, x, m).mutexes[m].waiters.entries, t) || t == x
  {
    hide TasksOk, OneListEach, RetryOk, Remove, Valid;
    assert WaitersOk(s.tasks, s.ready, s.mutexes[m].waiters);
    RemoveEntries(s.mutexes[m].waiters, x);
  }

  // ---- when an inheritance is in force ---------------------------------------------------------------

  /** A task that comes to wait has an inheritance to undo, should its wait time out, exactly if it is
      above the base of the holder. */
  lemma LendsExactly(s: System, m: MutexId, next: Task)
    requires Filed(s) && Enabled(s, BlockOn(m, next))
    ensures s.running in Apply(s, BlockOn(m, next)).lent <==>
            s.tasks[s.mutexes[m].holder.task].base < s.tasks[s.running].prio
  {
    TasksBelow(s);
    hide Filed, Insert, Top;
  }

  /** The scheduler's part of undoing one gives the holder the priority it has here. */
  lemma SameAsScheduler(k: K.State, t: Task, base: K.Priority, held: nat, highest: K.Priority)
    requires t in k.prio
    ensures K.PrioOf(K.DisinheritAfterTimeout(k, t, base, held, highest), t) ==
            DisinheritAfterTimeout(Tcb(K.PrioOf(k, t), base, held), highest).prio
  {
    hide K.UnlinkAndReset;
    SamePrio(k, t, if base < highest then highest else base);
  }

  lemma SamePrio(k: K.State, t: Task, bit: nat)
    ensures K.UnlinkAndReset(k, t, bit).prio == k.prio
  {
  }
}
