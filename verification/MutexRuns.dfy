/**
 Priority inheritance in every run: it holds exactly as long as nobody takes a free mutex over
 the head of a waiter above itself, and that takes a missed yield.
 */
module MutexRuns {
  import opened Lists
  import K = Kernel
  import opened Mutexes

  // ---- every run ------------------------------------------------------------------------------------

  ghost predicate CanRun(s: System, steps: seq<Step>)
    decreases |steps|
  {
    steps == [] || (Enabled(s, steps[0]) && CanRun(Apply(s, steps[0]), steps[1..]))
  }

  ghost function Run(s: System, steps: seq<Step>): System
    requires CanRun(s, steps)
    decreases |steps|
  {
    if steps == [] then s else Run(Apply(s, steps[0]), steps[1..])
  }

  lemma {:induction false} RunThen(s: System, steps: seq<Step>, step: Step)
    requires CanRun(s, steps) && Enabled(Run(s, steps), step)
    ensures CanRun(s, steps + [step]) && Run(s, steps + [step]) == Apply(Run(s, steps), step)
    decreases |steps|
  {
    hide Enabled, Apply;
    if steps == [] {
      assert [step][1..] == [];
    } else {
      assert (steps + [step])[1..] == steps[1..] + [step];
      RunThen(Apply(s, steps[0]), steps[1..], step);
    }
  }

  ghost predicate NoYieldMissed(s: System, steps: seq<Step>)
    requires CanRun(s, steps)
    decreases |steps|
  {
    steps == [] ||
    ((steps[0].Give? ==> !YieldMissed(s, steps[0].m)) && NoYieldMissed(Apply(s, steps[0]), steps[1..]))
  }

  /** The scheduler has started and no mutex has been used. */
  ghost predicate Started(s: System) {
    && (forall t :: 0 <= t < |s.tasks| ==>
          s.tasks[t].held == 0 && s.tasks[t].prio == s.tasks[t].base < K.PRIORITIES)
    && (forall m :: 0 <= m < |s.mutexes| ==> s.mutexes[m] == Mutex(Free, Empty()))
    && s.retry == map[] && s.lent == map[] && RunsTop(s)
    && (forall t :: t in s.ready ==> t < |s.tasks|)
  }

  lemma {:induction false} NobodyHolds(mutexes: seq<Mutex>, t: Task)
    requires forall m :: 0 <= m < |mutexes| ==> mutexes[m].holder == Free
    ensures HoldsIn(mutexes, t) == 0
  {
    if mutexes != [] {
      NobodyHolds(mutexes[1..], t);
    }
  }

  lemma StartedInv(s: System)
    requires Started(s)
    ensures Inv(s)
  {
    forall t | 0 <= t < |s.tasks|
      ensures TaskOk(s.tasks[t], t, s.mutexes)
    {
      NobodyHolds(s.mutexes, t);
    }
  }

  /** No task takes a free mutex over the head of a waiter above itself. */
  ghost predicate NobodyOvertakes(s: System, steps: seq<Step>)
    requires CanRun(s, steps)
    decreases |steps|
  {
    steps == [] ||
    ((steps[0].TryTake? ==> !Overtakes(s, steps[0].m)) && NobodyOvertakes(Apply(s, steps[0]), steps[1..]))
  }

  /** What priority inheritance promises: holders cover their waiters, effective priority is never
      below base and equals it while nothing is held, and the held count is the number of
      mutexes that name the task as their holder. */
  ghost predicate InheritanceHolds(s: System) {
    && HoldersCover(s)
    && (forall t :: 0 <= t < |s.tasks| ==>
          && s.tasks[t].base <= s.tasks[t].prio
          && (s.tasks[t].held == 0 ==> s.tasks[t].prio == s.tasks[t].base)
          && s.tasks[t].held == HoldsIn(s.mutexes, t))
  }

  ghost predicate Throughout(s: System, steps: seq<Step>)
    requires CanRun(s, steps)
    decreases |steps|
  {
    InheritanceHolds(s) && (steps == [] || Throughout(Apply(s, steps[0]), steps[1..]))
  }

  lemma InvInheritance(s: System)
    requires Inv(s)
    ensures InheritanceHolds(s)
  {
    InvHoldersCover(s);
    hide HoldersCover, ListsOk, OneListEach, RetryOk, AllCovered;
    forall t | 0 <= t < |s.tasks|
      ensures s.tasks[t].base <= s.tasks[t].prio
      ensures s.tasks[t].held == 0 ==> s.tasks[t].prio == s.tasks[t].base
      ensures s.tasks[t].held == HoldsIn(s.mutexes, t)
    {
      assert TaskOk(s.tasks[t], t, s.mutexes);
    }
  }

  lemma {:induction false} RunKeepsExactly(s: System, steps: seq<Step>)
    requires Inv(s) && CanRun(s, steps)
    ensures Throughout(s, steps) <==> NobodyOvertakes(s, steps)
    ensures NobodyOvertakes(s, steps) ==> Inv(Run(s, steps))
    decreases |steps|
  {
    InvInheritance(s);
    hide Inv, Enabled, Apply, HoldersCover, Overtakes;
    if steps != [] {
      StepKeepsExactly(s, steps[0]);
      if Inv(Apply(s, steps[0])) {
        RunKeepsExactly(Apply(s, steps[0]), steps[1..]);
      }
    }
  }

  /** In every run from a start, inheritance holds at every point exactly if nobody overtakes. */
  lemma InheritanceHoldsExactly(s: System, steps: seq<Step>)
    requires Started(s) && CanRun(s, steps)
    ensures Throughout(s, steps) <==> NobodyOvertakes(s, steps)
  {
    StartedInv(s);
    RunKeepsExactly(s, steps);
  }

  lemma {:induction false} NoYieldMissedNoOvertaking(s: System, steps: seq<Step>)
    requires Inv(s) && RunsTop(s) && CanRun(s, steps) && NoYieldMissed(s, steps)
    ensures NobodyOvertakes(s, steps)
    decreases |steps|
  {
    if steps != [] {
      hide RunsTop, Apply, Enabled;
      if steps[0].TryTake? {
        assert steps[0].m < |s.mutexes| && s.running < |s.tasks| by { TakeInRange(s, steps[0]); }
        TopOvertakesNobody(s, steps[0].m);
      }
      StepKeepsExactly(s, steps[0]);
      StepTop(s, steps[0]);
      hide Inv;
      NoYieldMissedNoOvertaking(Apply(s, steps[0]), steps[1..]);
    }
  }

  lemma TakeInRange(s: System, step: Step)
    requires step.TryTake? && Enabled(s, step)
    ensures step.m < |s.mutexes| && s.running < |s.tasks|
  {
  }

  /** So inheritance holds throughout every run in which no give misses its yield. */
  lemma InheritanceHoldsWithoutMissedYields(s: System, steps: seq<Step>)
    requires Started(s) && CanRun(s, steps) && NoYieldMissed(s, steps)
    ensures Throughout(s, steps)
  {
    StartedInv(s);
    NoYieldMissedNoOvertaking(s, steps);
    RunKeepsExactly(s, steps);
  }
}
