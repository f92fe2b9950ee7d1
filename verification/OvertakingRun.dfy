/**
 A run in which a task overtakes a waiter above itself (queue.c, lines 866-897).  Task 0 has
 base priority 1, task 1 too, task 2 has 5, task 3 has 4 and task 4 has 6.  First attempts at
 a mutex that fail change nothing and are left out.
 */
module OvertakingRun {
  import opened Lists
  import opened Mutexes
  import opened MutexRuns

  function Snap(prio0: nat, held0: nat, held4: nat, ready: set<Task>, running: Task, m0: Mutex, m1: Mutex, m2: Mutex,
                retry: map<Task, MutexId>, lent: map<Task, MutexId>): System {
    System([Tcb(prio0, 1, held0), Tcb(1, 1, 0), Tcb(5, 5, 0), Tcb(4, 4, 0), Tcb(6, 6, held4)], ready, running,
           [m0, m1, m2], retry, lent)
  }

  function Holds(t: Task, waiters: seq<Entry<Task>>): Mutex {
    Mutex(Held(t), List(waiters, 0))
  }

  function Unheld(waiters: seq<Entry<Task>>): Mutex {
    Mutex(Free, List(waiters, 0))
  }

  /** Task 0 runs, the others are blocked, and no mutex has been used. */
  function Beginning(): System {
    Snap(1, 0, 0, {0}, 0, Unheld([]), Unheld([]), Unheld([]), map[], map[])
  }

  ghost predicate Reached(s: System) {
    exists steps: seq<Step> :: CanRun(Beginning(), steps) && Run(Beginning(), steps) == s
  }

  lemma Then(s: System, step: Step)
    requires Reached(s) && Enabled(s, step)
    ensures Reached(Apply(s, step))
  {
    hide Enabled, Apply;
    var steps: seq<Step> :| CanRun(Beginning(), steps) && Run(Beginning(), steps) == s;
    RunThen(Beginning(), steps, step);
  }

  lemma BeginningReached()
    ensures Started(Beginning()) && Reached(Beginning())
  {
    assert CanRun(Beginning(), []) && Run(Beginning(), []) == Beginning();
  }

  /** Task 0 takes mutexes 0 and 2. */
  function Point1(): System {
    Snap(1, 1, 0, {0}, 0, Holds(0, []), Unheld([]), Unheld([]), map[], map[])
  }

  lemma Step1()
    requires Reached(Beginning())
    ensures Reached(Point1())
  {
    hide Reached;
    var s := Beginning();
    var r := Apply(s, TryTake(0));
    assert r == Point1();
    Then(s, TryTake(0));
  }

  function Point2(): System {
    Snap(1, 2, 0, {0}, 0, Holds(0, []), Unheld([]), Holds(0, []), map[], map[])
  }

  lemma Step2()
    requires Reached(Point1())
    ensures Reached(Point2())
  {
    hide Reached;
    var s := Point1();
    var r := Apply(s, TryTake(2));
    assert r == Point2();
    Then(s, TryTake(2));
  }

  /** Task 1, of the same priority, waits for mutex 0. */
  function Point3(): System {
    Snap(1, 2, 0, {0, 1}, 1, Holds(0, []), Unheld([]), Holds(0, []), map[], map[])
  }

  lemma Step3()
    requires Reached(Point2())
    ensures Reached(Point3())
  {
    hide Reached;
    var s := Point2();
    var r := Apply(s, WakeOther(1, 1));
    assert r == Point3();
    Then(s, WakeOther(1, 1));
  }

  function Point4(): System {
    Snap(1, 2, 0, {0}, 0, Holds(0, [Entry(1, 31)]), Unheld([]), Holds(0, []), map[], map[])
  }

  lemma Step4()
    requires Reached(Point3())
    ensures Reached(Point4())
  {
    hide Reached;
    var s := Point3();
    var r := Apply(s, BlockOn(0, 0));
    assert Insert(List([], 0), Entry(1, 31)) == List([Entry(1, 31)], 0);
    assert r.ready == {0} && r.retry == map[] && r.lent == map[];
    assert r.mutexes == [Holds(0, [Entry(1, 31)]), Unheld([]), Holds(0, [])];
    assert r == Point4();
    Then(s, BlockOn(0, 0));
  }

  /** Task 4 takes mutex 1 and blocks elsewhere. */
  function Point5(): System {
    Snap(1, 2, 0, {0, 4}, 4, Holds(0, [Entry(1, 31)]), Unheld([]), Holds(0, []), map[], map[])
  }

  lemma Step5()
    requires Reached(Point4())
    ensures Reached(Point5())
  {
    hide Reached;
    var s := Point4();
    var r := Apply(s, WakeOther(4, 4));
    assert r == Point5();
    Then(s, WakeOther(4, 4));
  }

  function Point6(): System {
    Snap(1, 2, 1, {0, 4}, 4, Holds(0, [Entry(1, 31)]), Holds(4, []), Holds(0, []), map[], map[])
  }

  lemma Step6()
    requires Reached(Point5())
    ensures Reached(Point6())
  {
    hide Reached;
    var s := Point5();
    var r := Apply(s, TryTake(1));
    assert r == Point6();
    Then(s, TryTake(1));
  }

  function Point7(): System {
    Snap(1, 2, 1, {0}, 0, Holds(0, [Entry(1, 31)]), Holds(4, []), Holds(0, []), map[], map[])
  }

  lemma Step7()
    requires Reached(Point6())
    ensures Reached(Point7())
  {
    hide Reached;
    var s := Point6();
    var r := Apply(s, BlockOther(0));
    assert r == Point7();
    Then(s, BlockOther(0));
  }

  /** Tasks 3 and 2 wait for mutex 1. */
  function Point8(): System {
    Snap(1, 2, 1, {0, 3}, 3, Holds(0, [Entry(1, 31)]), Holds(4, []), Holds(0, []), map[], map[])
  }

  lemma Step8()
    requires Reached(Point7())
    ensures Reached(Point8())
  {
    hide Reached;
    var s := Point7();
    var r := Apply(s, WakeOther(3, 3));
    assert r == Point8();
    Then(s, WakeOther(3, 3));
  }

  function Point9(): System {
    Snap(1, 2, 1, {0}, 0, Holds(0, [Entry(1, 31)]), Holds(4, [Entry(3, 28)]), Holds(0, []), map[], map[])
  }

  lemma Step9()
    requires Reached(Point8())
    ensures Reached(Point9())
  {
    hide Reached;
    var s := Point8();
    var r := Apply(s, BlockOn(1, 0));
    assert Insert(List([], 0), Entry(3, 28)) == List([Entry(3, 28)], 0);
    assert r.ready == {0} && r.retry == map[] && r.lent == map[];
    assert r.mutexes == [Holds(0, [Entry(1, 31)]), Holds(4, [Entry(3, 28)]), Holds(0, [])];
    assert r == Point9();
    Then(s, BlockOn(1, 0));
  }

  function Point10(): System {
    Snap(1, 2, 1, {0, 2}, 2, Holds(0, [Entry(1, 31)]), Holds(4, [Entry(3, 28)]), Holds(0, []), map[], map[])
  }

  lemma Step10()
    requires Reached(Point9())
    ensures Reached(Point10())
  {
    hide Reached;
    var s := Point9();
    var r := Apply(s, WakeOther(2, 2));
    assert r == Point10();
    Then(s, WakeOther(2, 2));
  }

  function Point11(): System {
    Snap(1, 2, 1, {0}, 0, Holds(0, [Entry(1, 31)]), Holds(4, [Entry(2, 27), Entry(3, 28)]), Holds(0, []), map[], map[])
  }

  lemma Step11()
    requires Reached(Point10())
    ensures Reached(Point11())
  {
    hide Reached;
    var s := Point10();
    var r := Apply(s, BlockOn(1, 0));
    assert Insert(List([Entry(3, 28)], 0), Entry(2, 27)) == List([Entry(2, 27), Entry(3, 28)], 0);
    assert r.ready == {0} && r.retry == map[] && r.lent == map[];
    assert r.mutexes == [Holds(0, [Entry(1, 31)]), Holds(4, [Entry(2, 27), Entry(3, 28)]), Holds(0, [])];
    assert r == Point11();
    Then(s, BlockOn(1, 0));
  }

  /** Task 4 gives mutex 1, which wakes task 2, and waits for mutex 2. */
  function Point12(): System {
    Snap(1, 2, 1, {0, 4}, 4, Holds(0, [Entry(1, 31)]),
          Holds(4, [Entry(2, 27), Entry(3, 28)]), Holds(0, []), map[], map[])
  }

  lemma Step12()
    requires Reached(Point11())
    ensures Reached(Point12())
  {
    hide Reached;
    var s := Point11();
    var r := Apply(s, WakeOther(4, 4));
    assert r == Point12();
    Then(s, WakeOther(4, 4));
  }

  function Point13(): System {
    Snap(1, 2, 0, {0, 2, 4}, 4, Holds(0, [Entry(1, 31)]), Unheld([Entry(3, 28)]), Holds(0, []), map[2 := 1], map[])
  }

  lemma Step13()
    requires Reached(Point12())
    ensures Reached(Point13())
  {
    hide Reached;
    var s := Point12();
    var r := Apply(s, Give(1, 4));
    assert RemoveAt(List([Entry(2, 27), Entry(3, 28)], 0), 0) == List([Entry(3, 28)], 0);
    assert r.ready == {0, 2, 4} && r.retry == map[2 := 1] && r.lent == map[];
    assert r.mutexes == [Holds(0, [Entry(1, 31)]), Unheld([Entry(3, 28)]), Holds(0, [])];
    assert r == Point13();
    Then(s, Give(1, 4));
  }

  function Point14(): System {
    Snap(6, 2, 0, {0, 2}, 0, Holds(0, [Entry(1, 31)]),
          Unheld([Entry(3, 28)]), Holds(0, [Entry(4, 26)]), map[2 := 1], map[4 := 2])
  }

  lemma Step14()
    requires Reached(Point13())
    ensures Reached(Point14())
  {
    hide Reached;
    var s := Point13();
    var r := Apply(s, BlockOn(2, 0));
    assert Insert(List([], 0), Entry(4, 26)) == List([Entry(4, 26)], 0);
    assert r.ready == {0, 2} && r.retry == map[2 := 1] && r.lent == map[4 := 2];
    assert r.mutexes == [Holds(0, [Entry(1, 31)]), Unheld([Entry(3, 28)]), Holds(0, [Entry(4, 26)])];
    assert r == Point14();
    Then(s, BlockOn(2, 0));
  }

  /** Task 0, now at 6, gives mutex 2; task 4 has its turn with it and blocks elsewhere. */
  function Point15(): System {
    Snap(6, 1, 0, {0, 2, 4}, 0, Holds(0, [Entry(1, 31)]),
          Unheld([Entry(3, 28)]), Unheld([]), map[2 := 1, 4 := 2], map[4 := 2])
  }

  lemma Step15()
    requires Reached(Point14())
    ensures Reached(Point15())
  {
    hide Reached;
    var s := Point14();
    var r := Apply(s, Give(2, 0));
    assert RemoveAt(List([Entry(4, 26)], 0), 0) == List([], 0);
    assert r.ready == {0, 2, 4} && r.retry == map[2 := 1, 4 := 2] && r.lent == map[4 := 2];
    assert r.mutexes == [Holds(0, [Entry(1, 31)]), Unheld([Entry(3, 28)]), Unheld([])];
    assert r == Point15();
    Then(s, Give(2, 0));
  }

  function Point16(): System {
    Snap(6, 1, 0, {0, 2, 4}, 4, Holds(0, [Entry(1, 31)]),
          Unheld([Entry(3, 28)]), Unheld([]), map[2 := 1, 4 := 2], map[4 := 2])
  }

  lemma Step16()
    requires Reached(Point15())
    ensures Reached(Point16())
  {
    hide Reached;
    var s := Point15();
    var r := Apply(s, Yield(4));
    assert r == Point16();
    Then(s, Yield(4));
  }

  function Point17(): System {
    Snap(6, 1, 1, {0, 2, 4}, 4, Holds(0, [Entry(1, 31)]), Unheld([Entry(3, 28)]), Holds(4, []), map[2 := 1], map[])
  }

  lemma Step17()
    requires Reached(Point16())
    ensures Reached(Point17())
  {
    hide Reached;
    var s := Point16();
    var r := Apply(s, TryTake(2));
    assert r == Point17();
    Then(s, TryTake(2));
  }

  function Point18(): System {
    Snap(6, 1, 0, {0, 2, 4}, 4, Holds(0, [Entry(1, 31)]), Unheld([Entry(3, 28)]), Unheld([]), map[2 := 1], map[])
  }

  lemma Step18()
    requires Reached(Point17())
    ensures Reached(Point18())
  {
    hide Reached;
    var s := Point17();
    var r := Apply(s, Give(2, 4));
    assert r.ready == {0, 2, 4} && r.retry == map[2 := 1] && r.lent == map[];
    assert r.mutexes == [Holds(0, [Entry(1, 31)]), Unheld([Entry(3, 28)]), Unheld([])];
    assert r == Point18();
    Then(s, Give(2, 4));
  }

  function Point19(): System {
    Snap(6, 1, 0, {0, 2}, 0, Holds(0, [Entry(1, 31)]), Unheld([Entry(3, 28)]), Unheld([]), map[2 := 1], map[])
  }

  lemma Step19()
    requires Reached(Point18())
    ensures Reached(Point19())
  {
    hide Reached;
    var s := Point18();
    var r := Apply(s, BlockOther(0));
    assert r == Point19();
    Then(s, BlockOther(0));
  }

  /** Task 0 gives mutex 0, drops to 1 and wakes task 1, which is not above it; task 2 is passed over. */
  function Point20(): System {
    Snap(1, 0, 0, {0, 1, 2}, 0, Unheld([]), Unheld([Entry(3, 28)]), Unheld([]), map[2 := 1, 1 := 0], map[])
  }

  lemma Step20()
    requires Reached(Point19())
    ensures Reached(Point20())
  {
    hide Reached;
    var s := Point19();
    var r := Apply(s, Give(0, 0));
    assert RemoveAt(List([Entry(1, 31)], 0), 0) == List([], 0);
    assert r.ready == {0, 1, 2} && r.retry == map[2 := 1, 1 := 0] && r.lent == map[];
    assert r.mutexes == [Unheld([]), Unheld([Entry(3, 28)]), Unheld([])];
    assert r == Point20();
    Then(s, Give(0, 0));
  }

  /** Task 0 now takes mutex 1 before task 2 can, and holds it at priority 1 with task 3 waiting
      at 4: inheritance fails in a run from a start. */
  lemma OvertakingBreaksInheritance()
    ensures Started(Beginning()) && Reached(Point20()) && YieldMissed(Point19(), 0)
    ensures Enabled(Point20(), TryTake(1)) && Overtakes(Point20(), 1)
    ensures var r := Apply(Point20(), TryTake(1));
            && |r.tasks| == 5 && |r.mutexes| == 3
            && r.mutexes[1].holder == Held(0) && r.tasks[0].prio == 1
            && Entry(3, 28) in r.mutexes[1].waiters.entries && r.tasks[3].prio == 4
            && Reached(r) && !InheritanceHolds(r)
  {
    hide Reached, Apply, Enabled, Started, Overtakes, YieldMissed, InheritanceHolds;
    TheRun();
    BeginningReached();
    AllowsOvertaking();
    Then(Point20(), TryTake(1));
    InheritanceFails();
  }

  lemma AllowsOvertaking()
    ensures YieldMissed(Point19(), 0) && Enabled(Point20(), TryTake(1)) && Overtakes(Point20(), 1)
  {
    assert 2 in Point19().ready && Point19().tasks[2].prio > 1;
  }

  lemma InheritanceFails()
    requires Enabled(Point20(), TryTake(1))
    ensures var r := Apply(Point20(), TryTake(1));
            && |r.tasks| == 5 && |r.mutexes| == 3
            && r.mutexes[1].holder == Held(0) && r.tasks[0].prio == 1
            && Entry(3, 28) in r.mutexes[1].waiters.entries && r.tasks[3].prio == 4 && !InheritanceHolds(r)
  {
    var r := Apply(Point20(), TryTake(1));
    assert r.mutexes[1].holder == Held(0) && Entry(3, 28) in r.mutexes[1].waiters.entries;
    assert !HoldersCover(r);
  }

  lemma TheRun()
    ensures Reached(Point20())
  {
    hide Reached;
    BeginningReached();
    Step1();
    Step2();
    Step3();
    Step4();
    Step5();
    Step6();
    Step7();
    Step8();
    Step9();
    Step10();
    Step11();
    Step12();
    Step13();
    Step14();
    Step15();
    Step16();
    Step17();
    Step18();
    Step19();
    Step20();
  }
}
