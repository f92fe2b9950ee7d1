/**
 Suspending the scheduler (tasks.c): suspensions nest, nothing held back goes before the last
 resume, and then it goes in the order in which it came.
 */
module Suspension {
  import opened Sequences
  import opened Lists
  import opened Kernel
  import opened KernelInvariants
  import opened KernelRuns
  import opened KernelTheorems
  import opened TaskStates

  function Suspends(steps: seq<Step>): nat {
    if steps == [] then 0 else (if steps[0].SuspendAllStep? then 1 else 0) + Suspends(steps[1..])
  }

  function Resumes(steps: seq<Step>): nat {
    if steps == [] then 0 else (if steps[0].ResumeAllStep? then 1 else 0) + Resumes(steps[1..])
  }

  function Change(step: Step): int {
    if step.SuspendAllStep? then 1 else if step.ResumeAllStep? then -1 else 0
  }

  /** The nesting, counted from the steps alone, stays positive throughout. */
  predicate Deep(depth: int, steps: seq<Step>)
    decreases |steps|
  {
    depth > 0 && (steps == [] || Deep(depth + Change(steps[0]), steps[1..]))
  }

  lemma DepthMoves(a: Table, step: Step, b: Table)
    requires Follows(a, step, b) && (step.ResumeAllStep? ==> a.depth > 0)
    ensures b.depth == a.depth + Change(step)
  {
    hide Picks;
  }

  lemma LocksMove(s: State, step: Step)
    requires Inv(s) && Enabled(s, step)
    ensures Apply(s, step).locks == s.locks + Change(step)
  {
    hide Inv, Follows, Change, Apply, Modes;
    StepFollows(s, step);
    DepthMoves(TableOf(s), step, TableOf(Apply(s, step)));
  }

  /** In every run the scheduler is suspended as often as it was at the start, plus the
      suspensions, less the resumes. */
  lemma {:induction false} NestingCounts(s: State, steps: seq<Step>)
    requires Inv(s) && CanRun(s, steps)
    ensures Run(s, steps).locks == s.locks + Suspends(steps) - Resumes(steps)
    decreases |steps|
  {
    hide Inv, Enabled, Apply;
    if steps != [] {
      StepKeeps(s, steps[0]);
      LocksMove(s, steps[0]);
      NestingCounts(Apply(s, steps[0]), steps[1..]);
    }
  }

  // ---- while it is suspended ------------------------------------------------------------------------

  /** A step that takes t itself off the pending list, or makes it ready all the same. */
  predicate Frees(step: Step, t: Task) {
    match step
    case DeleteStep(u) => u == t
    case SuspendStep(u) => u == t
    case DirectWake(u) => u == t
    case ResumeStep(u) => u == t
    case _ => false
  }

  /** What holds t back still does: it is in the state it was in, if that was not ready, and on
      the pending list if it was there. */
  ghost predicate StillHeld(a: Table, b: Table, t: Task) {
    && (IsMode(a, t, Asleep) ==> IsMode(b, t, Asleep)) && (IsMode(a, t, Suspended) ==> IsMode(b, t, Suspended))
    && (t in a.held ==> t in b.held)
  }

  lemma DeepStep(a: Table, step: Step, b: Table)
    requires Follows(a, step, b) && Sensible(a, step) && a.depth > 0 && b.depth > 0
    ensures b.running == a.running
    ensures forall t :: !Frees(step, t) ==> StillHeld(a, b, t)
  {
    hide Picks;
  }

  lemma DeepOrder(a: Table, step: Step, b: Table, t: Task, u: Task)
    requires Follows(a, step, b) && a.depth > 0 && b.depth > 0 && Ahead(a.held, t, u)
    requires !Frees(step, t) && !Frees(step, u)
    ensures Ahead(b.held, t, u)
  {
    hide Picks, Ahead;
    match step
    case DeleteStep(x) => WithoutAhead(a.held, x, t, u);
    case SuspendStep(x) => WithoutAhead(a.held, x, t, u);
    case EventWake(x) => AppendAhead(a.held, x, t, u);
    case Notify(x) => AppendAhead(a.held, x, t, u);
    case _ =>
  }

  lemma ClockStops(s: State, step: Step)
    requires Inv(s) && Enabled(s, step) && s.locks > 0 && Apply(s, step).locks > 0
    ensures Now(Apply(s, step)) == Now(s)
    ensures Apply(s, step).pended == s.pended + if step.Tick? then 1 else 0
  {
    LocksMove(s, step);
    hide Inv, DrainPending, TickTimes;
    if !step.Tick? && !step.ResumeAllStep? { ClockStands(s, step); }
  }

  /** While suspensions outnumber resumes the clock stands, ticks only pend, the running task is
      not switched, and no task held back is let go, whatever interrupts do; those held back keep
      their order. */
  lemma {:induction false} NothingMoves(s: State, steps: seq<Step>)
    requires Inv(s) && CanRun(s, steps) && Deep(s.locks, steps)
    ensures var r := Run(s, steps);
            && Inv(r) && r.locks > 0 && Now(r) == Now(s) && r.pended == s.pended + TicksIn(steps)
            && r.running == s.running
            && (forall t :: (forall step :: step in steps ==> !Frees(step, t)) ==> StillHeld(TableOf(s), TableOf(r), t))
    decreases |steps|
  {
    hide Inv, Enabled, Apply, Frees, Now, Follows, Sensible, Modes, StillHeld;
    if steps == [] {
      forall t
        ensures StillHeld(TableOf(s), TableOf(s), t)
      {
        HeldSelf(TableOf(s), t);
      }
    } else {
      var u := Apply(s, steps[0]);
      StepKeeps(s, steps[0]);
      LocksMove(s, steps[0]);
      ClockStops(s, steps[0]);
      StepFollows(s, steps[0]);
      EnabledIsSensible(s, steps[0]);
      DeepStep(TableOf(s), steps[0], TableOf(u));
      NothingMoves(u, steps[1..]);
      assert steps[0] in steps;
      forall t | forall step :: step in steps ==> !Frees(step, t)
        ensures StillHeld(TableOf(s), TableOf(Run(s, steps)), t)
      {
        HeldTrans(TableOf(s), TableOf(u), TableOf(Run(s, steps)), t);
      }
    }
  }

  lemma HeldSelf(a: Table, t: Task)
    ensures StillHeld(a, a, t)
  {
  }

  lemma HeldTrans(a: Table, b: Table, c: Table, t: Task)
    requires StillHeld(a, b, t) && StillHeld(b, c, t)
    ensures StillHeld(a, c, t)
  {
  }

  lemma {:induction false} OrderStands(s: State, steps: seq<Step>, t: Task, u: Task)
    requires Inv(s) && CanRun(s, steps) && Deep(s.locks, steps) && Ahead(s.pending, t, u)
    requires forall step :: step in steps ==> !Frees(step, t) && !Frees(step, u)
    ensures Ahead(Run(s, steps).pending, t, u)
    decreases |steps|
  {
    hide Inv, Enabled, Apply, Frees, Follows, Modes, Ahead;
    if steps != [] {
      var v := Apply(s, steps[0]);
      assert steps[0] in steps;
      StepKeeps(s, steps[0]);
      LocksMove(s, steps[0]);
      StepFollows(s, steps[0]);
      DeepOrder(TableOf(s), steps[0], TableOf(v), t, u);
      OrderStands(v, steps[1..], t, u);
    }
  }

  // ---- the last resume --------------------------------------------------------------------------------

  lemma LetReady(a: Table, b: Table)
    requires Woken(Let(a), b)
    ensures forall t :: t in a.held && t in a.mode ==> IsMode(b, t, Ready)
  {
  }

  lemma PendingIsLive(s: State)
    requires Inv(s)
    ensures forall t :: t in s.pending ==> t in TableOf(s).mode
  {
    hide Linked, TopExact, OnTime, Counted;
  }

  /** The last resume makes every task that was held back ready. */
  lemma LastResumeReadies(s: State)
    requires Inv(s) && s.locks == 1 && s.count > 0
    ensures forall t :: t in s.pending ==> IsReady(ResumeAll(s), t)
    ensures ResumeAll(s).locks == 0 && ResumeAll(s).pending == []
  {
    hide Inv, ResumeAll, Modes, Woken, Let, IsReady;
    ResumeAllKeeps(s);
    ResumeAllFollows(s);
    PendingIsLive(s);
    LetReady(TableOf(s), TableOf(ResumeAll(s)));
    ReadyModes(ResumeAll(s));
    WokenFrame(Let(TableOf(s)), TableOf(ResumeAll(s)));
    LetFrame(TableOf(s));
  }

  lemma WokenFrame(a: Table, b: Table)
    requires Woken(a, b)
    ensures b.depth == a.depth && b.held == a.held
  {
  }

  lemma LetFrame(a: Table)
    ensures Let(a).depth == 0 && Let(a).held == []
  {
  }

  /** A sleeping task that is woken while the scheduler is suspended sleeps on to the resume that
      ends the suspension, however deep it nests, and is ready then. */
  lemma HeldToTheLastResume(s: State, steps: seq<Step>, t: Task)
    requires Inv(s) && CanRun(s, steps) && Deep(s.locks, steps) && t in s.pending && Blocked(s.home, t)
    requires forall step :: step in steps ==> !Frees(step, t)
    requires Run(s, steps).locks == 1 && Run(s, steps).count > 0
    ensures var r := Run(s, steps); !IsReady(r, t) && IsReady(ResumeAll(r), t)
  {
    hide Run, CanRun, Inv, Deep, Frees, ResumeAll, StillHeld;
    NothingMoves(s, steps);
    var r := Run(s, steps);
    LastResumeReadies(r);
    StillHeldMeans(TableOf(s), TableOf(r), t);
    BlockedMode(s, t);
    NotReadyMode(r, t);
  }

  lemma StillHeldMeans(a: Table, b: Table, t: Task)
    requires StillHeld(a, b, t)
    ensures IsMode(a, t, Asleep) ==> IsMode(b, t, Asleep)
    ensures IsMode(a, t, Suspended) ==> IsMode(b, t, Suspended)
    ensures t in a.held ==> t in b.held
  {
  }

  lemma BlockedMode(s: State, t: Task)
    requires Blocked(s.home, t)
    ensures IsMode(TableOf(s), t, Asleep) || IsMode(TableOf(s), t, Suspended)
  {
  }

  lemma NotReadyMode(s: State, t: Task)
    requires Inv(s) && !IsMode(TableOf(s), t, Ready)
    ensures !IsReady(s, t)
  {
    hide Linked, TopExact, OnTime, Events, Counted;
    IsModeReady(s, t);
  }

  // ---- in which order -----------------------------------------------------------------------------------

  /** The entries the pending tasks of priority p get, in the order in which they were held back. */
  function EntriesFor(s: State, q: seq<Task>, p: Priority): seq<Entry<Task>> {
    if q == [] then [] else (if PrioOf(s, q[0]) == p then [Entry(q[0], 0)] else []) + EntriesFor(s, q[1..], p)
  }

  /** Where `vListInsertEnd` puts things: just before the index, or at the end. */
  function Gap(l: List<Task>): nat {
    if l.index == 0 || |l.entries| < l.index then |l.entries| else l.index - 1
  }

  /** q goes into the gap, and the index stays on its entry. */
  function Filled(l: List<Task>, q: seq<Entry<Task>>): List<Task> {
    List(l.entries[..Gap(l)] + q + l.entries[Gap(l)..],
         if l.index == 0 || |l.entries| < l.index then (if q == [] then l.index else 0) else l.index + |q|)
  }

  lemma FillOne(l: List<Task>, e: Entry<Task>, q: seq<Entry<Task>>)
    ensures Filled(InsertEnd(l, e), q) == Filled(l, [e] + q)
    ensures Filled(l, []) == l
  {
    var k := Gap(l);
    assert l.entries[..k] + [] + l.entries[k..] == l.entries;
    assert l.entries[..k] + [e] + l.entries[k..] == l.entries[..k] + ([e] + l.entries[k..]);
    var m := InsertEnd(l, e);
    assert m.entries == l.entries[..k] + [e] + l.entries[k..];
    assert Gap(m) == k + 1;
    assert m.entries[..k + 1] == l.entries[..k] + [e] && m.entries[k + 1..] == l.entries[k..];
    assert l.entries[..k] + [e] + q == l.entries[..k] + ([e] + q);
  }

  lemma MakeReadyFills(s: State, t: Task, p: Priority)
    requires t in s.home && s.home[t] >= PRIORITIES
    ensures MakeReady(s, t).lists[p] ==
            if PrioOf(s, t) == p then InsertEnd(s.lists[p], Entry(t, 0)) else s.lists[p]
  {
    hide InsertEnd, Remove;
  }

  /** Of the tasks of one priority the one held back first is readied first: they stand in this
      order, behind all that were ready before but the one whose turn it is. */
  lemma {:induction false} ReadiedInOrder(s: State, p: Priority)
    requires Core(s) && forall t :: t in s.pending ==> Blocked(s.home, t)
    ensures DrainPending(s).lists[p] == Filled(s.lists[p], EntriesFor(s, s.pending, p))
    decreases |s.pending|
  {
    hide Linked, TopExact, Timely, Placed, MakeReady, Filled, InsertEnd;
    if s.pending == [] {
      FillOne(s.lists[p], Entry(0, 0), []);
    } else {
      var t, q := s.pending[0], s.pending[1..];
      var u := s.(pending := q);
      assert Core(u) && Live(u, t);
      assert t in s.pending && forall x :: x in q ==> x in s.pending && x != t;
      MakeReadyCore(u, t);
      MakeReadyEffect(u, t);
      MakeReadyFills(u, t, p);
      ReadiedInOrder(MakeReady(u, t), p);
      SameEntriesFor(s, MakeReady(u, t), q, p);
      FillOne(s.lists[p], Entry(t, 0), EntriesFor(s, q, p));
      assert [] + EntriesFor(s, q, p) == EntriesFor(s, q, p);
    }
  }

  lemma {:induction false} SameEntriesFor(s: State, r: State, q: seq<Task>, p: Priority)
    requires r.prio == s.prio
    ensures EntriesFor(r, q, p) == EntriesFor(s, q, p)
  {
    if q != [] {
      SameEntriesFor(s, r, q[1..], p);
    }
  }
}
