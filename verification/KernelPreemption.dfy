/**
 When the scheduler asks for a context switch (tasks.c): the results of the tick, of waking a
 task and of resuming, and that no higher-priority task is left ready without one.
 */
module KernelPreemption {
  import opened Ticks
  import opened Lists
  import opened Kernel
  import opened KernelInvariants
  import opened KernelRuns
  import opened KernelTheorems

  /** The running task is ready and nobody ready is above it. */
  ghost predicate RunsTop(s: State) {
    IsReady(s, s.running) && forall t :: t in s.home && IsReady(s, t) ==> PrioOf(s, t) <= PrioOf(s, s.running)
  }

  predicate AtLeastRunning(s: State, t: Task) {
    PrioOf(s, t) >= PrioOf(s, s.running)
  }

  /** Whether the scan of the delayed list wakes a task of at least the running priority. */
  function WakesAsk(s: State): bool
    decreases |s.lists[DELAYED].entries|
  {
    var d := s.lists[DELAYED].entries;
    d != [] && d[0].value <= s.tick && (AtLeastRunning(s, d[0].owner) || WakesAsk(WakeHead(s)))
  }

  /** What `xTaskIncrementTick` returns while the scheduler runs, a pended yield apart: such a
      task was woken, or another one shares the running task's list. */
  function TickAsks(s: State): bool {
    var v := Ticked(s);
    (v.tick >= v.nextUnblock && WakesAsk(v)) || |TickAwake(s).lists[PrioOf(s, s.running)].entries| > 1
  }

  function DrainAsks(s: State): bool
    decreases |s.pending|
  {
    s.pending != [] &&
    (AtLeastRunning(s, s.pending[0]) || DrainAsks(MakeReady(s.(pending := s.pending[1..]), s.pending[0])))
  }

  function TicksAsk(s: State, n: nat): bool
    decreases n
  {
    n > 0 && (TickAsks(s) || TicksAsk(TickAwake(s), n - 1))
  }

  /** The state in which `xTaskResumeAll` takes the pended ticks. */
  function Drained(s: State): State {
    var v := DrainPending(s);
    if s.pending != [] then ResetUnblock(v) else v
  }

  /** What `xTaskResumeAll` returns when it lets the scheduler run, a pended yield apart. */
  function ResumeAsks(s: State): bool
    requires s.locks > 0
  {
    var u := s.(locks := s.locks - 1);
    u.locks == 0 && u.count > 0 && (DrainAsks(u) || TicksAsk(Drained(u), s.pended))
  }

  /** Creating a task before the scheduler runs: the current task is replaced by one that is
      not below it. */
  function CreateEarly(s: State, t: Task, p: Priority): State {
    var r := Create(s, t, p);
    if s.count == 0 || PrioOf(s, s.running) <= p then r.(running := t) else r
  }

  /** So the task the scheduler starts with is of the highest priority created. */
  lemma StartsWithHighest(s: State, t: Task, p: Priority)
    requires t !in s.home && (if s.count == 0 then s.home == map[] else RunsTop(s))
    ensures RunsTop(CreateEarly(s, t, p))
  {
    AddReadyEffect(s.(prio := s.prio[t := p], count := s.count + 1), t);
    hide AddReady;
  }

  /** The tasks created before the scheduler runs, one after the other. */
  function CreateAll(s: State, q: seq<(Task, Priority)>): State {
    if q == [] then s else CreateEarly(CreateAll(s, q[..|q| - 1]), q[|q| - 1].0, q[|q| - 1].1)
  }

  lemma CreateEarlyFrame(s: State, t: Task, p: Priority)
    ensures var r := CreateEarly(s, t, p);
            && r.prio == s.prio[t := p] && r.count == s.count + 1
            && (r.running == t || r.running == s.running)
            && (r.running == t <== s.count == 0 || PrioOf(s, s.running) <= p)
            && (s.count != 0 && p < PrioOf(s, s.running) ==> r.running == s.running)
  {
    hide AddReady;
    AddReadyEffect(s.(prio := s.prio[t := p], count := s.count + 1), t);
  }

  /** The k-th is the last of those of the highest priority. */
  ghost predicate LastOfHighest(q: seq<(Task, Priority)>, k: nat) {
    && k < |q|
    && (forall i {:trigger q[i]} :: 0 <= i < |q| ==> q[i].1 <= q[k].1)
    && (forall i {:trigger q[i]} :: k < i < |q| ==> q[i].1 < q[k].1)
  }

  lemma OneMoreCreated(q: seq<(Task, Priority)>, j: nat)
    requires |q| > 1 && LastOfHighest(q[..|q| - 1], j)
    ensures LastOfHighest(q, if q[|q| - 1].1 < q[j].1 then j else |q| - 1)
  {
    var n := |q| - 1;
    forall i | 0 <= i < n
      ensures q[i] == q[..n][i]
    {
    }
  }

  /** The scheduler starts with the task that was created last of those of the highest priority. */
  lemma {:induction false} StartsWithLastOfHighest(q: seq<(Task, Priority)>) returns (k: nat)
    requires q != [] && forall i, j :: 0 <= i < j < |q| ==> q[i].0 != q[j].0
    ensures LastOfHighest(q, k)
    ensures var r := CreateAll(Initial(), q);
            r.count == |q| && k < |q| && r.running == q[k].0 && PrioOf(r, q[k].0) == q[k].1
    decreases |q|
  {
    hide CreateEarly, Initial, LastOfHighest;
    var n := |q| - 1;
    CreateEarlyFrame(CreateAll(Initial(), q[..n]), q[n].0, q[n].1);
    if n > 0 {
      var j := StartsWithLastOfHighest(q[..n]);
      OneMoreCreated(q, j);
      k := if q[n].1 < q[j].1 then j else n;
    } else {
      k := 0;
      NothingCreated();
      OnlyOne(q);
    }
  }

  lemma OnlyOne(q: seq<(Task, Priority)>)
    requires |q| == 1
    ensures LastOfHighest(q, 0)
  {
  }

  lemma NothingCreated()
    ensures CreateAll(Initial(), []).count == 0
  {
  }

  // ---- no preemption is missed -------------------------------------------------------------------

  lemma WakeHeadKeeps(s: State)
    requires Base(s) && Unscanned(s) && s.lists[DELAYED].entries != []
    ensures var w := WakeHead(s);
            && Base(w) && Unscanned(w) && w.running == s.running
            && |w.lists[DELAYED].entries| < |s.lists[DELAYED].entries|
  {
    hide Linked, TopExact, Placed, Sorted, Remove;
    var t := s.lists[DELAYED].entries[0].owner;
    WakeHeadIsMakeReady(s);
    MakeReadyBase(s.(waiting := s.waiting - {t}), t);
  }

  lemma WakeHeadTop(s: State)
    requires Base(s) && s.lists[DELAYED].entries != [] && RunsTop(s) && !AtLeastRunning(s, s.lists[DELAYED].entries[0].owner)
    ensures RunsTop(WakeHead(s)) && WakeHead(s).prio == s.prio
  {
    WakeHeadEffect(s);
    assert WakeHead(s).running == s.running;
    hide Base, WakeHead;
  }

  lemma SameTop(s: State, r: State)
    requires r.home == s.home && r.prio == s.prio && r.running == s.running
    ensures RunsTop(r) <==> RunsTop(s)
  {
  }

  lemma {:induction false} WakesKeepTop(s: State)
    requires Base(s) && Unscanned(s) && RunsTop(s) && !WakesAsk(s)
    ensures RunsTop(WakeExpired(s)) && WakeExpired(s).running == s.running && WakeExpired(s).prio == s.prio
    decreases |s.lists[DELAYED].entries|
  {
    hide Base, Unscanned, RunsTop, WakeHead, AtLeastRunning;
    var d := s.lists[DELAYED].entries;
    if d != [] && d[0].value <= s.tick {
      WakeHeadKeeps(s);
      WakeHeadTop(s);
      WakesKeepTop(WakeHead(s));
    } else {
      SameTop(s, ResetUnblock(s));
    }
  }

  lemma TickedTop(s: State)
    requires Core(s) && RunsTop(s)
    ensures RunsTop(Ticked(s)) && Ticked(s).running == s.running && Ticked(s).prio == s.prio
  {
    hide Linked, TopExact, Timely, Events, Placed, SwapHomes, ResetUnblock, Counted;
    var u := s.(tick := Add(s.tick, 1));
    if u.tick == 0 {
      SwitchEffect(u);
    }
  }

  /** If a tick does not ask for a switch, the running task still is of the highest ready
      priority, and alone there. */
  lemma TickAsksEnough(s: State)
    requires Core(s) && RunsTop(s) && !TickAsks(s)
    ensures RunsTop(TickAwake(s)) && |TickAwake(s).lists[PrioOf(s, s.running)].entries| <= 1
    ensures TickAwake(s).running == s.running && TickAwake(s).prio == s.prio
  {
    hide RunsTop, WakeExpired, Ticked, TickAwake, WakesAsk, Base, Unscanned, Events, OnTime, Counted;
    TickedKeeps(s);
    TickedTop(s);
    var v := Ticked(s);
    if v.tick >= v.nextUnblock {
      WakesKeepTop(v);
    }
  }

  /** Waking a task above the running one is reported; otherwise nobody ready is above it. */
  lemma UnblockAsksEnough(s: State, t: Task)
    requires RunsTop(s) && s.locks == 0 && !(PrioOf(s, t) > PrioOf(s, s.running))
    ensures RunsTop(Unblock(s, t))
  {
    MakeReadyEffect(s.(waiting := s.waiting - {t}), t);
  }

  lemma DirectWakeAsksEnough(s: State, t: Task)
    requires RunsTop(s) && !(PrioOf(s, t) > PrioOf(s, s.running))
    ensures RunsTop(UnblockDirectly(s, t))
  {
    MakeReadyEffect(s.(waiting := s.waiting - {t}), t);
  }

  lemma {:induction false} DrainKeepsTop(s: State)
    requires RunsTop(s) && !DrainAsks(s)
    ensures RunsTop(DrainPending(s)) && DrainPending(s).running == s.running
    decreases |s.pending|
  {
    hide Remove, InsertEnd;
    if s.pending != [] {
      var u := s.(pending := s.pending[1..]);
      MakeReadyEffect(u, s.pending[0]);
      DrainKeepsTop(MakeReady(u, s.pending[0]));
    }
  }

  lemma {:induction false} TicksKeepTop(s: State, n: nat)
    requires Core(s) && RunsTop(s) && !TicksAsk(s, n)
    ensures RunsTop(TickTimes(s, n)) && TickTimes(s, n).running == s.running
    decreases n
  {
    hide Core, RunsTop, TickAwake, TickAsks;
    if n > 0 {
      TickCore(s);
      TickAsksEnough(s);
      TicksKeepTop(TickAwake(s), n - 1);
    }
  }

  /** If a resume that lets the scheduler run does not report a yield, neither the tasks it
      released nor the ticks it took have left a task above the running one ready. */
  lemma ResumeAsksEnough(s: State)
    requires Inv(s) && RunsTop(s) && s.locks == 1 && s.count > 0 && !ResumeAsks(s)
    ensures RunsTop(ResumeAll(s)) && ResumeAll(s).running == s.running
  {
    hide Linked, TopExact, Timely, Placed, DrainPending, TickTimes, DrainAsks, TicksAsk, Events;
    var u := s.(locks := s.locks - 1);
    assert Core(u) && RunsTop(u);
    DrainCore(u);
    DrainKeepsTop(u);
    ResetCore(DrainPending(u));
    TicksKeepTop(Drained(u), s.pended);
  }

  // ---- and none is asked for without need ----------------------------------------------------------

  /** Another ready task than t, of at least its priority. */
  ghost predicate Rival(s: State, t: Task) {
    exists u :: u != t && IsReady(s, u) && PrioOf(s, u) >= PrioOf(s, t)
  }

  lemma {:induction false} WakesAskMeans(s: State) returns (e: Entry<Task>)
    requires Base(s) && Unscanned(s) && WakesAsk(s)
    ensures e in s.lists[DELAYED].entries && e.value <= s.tick && AtLeastRunning(s, e.owner)
    decreases |s.lists[DELAYED].entries|
  {
    hide Base, Unscanned, WakeHead;
    e := s.lists[DELAYED].entries[0];
    if !AtLeastRunning(s, e.owner) {
      WakeHeadKeeps(s);
      WakeHeadEffect(s);
      e := WakesAskMeans(WakeHead(s));
    }
  }

  lemma WokenIsRival(s: State, e: Entry<Task>)
    requires Base(s) && Unscanned(s) && IsReady(s, s.running)
    requires e in s.lists[DELAYED].entries && e.value <= s.tick && AtLeastRunning(s, e.owner)
    ensures Rival(WakeExpired(s), s.running)
  {
    hide TopExact, Placed, Unscanned, WakeExpired, Sorted, Valid;
    WakeExpiredEffect(s);
    WakeExpiredKeeps(s);
    assert e.owner in s.home && s.home[e.owner] == DELAYED;
    assert IsReady(WakeExpired(s), e.owner);
  }

  lemma AnotherInList(s: State, p: Priority)
    requires IsLinked(s) && Placed(s.home, s.prio) && IsReady(s, s.running) && p == PrioOf(s, s.running)
    ensures |s.lists[p].entries| > 1 ==> Rival(s, s.running)
  {
    var q := s.lists[p].entries;
    if |q| > 1 {
      var e := if q[0].owner != s.running then q[0] else q[1];
      assert e in q;
      assert IsReady(s, e.owner);
    }
  }

  lemma TwoInList(s: State, u: Task)
    requires IsLinked(s) && IsReady(s, s.running) && IsReady(s, u) && u != s.running && PrioOf(s, u) == PrioOf(s, s.running)
    ensures |s.lists[PrioOf(s, u)].entries| > 1
  {
    var q := s.lists[PrioOf(s, u)].entries;
    assert Has(q, u) && Has(q, s.running);
  }

  lemma TickRivals(s: State)
    requires Core(s) && IsReady(s, s.running) && TickAsks(s)
    ensures Rival(TickAwake(s), s.running)
  {
    TickedKeeps(s);
    TickReady(s, s.running);
    TickCore(s);
    assert IsReady(Ticked(s), s.running) by { TickedReady(s, s.running); }
    hide Linked, TopExact, Placed, OnTime, Events, Counted, Unscanned, Ticked, TickAwake, WakeExpired, WakesAsk, Rival;
    if Ticked(s).tick >= Ticked(s).nextUnblock && WakesAsk(Ticked(s)) {
      var e := WakesAskMeans(Ticked(s));
      WokenIsRival(Ticked(s), e);
    } else {
      TickKeepsRunning(s);
      AnotherInList(TickAwake(s), PrioOf(s, s.running));
    }
  }

  lemma TickedReady(s: State, t: Task)
    requires IsReady(s, t)
    ensures IsReady(Ticked(s), t) && Ticked(s).running == s.running && Ticked(s).prio == s.prio
  {
    hide ResetUnblock, SwapHomes, SwitchDelayed;
    SwitchEffect(s.(tick := Add(s.tick, 1)));
  }

  lemma TickKeepsRunning(s: State)
    requires Core(s)
    ensures TickAwake(s).running == s.running && TickAwake(s).prio == s.prio
  {
    hide Linked, TopExact, Placed, Timely, Events, Ticked, TickAwake, WakeExpired;
    TickedKeeps(s);
    CacheIsSound(Ticked(s));
  }

  /** A tick asks for a switch exactly if after it another task of at least the running priority
      is ready. */
  lemma TickAsksExactly(s: State)
    requires Core(s) && RunsTop(s)
    ensures TickAsks(s) <==> Rival(TickAwake(s), s.running)
  {
    hide Core, RunsTop, TickAwake, TickAsks, Rival, IsReady;
    RunningIsReady(s);
    if TickAsks(s) {
      TickRivals(s);
    } else {
      TickAsksEnough(s);
      TickCore(s);
      AloneHasNoRival(TickAwake(s));
    }
  }

  lemma RunningIsReady(s: State)
    requires RunsTop(s)
    ensures IsReady(s, s.running)
  {
  }

  lemma AloneHasNoRival(s: State)
    requires Core(s) && RunsTop(s) && |s.lists[PrioOf(s, s.running)].entries| <= 1
    ensures !Rival(s, s.running)
  {
    hide TopExact, Placed, OnTime, Events, Counted;
    if Rival(s, s.running) {
      var u :| u != s.running && IsReady(s, u) && PrioOf(s, u) >= PrioOf(s, s.running);
      TwoInList(s, u);
    }
  }

  lemma {:induction false} DrainRivals(s: State)
    requires Core(s) && IsReady(s, s.running) && s.running !in s.pending && DrainAsks(s)
    ensures Rival(DrainPending(s), s.running)
    decreases |s.pending|
  {
    hide Linked, TopExact, Placed, Timely, MakeReady, Rival;
    var t := s.pending[0];
    var u := s.(pending := s.pending[1..]);
    var r := MakeReady(u, t);
    assert t in s.pending && Core(u) && Live(u, t);
    MakeReadyCore(u, t);
    MakeReadyEffect(u, t);
    if AtLeastRunning(s, t) {
      assert Rival(r, r.running) by { IsRival(r, t); }
      DrainKeepsRival(r);
    } else {
      DrainRivals(r);
    }
  }

  lemma IsRival(s: State, u: Task)
    requires u != s.running && IsReady(s, u) && PrioOf(s, u) >= PrioOf(s, s.running)
    ensures Rival(s, s.running)
  {
  }

  lemma {:induction false} DrainKeepsRival(s: State)
    requires Core(s) && Rival(s, s.running)
    ensures Rival(DrainPending(s), s.running) && DrainPending(s).running == s.running && DrainPending(s).prio == s.prio
    decreases |s.pending|
  {
    hide Linked, TopExact, Placed, Timely, MakeReady;
    if s.pending != [] {
      var u := s.(pending := s.pending[1..]);
      var x :| x != s.running && IsReady(s, x) && PrioOf(s, x) >= PrioOf(s, s.running);
      assert s.pending[0] in s.pending && Core(u) && Live(u, s.pending[0]);
      MakeReadyCore(u, s.pending[0]);
      MakeReadyEffect(u, s.pending[0]);
      assert IsReady(MakeReady(u, s.pending[0]), x);
      DrainKeepsRival(MakeReady(u, s.pending[0]));
    }
  }

  lemma {:induction false} TicksKeepRival(s: State, n: nat)
    requires Core(s) && Rival(s, s.running)
    ensures Rival(TickTimes(s, n), s.running)
    decreases n
  {
    hide Core, TickAwake;
    if n > 0 {
      var x :| x != s.running && IsReady(s, x) && PrioOf(s, x) >= PrioOf(s, s.running);
      TickReady(s, x);
      TickCore(s);
      TickKeepsRunning(s);
      TicksKeepRival(TickAwake(s), n - 1);
    }
  }

  lemma {:induction false} TicksRival(s: State, n: nat)
    requires Core(s) && IsReady(s, s.running) && TicksAsk(s, n)
    ensures Rival(TickTimes(s, n), s.running)
    decreases n
  {
    hide Core, TickAwake, TickAsks, Rival, IsReady;
    TickCore(s);
    TickKeepsRunning(s);
    TickReady(s, s.running);
    if TickAsks(s) {
      TickRivals(s);
      TicksKeepRival(TickAwake(s), n - 1);
    } else {
      TicksRival(TickAwake(s), n - 1);
    }
  }

  lemma {:induction false} DrainReady(s: State, t: Task)
    requires Core(s) && IsReady(s, t)
    ensures IsReady(DrainPending(s), t)
    decreases |s.pending|
  {
    hide Linked, TopExact, Placed, Timely, MakeReady;
    if s.pending != [] {
      var u := s.(pending := s.pending[1..]);
      assert s.pending[0] in s.pending && Core(u) && Live(u, s.pending[0]);
      MakeReadyCore(u, s.pending[0]);
      MakeReadyEffect(u, s.pending[0]);
      DrainReady(MakeReady(u, s.pending[0]), t);
    }
  }

  lemma {:induction false} DrainRunning(s: State)
    ensures DrainPending(s).running == s.running
    decreases |s.pending|
  {
    hide MakeReady;
    if s.pending != [] {
      MakeReadyEffect(s.(pending := s.pending[1..]), s.pending[0]);
      DrainRunning(MakeReady(s.(pending := s.pending[1..]), s.pending[0]));
    }
  }

  /** A resume asks for a switch only if after it another task of at least the running priority
      is ready. */
  lemma ResumeAsksMeans(s: State)
    requires Inv(s) && s.locks == 1 && s.count > 0 && IsReady(s, s.running) && s.running !in s.pending
    requires ResumeAsks(s)
    ensures Rival(ResumeAll(s), s.running)
  {
    var u := s.(locks := 0);
    assert Core(u);
    hide Linked, TopExact, Placed, Timely, Events, Counted, DrainPending, TickTimes, TicksAsk, Rival, DrainAsks;
    var w := Drained(u);
    DrainCore(u);
    DrainReady(u, s.running);
    DrainRunning(u);
    ResetCore(DrainPending(u));
    assert IsReady(w, w.running) && w.running == s.running;
    if DrainAsks(u) {
      DrainRivals(u);
      SameRival(DrainPending(u), ResetUnblock(DrainPending(u)), s.running);
      TicksKeepRival(w, s.pended);
    } else {
      TicksRival(w, s.pended);
    }
    SameRival(TickTimes(w, s.pended), TickTimes(w, s.pended).(pended := 0), s.running);
  }

  lemma SameRival(s: State, r: State, t: Task)
    requires r.home == s.home && r.prio == s.prio && Rival(s, t)
    ensures Rival(r, t)
  {
    var u :| u != t && IsReady(s, u) && PrioOf(s, u) >= PrioOf(s, t);
    assert IsReady(r, u);
  }
}
