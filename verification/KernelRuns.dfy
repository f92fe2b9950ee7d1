/**
 Every operation of the scheduler keeps its invariant, so every run does.
 */
module KernelRuns {
  import opened Sequences
  import opened Ticks
  import opened Lists
  import opened Kernel
  import opened KernelInvariants

  lemma TickCore(s: State)
    requires Core(s)
    ensures Core(TickAwake(s)) && Now(TickAwake(s)) == Now(s) + 1
    ensures TickAwake(s).pending == s.pending && TickAwake(s).pended == s.pended && TickAwake(s).locks == s.locks
    ensures TickAwake(s).home.Keys == s.home.Keys && TickAwake(s).prio == s.prio
  {
    TickWakesExactlyTheDue(s);
    TickedKeeps(s);
    CacheIsSound(Ticked(s));
  }

  lemma {:induction false} TicksCore(s: State, n: nat)
    requires Core(s)
    ensures var r := TickTimes(s, n);
            && Core(r) && Now(r) == Now(s) + n
            && r.pending == s.pending && r.pended == s.pended && r.locks == s.locks
    decreases n
  {
    hide Core, TickAwake;
    if n > 0 {
      TickCore(s);
      TicksCore(TickAwake(s), n - 1);
    }
  }

  lemma MakeReadyCore(s: State, t: Task)
    requires Core(s) && Live(s, t) && t !in s.waiting
    ensures Core(MakeReady(s, t)) && IsReady(MakeReady(s, t), t)
  {
    MakeReadyBase(s, t);
    MakeReadyEffect(s, t);
    var r := MakeReady(s, t);
    assert r.lists[TERMINATING] == s.lists[TERMINATING];
    assert r.home.Keys == s.home.Keys;
  }

  lemma {:induction false} DrainCore(s: State)
    requires Core(s)
    ensures var r := DrainPending(s);
            Core(r) && r.pending == [] && r.pended == s.pended && r.locks == s.locks && Now(r) == Now(s)
    decreases |s.pending|
  {
    hide Linked;
    if s.pending != [] {
      var t := s.pending[0];
      var u := s.(pending := s.pending[1..]);
      assert Core(u) && Live(u, t);
      MakeReadyCore(u, t);
      MakeReadyEffect(u, t);
      DrainCore(MakeReady(u, t));
    }
  }

  lemma ResetCore(s: State)
    requires Core(s)
    ensures Core(ResetUnblock(s))
  {
    hide Linked, TopExact;
    var d := s.lists[DELAYED].entries;
    assert forall e :: e in d ==> d[0].value <= e.value;
  }

  lemma ResumeAllKeeps(s: State)
    requires Inv(s) && s.locks > 0 && s.count > 0
    ensures Inv(ResumeAll(s))
    ensures Now(ResumeAll(s)) + ResumeAll(s).pended == Now(s) + s.pended
  {
    hide Linked, TopExact, Timely, DrainPending, TickTimes;
    var u := s.(locks := s.locks - 1);
    assert Core(u);
    if u.locks == 0 {
      DrainCore(u);
      var v := DrainPending(u);
      ResetCore(v);
      var w := if u.pending != [] then ResetUnblock(v) else v;
      TicksCore(w, s.pended);
    }
  }

  lemma UnblockKeeps(s: State, t: Task)
    requires Inv(s) && Live(s, t) && t !in s.pending
    ensures Inv(Unblock(s, t))
  {
    hide Linked, TopExact, Timely, Remove, InsertEnd;
    var u := s.(waiting := s.waiting - {t});
    assert Core(u);
    if s.locks == 0 {
      MakeReadyCore(u, t);
      MakeReadyEffect(u, t);
    }
  }

  lemma UnblockDirectlyKeeps(s: State, t: Task)
    requires Inv(s) && Live(s, t) && t !in s.pending
    ensures Inv(UnblockDirectly(s, t))
  {
    hide Linked, TopExact, Timely, Remove, InsertEnd;
    var u := s.(waiting := s.waiting - {t});
    assert Core(u);
    MakeReadyCore(u, t);
    MakeReadyEffect(u, t);
  }

  // ---- blocking ---------------------------------------------------------------------

  /** The running task has left its ready list. */
  lemma LeaveKeeps(s: State, t: Task)
    requires Base(s) && OnTime(s) && IsReady(s, t)
    ensures var u := UnlinkAndReset(s, t, PrioOf(s, t));
            && IsLinked(u) && TopExact(u.lists, u.top) && OnTime(u)
            && u.home == s.home - {t}
            && u == s.(lists := u.lists, home := u.home, top := u.top)
            && (forall i: ListId :: i >= PRIORITIES ==> u.lists[i] == s.lists[i])
  {
    hide Linked, TopExact, Timely, Unlink;
    UnlinkLinked(s, t);
    LeaveReadyTop(s, t);
    UnlinkFrame(s, t);
  }

  lemma UnlinkFrame(s: State, t: Task)
    ensures var u := Unlink(s, t);
            && u == s.(lists := u.lists, home := u.home)
            && (forall i: ListId :: t !in s.home || i != s.home[t] ==> u.lists[i] == s.lists[i])
  {
  }

  /** What `Block` leaves: the running task off its ready list, `w` and `r` differing only
      in the list it went to. */
  ghost predicate Moved(w: State, r: State, t: Task, i: ListId) {
    && i >= PRIORITIES
    && r.home == w.home[t := i]
    && (forall j: ListId :: j != i ==> r.lists[j] == w.lists[j])
  }

  lemma MovedTop(w: State, r: State, t: Task, i: ListId)
    requires Moved(w, r, t, i) && TopExact(w.lists, w.top) && r.top == w.top
    ensures TopExact(r.lists, r.top)
  {
    assert forall p: nat :: p < PRIORITIES ==> r.lists[p] == w.lists[p];
  }

  /** Filing the running task under its wake time; that time lies ahead of the tick in the
      current list, and the cached unblock time is lowered to it. */
  lemma FileKeeps(u: State, t: Task, d: Tick)
    requires IsLinked(u) && OnTime(u) && t !in u.home && d > 0
    ensures var wake := Add(u.tick, d);
            var i := if wake < u.tick then OVERFLOWED else DELAYED;
            var r := File(u, t, i, wake);
            var next := if wake >= u.tick && wake < u.nextUnblock then wake else u.nextUnblock;
            && IsLinked(r) && Moved(u, r, t, i) && OnTime(r.(nextUnblock := next))
            && (forall e :: e in r.lists[i].entries <==> e in u.lists[i].entries || e == Entry(t, wake))
  {
    var wake := Add(u.tick, d);
    FileLinked(u, t, if wake < u.tick then OVERFLOWED else DELAYED, wake);
  }

  /** The list a task goes to that blocks for d ticks: for a time in this wrap, a time in the
      next, or for ever. */
  function BlockedIn(s: State, d: Tick, indefinitely: bool): ListId {
    if d == MAX_DELAY && indefinitely then SUSPENDED
    else if Add(s.tick, d) < s.tick then OVERFLOWED
    else DELAYED
  }

  /** Blocking files the running task in that list, under its wake time if it has one, and
      changes no other list of blocked tasks. */
  lemma BlockLists(s: State, d: Tick, indefinitely: bool, onEvent: bool) returns (i: ListId)
    requires Base(s) && OnTime(s) && IsReady(s, s.running) && d > 0
    ensures var r := Block(s, d, indefinitely, onEvent);
            && IsLinked(r) && TopExact(r.lists, r.top) && OnTime(r)
            && i == BlockedIn(s, d, indefinitely) && r.home == s.home[s.running := i]
            && (forall j: ListId :: j >= PRIORITIES && j != i ==> r.lists[j] == s.lists[j])
            && (forall e :: e in r.lists[i].entries <==>
                  e in s.lists[i].entries
                  || e == Entry(s.running, if i == SUSPENDED then 0 else Add(s.tick, d)))
            && r == s.(lists := r.lists, home := r.home, top := r.top, nextUnblock := r.nextUnblock,
                       waiting := if onEvent then s.waiting + {s.running} else s.waiting)
  {
    hide Linked, TopExact, Timely, Placed, Remove, Insert, InsertEnd, UnlinkAndReset;
    var t := s.running;
    var w := if onEvent then s.(waiting := s.waiting + {t}) else s;
    var u := UnlinkAndReset(w, t, PrioOf(s, t));
    LeaveKeeps(w, t);
    var wake := Add(s.tick, d);
    var r := Block(s, d, indefinitely, onEvent);
    if d == MAX_DELAY && indefinitely {
      i := SUSPENDED;
      AppendLinked(u, t, i);
    } else {
      i := if wake < s.tick then OVERFLOWED else DELAYED;
      FileKeeps(u, t, d);
    }
    MovedTop(u, r, t, i);
    assert r.home == s.home[t := i];
  }

  lemma BlockKeeps(s: State, d: Tick, indefinitely: bool, onEvent: bool)
    requires Inv(s) && Enabled(s, BlockStep(s.running, d, indefinitely, onEvent))
    ensures Inv(Block(s, d, indefinitely, onEvent))
  {
    hide Linked, TopExact, Timely, Block, OnTime;
    var i := BlockLists(s, d, indefinitely, onEvent);
    assert Block(s, d, indefinitely, onEvent).home.Keys == s.home.Keys;
  }

  // ---- creating, deleting, suspending ----------------------------------------------

  /** Adding an unlisted task to its ready list sets the bit it needs. */
  lemma AddReadyTop(s: State, t: Task)
    requires TopExact(s.lists, s.top)
    ensures TopExact(AddReady(s, t).lists, AddReady(s, t).top)
    ensures forall i: ListId :: i >= PRIORITIES ==> AddReady(s, t).lists[i] == s.lists[i]
  {
    var p, r := PrioOf(s, t), AddReady(s, t);
    assert forall q: nat :: q < PRIORITIES && q != p ==> r.lists[q] == s.lists[q];
    assert r.lists[p].entries != [];
  }

  lemma AddReadyLinked(s: State, t: Task)
    requires IsLinked(s) && t !in s.home
    ensures IsLinked(AddReady(s, t))
  {
    hide Linked, InsertEnd;
    AppendLinked(s, t, PrioOf(s, t));
  }

  lemma AddReadyEffect(s: State, t: Task)
    ensures var r := AddReady(s, t);
            && r.home == s.home[t := PrioOf(s, t)]
            && r == s.(lists := r.lists, home := r.home, top := r.top)
  {
  }

  lemma CreateKeeps(s: State, t: Task, p: Priority)
    requires Inv(s) && t !in s.home
    ensures Inv(Create(s, t, p))
  {
    hide Linked, TopExact, Timely, InsertEnd, AddReady;
    var u := s.(prio := s.prio[t := p], count := s.count + 1);
    AddReadyLinked(u, t);
    AddReadyTop(u, t);
    AddReadyEffect(u, t);
    assert Create(s, t, p).home.Keys == s.home.Keys + {t};
  }

  lemma DetachTop(s: State, t: Task)
    requires IsLinked(s) && TopExact(s.lists, s.top) && Placed(s.home, s.prio) && t in s.home
    ensures TopExact(Detach(s, t).lists, Detach(s, t).top)
  {
    hide Remove;
    var p, i := PrioOf(s, t), s.home[t];
    var u := Unlink(s, t);
    assert forall q: nat :: q < PRIORITIES && q != i ==> u.lists[q] == s.lists[q];
    assert s.lists[i].entries != [] by {
      assert Has(s.lists[i].entries, t);
    }
  }

  /** After `Detach` the task is in no list at all. */
  lemma DetachKeeps(s: State, t: Task)
    requires IsLinked(s) && t in s.home && s.home[t] != TERMINATING
    ensures var u := Detach(s, t);
            && IsLinked(u)
            && u.home == s.home - {t} && u.lists[TERMINATING] == s.lists[TERMINATING]
            && u == s.(lists := u.lists, home := u.home, top := u.top, waiting := s.waiting - {t},
                       pending := Without(s.pending, t))
  {
    hide Linked, Remove, Without;
    UnlinkLinked(s, t);
  }

  lemma DetachTimes(s: State, t: Task)
    requires IsLinked(s) && OnTime(s)
    ensures OnTime(Detach(s, t))
  {
    hide Linked, Remove, Without;
    UnlinkEntries(s, t, DELAYED);
    UnlinkEntries(s, t, OVERFLOWED);
  }

  lemma DetachEvents(s: State, t: Task, r: State)
    requires Events(s.home, s.waiting, s.pending)
    requires r.waiting == s.waiting - {t} && r.pending == Without(s.pending, t)
    requires forall u :: u in s.home && u != t ==> u in r.home && r.home[u] == s.home[u]
    ensures Events(r.home, r.waiting, r.pending)
  {
    WithoutDistinct(s.pending, t);
  }

  lemma ResetTimes(s: State)
    requires OnTime(s)
    ensures OnTime(ResetUnblock(s))
  {
    var d := s.lists[DELAYED].entries;
    assert forall e :: e in d ==> d[0].value <= e.value;
  }

  /** Putting a detached task in a list that is neither a ready nor a delayed list. */
  lemma ParkKeeps(u: State, t: Task, i: ListId)
    requires IsLinked(u) && TopExact(u.lists, u.top) && OnTime(u) && t !in u.home
    requires i == SUSPENDED || i == TERMINATING
    ensures var r := Append(u, t, i);
            IsLinked(r) && TopExact(r.lists, u.top) && OnTime(r)
            && |r.lists[i].entries| == |u.lists[i].entries| + 1
  {
    hide Linked;
    AppendLinked(u, t, i);
    MovedTop(u, Append(u, t, i), t, i);
  }

  lemma DeleteSelfKeeps(s: State, t: Task)
    requires Inv(s) && Live(s, t) && t == s.running
    ensures Inv(Delete(s, t))
  {
    hide Linked, TopExact, Timely, Detach, Without, InsertEnd, Events;
    DetachKeeps(s, t);
    DetachTop(s, t);
    DetachTimes(s, t);
    ParkKeeps(Detach(s, t), t, TERMINATING);
    assert Delete(s, t).home.Keys == s.home.Keys;
    DetachEvents(s, t, Delete(s, t));
  }

  lemma DeleteOtherKeeps(s: State, t: Task)
    requires Inv(s) && Live(s, t) && t != s.running
    ensures Inv(Delete(s, t))
  {
    hide Linked, TopExact, Timely, Detach, Without;
    var r := Delete(s, t);
    DetachKeeps(s, t);
    DetachTop(s, t);
    DetachTimes(s, t);
    ResetTimes(Detach(s, t));
    assert r.home.Keys == s.home.Keys - {t};
    assert |r.home.Keys| == |s.home.Keys| - 1;
    DetachEvents(s, t, r);
  }

  lemma SuspendKeeps(s: State, t: Task)
    requires Inv(s) && Live(s, t)
    ensures Inv(SuspendTask(s, t))
  {
    hide Linked, TopExact, Timely, Events, Detach, Without, InsertEnd;
    var u, r := Detach(s, t), SuspendTask(s, t);
    DetachKeeps(s, t);
    DetachTop(s, t);
    DetachTimes(s, t);
    ParkKeeps(u, t, SUSPENDED);
    ResetTimes(Append(u, t, SUSPENDED));
    assert r.home.Keys == s.home.Keys;
    DetachEvents(s, t, r);
  }

  lemma ReapHead(s: State)
    requires IsLinked(s) && s.lists[TERMINATING].entries != []
    ensures var t, r := s.lists[TERMINATING].entries[0].owner, Reap(s.(reap := 1));
            && t in s.home && s.home[t] == TERMINATING
            && IsLinked(r) && r.home == s.home - {t}
            && r.lists == s.lists[TERMINATING := RemoveAt(s.lists[TERMINATING], 0)]
  {
    var e := s.lists[TERMINATING].entries[0];
    assert e in s.lists[TERMINATING].entries;
    assert Find(s.lists[TERMINATING].entries, e.owner) == 0;
    UnlinkLinked(s, e.owner);
  }

  lemma ReapKeeps(s: State)
    requires Inv(s) && s.reap > 0
    ensures s.lists[TERMINATING].entries != [] && Inv(Reap(s))
  {
    hide Linked, Timely, Remove;
    ReapHead(s);
    var r := Reap(s);
    var t := s.lists[TERMINATING].entries[0].owner;
    assert Reap(s.(reap := 1)).lists == r.lists && Reap(s.(reap := 1)).home == r.home by {
      UnlinkReap(s, t);
    }
    assert r.home.Keys == s.home.Keys - {t};
    assert |r.home.Keys| == |s.home.Keys| - 1;
    assert forall p: nat :: p < PRIORITIES ==> r.lists[p] == s.lists[p];
  }

  /** The idle task frees every task that has deleted itself. */
  lemma {:induction false} ReapAllKeeps(s: State)
    requires Inv(s)
    ensures Inv(ReapAll(s)) && ReapAll(s).reap == 0 && ReapAll(s).lists[TERMINATING].entries == []
    decreases s.reap
  {
    if s.reap > 0 {
      ReapKeeps(s);
      hide Core;
      ReapAllKeeps(Reap(s));
    }
  }

  lemma UnlinkReap(s: State, t: Task)
    ensures Unlink(s.(reap := 1), t).lists == Unlink(s, t).lists
    ensures Unlink(s.(reap := 1), t).home == Unlink(s, t).home
  {
  }

  lemma ResumeTaskKeeps(s: State, t: Task)
    requires Inv(s)
    ensures Inv(ResumeTask(s, t))
  {
    if t != s.running && IsSuspended(s, t) {
      MakeReadyCore(s, t);
      MakeReadyEffect(s, t);
    }
  }

  // ---- priorities and selection -------------------------------------------------------

  /** Moving a ready task between ready lists clears the old bit exactly when the old
      list empties. */
  lemma ReprioritiseKeeps(s: State, t: Task, p: Priority)
    requires Inv(s) && Live(s, t)
    ensures Inv(Reprioritise(s, t, p, PrioOf(s, t)))
  {
    hide Linked, TopExact, Timely, AddReady, UnlinkAndReset, Events;
    var r := Reprioritise(s, t, p, PrioOf(s, t));
    if IsReady(s, t) {
      LeaveKeeps(s, t);
      var u := UnlinkAndReset(s, t, PrioOf(s, t)).(prio := s.prio[t := p]);
      AddReadyLinked(u, t);
      AddReadyTop(u, t);
      AddReadyEffect(u, t);
      assert r.home.Keys == s.home.Keys;
      assert r.home == s.home[t := p];
      PrioChangeEvents(s.home, t, p, s.waiting, s.pending);
    }
  }

  /** While the holder shares its ready list no bit is cleared, so it does not matter that it
      would be the wrong one. */
  lemma DisinheritIsReprioritise(s: State, t: Task, base: Priority, held: nat, highest: Priority)
    requires IsLinked(s) && t in s.home && !SpoilsBitmap(s, t, base, held, highest)
    ensures var use: Priority := if base < highest then highest else base;
            DisinheritAfterTimeout(s, t, base, held, highest) ==
            if PrioOf(s, t) != use && held == 1 then Reprioritise(s, t, use, PrioOf(s, t)) else s
  {
    if IsReady(s, t) {
      assert Has(s.lists[s.home[t]].entries, t);
    }
  }

  lemma DisinheritKeeps(s: State, t: Task, base: Priority, held: nat, highest: Priority)
    requires Inv(s) && Live(s, t) && !SpoilsBitmap(s, t, base, held, highest)
    ensures Inv(DisinheritAfterTimeout(s, t, base, held, highest))
  {
    DisinheritIsReprioritise(s, t, base, held, highest);
    hide Inv, DisinheritAfterTimeout, Reprioritise;
    ReprioritiseKeeps(s, t, if base < highest then highest else base);
  }

  lemma PrioChangeEvents(home: map<Task, ListId>, t: Task, p: Priority, waiting: set<Task>, pending: seq<Task>)
    requires Events(home, waiting, pending) && t in home && home[t] < PRIORITIES
    ensures Events(home[t := p], waiting, pending)
  {
  }

  /** Stepping round a list keeps its entries. */
  lemma NextKeeps(lists: StateLists, home: map<Task, ListId>, top: set<nat>, p: Priority)
    requires Linked(lists, home) && TopExact(lists, top) && lists[p].entries != []
    ensures var r := lists[p := Next(lists[p])];
            Linked(r, home) && TopExact(r, top) && forall i: ListId :: r[i].entries == lists[i].entries
  {
    var r := lists[p := Next(lists[p])];
    assert forall i: ListId :: r[i].entries == lists[i].entries;
  }

  lemma SwitchContextKeeps(s: State)
    requires Inv(s)
    ensures Inv(SwitchContext(s))
  {
    hide HighestBit, Timely, Events, Placed, Linked, TopExact, Next;
    var p := HighestBit(s.top, PRIORITIES);
    if p < PRIORITIES && s.lists[p].entries != [] {
      NextKeeps(s.lists, s.home, s.top, p);
    }
  }

  /** Every step of the scheduler keeps the invariant. */
  lemma StepKeeps(s: State, step: Step)
    requires Inv(s) && Enabled(s, step)
    ensures Inv(Apply(s, step))
  {
    match step
    case Tick => if s.locks == 0 { TickCore(s); }
    case BlockStep(_, d, indefinitely, onEvent) => BlockKeeps(s, d, indefinitely, onEvent);
    case EventWake(t) => UnblockKeeps(s, t);
    case Notify(t) => UnblockKeeps(s, t);
    case DirectWake(t) => UnblockDirectlyKeeps(s, t);
    case SuspendAllStep =>
    case ResumeAllStep => ResumeAllKeeps(s);
    case SwitchStep => SwitchContextKeeps(s);
    case CreateStep(t, p) => CreateKeeps(s, t, p);
    case DeleteStep(t) => if t == s.running { DeleteSelfKeeps(s, t); } else { DeleteOtherKeeps(s, t); }
    case ReapStep => ReapKeeps(s);
    case SuspendStep(t) => SuspendKeeps(s, t);
    case ResumeStep(t) => ResumeTaskKeeps(s, t);
    case PriorityStep(t, p) => ReprioritiseKeeps(s, t, p);
    case DisinheritStep(t, base, held, highest) => DisinheritKeeps(s, t, base, held, highest);
  }

  lemma {:induction false} RunKeeps(s: State, steps: seq<Step>)
    requires Inv(s) && CanRun(s, steps)
    ensures Inv(Run(s, steps))
    decreases |steps|
  {
    if steps != [] {
      StepKeeps(s, steps[0]);
      RunKeeps(Apply(s, steps[0]), steps[1..]);
    }
  }

  lemma {:induction false} RunThen(s: State, steps: seq<Step>, step: Step)
    requires CanRun(s, steps) && Enabled(Run(s, steps), step)
    ensures CanRun(s, steps + [step]) && Run(s, steps + [step]) == Apply(Run(s, steps), step)
    decreases |steps|
  {
    hide Enabled, Apply;
    if steps == [] {
      assert [step][1..] == [];
    } else {
      assert (steps + [step])[1..] == steps[1..] + [step];
      RunThen(Apply(s, steps[0]), steps[1..], step);
    }
  }
}
