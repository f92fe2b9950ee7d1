/**
 The states a task can be in, as the documentation draws them, and that the scheduler follows the
 drawing: of each task only its state, its priority and whether it waits for an event or is held
 back, with no lists, no bitmap and no clock.
 */
module TaskStates {
  import opened Sequences
  import opened Ticks
  import opened Lists
  import opened Kernel
  import opened KernelInvariants
  import opened KernelRuns
  import opened KernelSelection

  /** Asleep ends with time; Suspended is also the state of an indefinite wait. */
  datatype Mode = Ready | Asleep | Suspended | Deleted

  datatype Table = Table(
    mode: map<Task, Mode>,
    prio: map<Task, Priority>,
    waiting: set<Task>,        // for an event
    held: seq<Task>,           // woken while the scheduler is suspended
    depth: nat,                // how deep its suspensions nest
    running: Task)

  function ModeOf(i: ListId): Mode {
    if i < PRIORITIES then Ready else if i == SUSPENDED then Suspended
    else if i == TERMINATING then Deleted else Asleep
  }

  function Modes(home: map<Task, ListId>): map<Task, Mode> {
    map t | t in home :: ModeOf(home[t])
  }

  function TableOf(s: State): Table {
    Table(Modes(s.home), s.prio, s.waiting, s.pending, s.locks, s.running)
  }

  // ---- the drawing --------------------------------------------------------------------------------

  predicate IsMode(a: Table, t: Task, m: Mode) {
    t in a.mode && a.mode[t] == m
  }

  /** Some sleepers have become ready, and wait for nothing any more. */
  ghost predicate Woken(a: Table, b: Table) {
    && b == a.(mode := b.mode, waiting := b.waiting)
    && b.mode.Keys == a.mode.Keys
    && (forall t :: t in a.mode ==> b.mode[t] == a.mode[t] || (a.mode[t] == Asleep && b.mode[t] == Ready))
    && (forall t :: t in b.waiting <==> t in a.waiting && !(IsMode(a, t, Asleep) && IsMode(b, t, Ready)))
  }

  /** The tasks held back are ready. */
  function Let(a: Table): Table {
    a.(mode := map t | t in a.mode :: if t in a.held then Ready else a.mode[t], held := [], depth := 0)
  }

  /** t has become ready, or is held back for the time the scheduler is suspended. */
  function Woke(a: Table, t: Task): Table {
    var u := a.(waiting := a.waiting - {t});
    if a.depth == 0 then u.(mode := a.mode[t := Ready]) else u.(held := a.held + [t])
  }

  /** t waits for nothing and is not held back any more. */
  function Gone(a: Table, t: Task): Table {
    a.(waiting := a.waiting - {t}, held := Without(a.held, t))
  }

  ghost predicate Picks(a: Table, t: Task) {
    IsMode(a, t, Ready) && t in a.prio
    && forall u :: IsMode(a, u, Ready) && u in a.prio ==> a.prio[u] <= a.prio[t]
  }

  ghost predicate Follows(a: Table, step: Step, b: Table) {
    match step
    case Tick => if a.depth > 0 then b == a else Woken(a, b)
    case BlockStep(t, d, indefinitely, onEvent) =>
      b == a.(mode := a.mode[t := if d == MAX_DELAY && indefinitely then Suspended else Asleep],
              waiting := if onEvent then a.waiting + {t} else a.waiting)
    case EventWake(t) => b == Woke(a, t)
    case Notify(t) => b == Woke(a, t)
    case DirectWake(t) => b == a.(waiting := a.waiting - {t}, mode := a.mode[t := Ready])
    case SuspendAllStep => b == a.(depth := a.depth + 1)
    case ResumeAllStep => if a.depth > 1 then b == a.(depth := a.depth - 1) else Woken(Let(a), b)
    case SwitchStep =>
      && b == a.(running := b.running)
      && (if a.depth == 0 && exists t :: IsMode(a, t, Ready) then Picks(a, b.running) else b == a)
    case CreateStep(t, p) => b == a.(mode := a.mode[t := Ready], prio := a.prio[t := p])
    case DeleteStep(t) =>
      b == if t == a.running then Gone(a, t).(mode := a.mode[t := Deleted])
           else Gone(a, t).(mode := a.mode - {t}, prio := a.prio - {t})
    case ReapStep => exists t :: IsMode(a, t, Deleted) && b == a.(mode := a.mode - {t}, prio := a.prio - {t})
    case SuspendStep(t) => b == Gone(a, t).(mode := a.mode[t := Suspended])
    case ResumeStep(t) =>
      b == if t != a.running && IsMode(a, t, Suspended) && t !in a.waiting && t !in a.held
           then a.(mode := a.mode[t := Ready]) else a
    case PriorityStep(t, p) => b == a.(prio := a.prio[t := p])
    case DisinheritStep(t, base, held, highest) =>
      b == if held == 1 then a.(prio := a.prio[t := if base < highest then highest else base]) else a
  }

  // ---- the scheduler follows it ---------------------------------------------------------------------

  lemma ModesUpdate(home: map<Task, ListId>, t: Task, i: ListId)
    ensures Modes(home[t := i]) == Modes(home)[t := ModeOf(i)]
    ensures Modes(home - {t}) == Modes(home) - {t}
  {
  }

  lemma IsModeReady(s: State, t: Task)
    requires Placed(s.home, s.prio)
    ensures IsMode(TableOf(s), t, Ready) <==> IsReady(s, t)
    ensures IsMode(TableOf(s), t, Ready) ==> t in s.prio && s.prio[t] == s.home[t]
  {
  }

  lemma WokenTrans(a: Table, b: Table, c: Table)
    requires Woken(a, b) && Woken(b, c)
    ensures Woken(a, c)
  {
  }

  lemma WakeHeadTable(s: State)
    requires Base(s) && s.lists[DELAYED].entries != []
    ensures var t, a := s.lists[DELAYED].entries[0].owner, TableOf(s);
            IsMode(a, t, Asleep) && TableOf(WakeHead(s)) == a.(mode := a.mode[t := Ready], waiting := a.waiting - {t})
  {
    var t := s.lists[DELAYED].entries[0].owner;
    WakeHeadIsMakeReady(s);
    hide Base, Modes, MakeReady, WakeHead;
    MakeReadyEffect(s.(waiting := s.waiting - {t}), t);
    ModesUpdate(s.home, t, PrioOf(s, t));
    ModesAt(s.home, t);
  }

  lemma WokenOne(a: Table, t: Task)
    requires IsMode(a, t, Asleep)
    ensures Woken(a, a.(mode := a.mode[t := Ready], waiting := a.waiting - {t}))
  {
  }

  lemma WakeHeadWoken(s: State)
    requires Base(s) && s.lists[DELAYED].entries != []
    ensures Woken(TableOf(s), TableOf(WakeHead(s)))
  {
    hide Base, Woken, TableOf, WakeHead;
    WakeHeadTable(s);
    WokenOne(TableOf(s), s.lists[DELAYED].entries[0].owner);
  }

  lemma ModesAt(home: map<Task, ListId>, t: Task)
    ensures t in Modes(home) <==> t in home
    ensures t in home ==> Modes(home)[t] == ModeOf(home[t])
  {
  }

  lemma {:induction false} WakeExpiredWoken(s: State)
    requires Base(s) && Unscanned(s)
    ensures Woken(TableOf(s), TableOf(WakeExpired(s)))
    decreases |s.lists[DELAYED].entries|
  {
    hide Base, Unscanned, Woken, TableOf, WakeHead;
    var d := s.lists[DELAYED].entries;
    if d == [] || s.tick < d[0].value {
      SameTable(s, ResetUnblock(s));
    } else {
      WakeHeadStays(s);
      WakeHeadWoken(s);
      WakeExpiredWoken(WakeHead(s));
      WokenTrans(TableOf(s), TableOf(WakeHead(s)), TableOf(WakeExpired(s)));
    }
  }

  lemma WakeHeadStays(s: State)
    requires Base(s) && Unscanned(s) && s.lists[DELAYED].entries != []
    ensures var w := WakeHead(s);
            Base(w) && Unscanned(w) && |w.lists[DELAYED].entries| < |s.lists[DELAYED].entries|
  {
    hide Linked, TopExact, Placed, Sorted, Remove;
    var t := s.lists[DELAYED].entries[0].owner;
    WakeHeadIsMakeReady(s);
    MakeReadyBase(s.(waiting := s.waiting - {t}), t);
  }

  lemma SameTable(s: State, r: State)
    requires r == s.(tick := r.tick, overflows := r.overflows, nextUnblock := r.nextUnblock, lists := r.lists,
                     top := r.top, pended := r.pended, home := r.home, count := r.count, reap := r.reap)
    requires r.home.Keys == s.home.Keys && forall t :: t in s.home ==> ModeOf(r.home[t]) == ModeOf(s.home[t])
    ensures TableOf(r) == TableOf(s) && Woken(TableOf(s), TableOf(r))
  {
  }

  lemma TickWoken(s: State)
    requires Core(s)
    ensures Woken(TableOf(s), TableOf(TickAwake(s)))
  {
    TickedKeeps(s);
    TickedTable(s);
    hide Base, Unscanned, Events, OnTime, Counted, Woken, TableOf, WakeExpired, Ticked, TickAwake;
    if Ticked(s).tick >= Ticked(s).nextUnblock { WakeExpiredWoken(Ticked(s)); }
  }

  lemma TickedTable(s: State)
    ensures TableOf(Ticked(s)) == TableOf(s) && Woken(TableOf(s), TableOf(s))
  {
    hide ResetUnblock, SwapHomes, SwitchDelayed;
    var u := s.(tick := Add(s.tick, 1));
    SwitchEffect(u);
    SameTable(u, SwitchDelayed(u));
  }

  lemma {:induction false} TicksWoken(s: State, n: nat)
    requires Core(s)
    ensures Woken(TableOf(s), TableOf(TickTimes(s, n)))
    decreases n
  {
    hide Core, Woken, TableOf, TickAwake;
    if n == 0 {
      TickedTable(s);
    } else {
      TickCore(s);
      TickWoken(s);
      TicksWoken(TickAwake(s), n - 1);
      WokenTrans(TableOf(s), TableOf(TickAwake(s)), TableOf(TickTimes(s, n)));
    }
  }

  lemma {:induction false} DrainTable(s: State)
    requires Core(s) && s.locks == 0
    ensures TableOf(DrainPending(s)) == Let(TableOf(s))
    decreases |s.pending|
  {
    hide Linked, TopExact, Timely, Placed, Modes, MakeReady;
    if s.pending != [] {
      var t := s.pending[0];
      var u := s.(pending := s.pending[1..]);
      assert Core(u) && Live(u, t);
      MakeReadyCore(u, t);
      MakeReadyEffect(u, t);
      DrainTable(MakeReady(u, t));
      ModesUpdate(s.home, t, PrioOf(s, t));
      hide Core;
      ModesAt(s.home, t);
      LetFirst(TableOf(s));
    } else {
      assert Let(TableOf(s)).mode == Modes(s.home);
    }
  }

  lemma LetFirst(a: Table)
    requires a.held != [] && a.held[0] in a.mode && a.depth == 0
    ensures Let(a) == Let(a.(mode := a.mode[a.held[0] := Ready], held := a.held[1..]))
  {
  }

  lemma ResumeAllFollows(s: State)
    requires Inv(s) && s.locks > 0 && s.count > 0
    ensures Follows(TableOf(s), ResumeAllStep, TableOf(ResumeAll(s)))
  {
    hide Linked, TopExact, Timely, Placed, Events, Modes, Woken, DrainPending, TickTimes;
    if s.locks == 1 {
      var u := s.(locks := 0);
      assert Core(u);
      DrainCore(u);
      DrainTable(u);
      var v := DrainPending(u);
      ResetCore(v);
      var w := if u.pending != [] then ResetUnblock(v) else v;
      TicksWoken(w, s.pended);
      assert TableOf(w) == TableOf(v) == Let(TableOf(s));
      ResumeAllReleases(s);
      SamePended(TickTimes(w, s.pended));
    }
  }

  lemma SamePended(s: State)
    ensures TableOf(s.(pended := 0)) == TableOf(s)
  {
  }

  lemma ResumeAllReleases(s: State)
    requires s.locks == 1 && s.count > 0
    ensures var u := s.(locks := 0);
            var w := if u.pending != [] then ResetUnblock(DrainPending(u)) else DrainPending(u);
            ResumeAll(s) == TickTimes(w, s.pended).(pended := 0)
  {
  }

  lemma BlockFollows(s: State, t: Task, d: Tick, indefinitely: bool, onEvent: bool)
    requires Inv(s) && Enabled(s, BlockStep(t, d, indefinitely, onEvent))
    ensures Follows(TableOf(s), BlockStep(t, d, indefinitely, onEvent), TableOf(Block(s, d, indefinitely, onEvent)))
  {
    hide Linked, TopExact, Timely, Placed, Modes, Block;
    var i := BlockLists(s, d, indefinitely, onEvent);
    ModesUpdate(s.home, t, i);
  }

  lemma WakeFollows(s: State, t: Task)
    requires Inv(s) && Live(s, t) && t !in s.pending
    ensures TableOf(Unblock(s, t)) == Woke(TableOf(s), t)
    ensures TableOf(UnblockDirectly(s, t)) == TableOf(s).(waiting := s.waiting - {t}, mode := Modes(s.home)[t := Ready])
  {
    hide Inv, Modes, MakeReady;
    MakeReadyEffect(s.(waiting := s.waiting - {t}), t);
    ModesUpdate(s.home, t, PrioOf(s, t));
  }

  lemma CreateFollows(s: State, t: Task, p: Priority)
    requires Inv(s) && t !in s.home
    ensures Follows(TableOf(s), CreateStep(t, p), TableOf(Create(s, t, p)))
  {
    hide Inv, Modes, AddReady;
    AddReadyEffect(s.(prio := s.prio[t := p], count := s.count + 1), t);
    ModesUpdate(s.home, t, p);
  }

  lemma DetachTable(s: State, t: Task)
    requires Inv(s) && Live(s, t)
    ensures TableOf(Detach(s, t)) == Gone(TableOf(s), t).(mode := Modes(s.home) - {t})
    ensures Detach(s, t).home == s.home - {t} && Detach(s, t).prio == s.prio && Detach(s, t).running == s.running
  {
    DetachKeeps(s, t);
    hide Inv, Modes, Detach, Without;
    ModesUpdate(s.home, t, SUSPENDED);
  }

  lemma DeleteFollows(s: State, t: Task)
    requires Inv(s) && Live(s, t)
    ensures Follows(TableOf(s), DeleteStep(t), TableOf(Delete(s, t)))
  {
    hide Inv, Modes, Detach, Without, ResetUnblock, Append;
    DetachTable(s, t);
    var u := Detach(s, t);
    if t == s.running {
      Parked(s, t, TERMINATING);
    } else {
      ResetTable(u.(count := s.count - 1, prio := s.prio - {t}));
    }
  }

  lemma SuspendFollows(s: State, t: Task)
    requires Inv(s) && Live(s, t)
    ensures Follows(TableOf(s), SuspendStep(t), TableOf(SuspendTask(s, t)))
  {
    hide Inv, Modes, Detach, Without, ResetUnblock, Append;
    Parked(s, t, SUSPENDED);
    ResetTable(Append(Detach(s, t), t, SUSPENDED));
  }

  lemma Parked(s: State, t: Task, i: ListId)
    requires Inv(s) && Live(s, t)
    ensures TableOf(Append(Detach(s, t), t, i)) == Gone(TableOf(s), t).(mode := Modes(s.home)[t := ModeOf(i)])
    ensures var r := Append(Detach(s, t), t, i); r == Detach(s, t).(lists := r.lists, home := r.home)
  {
    hide Inv, Modes, Detach, Without, InsertEnd;
    DetachTable(s, t);
    assert (s.home - {t})[t := i] == s.home[t := i];
    ModesUpdate(s.home, t, i);
  }

  lemma ResetTable(s: State)
    ensures TableOf(ResetUnblock(s)) == TableOf(s)
  {
  }

  lemma ReapFollows(s: State)
    requires Inv(s) && Enabled(s, ReapStep)
    ensures Follows(TableOf(s), ReapStep, TableOf(Reap(s)))
  {
    var e := s.lists[TERMINATING].entries[0];
    assert e in s.lists[TERMINATING].entries;
    assert e.owner in s.home && s.home[e.owner] == TERMINATING;
    hide Inv, Modes, Remove;
    ModesAt(s.home, e.owner);
    ModesUpdate(s.home, e.owner, 0);
    assert IsMode(TableOf(s), e.owner, Deleted);
  }

  lemma ResumeTaskFollows(s: State, t: Task)
    ensures Follows(TableOf(s), ResumeStep(t), TableOf(ResumeTask(s, t)))
  {
    hide Modes, MakeReady;
    MakeReadyEffect(s, t);
    ModesAt(s.home, t);
    ModesUpdate(s.home, t, PrioOf(s, t));
  }

  lemma PriorityFollows(s: State, t: Task, p: Priority)
    requires Inv(s) && Live(s, t)
    ensures TableOf(Reprioritise(s, t, p, PrioOf(s, t))) == TableOf(s).(prio := s.prio[t := p])
  {
    hide Linked, TopExact, Timely, Placed, Events, Modes, UnlinkAndReset, AddReady;
    if IsReady(s, t) {
      LeaveKeeps(s, t);
      var u := UnlinkAndReset(s, t, PrioOf(s, t)).(prio := s.prio[t := p]);
      AddReadyEffect(u, t);
      ModesAt(s.home, t);
      ModesUpdate(s.home, t, p);
      assert u.home[t := p] == s.home[t := p];
    }
  }

  lemma DisinheritFollows(s: State, t: Task, base: Priority, held: nat, highest: Priority)
    requires Inv(s) && Enabled(s, DisinheritStep(t, base, held, highest))
    ensures Follows(TableOf(s), DisinheritStep(t, base, held, highest),
                    TableOf(DisinheritAfterTimeout(s, t, base, held, highest)))
  {
    hide Linked, TopExact, OnTime, Events, Counted, Reprioritise, DisinheritAfterTimeout, Modes, SpoilsBitmap;
    var use: Priority := if base < highest then highest else base;
    DisinheritIsReprioritise(s, t, base, held, highest);
    PriorityFollows(s, t, use);
    assert t in s.prio;
    assert PrioOf(s, t) == use ==> s.prio[t := use] == s.prio;
  }

  lemma SwitchFollows(s: State)
    requires Inv(s)
    ensures Follows(TableOf(s), SwitchStep, TableOf(SwitchContext(s)))
  {
    hide Inv, SwitchContext, IsReady, TableOf, IsMode;
    SwitchChooses(s);
    ReadyModes(s);
    SwitchTable(s, SwitchContext(s));
    var a := TableOf(s);
    if s.locks == 0 && exists t :: IsReady(s, t) {
      var t :| IsReady(s, t);
      assert IsMode(a, t, Ready);
    } else if a.depth == 0 {
      assert forall t :: !IsMode(a, t, Ready);
    }
  }

  lemma SwitchTable(s: State, r: State)
    requires r == s.(lists := r.lists, running := r.running)
    ensures TableOf(r) == TableOf(s).(running := r.running) && TableOf(s).depth == s.locks
    ensures TableOf(s).prio == s.prio && TableOf(s).running == s.running
  {
  }

  lemma ReadyModes(s: State)
    requires Inv(s)
    ensures forall t :: IsMode(TableOf(s), t, Ready) <==> IsReady(s, t)
    ensures forall t :: IsReady(s, t) ==> t in s.prio && s.prio[t] == PrioOf(s, t)
  {
    hide Linked, TopExact, OnTime, Events, Counted;
    forall t
      ensures IsMode(TableOf(s), t, Ready) <==> IsReady(s, t)
      ensures IsReady(s, t) ==> t in s.prio && s.prio[t] == PrioOf(s, t)
    {
      IsModeReady(s, t);
    }
  }

  lemma SwitchChooses(s: State)
    requires Inv(s)
    ensures var r := SwitchContext(s);
            && r == s.(lists := r.lists, running := r.running)
            && if s.locks == 0 && exists t :: IsReady(s, t)
               then IsReady(s, r.running) && forall t :: IsReady(s, t) ==> PrioOf(s, t) <= PrioOf(s, r.running)
               else r.running == s.running
  {
    if exists t :: IsReady(s, t) {
      if s.locks == 0 {
        hide Inv, HighestBit, IsReady;
        SwitchPicksHighest(s, []);
      }
    } else {
      hide HighestBit, TopExact, OnTime, Events, Counted;
      NobodyReady(s);
    }
  }

  lemma HeadIsReady(s: State, p: Priority)
    requires Inv(s)
    ensures s.lists[p].entries != [] ==> IsReady(s, s.lists[p].entries[0].owner)
  {
    hide TopExact, OnTime, Events, Counted;
    var q := s.lists[p].entries;
    assert q == [] || q[0] in q;
  }

  lemma NobodyReady(s: State)
    requires Inv(s) && forall t :: !IsReady(s, t)
    ensures forall p: Priority :: s.lists[p].entries == []
  {
    hide Inv, IsReady;
    forall p: Priority
      ensures s.lists[p].entries == []
    {
      HeadIsReady(s, p);
    }
  }

  /** Every step of the scheduler is the step of the drawing. */
  lemma StepFollows(s: State, step: Step)
    requires Inv(s) && Enabled(s, step)
    ensures Follows(TableOf(s), step, TableOf(Apply(s, step)))
  {
    hide Inv, TableOf;
    match step
    case Tick => TickFollows(s);
    case BlockStep(t, d, indefinitely, onEvent) => BlockFollows(s, t, d, indefinitely, onEvent);
    case EventWake(t) => EventIsLive(s, t); WakeFollows(s, t);
    case Notify(t) => WakeFollows(s, t);
    case DirectWake(t) => DirectFollows(s, t);
    case SuspendAllStep => SuspendAllFollows(s);
    case ResumeAllStep => ResumeAllFollows(s);
    case SwitchStep => SwitchFollows(s);
    case CreateStep(t, p) => CreateFollows(s, t, p);
    case DeleteStep(t) => DeleteFollows(s, t);
    case ReapStep => ReapFollows(s);
    case SuspendStep(t) => SuspendFollows(s, t);
    case ResumeStep(t) => ResumeTaskFollows(s, t);
    case PriorityStep(t, p) => PriorityFollows(s, t, p); PrioFollows(s, t, p);
    case DisinheritStep(t, base, held, highest) => DisinheritFollows(s, t, base, held, highest);
  }

  lemma EventIsLive(s: State, t: Task)
    requires Inv(s) && t in s.waiting
    ensures Live(s, t) && t !in s.pending
  {
    hide Linked, TopExact, Timely, Placed;
  }

  lemma TickFollows(s: State)
    requires Inv(s)
    ensures Follows(TableOf(s), Tick, TableOf(Apply(s, Tick)))
  {
    hide Core, TickAwake, Woken, Modes;
    if s.locks == 0 { TickWoken(s); }
  }

  lemma DirectFollows(s: State, t: Task)
    requires Inv(s) && Enabled(s, DirectWake(t))
    ensures Follows(TableOf(s), DirectWake(t), TableOf(Apply(s, DirectWake(t))))
  {
    hide Inv, Modes, UnblockDirectly;
    WakeFollows(s, t);
  }

  lemma SuspendAllFollows(s: State)
    ensures Follows(TableOf(s), SuspendAllStep, TableOf(Apply(s, SuspendAllStep)))
  {
  }

  lemma PrioFollows(s: State, t: Task, p: Priority)
    requires TableOf(Reprioritise(s, t, p, PrioOf(s, t))) == TableOf(s).(prio := s.prio[t := p])
    ensures Follows(TableOf(s), PriorityStep(t, p), TableOf(Reprioritise(s, t, p, PrioOf(s, t))))
  {
  }

  // ---- every run ------------------------------------------------------------------------------------

  /** The table follows the drawing from a to b, step by step. */
  ghost predicate FollowsAll(a: Table, steps: seq<Step>, b: Table)
    decreases |steps|
  {
    if steps == [] then b == a else exists u :: Follows(a, steps[0], u) && FollowsAll(u, steps[1..], b)
  }

  /** So every run is a run of the drawing. */
  lemma {:induction false} RunFollows(s: State, steps: seq<Step>)
    requires Inv(s) && CanRun(s, steps)
    ensures FollowsAll(TableOf(s), steps, TableOf(Run(s, steps)))
    decreases |steps|
  {
    hide Inv, Enabled, Apply, TableOf, Follows;
    if steps != [] {
      StepKeeps(s, steps[0]);
      StepFollows(s, steps[0]);
      RunFollows(Apply(s, steps[0]), steps[1..]);
    }
  }

  // ---- suspending and deleting tasks ------------------------------------------------------------------

  /** t is suspended, waits for no event and is not held back. */
  predicate Aside(a: Table, t: Task) {
    IsMode(a, t, Suspended) && t !in a.waiting && t !in a.held
  }

  /** A step that brings a suspended task back, or away. */
  predicate Recalls(step: Step, t: Task) {
    match step
    case ResumeStep(u) => u == t
    case Notify(u) => u == t
    case DirectWake(u) => u == t
    case DeleteStep(u) => u == t
    case _ => false
  }

  /** What the table shows of when a step can be taken. */
  predicate Sensible(a: Table, step: Step) {
    match step
    case BlockStep(t, _, _, _) => IsMode(a, t, Ready)
    case EventWake(t) => t in a.waiting
    case Notify(t) => t in a.mode && a.mode[t] != Deleted
    case DirectWake(t) => t in a.mode && a.mode[t] != Deleted
    case CreateStep(t, _) => t !in a.mode
    case DeleteStep(t) => t in a.mode && a.mode[t] != Deleted
    case SuspendStep(t) => t in a.mode && a.mode[t] != Deleted
    case _ => true
  }

  lemma EnabledIsSensible(s: State, step: Step)
    requires Inv(s) && Enabled(s, step)
    ensures Sensible(TableOf(s), step)
  {
    hide Linked, TopExact, OnTime, Events, Counted, SpoilsBitmap;
    if step.BlockStep? {
      IsModeReady(s, step.task);
    }
  }

  lemma AsideStays(a: Table, step: Step, b: Table, t: Task)
    requires Follows(a, step, b) && Sensible(a, step) && Aside(a, t) && !Recalls(step, t)
    ensures Aside(b, t)
  {
    hide Picks;
  }

  /** A suspended task stays out of the way, neither ready nor chosen, until it is resumed or
      notified or deleted, whatever else happens. */
  lemma {:induction false} SuspendedStaysAside(s: State, steps: seq<Step>, t: Task)
    requires Inv(s) && CanRun(s, steps) && Aside(TableOf(s), t)
    requires forall step :: step in steps ==> !Recalls(step, t)
    ensures var r := Run(s, steps); Aside(TableOf(r), t) && !IsReady(r, t)
    decreases |steps|
  {
    hide Inv, Enabled, Apply, Aside, Recalls, TableOf, Follows, Sensible;
    if steps != [] {
      assert steps[0] in steps;
      StepKeeps(s, steps[0]);
      StepFollows(s, steps[0]);
      EnabledIsSensible(s, steps[0]);
      AsideStays(TableOf(s), steps[0], TableOf(Apply(s, steps[0])), t);
      SuspendedStaysAside(Apply(s, steps[0]), steps[1..], t);
    } else {
      AsideIsNotReady(s, t);
    }
  }

  lemma AsideIsNotReady(s: State, t: Task)
    requires Inv(s) && Aside(TableOf(s), t)
    ensures !IsReady(s, t)
  {
    hide Linked, TopExact, OnTime, Events, Counted;
    IsModeReady(s, t);
  }

  /** t is not there, or only its control block is. */
  predicate IsGone(a: Table, t: Task) {
    (t in a.mode ==> a.mode[t] == Deleted) && t !in a.waiting && t !in a.held
  }

  lemma GoneStays(a: Table, step: Step, b: Table, t: Task)
    requires Follows(a, step, b) && Sensible(a, step) && IsGone(a, t) && !(step.CreateStep? && step.task == t)
    ensures IsGone(b, t)
  {
    hide Picks;
  }

  /** A deleted task never comes back: it is never again ready or chosen, unless a task is created
      in its place. */
  lemma {:induction false} DeletedStaysGone(s: State, steps: seq<Step>, t: Task)
    requires Inv(s) && CanRun(s, steps) && IsGone(TableOf(s), t)
    requires forall step :: step in steps ==> !(step.CreateStep? && step.task == t)
    ensures var r := Run(s, steps); IsGone(TableOf(r), t) && !IsReady(r, t)
    decreases |steps|
  {
    hide Inv, Enabled, Apply, IsGone, TableOf, Follows, Sensible;
    if steps != [] {
      assert steps[0] in steps;
      StepKeeps(s, steps[0]);
      StepFollows(s, steps[0]);
      EnabledIsSensible(s, steps[0]);
      GoneStays(TableOf(s), steps[0], TableOf(Apply(s, steps[0])), t);
      DeletedStaysGone(Apply(s, steps[0]), steps[1..], t);
    } else {
      GoneIsNotReady(s, t);
    }
  }

  lemma GoneIsNotReady(s: State, t: Task)
    requires Inv(s) && IsGone(TableOf(s), t)
    ensures !IsReady(s, t)
  {
    hide Linked, TopExact, OnTime, Events, Counted;
    IsModeReady(s, t);
  }

  /** Suspending and deleting put a task there; resuming takes it back. */
  lemma SetAside(s: State, t: Task)
    requires Inv(s) && Live(s, t)
    ensures Aside(TableOf(SuspendTask(s, t)), t) && IsGone(TableOf(Delete(s, t)), t)
    ensures t != s.running && Aside(TableOf(s), t) ==> IsReady(ResumeTask(s, t), t)
  {
    hide Inv, Modes, Delete, SuspendTask, ResumeTask;
    SuspendFollows(s, t);
    DeleteFollows(s, t);
    if t != s.running && Aside(TableOf(s), t) {
      ResumeTaskKeeps(s, t);
      ResumeTaskFollows(s, t);
      ReadyModes(ResumeTask(s, t));
    }
  }
}
