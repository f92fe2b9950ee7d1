/**
 A run in which undoing an inheritance leaves a stale bit behind (tasks.c, line 4341).
 Task 7 holds one mutex and task 3 another.  Task 3 waits for the first, for one tick, and
 lends task 7 its priority 5; task 9 waits for the second and lends task 3 its priority 8.
 When its wait expires task 3 runs at 8 and task 7 is alone at 5.
 */
module StaleBit {
  import opened Ticks
  import opened Lists
  import opened Kernel
  import opened KernelInvariants
  import opened KernelRuns
  import opened KernelSelection

  /** Some run from the start of the scheduler ends in s. */
  ghost predicate Reached(s: State) {
    exists steps: seq<Step> :: CanRun(Initial(), steps) && Run(Initial(), steps) == s
  }

  lemma StartReached()
    ensures Reached(Initial())
  {
    assert CanRun(Initial(), []) && Run(Initial(), []) == Initial();
  }

  lemma Then(s: State, step: Step)
    requires Reached(s) && Enabled(s, step)
    ensures Reached(Apply(s, step))
  {
    hide Enabled, Apply;
    var steps: seq<Step> :| CanRun(Initial(), steps) && Run(Initial(), steps) == s;
    RunThen(Initial(), steps, step);
  }

  // ---- a state by what differs from an idle scheduler ------------------------------------------

  datatype Picture = Picture(
    lists: map<ListId, List<Task>>, home: map<Task, ListId>, prio: map<Task, Priority>,
    top: set<nat>, waiting: set<Task>, running: Task, tick: Tick, next: Tick)

  function ListIn(v: Picture, i: ListId): List<Task> {
    if i in v.lists then v.lists[i] else List([], 0)
  }

  ghost predicate Shows(s: State, v: Picture) {
    && (forall i: ListId :: s.lists[i] == ListIn(v, i))
    && s == State(v.tick, 0, v.next, s.lists, v.home, v.prio, v.top, v.waiting, [], 0, 0, |v.home|, 0, v.running)
  }

  function One(t: Task, value: nat, index: nat): List<Task> {
    List([Entry(t, value)], index)
  }

  lemma OneLess(t: Task, value: nat, index: nat)
    requires index <= 1
    ensures Remove(One(t, value, index), t) == List([], 0) && RemoveAt(One(t, value, index), 0) == List([], 0)
  {
    assert Find([Entry(t, value)], t) == 0;
  }

  lemma OneMore(t: Task, value: nat)
    ensures InsertEnd(List([], 0), Entry(t, value)) == One(t, value, 0)
    ensures Insert(List([], 0), Entry(t, value)) == One(t, value, 0)
  {
  }

  // ---- the steps the run takes -----------------------------------------------------------------

  function CreatedIn(v: Picture, t: Task, p: Priority): Picture {
    v.(lists := v.lists[p := One(t, 0, 0)], home := v.home[t := p], prio := v.prio[t := p], top := v.top + {p})
  }

  lemma CreateShown(s: State, v: Picture, t: Task, p: Priority)
    requires Shows(s, v) && t !in v.home && ListIn(v, p) == List([], 0)
    ensures Enabled(s, CreateStep(t, p)) && Shows(Apply(s, CreateStep(t, p)), CreatedIn(v, t, p))
  {
    OneMore(t, 0);
    hide InsertEnd;
  }

  lemma Creates(s: State, v: Picture, t: Task, p: Priority) returns (r: State, w: Picture)
    requires Reached(s) && Shows(s, v) && t !in v.home && ListIn(v, p) == List([], 0)
    ensures Reached(r) && Shows(r, w) && w == CreatedIn(v, t, p)
  {
    CreateShown(s, v, t, p);
    hide Reached, Enabled, Apply, Shows;
    r, w := Apply(s, CreateStep(t, p)), CreatedIn(v, t, p);
    Then(s, CreateStep(t, p));
  }

  lemma Switches(s: State, v: Picture, t: Task, p: Priority, index: nat) returns (r: State, w: Picture)
    requires Reached(s) && Shows(s, v) && index <= 1 && ListIn(v, p) == One(t, 0, index)
    requires p in v.top && forall q :: q in v.top ==> q <= p
    ensures Reached(r) && Shows(r, w)
    ensures w == v.(lists := v.lists[p := One(t, 0, 1)], running := t)
  {
    HighestBitIs(s.top, PRIORITIES, p);
    hide HighestBit;
    assert Next(One(t, 0, index)) == One(t, 0, 1);
    r := Apply(s, SwitchStep);
    w := v.(lists := v.lists[p := One(t, 0, 1)], running := t);
    hide Reached, Enabled, Apply;
    Then(s, SwitchStep);
  }

  /** t, alone in list p, is raised into the list that only u is in and has just run from. */
  function Raised(v: Picture, t: Task, u: Task, p: Priority, q: Priority): Picture {
    v.(lists := v.lists[p := List([], 0)][q := List([Entry(t, 0), Entry(u, 0)], 2)],
       home := v.home[t := q], prio := v.prio[t := q], top := v.top - {p})
  }

  lemma RaiseShown(s: State, v: Picture, t: Task, u: Task, p: Priority, q: Priority)
    requires Shows(s, v) && p != q && ListIn(v, p) == One(t, 0, 1) && ListIn(v, q) == One(u, 0, 1)
    requires t in v.home && v.home[t] == p && t in v.prio && v.prio[t] == p && q in v.top
    ensures Enabled(s, PriorityStep(t, q)) && Shows(Apply(s, PriorityStep(t, q)), Raised(v, t, u, p, q))
  {
    OneLess(t, 0, 1);
    hide Remove;
    assert InsertEnd(One(u, 0, 1), Entry(t, 0)) == List([Entry(t, 0), Entry(u, 0)], 2);
    hide InsertEnd;
    assert |v.home[t := q]| == |v.home| by { assert v.home[t := q].Keys == v.home.Keys; }
  }

  lemma LendsReady(s: State, v: Picture, t: Task, u: Task, p: Priority, q: Priority) returns (r: State, w: Picture)
    requires Reached(s) && Shows(s, v) && p != q && ListIn(v, p) == One(t, 0, 1) && ListIn(v, q) == One(u, 0, 1)
    requires t in v.home && v.home[t] == p && t in v.prio && v.prio[t] == p && q in v.top
    ensures Reached(r) && Shows(r, w) && w == Raised(v, t, u, p, q)
  {
    RaiseShown(s, v, t, u, p, q);
    hide Reached, Enabled, Apply, Shows;
    r, w := Apply(s, PriorityStep(t, q)), Raised(v, t, u, p, q);
    Then(s, PriorityStep(t, q));
  }

  lemma LendsBlocked(s: State, v: Picture, t: Task, q: Priority) returns (r: State, w: Picture)
    requires Reached(s) && Shows(s, v) && t in v.home && v.home[t] >= PRIORITIES && v.home[t] != TERMINATING
    ensures Reached(r) && Shows(r, w)
    ensures w == v.(prio := v.prio[t := q])
  {
    r := Apply(s, PriorityStep(t, q));
    w := v.(prio := v.prio[t := q]);
    hide Reached, Enabled, Apply;
    Then(s, PriorityStep(t, q));
  }

  /** The running task, which shares its list with u, blocks on an event for one tick. */
  function BlockedOneTick(v: Picture, u: Task, p: Priority): Picture {
    var t := v.running;
    v.(lists := v.lists[p := One(u, 0, 1)][DELAYED := One(t, 1, 0)], home := v.home[t := DELAYED],
       waiting := v.waiting + {t}, next := 1)
  }

  ghost predicate SharesList(v: Picture, u: Task, p: Priority) {
    var t := v.running;
    && ListIn(v, p) == List([Entry(u, 0), Entry(t, 0)], 2) && u != t && t !in v.waiting
    && t in v.home && v.home[t] == p && t in v.prio && v.prio[t] == p
  }

  lemma OneOfTwo(u: Task, t: Task)
    requires u != t
    ensures Remove(List([Entry(u, 0), Entry(t, 0)], 2), t) == One(u, 0, 1)
  {
    assert Find([Entry(u, 0), Entry(t, 0)], t) == 1;
  }

  lemma SharerLeaves(s: State, v: Picture, u: Task, p: Priority)
    requires Shows(s, v) && SharesList(v, u, p)
    ensures var t, w := v.running, s.(waiting := s.waiting + {v.running});
            && t in s.home && s.home[t] == p && PrioOf(s, t) == p && s.running == t && t !in s.waiting && t !in s.pending
            && UnlinkAndReset(w, t, p) == w.(lists := s.lists[p := One(u, 0, 1)], home := s.home - {t})
  {
    hide Remove;
    OneOfTwo(u, v.running);
  }

  lemma OneTickShown(s: State, v: Picture, u: Task, p: Priority)
    requires Shows(s, v) && v.tick == 0 && v.next == MAX_DELAY && ListIn(v, DELAYED) == List([], 0)
    requires SharesList(v, u, p)
    ensures Enabled(s, BlockStep(v.running, 1, true, true))
    ensures Shows(Apply(s, BlockStep(v.running, 1, true, true)), BlockedOneTick(v, u, p))
  {
    hide Remove, Insert, UnlinkAndReset, SharesList;
    var t := v.running;
    SharerLeaves(s, v, u, p);
    OneMore(t, 1);
    assert (s.home - {t})[t := DELAYED] == s.home[t := DELAYED];
    assert |v.home[t := DELAYED]| == |v.home| by { assert v.home[t := DELAYED].Keys == v.home.Keys; }
  }

  lemma BlocksOneTick(s: State, v: Picture, u: Task, p: Priority) returns (r: State, w: Picture)
    requires Reached(s) && Shows(s, v) && v.tick == 0 && v.next == MAX_DELAY && ListIn(v, DELAYED) == List([], 0)
    requires SharesList(v, u, p)
    ensures Reached(r) && Shows(r, w) && w == BlockedOneTick(v, u, p)
  {
    OneTickShown(s, v, u, p);
    hide Reached, Enabled, Apply, Shows;
    r, w := Apply(s, BlockStep(v.running, 1, true, true)), BlockedOneTick(v, u, p);
    Then(s, BlockStep(v.running, 1, true, true));
  }

  function BlockedForEver(v: Picture, p: Priority): Picture {
    var t := v.running;
    v.(lists := v.lists[p := List([], 0)][SUSPENDED := InsertEnd(ListIn(v, SUSPENDED), Entry(t, 0))],
       home := v.home[t := SUSPENDED], top := v.top - {p}, waiting := v.waiting + {t})
  }

  lemma BlockShown(s: State, v: Picture, p: Priority)
    requires Shows(s, v)
    requires var t := v.running;
             && ListIn(v, p) == One(t, 0, 1)
             && t in v.home && v.home[t] == p && t in v.prio && v.prio[t] == p
    ensures Shows(Block(s, MAX_DELAY, true, true), BlockedForEver(v, p))
  {
    var t := v.running;
    OneLess(t, 0, 1);
    hide Remove, InsertEnd;
    assert |v.home[t := SUSPENDED]| == |v.home| by { assert v.home[t := SUSPENDED].Keys == v.home.Keys; }
  }

  /** The running task, alone in its list, blocks on an event for ever. */
  lemma BlocksForEver(s: State, v: Picture, p: Priority) returns (r: State, w: Picture)
    requires Reached(s) && Shows(s, v)
    requires var t := v.running;
             && ListIn(v, p) == One(t, 0, 1) && t !in v.waiting
             && t in v.home && v.home[t] == p && t in v.prio && v.prio[t] == p
    ensures Reached(r) && Shows(r, w) && w == BlockedForEver(v, p)
  {
    BlockShown(s, v, p);
    r := Apply(s, BlockStep(v.running, MAX_DELAY, true, true));
    w := BlockedForEver(v, p);
    assert Enabled(s, BlockStep(v.running, MAX_DELAY, true, true));
    hide Reached, Enabled, Apply;
    Then(s, BlockStep(v.running, MAX_DELAY, true, true));
  }

  /** The only delayed task wakes at the first tick, alone in its ready list. */
  lemma WaitEnds(s: State, v: Picture, t: Task, p: Priority) returns (r: State, w: Picture)
    requires Reached(s) && Shows(s, v) && v.tick == 0 && v.next == 1 && ListIn(v, DELAYED) == One(t, 1, 0)
    requires t in v.home && t in v.prio && v.prio[t] == p && ListIn(v, p) == List([], 0)
    ensures Reached(r) && Shows(r, w)
    ensures w == v.(lists := v.lists[DELAYED := List([], 0)][p := One(t, 0, 0)], home := v.home[t := p],
                     top := v.top + {p}, waiting := v.waiting - {t}, tick := 1, next := MAX_DELAY)
  {
    hide Reached, RemoveAt;
    OneLess(t, 1, 0);
    OneMore(t, 0);
    hide RemoveAt, InsertEnd;
    var u := WakeHead(s.(tick := 1));
    assert u.lists[DELAYED] == List([], 0);
    assert WakeExpired(u) == ResetUnblock(u);
    assert |v.home[t := p]| == |v.home| by { assert v.home[t := p].Keys == v.home.Keys; }
    r := Apply(s, Tick);
    w := v.(lists := v.lists[DELAYED := List([], 0)][p := One(t, 0, 0)], home := v.home[t := p],
                     top := v.top + {p}, waiting := v.waiting - {t}, tick := 1, next := MAX_DELAY);
    hide Reached, Enabled, Apply;
    Then(s, Tick);
  }

  /** Undoing the inheritance of a task alone in its list leaves that list's bit set. */
  lemma Undoes(s: State, v: Picture, t: Task, p: Priority, base: Priority)
    requires Shows(s, v) && p != base && ListIn(v, p) == One(t, 0, 1) && ListIn(v, base) == List([], 0)
    requires t in v.home && v.home[t] == p && t in v.prio && v.prio[t] == p
    ensures SpoilsBitmap(s, t, base, 1, 0)
    ensures Shows(DisinheritAfterTimeout(s, t, base, 1, 0),
                  v.(lists := v.lists[p := List([], 0)][base := One(t, 0, 0)], home := v.home[t := base],
                     prio := v.prio[t := base], top := v.top + {base}))
  {
    OneLess(t, 0, 1);
    OneMore(t, 0);
    hide Remove, InsertEnd;
    assert |v.home[t := base]| == |v.home| by { assert v.home[t := base].Keys == v.home.Keys; }
  }

  // ---- the run ------------------------------------------------------------------------------------

  lemma NothingShown()
    ensures Shows(Initial(), Picture(map[], map[], map[], {}, {}, 0, 0, MAX_DELAY))
  {
  }

  /** Task 7 runs and takes the first mutex, then task 3 the second. */
  lemma BothHold() returns (s: State, v: Picture)
    ensures Reached(s) && Shows(s, v)
    ensures v == Picture(map[1 := One(7, 0, 1), 5 := One(3, 0, 1)], map[7 := 1, 3 := 5], map[7 := 1, 3 := 5], {1, 5}, {},
                         3, 0, MAX_DELAY)
  {
    hide Reached, Shows, Apply, Enabled;
    s, v := Initial(), Picture(map[], map[], map[], {}, {}, 0, 0, MAX_DELAY);
    StartReached();
    NothingShown();
    s, v := Creates(s, v, 7, 1);
    s, v := Switches(s, v, 7, 1, 0);
    s, v := Creates(s, v, 3, 5);
    s, v := Switches(s, v, 3, 5, 0);
    assert v.lists == map[1 := One(7, 0, 1), 5 := One(3, 0, 1)];
    assert v.home == map[7 := 1, 3 := 5] && v.top == {1, 5};
  }

  /** Task 3 waits for the first mutex and task 7 goes on. */
  lemma CallerWaits() returns (s: State, v: Picture)
    ensures Reached(s) && Shows(s, v)
    ensures v == Picture(map[1 := List([], 0), 5 := One(7, 0, 1), DELAYED := One(3, 1, 0)], map[7 := 5, 3 := DELAYED],
                         map[7 := 5, 3 := 5], {5}, {3}, 7, 0, 1)
  {
    hide Reached, Shows;
    s, v := BothHold();
    s, v := LendsReady(s, v, 7, 3, 1, 5);
    s, v := BlocksOneTick(s, v, 7, 5);
    s, v := Switches(s, v, 7, 5, 1);
    assert v.lists == map[1 := List([], 0), 5 := One(7, 0, 1), DELAYED := One(3, 1, 0)];
    assert v.home == map[7 := 5, 3 := DELAYED] && v.prio == map[7 := 5, 3 := 5] && v.top == {5};
  }

  /** Task 9 comes to run, and lends task 3 its priority. */
  lemma WaiterRuns() returns (s: State, v: Picture)
    ensures Reached(s) && Shows(s, v)
    ensures v == Picture(map[1 := List([], 0), 5 := One(7, 0, 1), 8 := One(9, 0, 1), DELAYED := One(3, 1, 0)],
                         map[7 := 5, 3 := DELAYED, 9 := 8], map[7 := 5, 3 := 8, 9 := 8], {5, 8}, {3}, 9, 0, 1)
  {
    hide Reached, Shows, One, Enabled, Apply, InsertEnd;
    s, v := CallerWaits();
    s, v := Creates(s, v, 9, 8);
    s, v := Switches(s, v, 9, 8, 0);
    s, v := LendsBlocked(s, v, 3, 8);
    assert v.lists == map[1 := List([], 0), 5 := One(7, 0, 1), 8 := One(9, 0, 1), DELAYED := One(3, 1, 0)];
    assert v.home == map[7 := 5, 3 := DELAYED, 9 := 8] && v.prio == map[7 := 5, 3 := 8, 9 := 8] && v.top == {5, 8};
  }

  /** It waits for the second mutex. */
  lemma BothWait() returns (s: State, v: Picture)
    ensures Reached(s) && Shows(s, v)
    ensures v == Picture(map[1 := List([], 0), 5 := One(7, 0, 1), 8 := List([], 0), DELAYED := One(3, 1, 0),
                             SUSPENDED := One(9, 0, 0)],
                         map[7 := 5, 3 := DELAYED, 9 := SUSPENDED], map[7 := 5, 3 := 8, 9 := 8], {5}, {3, 9}, 7, 0, 1)
  {
    hide Reached, Shows, One, Enabled, Apply, InsertEnd;
    s, v := WaiterRuns();
    OneMore(9, 0);
    s, v := BlocksForEver(s, v, 8);
    s, v := Switches(s, v, 7, 5, 1);
    assert v.lists == map[1 := List([], 0), 5 := One(7, 0, 1), 8 := List([], 0), DELAYED := One(3, 1, 0),
                          SUSPENDED := One(9, 0, 0)];
    assert v.home == map[7 := 5, 3 := DELAYED, 9 := SUSPENDED] && v.top == {5} && v.waiting == {3, 9};
  }

  /** The first wait expires. */
  lemma CallerBack() returns (s: State, v: Picture)
    ensures Reached(s) && Shows(s, v)
    ensures v == Picture(map[1 := List([], 0), 5 := One(7, 0, 1), 8 := One(3, 0, 1), DELAYED := List([], 0),
                             SUSPENDED := One(9, 0, 0)],
                         map[7 := 5, 3 := 8, 9 := SUSPENDED], map[7 := 5, 3 := 8, 9 := 8], {5, 8}, {9}, 3, 1, MAX_DELAY)
  {
    hide Reached, Shows, One;
    s, v := BothWait();
    s, v := WaitEnds(s, v, 3, 8);
    s, v := Switches(s, v, 3, 8, 0);
    assert v.lists == map[1 := List([], 0), 5 := One(7, 0, 1), 8 := One(3, 0, 1), DELAYED := List([], 0),
                          SUSPENDED := One(9, 0, 0)];
    assert v.home == map[7 := 5, 3 := 8, 9 := SUSPENDED] && v.prio == map[7 := 5, 3 := 8, 9 := 8];
    assert v.top == {5, 8} && v.waiting == {9};
  }

  lemma ReachedInv(s: State)
    requires Reached(s)
    ensures Inv(s)
  {
    var steps: seq<Step> :| CanRun(Initial(), steps) && Run(Initial(), steps) == s;
    assert Inv(Initial()) by { InitialInv(); }
    hide Inv, CanRun, Run;
    RunKeeps(Initial(), steps);
  }

  lemma InitialInv()
    ensures Inv(Initial())
  {
  }

  /** The running task undoes t's inheritance, and later blocks.  The highest bit then names an
      empty list, while t is ready. */
  ghost predicate SelectsEmptyList(s: State, t: Task, base: Priority) {
    var b := Block(DisinheritAfterTimeout(s, t, base, 1, 0), MAX_DELAY, true, true);
    var p := HighestBit(b.top, PRIORITIES);
    p < PRIORITIES && b.lists[p].entries == [] && IsReady(b, t)
  }

  /** That is so when t is alone in list p, its caller alone in a higher one, and nobody else is
      ready. */
  lemma LeavesStaleBit(s: State, v: Picture, t: Task, p: Priority, q: Priority, base: Priority)
    requires Shows(s, v) && base < p < q && v.top == {p, q} && t != v.running
    requires ListIn(v, p) == One(t, 0, 1) && ListIn(v, base) == List([], 0) && ListIn(v, q) == One(v.running, 0, 1)
    requires t in v.home && v.home[t] == p && t in v.prio && v.prio[t] == p
    requires v.running in v.home && v.home[v.running] == q && v.running in v.prio && v.prio[v.running] == q
    ensures SpoilsBitmap(s, t, base, 1, 0) && SelectsEmptyList(s, t, base)
  {
    hide DisinheritAfterTimeout, SpoilsBitmap, Block, InsertEnd;
    Undoes(s, v, t, p, base);
    var r := DisinheritAfterTimeout(s, t, base, 1, 0);
    var w := v.(lists := v.lists[p := List([], 0)][base := One(t, 0, 0)], home := v.home[t := base],
                prio := v.prio[t := base], top := v.top + {base});
    BlockShown(r, w, q);
    HighestBitIs(BlockedForEver(w, q).top, PRIORITIES, p);
  }

  /** Such a state is reached: the caller runs at 8, the holder is ready and alone at 5 and goes
      back to 1, and the scheduler is in order. */
  lemma StaleBitSelectsEmptyList() returns (s: State)
    ensures Reached(s) && Inv(s)
    ensures s.running == 3 && IsReady(s, 3) && IsReady(s, 7)
    ensures SpoilsBitmap(s, 7, 1, 1, 0) && SelectsEmptyList(s, 7, 1)
  {
    var v: Picture;
    s, v := CallerBack();
    hide Reached, Inv, SelectsEmptyList;
    ReachedInv(s);
    LeavesStaleBit(s, v, 7, 5, 8, 1);
  }
}
