/**
 What every operation of the scheduler keeps, and what follows for the ready
 bitmap and for the task lists.
 */
module KernelInvariants {
  import opened Sequences
  import opened Ticks
  import opened Lists
  import opened Kernel

  /** Every task is in exactly the list its state item names. */
  ghost predicate Linked(lists: StateLists, home: map<Task, ListId>) {
    && (forall i: ListId :: Valid(lists[i]))
    && (forall i: ListId, e :: e in lists[i].entries ==> e.owner in home && home[e.owner] == i)
    && (forall t :: t in home ==> Has(lists[home[t]].entries, t))
  }

  /** Ready tasks are in the list of their own priority. */
  ghost predicate Placed(home: map<Task, ListId>, prio: map<Task, Priority>) {
    && home.Keys == prio.Keys
    && (forall t :: t in home && home[t] < PRIORITIES ==> home[t] == prio[t])
  }

  /** The counters count. */
  ghost predicate Counted(s: State) {
    && s.count == |s.home|
    && s.reap == |s.lists[TERMINATING].entries|
  }

  /** Bit p is set iff ready list p is not empty. */
  ghost predicate TopExact(lists: StateLists, top: set<nat>) {
    forall p: nat :: p in top <==> p < PRIORITIES && lists[p].entries != []
  }

  ghost predicate Blocked(home: map<Task, ListId>, t: Task) {
    t in home && home[t] in {DELAYED, OVERFLOWED, SUSPENDED}
  }

  /** Event items and the pending list agree with the state lists. */
  ghost predicate Events(home: map<Task, ListId>, waiting: set<Task>, pending: seq<Task>) {
    && (forall t :: t in waiting ==> Blocked(home, t) && t !in pending)
    && (forall t :: t in pending ==> t in home && home[t] != TERMINATING)
    && Distinct(pending)
  }

  /** Nothing is held back once the scheduler runs. */
  ghost predicate Released(s: State) {
    s.locks == 0 ==> s.pending == [] && s.pended == 0
  }

  /** Both delayed lists are sorted, nothing in the current one is due, and the
      cached unblock time is never late. */
  ghost predicate Timely(tick: Tick, next: Tick, delayed: seq<Entry<Task>>, overflowed: seq<Entry<Task>>) {
    && Sorted(delayed) && Sorted(overflowed)
    && (forall e :: e in delayed ==> tick < e.value < WRAP && next <= e.value)
    && (forall e :: e in overflowed ==> e.value < WRAP)
  }

  ghost predicate OnTime(s: State) {
    Timely(s.tick, s.nextUnblock, s.lists[DELAYED].entries, s.lists[OVERFLOWED].entries)
  }

  /** `OnTime` before the delayed list has been scanned for the current tick. */
  ghost predicate Unscanned(s: State) {
    && Sorted(s.lists[DELAYED].entries) && Sorted(s.lists[OVERFLOWED].entries)
    && (forall e :: e in s.lists[DELAYED].entries ==> e.value < WRAP)
    && (forall e :: e in s.lists[OVERFLOWED].entries ==> e.value < WRAP)
  }

  ghost predicate Base(s: State) {
    Linked(s.lists, s.home) && Placed(s.home, s.prio) && TopExact(s.lists, s.top)
  }

  /** What also holds inside `xTaskResumeAll`. */
  ghost predicate Core(s: State) {
    Base(s) && Counted(s) && Events(s.home, s.waiting, s.pending) && OnTime(s)
  }

  /** The invariant of the scheduler between operations. */
  ghost predicate Inv(s: State) {
    Core(s) && Released(s)
  }

  // ---- Linked -------------------------------------------------------------------

  ghost predicate IsLinked(s: State) {
    Linked(s.lists, s.home)
  }

  lemma UnlinkLinked(s: State, t: Task)
    requires IsLinked(s)
    ensures IsLinked(Unlink(s, t)) && Unlink(s, t).home == s.home - {t}
    ensures t !in s.home ==> Unlink(s, t) == s
  {
    hide Valid, Remove;
    if t in s.home {
      RemoveValid(s.lists[s.home[t]], t);
      RemoveEntries(s.lists[s.home[t]], t);
    } else {
      assert s.home - {t} == s.home;
    }
  }

  lemma UnlinkEntries(s: State, t: Task, i: ListId)
    requires IsLinked(s)
    ensures forall e :: e in Unlink(s, t).lists[i].entries <==> e in s.lists[i].entries && e.owner != t
    ensures Sorted(s.lists[i].entries) ==> Sorted(Unlink(s, t).lists[i].entries)
  {
    if t in s.home {
      RemoveEntries(s.lists[s.home[t]], t);
      if Sorted(s.lists[s.home[t]].entries) {
        RemoveSorted(s.lists[s.home[t]], t);
      }
    }
  }

  lemma AppendLinked(s: State, t: Task, i: ListId)
    requires IsLinked(s) && t !in s.home
    ensures IsLinked(Append(s, t, i))
    ensures forall e :: e in Append(s, t, i).lists[i].entries <==> e in s.lists[i].entries || e == Entry(t, 0)
  {
    assert !Has(s.lists[i].entries, t);
    InsertEndKeeps(s.lists[i], Entry(t, 0));
  }

  lemma FileLinked(s: State, t: Task, i: ListId, wake: Tick)
    requires IsLinked(s) && t !in s.home && Sorted(s.lists[i].entries)
    ensures IsLinked(File(s, t, i, wake)) && Sorted(File(s, t, i, wake).lists[i].entries)
    ensures forall e :: e in File(s, t, i, wake).lists[i].entries <==> e in s.lists[i].entries || e == Entry(t, wake)
  {
    hide Insert, Sorted;
    assert !Has(s.lists[i].entries, t);
    InsertKeeps(s.lists[i], Entry(t, wake));
  }

  lemma MakeReadyLinked(s: State, t: Task)
    requires IsLinked(s)
    ensures IsLinked(MakeReady(s, t))
  {
    var u := Unlink(s, t);
    var p := PrioOf(s, t);
    assert IsLinked(u) && t !in u.home by { UnlinkLinked(s, t); }
    AppendLinked(u, t, p);
    assert MakeReady(s, t).lists == Append(u, t, p).lists;
    assert MakeReady(s, t).home == Append(u, t, p).home;
  }

  lemma MakeReadyEffect(s: State, t: Task)
    ensures MakeReady(s, t).home == s.home[t := PrioOf(s, t)]
    ensures MakeReady(s, t) ==
            s.(lists := MakeReady(s, t).lists, home := MakeReady(s, t).home, top := s.top + {PrioOf(s, t)})
  {
  }

  /** What of the other lists changes when a task moves to its ready list. */
  lemma MakeReadyEntries(s: State, t: Task, i: ListId)
    requires IsLinked(s)
    ensures i != PrioOf(s, t) ==>
              forall e :: e in MakeReady(s, t).lists[i].entries <==> e in s.lists[i].entries && e.owner != t
    ensures i >= PRIORITIES && Sorted(s.lists[i].entries) ==> Sorted(MakeReady(s, t).lists[i].entries)
    ensures MakeReady(s, t).lists[PrioOf(s, t)].entries != []
  {
    UnlinkEntries(s, t, i);
    var u := Unlink(s, t);
    var p := PrioOf(s, t);
    assert MakeReady(s, t).lists == u.lists[p := InsertEnd(u.lists[p], Entry(t, 0))];
  }

  // ---- the ready bitmap -----------------------------------------------------------

  /** The list a task leaves for the ready list of its priority is either not a ready
      list or that same one, so no bit goes stale. */
  lemma MakeReadyTop(s: State, t: Task)
    requires IsLinked(s) && Placed(s.home, s.prio) && TopExact(s.lists, s.top) && t in s.home
    ensures TopExact(MakeReady(s, t).lists, MakeReady(s, t).top)
  {
    hide IsLinked;
    var p, r := PrioOf(s, t), MakeReady(s, t);
    forall q: nat | q < PRIORITIES
      ensures q in r.top <==> r.lists[q].entries != []
    {
      MakeReadyEntries(s, t, q);
      if q != p {
        assert q != s.home[t];
        assert r.lists[q] == s.lists[q];
      }
    }
  }

  /** Leaving a ready list for good clears its bit exactly when it empties. */
  lemma LeaveReadyTop(s: State, t: Task)
    requires IsLinked(s) && TopExact(s.lists, s.top) && IsReady(s, t)
    ensures TopExact(UnlinkAndReset(s, t, PrioOf(s, t)).lists, UnlinkAndReset(s, t, PrioOf(s, t)).top)
  {
    hide Remove;
    var p := PrioOf(s, t);
    assert Has(s.lists[p].entries, t);
    assert forall q: nat :: q < PRIORITIES && q != p ==> Unlink(s, t).lists[q] == s.lists[q];
  }

  lemma MakeReadyBase(s: State, t: Task)
    requires Base(s) && t in s.home
    ensures Base(MakeReady(s, t))
    ensures Unscanned(s) ==> Unscanned(MakeReady(s, t))
    ensures OnTime(s) ==> OnTime(MakeReady(s, t))
  {
    hide Linked, TopExact, Remove;
    MakeReadyLinked(s, t);
    MakeReadyTop(s, t);
    MakeReadyEntries(s, t, DELAYED);
    MakeReadyEntries(s, t, OVERFLOWED);
    MakeReadyEffect(s, t);
  }

  // ---- ticks ------------------------------------------------------------------------

  lemma WakeHeadIsMakeReady(s: State)
    requires IsLinked(s) && s.lists[DELAYED].entries != []
    ensures var t := s.lists[DELAYED].entries[0].owner;
            t in s.home && s.home[t] == DELAYED && WakeHead(s) == MakeReady(s.(waiting := s.waiting - {t}), t)
  {
    var e := s.lists[DELAYED].entries[0];
    assert e in s.lists[DELAYED].entries;
    assert Find(s.lists[DELAYED].entries, e.owner) == 0;
  }

  /** The part of the state the scan of the delayed list can change. */
  ghost predicate OnlyWakes(s: State, r: State) {
    r == s.(lists := r.lists, home := r.home, top := r.top, waiting := r.waiting, nextUnblock := r.nextUnblock)
  }

  lemma {:induction false} WakeExpiredKeeps(s: State)
    requires Base(s) && Unscanned(s)
    ensures Base(WakeExpired(s)) && OnTime(WakeExpired(s)) && OnlyWakes(s, WakeExpired(s))
    decreases |s.lists[DELAYED].entries|
  {
    hide Linked, Placed;
    var d := s.lists[DELAYED].entries;
    if d == [] || s.tick < d[0].value {
      assert forall e :: e in d ==> d[0].value <= e.value;
    } else {
      WakeHeadIsMakeReady(s);
      MakeReadyBase(s.(waiting := s.waiting - {d[0].owner}), d[0].owner);
      WakeExpiredKeeps(WakeHead(s));
    }
  }

  /** From s to r exactly the due entries left the delayed list, each for the ready list
      of its task's priority. */
  ghost predicate WokeDue(s: State, r: State) {
    && (forall e :: e in r.lists[DELAYED].entries <==> e in s.lists[DELAYED].entries && e.value > s.tick)
    && r.lists[OVERFLOWED] == s.lists[OVERFLOWED]
    && r.lists[TERMINATING] == s.lists[TERMINATING]
    && r.home.Keys == s.home.Keys
    && (forall t :: t in s.home ==> r.home[t] == s.home[t] || r.home[t] == PrioOf(s, t))
    && (forall e :: e in s.lists[DELAYED].entries && e.value <= s.tick && e.owner in s.home ==>
          r.home[e.owner] == PrioOf(s, e.owner))
  }

  lemma WakeHeadEffect(s: State)
    requires Base(s) && s.lists[DELAYED].entries != []
    ensures var w, d := WakeHead(s), s.lists[DELAYED].entries;
            && w.home == s.home[d[0].owner := PrioOf(s, d[0].owner)]
            && w.lists[OVERFLOWED] == s.lists[OVERFLOWED] && w.lists[TERMINATING] == s.lists[TERMINATING]
            && w.tick == s.tick && w.prio == s.prio
            && d[0].owner in s.home
            && (forall e :: e in w.lists[DELAYED].entries <==> e in d && e != d[0])
  {
    var d := s.lists[DELAYED].entries;
    var t := d[0].owner;
    var u := s.(waiting := s.waiting - {t});
    WakeHeadIsMakeReady(s);
    MakeReadyEffect(u, t);
    assert forall e :: e in WakeHead(s).lists[DELAYED].entries <==> e in d && e.owner != t by {
      MakeReadyEntries(u, t, DELAYED);
    }
    assert forall e :: e in d && e.owner == t ==> e == d[0];
  }

  lemma WokeDueStep(s: State, w: State, r: State, head: Entry<Task>)
    requires s.home.Keys == s.prio.Keys && head in s.lists[DELAYED].entries && head.value <= s.tick
    requires w.home == s.home[head.owner := PrioOf(s, head.owner)] && head.owner in s.home
    requires w.lists[OVERFLOWED] == s.lists[OVERFLOWED] && w.lists[TERMINATING] == s.lists[TERMINATING]
    requires w.tick == s.tick && w.prio == s.prio
    requires forall e :: e in w.lists[DELAYED].entries <==> e in s.lists[DELAYED].entries && e != head
    requires WokeDue(w, r)
    ensures WokeDue(s, r)
  {
    assert w.home.Keys == s.home.Keys;
  }

  lemma {:induction false} WakeExpiredEffect(s: State)
    requires Base(s) && Unscanned(s)
    ensures WokeDue(s, WakeExpired(s))
    decreases |s.lists[DELAYED].entries|
  {
    hide Linked, TopExact, Remove, Has;
    var d := s.lists[DELAYED].entries;
    if d == [] || s.tick < d[0].value {
      assert forall e :: e in d ==> d[0].value <= e.value;
    } else {
      var w := WakeHead(s);
      assert Base(w) && Unscanned(w) by {
        WakeHeadIsMakeReady(s);
        MakeReadyBase(s.(waiting := s.waiting - {d[0].owner}), d[0].owner);
      }
      WakeExpiredEffect(w);
      WakeHeadEffect(s);
      WokeDueStep(s, w, WakeExpired(w), d[0]);
    }
  }

  lemma {:induction false} WakeExpiredEvents(s: State)
    requires Base(s) && Unscanned(s) && Events(s.home, s.waiting, s.pending)
    ensures var r := WakeExpired(s); Events(r.home, r.waiting, r.pending)
    decreases |s.lists[DELAYED].entries|
  {
    hide Linked, TopExact, Placed, Remove;
    var d := s.lists[DELAYED].entries;
    if !(d == [] || s.tick < d[0].value) {
      var w, t := WakeHead(s), d[0].owner;
      assert Base(w) && Unscanned(w) by {
        WakeHeadIsMakeReady(s);
        MakeReadyBase(s.(waiting := s.waiting - {t}), t);
      }
      WakeHeadEffect(s);
      assert w.pending == s.pending && w.waiting == s.waiting - {t};
      WakeExpiredEvents(w);
    }
  }

  /** Scanning only when the tick has reached the cached unblock time does what scanning
      always would. */
  function ScanIfReached(s: State): State {
    if s.tick >= s.nextUnblock then WakeExpired(s) else s
  }

  lemma CacheIsSound(s: State)
    requires Base(s) && Unscanned(s) && Events(s.home, s.waiting, s.pending)
    requires forall e :: e in s.lists[DELAYED].entries ==> s.nextUnblock <= e.value
    ensures var r := ScanIfReached(s);
            && Base(r) && OnTime(r) && OnlyWakes(s, r) && WokeDue(s, r)
            && Events(r.home, r.waiting, r.pending)
  {
    if s.tick >= s.nextUnblock {
      WakeExpiredKeeps(s);
      WakeExpiredEffect(s);
      WakeExpiredEvents(s);
    }
  }

  lemma SwitchEffect(s: State)
    ensures var v := SwitchDelayed(s);
            && v.home.Keys == s.home.Keys
            && (forall t :: t in s.home ==> v.home[t] == Swapped(s.home[t]))
            && (forall i: ListId :: v.lists[i] == s.lists[Swapped(i)])
            && v == s.(lists := v.lists, home := v.home, overflows := s.overflows + 1, nextUnblock := v.nextUnblock)
  {
  }

  lemma SwitchLinked(s: State)
    requires IsLinked(s)
    ensures IsLinked(SwitchDelayed(s))
  {
    SwitchEffect(s);
    var v := SwitchDelayed(s);
    forall t | t in v.home
      ensures Has(v.lists[v.home[t]].entries, t)
    {
      assert v.lists[v.home[t]] == s.lists[s.home[t]];
    }
  }

  lemma SwitchHomes(s: State)
    requires Placed(s.home, s.prio) && Events(s.home, s.waiting, s.pending)
    ensures var v := SwitchDelayed(s); Placed(v.home, v.prio) && Events(v.home, v.waiting, v.pending)
  {
    SwitchEffect(s);
    hide SwitchDelayed;
  }

  lemma SwitchTop(s: State)
    requires TopExact(s.lists, s.top)
    ensures TopExact(SwitchDelayed(s).lists, SwitchDelayed(s).top)
  {
    SwitchEffect(s);
    hide SwitchDelayed;
    assert forall p: nat :: p < PRIORITIES ==> SwitchDelayed(s).lists[p] == s.lists[p];
  }

  lemma SwitchKeeps(s: State)
    requires Base(s) && Unscanned(s) && Events(s.home, s.waiting, s.pending)
    ensures var v := SwitchDelayed(s);
            && Base(v) && Unscanned(v) && Events(v.home, v.waiting, v.pending)
            && (forall e :: e in v.lists[DELAYED].entries ==> v.nextUnblock <= e.value)
  {
    hide Linked, TopExact, Placed, Events, SwapHomes;
    SwitchLinked(s);
    SwitchHomes(s);
    SwitchTop(s);
    var d := SwitchDelayed(s).lists[DELAYED].entries;
    assert forall e :: e in d ==> d[0].value <= e.value;
  }

  // ---- deadlines --------------------------------------------------------------------

  /** Task t is blocked until true tick d. */
  ghost predicate Due(s: State, t: Task, d: nat) {
    || (Entry(t, Low(d)) in s.lists[DELAYED].entries && Epoch(d) == s.overflows)
    || (Entry(t, Low(d)) in s.lists[OVERFLOWED].entries && Epoch(d) == s.overflows + 1)
  }

  /** A blocked task's deadline lies ahead. */
  lemma DueLater(s: State, t: Task, d: nat)
    requires OnTime(s) && Due(s, t, d)
    ensures d > Now(s)
  {
    Split(d);
    var e := Entry(t, Low(d));
    if e in s.lists[DELAYED].entries && Epoch(d) == s.overflows {
      assert s.tick < e.value;
    }
  }

  /** The state one tick interrupt scans. */
  function Ticked(s: State): State {
    var u := s.(tick := Add(s.tick, 1));
    if u.tick == 0 then SwitchDelayed(u) else u
  }

  lemma HeadIsMember<T>(q: seq<T>)
    ensures q == [] || q[0] in q
  {
  }

  lemma TickedKeeps(s: State)
    requires Base(s) && OnTime(s) && Events(s.home, s.waiting, s.pending)
    ensures var v := Ticked(s);
            && Base(v) && Unscanned(v) && Events(v.home, v.waiting, v.pending)
            && v.home.Keys == s.home.Keys
            && (forall e :: e in v.lists[DELAYED].entries ==> v.nextUnblock <= e.value)
            && TickAwake(s) == ScanIfReached(v)
            && Now(v) == Now(s) + 1
            && v == s.(tick := v.tick, lists := v.lists, home := v.home, overflows := v.overflows,
                       nextUnblock := v.nextUnblock)
            && v.lists[TERMINATING] == s.lists[TERMINATING]
            && (forall t, d :: Due(v, t, d) <==> Due(s, t, d))
  {
    hide Linked, TopExact, Placed, SwitchDelayed, WakeExpired;
    var u := s.(tick := Add(s.tick, 1));
    if u.tick == 0 {
      SwitchKeeps(u);
      SwitchEffect(u);
      HeadIsMember(s.lists[DELAYED].entries);
    }
  }

  /** Taking out the entries whose word is reached takes out the deadlines that are. */
  lemma WokeDueDeadlines(v: State, r: State, t: Task, d: nat)
    requires WokeDue(v, r) && OnlyWakes(v, r) && d >= Now(v)
    ensures Due(r, t, d) <==> Due(v, t, d) && d != Now(v)
  {
    Split(d);
    SameTime(d, v.overflows, v.tick);
  }

  lemma WokeDueReady(v: State, r: State, t: Task)
    requires WokeDue(v, r) && OnlyWakes(v, r) && IsLinked(v) && Due(v, t, Now(v))
    ensures IsReady(r, t)
  {
    Join(v.overflows, v.tick);
    assert Entry(t, v.tick) in v.lists[DELAYED].entries;
  }

  /** One tick: the clock advances by one, exactly the tasks due at the new time become
      ready, and every other deadline stands. */
  lemma TickWakesExactlyTheDue(s: State)
    requires Base(s) && OnTime(s) && Events(s.home, s.waiting, s.pending)
    ensures var r := TickAwake(s);
            && Base(r) && OnTime(r) && Events(r.home, r.waiting, r.pending)
            && Now(r) == Now(s) + 1
            && (forall t, d :: Due(r, t, d) <==> Due(s, t, d) && d != Now(r))
            && (forall t :: Due(s, t, Now(r)) ==> IsReady(r, t))
  {
    var v, r := Ticked(s), TickAwake(s);
    TickedKeeps(s);
    CacheIsSound(v);
    forall t, d | Due(s, t, d) || Due(r, t, d)
      ensures Due(r, t, d) <==> Due(s, t, d) && d != Now(r)
    {
      if Due(s, t, d) { DueLater(s, t, d); } else { DueLater(r, t, d); }
      WokeDueDeadlines(v, r, t, d);
    }
    forall t | Due(s, t, Now(r))
      ensures IsReady(r, t)
    {
      WokeDueReady(v, r, t);
    }
  }
}
