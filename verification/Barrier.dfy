/**
 The rendezvous that `xEventGroupSync` is for (event_groups.c): tasks with disjoint bits
 meet again and again by setting their own bits and waiting, without limit, for all.
 */
module Barrier {
  import opened EventGroups

  /** Each task in turn has its own bits; `done` counts the rounds it has finished, `inside`
      that it is in the call, and `results` what the calls have returned. */
  datatype System = System(g: Group, done: seq<nat>, inside: seq<bool>, results: seq<Bits>)

  datatype Step = Enter(task: Task) | Leave(task: Task)

  function All(masks: seq<Bits>): Bits {
    if masks == [] then 0 else Union(masks[0], All(masks[1..]))
  }

  predicate Has(b: Bits, m: Bits) {
    Met(b, m, true)
  }

  /** No task without bits of its own, no bit shared, none in the control byte. */
  ghost predicate Separate(masks: seq<Bits>) {
    && (forall t :: 0 <= t < |masks| ==> masks[t] != 0 && masks[t] & CONTROL == 0)
    && (forall t, u :: 0 <= t < |masks| && 0 <= u < |masks| && t != u ==> Avoids(masks[t], masks[u]))
  }

  predicate Enabled(s: System, masks: seq<Bits>, step: Step) {
    match step
    case Enter(t) => t < |masks| && t < |s.done| && t < |s.inside| && !s.inside[t]
    case Leave(t) =>
      && t < |masks| && t < |s.done| && t < |s.inside| && s.inside[t]
      && t in s.g.woken && t in s.g.asked
  }

  function Apply(s: System, masks: seq<Bits>, step: Step): System
    requires Enabled(s, masks, step)
  {
    match step
    case Enter(t) =>
      var (outcome, g) := Sync(s.g, t, masks[t], All(masks), true);
      (match outcome
       case Returns(value) => System(g, s.done[t := s.done[t] + 1], s.inside, s.results + [value])
       case Blocks => System(g, s.done, s.inside[t := true], s.results))
    case Leave(t) =>
      var (value, g) := Resume(s.g, t);
      System(g, s.done[t := s.done[t] + 1], s.inside[t := false], s.results + [value])
  }

  predicate CanRun(s: System, masks: seq<Bits>, steps: seq<Step>)
    decreases |steps|
  {
    steps == [] || (Enabled(s, masks, steps[0]) && CanRun(Apply(s, masks, steps[0]), masks, steps[1..]))
  }

  function Run(s: System, masks: seq<Bits>, steps: seq<Step>): System
    requires CanRun(s, masks, steps)
    decreases |steps|
  {
    if steps == [] then s else Run(Apply(s, masks, steps[0]), masks, steps[1..])
  }

  function Start(n: nat): System {
    System(Created(), seq(n, _ => 0), seq(n, _ => false), [])
  }

  // ---- bits ------------------------------------------------------------------------------------------

  lemma HasUnion(v: Bits, a: Bits, b: Bits)
    requires Has(v, a) && Has(v, b)
    ensures Has(v, Union(a, b))
  {
  }

  lemma UnionHas(a: Bits, b: Bits, m: Bits)
    requires Has(a, m)
    ensures Has(Union(a, b), m)
  {
  }

  lemma UnionHasOwn(a: Bits, m: Bits)
    ensures Has(Union(a, m), m)
  {
  }

  lemma HasParts(v: Bits, a: Bits, m: Bits)
    requires Has(v, a) && Has(a, m)
    ensures Has(v, m)
  {
  }

  lemma BothIsNone(v: Bits, m: Bits)
    requires Has(v, m) && Avoids(v, m)
    ensures m == 0
  {
  }

  lemma AvoidsUnion(a: Bits, b: Bits, m: Bits)
    requires Avoids(a, m) && Avoids(b, m)
    ensures Avoids(Union(a, b), m)
  {
  }

  lemma HasEachOther(a: Bits, b: Bits)
    requires Has(a, b) && Has(b, a)
    ensures a == b
  {
  }

  lemma NothingRemains(v: Bits, c: Bits)
    ensures Minus(Minus(v, c), v) == 0
  {
  }

  lemma ZeroAvoids(m: Bits)
    ensures Avoids(0, m) && Has(m, 0)
  {
  }

  lemma MinusNothing(v: Bits)
    ensures Minus(v, 0) == v
  {
  }

  lemma HasItself(v: Bits)
    ensures Has(v, v)
  {
  }

  lemma {:induction false} AllHas(masks: seq<Bits>, t: nat)
    requires t < |masks|
    ensures Has(All(masks), masks[t])
  {
    hide Has, Union;
    var rest := All(masks[1..]);
    UnionCommutes(masks[0], rest);
    if t == 0 {
      UnionHasOwn(rest, masks[0]);
    } else {
      AllHas(masks[1..], t - 1);
      UnionHas(rest, masks[0], masks[t]);
    }
  }

  lemma {:induction false} HasAll(v: Bits, masks: seq<Bits>)
    requires forall t :: 0 <= t < |masks| ==> Has(v, masks[t])
    ensures Has(v, All(masks))
  {
    hide Has, Union;
    if masks == [] {
      ZeroAvoids(v);
    } else {
      HasAll(v, masks[1..]);
      HasUnion(v, masks[0], All(masks[1..]));
    }
  }

  lemma {:induction false} AllOffControl(masks: seq<Bits>)
    requires forall t :: 0 <= t < |masks| ==> masks[t] & CONTROL == 0
    ensures All(masks) & CONTROL == 0
  {
    if masks == [] {
      ZeroOffControl();
    } else {
      AllOffControl(masks[1..]);
      OffControl(masks[0], All(masks[1..]));
    }
  }

  // ---- the invariant -----------------------------------------------------------------------------------

  predicate Waits(s: System, t: Task) {
    t < |s.inside| && s.inside[t] && t !in s.g.woken
  }

  ghost predicate Stands(g: Group, t: Task) {
    exists w :: w in g.waiters && w.task == t
  }

  ghost predicate ListOk(g: Group, all: Bits) {
    && DistinctTasks(g.waiters)
    && (forall w :: w in g.waiters ==> w.item == Pack(Request(all, true, true)))
  }

  /** r rounds have been completed: who is outside has finished all of them, who waits has too
      and stands in the list for the next, and who is woken has still to return from the last. */
  ghost predicate TaskOk(s: System, t: Task, all: Bits, r: nat)
    requires t < |s.done| && t < |s.inside|
  {
    if !s.inside[t] then s.done[t] == r && t !in s.g.woken
    else if t in s.g.woken then s.done[t] + 1 == r && s.g.woken[t] == Answer(all) && t in s.g.asked
    else s.done[t] == r && t in s.g.asked
  }

  ghost predicate InRound(s: System, masks: seq<Bits>, r: nat) {
    var all := All(masks);
    && |s.done| == |s.inside| == |masks|
    && (forall t :: 0 <= t < |masks| ==> TaskOk(s, t, all, r))
    && ListOk(s.g, all)
    && (forall t :: Waits(s, t) <==> Stands(s.g, t))
    && (forall t :: 0 <= t < |masks| ==> if Waits(s, t) then Has(s.g.bits, masks[t]) else Avoids(s.g.bits, masks[t]))
    && Has(all, s.g.bits)
    && (forall v :: v in s.results ==> v == all)
  }

  // ---- steps -----------------------------------------------------------------------------------------------

  lemma ItemMatches(w: Waiter, all: Bits, value: Bits)
    requires w.item == Pack(Request(all, true, true)) && all & CONTROL == 0
    ensures Matches(w, value) == Has(value, all)
  {
    PackingRoundTrips(Request(all, true, true), all);
    hide Pack, Unpack, Answer, Met;
  }

  lemma {:induction false} NoneMatch(ws: seq<Waiter>, value: Bits)
    requires forall w :: w in ws ==> !Matches(w, value)
    ensures Kept(ws, value) == ws && ClearMask(ws, value) == 0 && Wakes(ws, value) == map[]
  {
    hide Matches;
    if ws != [] {
      NoneMatch(ws[1..], value);
    }
  }

  lemma {:induction false} AllMatch(ws: seq<Waiter>, value: Bits)
    requires forall w :: w in ws ==> Matches(w, value)
    ensures Kept(ws, value) == []
  {
    hide Matches;
    if ws != [] {
      AllMatch(ws[1..], value);
    }
  }

  /** Unless all the others wait, the bits of one are missing. */
  lemma Incomplete(s: System, masks: seq<Bits>, r: nat, t: Task, u: Task)
    requires Separate(masks) && InRound(s, masks, r) && t < |masks| && u < |masks| && u != t && !Waits(s, u)
    ensures !Has(Union(s.g.bits, masks[t]), All(masks))
  {
    var value := Union(s.g.bits, masks[t]);
    hide Has, Avoids, Union, TaskOk, ListOk;
    AvoidsUnion(s.g.bits, masks[t], masks[u]);
    if Has(value, All(masks)) {
      AllHas(masks, u);
      HasParts(value, All(masks), masks[u]);
      BothIsNone(value, masks[u]);
    }
  }

  lemma Complete(s: System, masks: seq<Bits>, r: nat, t: Task)
    requires Separate(masks) && InRound(s, masks, r) && t < |masks|
    requires forall u :: 0 <= u < |masks| && u != t ==> Waits(s, u)
    ensures Union(s.g.bits, masks[t]) == All(masks) && Has(Union(s.g.bits, masks[t]), All(masks))
  {
    var value := Union(s.g.bits, masks[t]);
    hide Has, Avoids, Union, TaskOk, ListOk, Waits;
    forall u | 0 <= u < |masks|
      ensures Has(value, masks[u])
    {
      if u == t { UnionHasOwn(s.g.bits, masks[t]); } else { UnionHas(s.g.bits, masks[t], masks[u]); }
    }
    HasAll(value, masks);
    AllHas(masks, t);
    HasUnion(All(masks), s.g.bits, masks[t]);
    HasEachOther(value, All(masks));
  }

  /** A rendezvous call that is not the last: its bits are added and its task placed. */
  lemma SyncWaits(g: Group, t: Task, own: Bits, all: Bits)
    requires ListOk(g, all) && all & CONTROL == 0 && !Has(Union(g.bits, own), all)
    ensures Sync(g, t, own, all, true) == (Blocks, Place(g.(bits := Union(g.bits, own)), t, Request(all, true, true)))
  {
    var value := Union(g.bits, own);
    forall w | w in g.waiters
      ensures !Matches(w, value)
    {
      ItemMatches(w, all, value);
    }
    NoneMatch(g.waiters, value);
    MinusNothing(value);
    hide Kept, ClearMask, Wakes, Union, Minus, Pack, Matches, Met;
    assert g.woken + map[] == g.woken;
  }

  /** The last one: all waiters are woken, and no bit stays. */
  lemma SyncReleases(g: Group, t: Task, own: Bits, all: Bits)
    requires ListOk(g, all) && all & CONTROL == 0 && Union(g.bits, own) == all
    ensures Sync(g, t, own, all, true) ==
            (Returns(all), Group(0, [], g.woken + Wakes(g.waiters, all), g.expired, g.asked))
    ensures forall w :: w in g.waiters ==> Matches(w, all)
  {
    HasItself(all);
    forall w | w in g.waiters
      ensures Matches(w, all)
    {
      ItemMatches(w, all, all);
    }
    AllMatch(g.waiters, all);
    NothingRemains(all, ClearMask(g.waiters, all));
    hide Kept, ClearMask, Wakes, Union, Minus, Pack, Matches, Met;
  }

  /** Entering while someone is missing: the task's bits are added and it waits. */
  lemma EnterEarly(s: System, masks: seq<Bits>, r: nat, t: Task, u: Task)
    requires Separate(masks) && InRound(s, masks, r) && Enabled(s, masks, Enter(t))
    requires u < |masks| && u != t && !Waits(s, u)
    ensures InRound(Apply(s, masks, Enter(t)), masks, r)
  {
    hide Sync, All;
    Incomplete(s, masks, r, t, u);
    AllOffControl(masks);
    SyncWaits(s.g, t, masks[t], All(masks));
    hide Sync, Union, Pack, Has, Avoids, Stands, ListOk;
    var value, all, q := Union(s.g.bits, masks[t]), All(masks), Apply(s, masks, Enter(t));
    EnterList(s, q, masks, r, t);
    EnterBits(s, q, masks, r, t);
    forall x | 0 <= x < |masks|
      ensures TaskOk(q, x, all, r)
    {
      assert TaskOk(s, x, all, r);
    }
  }

  /** Whose bits are set, after one more has entered. */
  lemma EnterBits(s: System, q: System, masks: seq<Bits>, r: nat, t: Task)
    requires Separate(masks) && InRound(s, masks, r) && t < |masks| && !s.inside[t]
    requires q.g.woken == s.g.woken && q.inside == s.inside[t := true]
    ensures var value := Union(s.g.bits, masks[t]);
            && Has(All(masks), value)
            && (forall x :: 0 <= x < |masks| ==> if Waits(q, x) then Has(value, masks[x]) else Avoids(value, masks[x]))
  {
    hide Union, Has, Avoids, Stands, ListOk;
    var value, all := Union(s.g.bits, masks[t]), All(masks);
    AllHas(masks, t);
    HasUnion(all, s.g.bits, masks[t]);
    assert TaskOk(s, t, all, r);
    forall x | 0 <= x < |masks|
      ensures if Waits(q, x) then Has(value, masks[x]) else Avoids(value, masks[x])
    {
      if x == t { UnionHasOwn(s.g.bits, masks[t]); }
      else if Waits(s, x) { UnionHas(s.g.bits, masks[t], masks[x]); }
      else { AvoidsUnion(s.g.bits, masks[t], masks[x]); }
    }
  }

  /** Who waits and who stands in the list, after one more has been placed. */
  lemma EnterList(s: System, q: System, masks: seq<Bits>, r: nat, t: Task)
    requires InRound(s, masks, r) && t < |masks| && !s.inside[t]
    requires q.g.waiters == s.g.waiters + [Waiter(t, Pack(Request(All(masks), true, true)))]
    requires q.g.woken == s.g.woken && q.inside == s.inside[t := true]
    ensures ListOk(q.g, All(masks))
    ensures forall x :: Waits(q, x) <==> Stands(q.g, x)
  {
    hide Pack;
    var e := Waiter(t, Pack(Request(All(masks), true, true)));
    assert forall w :: w in q.g.waiters <==> w in s.g.waiters || w == e;
    assert !Waits(s, t) && TaskOk(s, t, All(masks), r);
    StandsSnoc(s.g, q.g, e);
    hide Pack, Met, Avoids, Stands;
    forall x
      ensures Waits(q, x) <==> Stands(q.g, x)
    {
      assert x != t ==> Waits(q, x) == Waits(s, x);
    }
  }

  lemma StandsSnoc(g: Group, q: Group, e: Waiter)
    requires q.waiters == g.waiters + [e]
    ensures forall x :: Stands(q, x) <==> Stands(g, x) || x == e.task
    ensures !Stands(g, e.task) && DistinctTasks(g.waiters) ==> DistinctTasks(q.waiters)
  {
    assert e in q.waiters;
    assert forall w :: w in q.waiters <==> w in g.waiters || w == e;
    if !Stands(g, e.task) && DistinctTasks(g.waiters) {
      forall i, j | 0 <= i < j < |q.waiters|
        ensures q.waiters[i].task != q.waiters[j].task
      {
        assert g.waiters[i] in g.waiters;
      }
    }
  }

  /** The last to enter releases everybody: the bits start again from nothing, and all are told
      the full mask. */
  lemma EnterLast(s: System, masks: seq<Bits>, r: nat, t: Task)
    requires Separate(masks) && InRound(s, masks, r) && Enabled(s, masks, Enter(t))
    requires forall u :: 0 <= u < |masks| && u != t ==> Waits(s, u)
    ensures InRound(Apply(s, masks, Enter(t)), masks, r + 1)
  {
    hide Sync, Union, Pack, Met, Avoids, Matches, Wakes, All;
    Complete(s, masks, r, t);
    AllOffControl(masks);
    SyncReleases(s.g, t, masks[t], All(masks));
    var all, q, next := All(masks), Apply(s, masks, Enter(t)), r + 1;
    ZeroAvoids(all);
    forall x | 0 <= x < |masks|
      ensures TaskOk(q, x, all, next) && !Waits(q, x) && Avoids(0, masks[x])
    {
      assert TaskOk(s, x, all, r) && (Waits(s, x) <==> Stands(s.g, x));
      WakesExactly(s.g.waiters, all, x);
      ZeroAvoids(masks[x]);
    }
    assert forall x :: !Stands(q.g, x);
  }

  lemma LeaveKeeps(s: System, masks: seq<Bits>, r: nat, t: Task)
    requires Separate(masks) && InRound(s, masks, r) && Enabled(s, masks, Leave(t))
    ensures InRound(Apply(s, masks, Leave(t)), masks, r)
  {
    var all := All(masks);
    AllOffControl(masks);
    PackingRoundTrips(Request(all, true, true), all);
    assert TaskOk(s, t, all, r);
    var q := Apply(s, masks, Leave(t));
    assert q.results == s.results + [all];
    assert q.g.bits == s.g.bits && q.g.waiters == s.g.waiters && q.g.woken == s.g.woken - {t};
    hide Resume, Pack, Met, Avoids, Answer;
    forall x | 0 <= x < |masks|
      ensures TaskOk(q, x, all, r)
    {
      assert TaskOk(s, x, all, r);
    }
    assert forall x :: Waits(q, x) == Waits(s, x);
  }

  lemma StepKeeps(s: System, masks: seq<Bits>, step: Step, r: nat) returns (q: nat)
    requires Separate(masks) && InRound(s, masks, r) && Enabled(s, masks, step)
    ensures InRound(Apply(s, masks, step), masks, q) && r <= q
  {
    q := r;
    match step
    case Leave(t) => LeaveKeeps(s, masks, r, t);
    case Enter(t) =>
      if u :| 0 <= u < |masks| && u != t && !Waits(s, u) {
        EnterEarly(s, masks, r, t, u);
      } else {
        q := r + 1;
        EnterLast(s, masks, r, t);
      }
  }

  lemma {:induction false} RunKeeps(s: System, masks: seq<Bits>, steps: seq<Step>, r: nat) returns (q: nat)
    requires Separate(masks) && InRound(s, masks, r) && CanRun(s, masks, steps)
    ensures InRound(Run(s, masks, steps), masks, q)
    decreases |steps|
  {
    hide InRound, Enabled, Apply, Separate;
    q := r;
    if steps != [] {
      q := StepKeeps(s, masks, steps[0], r);
      q := RunKeeps(Apply(s, masks, steps[0]), masks, steps[1..], q);
    }
  }

  /** How many rounds a task has entered. */
  function Entered(s: System, t: Task): nat
    requires t < |s.done| && t < |s.inside|
  {
    s.done[t] + if s.inside[t] then 1 else 0
  }

  /** In every run nobody has finished a round that someone has not entered, no two tasks are
      more than one finished round apart, and every call returns the full mask. */
  lemma BarrierHolds(masks: seq<Bits>, steps: seq<Step>)
    requires Separate(masks) && CanRun(Start(|masks|), masks, steps)
    ensures var s := Run(Start(|masks|), masks, steps);
            && |s.done| == |s.inside| == |masks|
            && (forall t, u :: 0 <= t < |masks| && 0 <= u < |masks| ==>
                  s.done[t] <= Entered(s, u) && s.done[t] <= s.done[u] + 1)
            && (forall v :: v in s.results ==> v == All(masks))
  {
    StartInRound(masks);
    var r := RunKeeps(Start(|masks|), masks, steps, 0);
    var s := Run(Start(|masks|), masks, steps);
    hide Run, CanRun, Separate, ListOk, Has, Avoids;
    forall t, u | 0 <= t < |masks| && 0 <= u < |masks|
      ensures s.done[t] <= Entered(s, u) && s.done[t] <= s.done[u] + 1
    {
      assert TaskOk(s, t, All(masks), r) && TaskOk(s, u, All(masks), r);
    }
  }

  lemma StartInRound(masks: seq<Bits>)
    ensures InRound(Start(|masks|), masks, 0)
  {
    ZeroAvoids(All(masks));
    forall t | 0 <= t < |masks|
      ensures Avoids(0, masks[t])
    {
      ZeroAvoids(masks[t]);
    }
    hide Has, Avoids;
  }
}
