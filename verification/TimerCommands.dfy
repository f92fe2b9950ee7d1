/**
 What a command does to its timer for good (timers.c): a start, a reset or a change of period
 begins a new schedule, whatever went before, and a stop or a deletion ends it.
 */
module TimerCommands {
  import opened Sequences
  import opened Ticks
  import opened Lists
  import opened Timers
  import opened TimerRuns
  import opened OneShots

  // ---- the log of callbacks is only written ------------------------------------------------------

  /** The same state with callbacks before those in its log. */
  function After(log: seq<Firing>, s: State): State {
    s.(fired := log + s.fired)
  }

  lemma AfterFire(log: seq<Firing>, s: State, t: Timer, instant: nat)
    ensures Fire(After(log, s), t, instant) == After(log, Fire(s, t, instant))
  {
    ConcatAssociates(log, s.fired, [Firing(t, instant, s.now)]);
  }

  lemma AfterExpireHead(log: seq<Firing>, s: State)
    requires s.current.entries != [] && Fits(s.current.entries)
    ensures ExpireHead(After(log, s)) == After(log, ExpireHead(s))
  {
    hide Insert, RemoveAt, Add;
    var e := s.current.entries[0];
    AfterFire(log, s.(current := RemoveAt(s.current, 0)), e.owner, At(s.epoch, e.value));
  }

  lemma {:induction false} AfterExpireAll(log: seq<Firing>, s: State)
    requires Fits(s.current.entries)
    ensures ExpireAll(After(log, s)) == After(log, ExpireAll(s))
    decreases Left(s.current.entries)
  {
    hide Fits, ExpireHead, Left;
    if s.current.entries != [] {
      AfterExpireHead(log, s);
      AfterExpireAll(log, ExpireHead(s));
    }
  }

  lemma AfterSample(log: seq<Firing>, s: State)
    requires Fits(s.current.entries)
    ensures Sample(After(log, s)) == After(log, Sample(s))
  {
    hide Fits, ExpireAll;
    AfterExpireAll(log, s);
  }

  lemma AfterProcessExpired(log: seq<Firing>, s: State)
    requires s.current.entries != [] && Fits(s.current.entries)
    ensures ProcessExpired(After(log, s)) == After(log, ProcessExpired(s))
  {
    hide Decide, RemoveAt, Insert, Add;
    var e := s.current.entries[0];
    var t, instant := e.owner, At(s.epoch, e.value);
    var u := s.(current := RemoveAt(s.current, 0));
    var next := Add(e.value, PeriodOf(s, t));
    AfterFire(log, u, t, instant);
    AfterFire(log, Post(u, Start(t, instant)), t, instant);
    AfterFire(log, InsertTimer(u, t, next, Decide(next, Low(s.last), e.value, PeriodOf(s, t))), t, instant);
  }

  lemma AfterTurn(log: seq<Firing>, s: State)
    requires Inv(s)
    ensures Fits(s.current.entries) && Turn(After(log, s)) == After(log, Turn(s))
  {
    hide Inv, Fits, Sample, ProcessExpired;
    InvFits(s);
    AfterSample(log, s);
    if !(Low(s.now) < Low(s.last)) && s.current.entries != [] && s.current.entries[0].value <= Low(s.now) {
      SampleLists(s);
      AfterProcessExpired(log, Sample(s));
    }
  }

  lemma SampleLists(s: State)
    requires Fits(s.current.entries) && !(Low(s.now) < Low(s.last))
    ensures Sample(s).current == s.current
  {
  }

  lemma AfterAct(log: seq<Firing>, s: State, c: Command)
    ensures Act(After(log, s), c) == After(log, Act(s, c))
  {
    hide Decide, Insert, Add;
    if c.Start? { AfterFire(log, s, c.timer, c.at + PeriodOf(s, c.timer)); }
  }

  lemma AfterHandle(log: seq<Firing>, s: State)
    requires s.queue != [] && Fits(Remove(s.current, s.queue[0].timer).entries)
    ensures Handle(After(log, s)) == After(log, Handle(s))
  {
    hide Fits, Remove, Sample, Act;
    AfterSample(log, Detach(s.(queue := s.queue[1..]), s.queue[0].timer));
    AfterAct(log, Ready(s), s.queue[0]);
  }

  lemma AfterStep(log: seq<Firing>, s: State, step: Step)
    requires Inv(s) && Enabled(s, step)
    ensures Enabled(After(log, s), step) && Apply(After(log, s), step) == After(log, Apply(s, step))
  {
    hide Inv, Turn, Handle, Fits, Remove;
    if step.DaemonTurn? { AfterTurn(log, s); }
    if step.DaemonCommand? { AfterHandle(log, s); }
  }

  lemma AfterNotTooLate(log: seq<Firing>, s: State, step: Step, t: Timer, p: Tick)
    ensures NotTooLate(After(log, s), step, t, p) <==> NotTooLate(s, step, t, p)
  {
  }

  /** So a run from such a state is the same run, with the same callbacks after those before. */
  lemma {:induction false} AfterRun(log: seq<Firing>, s: State, steps: seq<Step>, t: Timer, p: Tick)
    requires Inv(s) && CanRun(s, steps)
    ensures CanRun(After(log, s), steps) && Run(After(log, s), steps) == After(log, Run(s, steps))
    ensures NeverTooLate(After(log, s), steps, t, p) <==> NeverTooLate(s, steps, t, p)
    decreases |steps|
  {
    hide Inv, Enabled, Apply, NotTooLate, After;
    if steps != [] {
      StepKeeps(s, steps[0]);
      AfterStep(log, s, steps[0]);
      AfterNotTooLate(log, s, steps[0], t, p);
      AfterRun(log, Apply(s, steps[0]), steps[1..], t, p);
    }
  }

  lemma {:induction false} CanRunBefore(log: seq<Firing>, s: State, steps: seq<Step>)
    requires Inv(s) && CanRun(After(log, s), steps)
    ensures CanRun(s, steps)
    decreases |steps|
  {
    hide Inv, Apply;
    if steps != [] {
      EnabledBefore(log, s, steps[0]);
      StepKeeps(s, steps[0]);
      AfterStep(log, s, steps[0]);
      CanRunBefore(log, Apply(s, steps[0]), steps[1..]);
    }
  }

  lemma EnabledBefore(log: seq<Firing>, s: State, step: Step)
    requires Enabled(After(log, s), step)
    ensures Enabled(s, step)
  {
  }

  lemma {:induction false} OfConcat(a: seq<Firing>, b: seq<Firing>, t: Timer)
    ensures Of(a + b, t) == Of(a, t) + Of(b, t)
  {
    if b == [] {
      assert a + b == a;
    } else {
      var n := |b| - 1;
      assert (a + b)[..|a| + n] == a + b[..n];
      OfConcat(a, b[..n], t);
      ConcatAssociates(Of(a, t), Of(b[..n], t), if b[n].timer == t then [b[n]] else []);
    }
  }

  // ---- a command that begins a schedule ------------------------------------------------------------

  /** The command at the head of the queue is t's last, and sets it going with period p, counted
      from c: a start or a reset from when it was sent, a change of period from when it is
      handled. */
  ghost predicate Begins(s: State, t: Timer, c: nat, p: Tick) {
    && Inv(s) && s.queue != [] && s.queue[0].timer == t && For(s.queue[1..], t) == [] && p > 0
    && match s.queue[0]
       case Start(_, at) => c == at <= s.now && t in s.period && s.period[t] == p && InTime(s.now, c, p)
       case ChangePeriod(_, q) => q == p && c == s.now
       case _ => false
  }

  /** The change takes effect: the timer has the new period, is listed for one period from now and
      nothing else, and has had no callback in it. */
  lemma ChangeTakes(s: State, t: Timer, p: Tick)
    requires Begins(s, t, s.now, p) && s.queue[0].ChangePeriod?
    ensures Fits(Remove(s.current, t).entries)
    ensures var r := Handle(s);
            && Inv(r) && r.now == s.now && t in r.period && r.period[t] == p && r.autoReload == s.autoReload
            && Awaits(r, t, s.now + p, p) && Of(r.fired, t) == Of(s.fired, t)
  {
    ReadyKeeps(s);
    HandleKeeps(s);
    var u := Ready(s);
    var v := u.(period := u.period[t := p]);
    hide Inv, Ready, For, Of, ListsOk, Decide, InsertTimer, Fits, Remove;
    FreshWith(u, t, p);
    InsertNext(v, t, s.now, p);
    DecideNow(s.now, p);
    AddWords(s.now, p);
    InsertOnlyLists(v, t, Add(Low(s.now), p), Decide(Add(Low(s.now), p), Low(s.now), Low(s.now), p));
  }

  lemma FreshWith(s: State, t: Timer, p: Tick)
    requires Fresh(s) && !Listed(s, t)
    ensures var v := s.(period := s.period[t := p]); Fresh(v) && !Listed(v, t)
  {
    SameListsOk(s, s.(period := s.period[t := p]));
    hide ListsOk;
  }

  lemma DecideNow(n: nat, p: Tick)
    requires p > 0
    ensures Decide(Add(Low(n), p), Low(n), Low(n), p) != ProcessNow
  {
    PlacementIsExact(n, n, p);
    AddWords(n, p);
    hide Decide;
  }

  lemma InsertOnlyLists(s: State, t: Timer, next: Tick, placement: Placement)
    ensures var r := InsertTimer(s, t, next, placement); r == s.(current := r.current, overflow := r.overflow)
  {
    hide Insert;
  }

  /** A start or a reset, handled in time, does so likewise; if its first instant has come already
      that callback is run. */
  lemma StartTakes(s: State, t: Timer, c: nat, p: Tick)
    requires Begins(s, t, c, p) && s.queue[0].Start?
    ensures Fits(Remove(s.current, t).entries)
    ensures var r := Handle(s);
            && Inv(r) && r.period == s.period && r.autoReload == s.autoReload
            && if c + p > s.now then Awaits(r, t, c + p, p) && Of(r.fired, t) == Of(s.fired, t)
               else GoesOn(r, t, c + p, p) && Of(r.fired, t) == Of(s.fired, t) + [Firing(t, c + p, s.now)]
  {
    ReadyKeeps(s);
    HandleKeeps(s);
    hide Inv, Ready, For, Of, Fresh, Awaits, GoesOn, DoStart, Listed, Fits, Remove;
    var u := Ready(s);
    if s.now < c + WRAP {
      StartNext(u, t, c, p);
      StartFires(u, t, c, p);
    } else {
      LateStart(u, t, c, p);
    }
    FireOf(u.fired, Firing(t, c + p, s.now), t);
  }

  lemma StartFires(s: State, t: Timer, c: nat, p: Tick)
    requires s.last == s.now && c <= s.now < c + WRAP && p > 0 && PeriodOf(s, t) == p
    ensures DoStart(s, t, c).fired == if c + p <= s.now then s.fired + [Firing(t, c + p, s.now)] else s.fired
  {
    PlacementIsExact(c, s.now, p);
    AddWords(c, p);
    hide Decide, Insert;
  }

  lemma FirstAwaited(r: State, t: Timer, c: nat, p: Tick)
    requires p > 0 && t in r.period && r.period[t] == p && Of(r.fired, t) == [] && Awaits(r, t, c + p, p)
    ensures if t in r.autoReload then OnSchedule(r, t, c, p) else Once(r, t, c, p)
  {
    hide Of, Awaits;
    assert Instant(c, p, 1) == c + p;
  }

  lemma FirstFired(r: State, t: Timer, c: nat, p: Tick, when: nat)
    requires p > 0 && t in r.period && r.period[t] == p && when >= c + p
    requires Of(r.fired, t) == [Firing(t, c + p, when)] && GoesOn(r, t, c + p, p)
    ensures if t in r.autoReload then OnSchedule(r, t, c, p) else Once(r, t, c, p)
  {
    hide Of, Awaits, Listed, For;
    assert Instant(c, p, 1) == c + p && Instant(c, p, 2) == c + p + p;
  }

  lemma BeginsKeeps(s: State, t: Timer, c: nat, p: Tick)
    requires Begins(s, t, c, p) && Of(s.fired, t) == []
    ensures Fits(Remove(s.current, t).entries)
    ensures var r := Handle(s);
            Inv(r) && if t in s.autoReload then OnSchedule(r, t, c, p) else Once(r, t, c, p)
  {
    hide Inv, Handle, For, Of, Awaits, GoesOn, OnSchedule, Once, Fits, Remove;
    if s.queue[0].ChangePeriod? {
      ChangeTakes(s, t, p);
      FirstAwaited(Handle(s), t, c, p);
    } else {
      StartTakes(s, t, c, p);
      if c + p > s.now { FirstAwaited(Handle(s), t, c, p); } else { FirstFired(Handle(s), t, c, p, s.now); }
    }
  }

  /** What the callbacks of t are after the first k: those of a schedule counted from c. */
  ghost predicate Keeps(f: seq<Firing>, k: nat, c: nat, p: Tick, repeats: bool) {
    && k <= |f|
    && (forall i {:trigger f[i]} :: k <= i < |f| ==> f[i].instant == c + (i - k + 1) * p && f[i].when >= f[i].instant)
    && (!repeats ==> |f| <= k + 1)
  }

  lemma KeepsFromNothing(r: State, t: Timer, c: nat, p: Tick, was: seq<Firing>)
    requires if t in r.autoReload then OnSchedule(r, t, c, p) else Once(r, t, c, p)
    ensures Keeps(was + Of(r.fired, t), |was|, c, p, t in r.autoReload)
  {
    hide Of, Awaits, For, Listed;
    var f := was + Of(r.fired, t);
    forall i {:trigger f[i]} | |was| <= i < |f|
      ensures f[i].instant == c + (i - |was| + 1) * p && f[i].when >= f[i].instant
    {
      var j := i - |was|;
      assert f[i] == Of(r.fired, t)[j];
      if t in r.autoReload { assert Of(r.fired, t)[j].instant == Instant(c, p, j + 1); }
    }
  }

  lemma RunTracks(b: State, steps: seq<Step>, t: Timer, c: nat, p: Tick)
    requires Inv(b) && CanRun(b, steps) && NeverTooLate(b, steps, t, p)
    requires forall step :: step in steps ==> Alone(step, t)
    requires if t in b.autoReload then OnSchedule(b, t, c, p) else Once(b, t, c, p)
    ensures var r := Run(b, steps);
            && Inv(r) && if t in b.autoReload then OnSchedule(r, t, c, p) else Once(r, t, c, p)
  {
    hide Inv, Run, CanRun, NeverTooLate, OnSchedule, Once, Alone;
    if t in b.autoReload { RunTracksExactly(b, steps, t, c, p); } else { RunOnceExactly(b, steps, t, c, p); }
  }

  lemma SetsKind(r: State, t: Timer, c: nat, p: Tick)
    ensures OnSchedule(r, t, c, p) ==> t in r.autoReload
    ensures Once(r, t, c, p) ==> t !in r.autoReload
  {
  }

  lemma Erased(s: State, t: Timer, c: nat, p: Tick)
    requires Begins(s, t, c, p)
    ensures var b := s.(fired := []);
            s == After(s.fired, b) && Begins(b, t, c, p) && Of(b.fired, t) == [] && Dated(b)
  {
    var b := s.(fired := []);
    assert s.fired + [] == s.fired;
    assert ListsOk(b) by { SameListsOk(s, b); }
    hide ListsOk, For;
  }

  /** From the command on the timer keeps the new time, whatever schedule it was on before: an
      auto-reload timer is called back for c + p, c + 2p, ..., each once, in order and not before
      its instant, a one-shot timer at most once, for c + p; and once the daemon has caught up,
      for every such instant that has come.  The daemon must never be too late for it, and nobody
      else commands it. */
  lemma CommandsSetTheTime(s: State, steps: seq<Step>, t: Timer, c: nat, p: Tick)
    requires Begins(s, t, c, p) && Fits(Remove(s.current, t).entries) && CanRun(Handle(s), steps)
    requires forall step :: step in steps ==> Alone(step, t)
    requires NeverTooLate(Handle(s), steps, t, p)
    ensures var r, k := Run(Handle(s), steps), |Of(s.fired, t)|;
            var f := Of(r.fired, t);
            && Keeps(f, k, c, p, t in s.autoReload) && f[..k] == Of(s.fired, t)
            && (Idle(r, t) && t in s.autoReload ==>
                  forall n: nat :: 1 <= n <= |f| - k <==> 1 <= n && c + n * p <= r.now)
            && (Idle(r, t) && t !in s.autoReload ==> |f| == k + if c + p <= r.now then 1 else 0)
  {
    var b := s.(fired := []);
    Erased(s, t, c, p);
    BeginsKeeps(b, t, c, p);
    AfterHandle(s.fired, b);
    HandleIsDated(b, t, c, p);
    hide Inv, Handle, Run, CanRun, NeverTooLate, OnSchedule, Once, Alone, Begins, Of, After, Idle, Dated, Keeps, Fits, Remove;
    var d := Handle(b);
    SetsKind(d, t, c, p);
    CanRunBefore(s.fired, d, steps);
    AfterRun(s.fired, d, steps, t, p);
    RunTracks(d, steps, t, c, p);
    RunDated(d, steps);
    var r := Run(d, steps);
    SetsKind(r, t, c, p);
    KeepsFromNothing(r, t, c, p, Of(s.fired, t));
    AfterLog(s.fired, r);
    OfConcat(s.fired, r.fired, t);
    SameIdle(s.fired, r, t);
    if Idle(r, t) {
      if t in r.autoReload { FiredUpToNow(r, t, c, p); } else { OnceBy(r, t, c, p); }
    }
  }

  lemma HandleIsDated(b: State, t: Timer, c: nat, p: Tick)
    requires Begins(b, t, c, p) && Dated(b)
    ensures Fits(Remove(b.current, t).entries) && Dated(Handle(b))
    ensures Handle(b).autoReload == b.autoReload
  {
    HandleDated(b);
    if b.queue[0].ChangePeriod? { ChangeTakes(b, t, p); } else { StartTakes(b, t, c, p); }
    hide Handle, Inv, Dated;
  }

  lemma AfterLog(log: seq<Firing>, s: State)
    ensures After(log, s).fired == log + s.fired && After(log, s).now == s.now
  {
  }

  lemma SameIdle(log: seq<Firing>, s: State, t: Timer)
    ensures Idle(After(log, s), t) <==> Idle(s, t)
  {
  }

  // ---- a command that ends one -----------------------------------------------------------------------

  /** t is on no list and nothing in the queue is for it. */
  ghost predicate Silent(s: State, t: Timer) {
    !Listed(s, t) && For(s.queue, t) == []
  }

  lemma SilentUntouched(s: State, r: State, t: Timer)
    requires Untouched(s, r, t) && Silent(s, t)
    ensures Silent(r, t) && Of(r.fired, t) == Of(s.fired, t)
  {
    hide Of, For;
    assert Listed(r, t) ==> Listed(s, t);
  }

  lemma SilentSample(s: State, t: Timer)
    requires Inv(s) && Silent(s, t)
    ensures Silent(Sample(s), t) && Of(Sample(s).fired, t) == Of(s.fired, t)
  {
    hide Inv, Of, For, Sample, Listed;
    SampleAbsent(s, t);
  }

  lemma SilentTurn(s: State, t: Timer)
    requires Inv(s) && Silent(s, t)
    ensures Silent(Turn(s), t) && Of(Turn(s).fired, t) == Of(s.fired, t)
  {
    hide ListsOk, Of, Sample, ProcessExpired, Silent, Untouched;
    InvFits(s);
    SampleKeeps(s);
    SilentSample(s, t);
    var u := Sample(s);
    if !(Low(s.now) < Low(s.last)) && s.current.entries != [] && s.current.entries[0].value <= Low(s.now) {
      SampleLists(s);
      SilentHead(u, t);
      ProcessExpiredUntouched(u, t);
      SilentUntouched(u, ProcessExpired(u), t);
    }
  }

  lemma SilentHead(s: State, t: Timer)
    requires Silent(s, t) && s.current.entries != []
    ensures s.current.entries[0].owner != t
  {
    assert s.current.entries[0] in s.current.entries;
  }

  lemma SilentHandle(s: State, t: Timer)
    requires Inv(s) && s.queue != [] && Silent(s, t)
    ensures Fits(Remove(s.current, s.queue[0].timer).entries)
    ensures Silent(Handle(s), t) && Of(Handle(s).fired, t) == Of(s.fired, t)
  {
    assert s.queue[0].timer != t;
    ReadyKeeps(s);
    SilentReady(s, t);
    hide Inv, Ready, Act, Untouched, Silent, Of, Fits, Remove, Fresh;
    ActUntouched(Ready(s), s.queue[0], t);
    SilentUntouched(Ready(s), Handle(s), t);
  }

  lemma SilentReady(s: State, t: Timer)
    requires Inv(s) && s.queue != [] && s.queue[0].timer != t && Silent(s, t)
    ensures Fits(Remove(s.current, s.queue[0].timer).entries)
    ensures Silent(Ready(s), t) && Of(Ready(s).fired, t) == Of(s.fired, t)
  {
    hide Untouched, Silent, Detach, Inv, Sample, Fits, Remove, Of;
    var x, v := s.queue[0].timer, s.(queue := s.queue[1..]);
    TailUntouched(s, t);
    ReadyKeeps(s);
    DetachUntouched(v, x, t);
    DetachKeeps(v, x);
    var w := Detach(v, x);
    UntouchedTrans(s, v, w, t);
    SilentUntouched(s, w, t);
    SilentSample(w, t);
  }

  lemma StepSilent(s: State, step: Step, t: Timer)
    requires Inv(s) && Enabled(s, step) && Alone(step, t) && Silent(s, t)
    ensures Silent(Apply(s, step), t) && Of(Apply(s, step).fired, t) == Of(s.fired, t)
  {
    hide Inv, Turn, Handle, Of;
    match step
    case Pass(_) => hide For;
    case Send(c) => PostFor(s.queue, c, t); hide For;
    case DaemonTurn => SilentTurn(s, t);
    case DaemonCommand => SilentHandle(s, t);
  }

  lemma {:induction false} RunSilent(s: State, steps: seq<Step>, t: Timer)
    requires Inv(s) && CanRun(s, steps) && Silent(s, t)
    requires forall step :: step in steps ==> Alone(step, t)
    ensures Silent(Run(s, steps), t) && Of(Run(s, steps).fired, t) == Of(s.fired, t)
    decreases |steps|
  {
    hide Inv, Enabled, Apply, Alone, Silent, Of;
    if steps != [] {
      assert steps[0] in steps;
      StepKeeps(s, steps[0]);
      StepSilent(s, steps[0], t);
      RunSilent(Apply(s, steps[0]), steps[1..], t);
    }
  }

  /** A stopped or deleted timer is called back no more, however long the daemon goes on, until
      somebody commands it again. */
  lemma StoppedIsSilent(s: State, steps: seq<Step>, t: Timer)
    requires Inv(s) && s.queue != [] && (s.queue[0] == Stop(t) || s.queue[0] == Delete(t))
    requires For(s.queue[1..], t) == [] && Fits(Remove(s.current, t).entries) && CanRun(Handle(s), steps)
    requires forall step :: step in steps ==> Alone(step, t)
    ensures var r := Run(Handle(s), steps); Of(r.fired, t) == Of(s.fired, t) && !Listed(r, t)
  {
    ReadyKeeps(s);
    HandleKeeps(s);
    assert Silent(Handle(s), t) && Of(Handle(s).fired, t) == Of(s.fired, t) by { hide Ready, For, Of, Inv, Fits, Remove; }
    hide Inv, Handle, Of, Run, CanRun, Alone, For, Fits, Remove;
    RunSilent(Handle(s), steps, t);
  }

  /** A deleted timer is forgotten. */
  lemma DeletedIsForgotten(s: State, t: Timer)
    requires Inv(s) && s.queue != [] && s.queue[0] == Delete(t)
    ensures Fits(Remove(s.current, t).entries)
    ensures t !in Handle(s).period && t !in Handle(s).autoReload
  {
    ReadyKeeps(s);
    hide Ready, Inv, Fits, Remove;
  }
}
