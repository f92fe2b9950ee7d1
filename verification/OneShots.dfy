/**
 One-shot timers in every run: one callback each, for the instant it was started for.
 */
module OneShots {
  import opened Ticks
  import opened Lists
  import opened Timers
  import opened TimerRuns

  /** A one-shot timer of period p started at c: it awaits c + p, or has had its one callback,
      not before that instant, and is neither listed nor restarted. */
  ghost predicate Once(s: State, t: Timer, c: nat, p: Tick) {
    && p > 0 && t in s.period && s.period[t] == p && t !in s.autoReload
    && if Of(s.fired, t) == [] then Awaits(s, t, c + p, p) else Done(s, t, c + p)
  }

  ghost predicate Done(s: State, t: Timer, d: nat) {
    var f := Of(s.fired, t);
    |f| == 1 && f[0].instant == d <= f[0].when && !Listed(s, t) && For(s.queue, t) == []
  }

  lemma OnceFacts(s: State, t: Timer, c: nat, p: Tick)
    requires Once(s, t, c, p)
    ensures t !in s.autoReload
    ensures if Of(s.fired, t) == [] then Awaits(s, t, c + p, p)
            else |Of(s.fired, t)| == 1 && Of(s.fired, t)[0].instant == c + p <= Of(s.fired, t)[0].when
  {
    hide Of, Awaits, Listed, For;
  }

  lemma AwaitsUntouched(s: State, r: State, t: Timer, d: nat, p: Tick)
    requires Untouched(s, r, t) && Awaits(s, t, d, p)
    ensures Awaits(r, t, d, p)
  {
    hide Of, For;
    assert Listed(r, t) ==> Listed(s, t);
  }

  lemma StillOnce(s: State, r: State, t: Timer, c: nat, p: Tick)
    requires Once(s, t, c, p) && Of(s.fired, t) == [] && Of(r.fired, t) == []
    requires r.period == s.period && r.autoReload == s.autoReload && Awaits(r, t, c + p, p)
    ensures Once(r, t, c, p)
  {
    hide Of, Awaits;
  }

  lemma OnceUntouched(s: State, r: State, t: Timer, c: nat, p: Tick)
    requires Untouched(s, r, t) && Once(s, t, c, p)
    ensures Once(r, t, c, p)
  {
    hide Of, For;
    assert Listed(r, t) ==> Listed(s, t);
  }

  lemma JustDone(s: State, r: State, t: Timer, c: nat, p: Tick)
    requires Once(s, t, c, p) && Of(s.fired, t) == [] && c + p <= r.now
    requires Of(r.fired, t) == Of(s.fired, t) + [Firing(t, c + p, r.now)]
    requires r.period == s.period && r.autoReload == s.autoReload && !Listed(r, t) && For(r.queue, t) == []
    ensures Once(r, t, c, p)
  {
    hide Of, For, Listed, Awaits;
  }

  // ---- looking at the clock -----------------------------------------------------------------------

  lemma SwitchFires(s: State, t: Timer, c: nat, p: Tick)
    requires Inv(s) && Once(s, t, c, p) && Of(s.fired, t) == [] && Low(s.now) < Low(s.last)
    requires Entry(t, Low(c + p)) in s.current.entries && Epoch(c + p) == s.epoch && For(s.queue, t) == []
    ensures Once(Sample(s), t, c, p)
  {
    hide ListsOk, Once, Of, For, ExpireAll, Fits, Low, Epoch, Has;
    InvFits(s);
    OnceFacts(s, t, c, p);
    SwitchFiresOneShot(s, t, Low(c + p));
    ExpireAllKeeps(s);
    LowerWord(s.last, s.now);
    Split(c + p);
    EarlierEpoch(c + p, s.now);
    var r := Sample(s);
    assert r.now == s.now && r.queue == ExpireAll(s).queue && r.fired == ExpireAll(s).fired;
    assert !Listed(r, t);
    JustDone(s, r, t, c, p);
  }

  lemma SwitchLeaves(s: State, t: Timer)
    requires Inv(s) && Low(s.now) < Low(s.last) && !Has(s.current.entries, t)
    ensures Untouched(s, ExpireAll(s), t) && Of(Sample(s).fired, t) == Of(s.fired, t)
  {
    hide ListsOk, Of, For, ExpireAll, Fits;
    InvFits(s);
    NotCurrentUntouched(s, t);
  }

  lemma SwitchOnce(s: State, t: Timer, c: nat, p: Tick)
    requires Inv(s) && InSight(s, t) && Once(s, t, c, p) && Of(s.fired, t) == [] && Low(s.now) < Low(s.last)
    ensures Once(Sample(s), t, c, p)
  {
    hide Inv, Awaits, Of, For, Once, InSight, Sample, Untouched, Fits, ExpireAll;
    InvFits(s);
    OnceFacts(s, t, c, p);
    InTheCurrentList(s, t, c + p, p);
    SampleKeeps(s);
    if Entry(t, Low(c + p)) in s.current.entries {
      SwitchFires(s, t, c, p);
    } else {
      SwitchLeaves(s, t);
      AwaitsUntouched(s, ExpireAll(s), t, c + p, p);
      SwitchNext(s, t, c + p, p);
      StillOnce(s, Sample(s), t, c, p);
    }
  }

  lemma InTheCurrentList(s: State, t: Timer, d: nat, p: Tick)
    requires Inv(s) && Awaits(s, t, d, p)
    ensures if Entry(t, Low(d)) in s.current.entries then Epoch(d) == s.epoch && For(s.queue, t) == []
            else !Has(s.current.entries, t)
  {
    hide For, Fits, Sorted;
    assert Entry(t, Low(d)) in s.current.entries ==> Has(s.current.entries, t);
    assert Entry(t, Low(d)) in s.overflow.entries ==> Has(s.overflow.entries, t);
  }

  /** Looking at the clock keeps it so exactly if t is in sight. */
  lemma SampleOnceExactly(s: State, t: Timer, c: nat, p: Tick)
    requires Inv(s) && Once(s, t, c, p)
    ensures Once(Sample(s), t, c, p) <==> InSight(s, t)
  {
    hide Inv, Awaits, Of, For, Once, InSight, Sample, Listed, Fits;
    InvFits(s);
    SampleKeeps(s);
    OnceFacts(s, t, c, p);
    if Of(s.fired, t) != [] {
      DoneSample(s, t, c, p);
    } else if !InSight(s, t) {
      OutOfSight(s, t, c + p, p);
      if Once(Sample(s), t, c, p) { OnceFacts(Sample(s), t, c, p); }
    } else if Low(s.now) < Low(s.last) {
      SwitchOnce(s, t, c, p);
    } else {
      assert Sample(s).fired == s.fired by { NoSwitch(s); }
      StayNext(s, t, c + p, p);
      StillOnce(s, Sample(s), t, c, p);
    }
  }

  lemma NoSwitch(s: State)
    requires Fits(s.current.entries) && Low(s.now) >= Low(s.last)
    ensures Sample(s).fired == s.fired
  {
  }

  lemma DoneSample(s: State, t: Timer, c: nat, p: Tick)
    requires Inv(s) && Once(s, t, c, p) && Of(s.fired, t) != []
    ensures InSight(s, t) && Once(Sample(s), t, c, p)
  {
    SampleKeeps(s);
    SampleAbsent(s, t);
    hide Inv, Of, For, Sample, Awaits;
  }

  // ---- a turn of the daemon --------------------------------------------------------------------------

  lemma ProcessExpiredOnce(s: State, t: Timer, c: nat, p: Tick)
    requires Fresh(s) && s.current.entries != [] && s.current.entries[0].owner == t
    requires s.current.entries[0].value <= Low(s.now) && Once(s, t, c, p)
    ensures Once(ProcessExpired(s), t, c, p)
  {
    assert s.current.entries[0] in s.current.entries;
    assert Has(s.current.entries, t);
    hide Of;
    DueAtHead(s, t, c + p, p);
    ExpiredHead(s);
    Split(s.now);
    FireOf(s.fired, Firing(t, c + p, s.now), t);
    hide Fresh, For, RemoveAt, Decide;
    JustDone(s, ProcessExpired(s), t, c, p);
  }

  lemma TurnKeepsOnce(s: State, t: Timer, c: nat, p: Tick)
    requires Inv(s) && InSight(s, t) && Once(s, t, c, p)
    ensures Once(Turn(s), t, c, p)
  {
    var u := Sample(s);
    SampleKeeps(s);
    SampleOnceExactly(s, t, c, p);
    if !(Low(s.now) < Low(s.last)) && s.current.entries != [] && s.current.entries[0].value <= Low(s.now) {
      hide Once, ProcessExpired, ListsOk, InSight;
      if s.current.entries[0].owner == t {
        ProcessExpiredOnce(u, t, c, p);
      } else {
        ProcessExpiredUntouched(u, t);
        OnceUntouched(u, ProcessExpired(u), t, c, p);
      }
    }
  }

  lemma WrongCallback(r: State, t: Timer, c: nat, p: Tick, f: Firing)
    requires Of(r.fired, t) == [f] && f.instant != c + p
    ensures !Once(r, t, c, p)
  {
    hide Of, Awaits;
  }

  lemma TurnLosesOnce(s: State, t: Timer, c: nat, p: Tick)
    requires Inv(s) && Once(s, t, c, p) && !InSight(s, t)
    ensures !Once(Turn(s), t, c, p)
  {
    hide Awaits;
    var u := Sample(s);
    SampleKeeps(s);
    SampleOnceExactly(s, t, c, p);
    OutOfSight(s, t, c + p, p);
    if !(Low(s.now) < Low(s.last)) && s.current.entries != [] && s.current.entries[0].value <= Low(s.now) {
      var e := s.current.entries[0];
      if e.owner == t {
        HeadFires(u);
        assert e in u.current.entries;
        assert Has(u.current.entries, t);
        Join(u.epoch, e.value);
        FireOf(u.fired, Firing(t, At(u.epoch, e.value), u.now), t);
        hide Of, ProcessExpired;
        WrongCallback(ProcessExpired(u), t, c, p, Firing(t, At(u.epoch, e.value), u.now));
      } else {
        ProcessExpiredUntouched(u, t);
        UntouchedBack(u, ProcessExpired(u), t);
        hide Once, ProcessExpired;
        if Once(ProcessExpired(u), t, c, p) {
          OnceUntouched(ProcessExpired(u), u, t, c, p);
        }
      }
    }
  }

  // ---- handling one command ---------------------------------------------------------------------------

  lemma HandleOthersOnce(s: State, t: Timer, c: nat, p: Tick)
    requires Inv(s) && s.queue != [] && s.queue[0].timer != t && Once(s, t, c, p)
    ensures Fits(Remove(s.current, s.queue[0].timer).entries)
    ensures Once(Handle(s), t, c, p) <==> InSight(s, t)
  {
    ReadyOnceExactly(s, t, c, p);
    ReadyKeeps(s);
    hide Once, Ready, Act, Untouched, InSight;
    ActUntouched(Ready(s), s.queue[0], t);
    UntouchedBack(Ready(s), Handle(s), t);
    if Once(Ready(s), t, c, p) { OnceUntouched(Ready(s), Handle(s), t, c, p); }
    if Once(Handle(s), t, c, p) { OnceUntouched(Handle(s), Ready(s), t, c, p); }
  }

  lemma ReadyOnceExactly(s: State, t: Timer, c: nat, p: Tick)
    requires Inv(s) && s.queue != [] && s.queue[0].timer != t && Once(s, t, c, p)
    ensures Fits(Remove(s.current, s.queue[0].timer).entries)
    ensures Once(Ready(s), t, c, p) <==> InSight(s, t)
  {
    hide Untouched, Once, Detach, InSight, Inv, Sample, Fits, Remove;
    var x, v := s.queue[0].timer, s.(queue := s.queue[1..]);
    TailUntouched(s, t);
    ReadyKeeps(s);
    DetachUntouched(v, x, t);
    DetachKeeps(v, x);
    var w := Detach(v, x);
    UntouchedTrans(s, v, w, t);
    OnceUntouched(s, w, t, c, p);
    SightUntouched(s, w, t);
    SampleOnceExactly(w, t, c, p);
  }

  /** Acting on the start command: in time t is listed for c + p or, if that has come, fires for
      it; too late, it is listed for another instant. */
  lemma StartOnceExactly(s: State, r: State, t: Timer, c: nat, p: Tick)
    requires Once(s, t, c, p) && Of(s.fired, t) == [] && Fresh(r) && !Listed(r, t) && For(r.queue, t) == []
    requires Of(r.fired, t) == [] && r.period == s.period && r.autoReload == s.autoReload && c <= r.now
    ensures Once(DoStart(r, t, c), t, c, p) <==> InTime(r.now, c, p)
  {
    hide DoStart, Fresh, Awaits, For, Of, Listed;
    FireOf(r.fired, Firing(t, c + p, r.now), t);
    if r.now < c + WRAP { StartNext(r, t, c, p); } else { LateStart(r, t, c, p); }
    StartFrame(r, t, c);
    var q := DoStart(r, t, c);
    if q.fired != r.fired {
      JustDone(s, q, t, c, p);
    }
  }

  lemma StartFrame(s: State, t: Timer, at: nat)
    ensures DoStart(s, t, at).now == s.now
  {
    hide Decide, Insert;
  }

  lemma HandleOwnOnce(s: State, t: Timer, c: nat, p: Tick)
    requires Inv(s) && s.queue != [] && s.queue[0].timer == t && Once(s, t, c, p)
    ensures Fits(Remove(s.current, s.queue[0].timer).entries)
    ensures s.queue[0].Start? && (Once(Handle(s), t, c, p) <==> InTime(s.now, s.queue[0].at, p))
  {
    assert For(s.queue, t) != [];
    hide Ready, For, Of, Fresh, Awaits, DoStart, Listed, Fits, Remove;
    ReadyKeeps(s);
    HeadIsRestart(s, t, c + p, p);
    StartOnceExactly(s, Ready(s), t, c, p);
  }

  // ---- every run ----------------------------------------------------------------------------------------

  lemma StepOnceExactly(s: State, step: Step, t: Timer, c: nat, p: Tick)
    requires Inv(s) && Enabled(s, step) && Alone(step, t) && Once(s, t, c, p)
    ensures Once(Apply(s, step), t, c, p) <==> NotTooLate(s, step, t, p)
  {
    match step
    case Pass(n) => hide ListsOk, Of, For;
    case Send(x) => PostUntouched(s, x, t); OnceUntouched(s, Post(s, x), t, c, p);
    case DaemonTurn => if InSight(s, t) { TurnKeepsOnce(s, t, c, p); } else { TurnLosesOnce(s, t, c, p); }
    case DaemonCommand =>
      if s.queue[0].timer == t { HandleOwnOnce(s, t, c, p); } else { HandleOthersOnce(s, t, c, p); }
  }

  ghost predicate OnceThroughout(s: State, steps: seq<Step>, t: Timer, c: nat, p: Tick)
    requires CanRun(s, steps)
    decreases |steps|
  {
    Once(s, t, c, p) && (steps == [] || OnceThroughout(Apply(s, steps[0]), steps[1..], t, c, p))
  }

  lemma {:induction false} RunOnceExactly(s: State, steps: seq<Step>, t: Timer, c: nat, p: Tick)
    requires Inv(s) && CanRun(s, steps) && Once(s, t, c, p)
    requires forall step :: step in steps ==> Alone(step, t)
    ensures OnceThroughout(s, steps, t, c, p) <==> NeverTooLate(s, steps, t, p)
    ensures NeverTooLate(s, steps, t, p) ==> Inv(Run(s, steps)) && Once(Run(s, steps), t, c, p)
    decreases |steps|
  {
    hide Inv, Once, Enabled, Apply, Alone, NotTooLate;
    if steps != [] {
      assert steps[0] in steps;
      StepKeeps(s, steps[0]);
      StepOnceExactly(s, steps[0], t, c, p);
      if Once(Apply(s, steps[0]), t, c, p) {
        RunOnceExactly(Apply(s, steps[0]), steps[1..], t, c, p);
      }
    }
  }

  /** A one-shot timer nobody has started yet, in a daemon in order. */
  ghost predicate Created(s: State, t: Timer, p: Tick) {
    && Inv(s) && For(s.queue, t) == [] && !Listed(s, t) && Of(s.fired, t) == []
    && p > 0 && t in s.period && s.period[t] == p && t !in s.autoReload
  }

  lemma StartOnce(s: State, t: Timer, p: Tick)
    requires Created(s, t, p)
    ensures var u := Post(s, Start(t, s.now)); Inv(u) && Once(u, t, s.now, p)
  {
    var u := Post(s, Start(t, s.now));
    PostFor(s.queue, Start(t, s.now), t);
    assert ListsOk(u) by { SameListsOk(s, u); }
  }

  /** A one-shot timer that nobody else commands awaits its instant, or has had its one callback,
      at every point of a run if and only if the daemon is never too late for it. */
  lemma OneShotExactly(s: State, steps: seq<Step>, t: Timer, p: Tick)
    requires Created(s, t, p) && CanRun(Post(s, Start(t, s.now)), steps)
    requires forall step :: step in steps ==> Alone(step, t)
    ensures var u := Post(s, Start(t, s.now));
            OnceThroughout(u, steps, t, s.now, p) <==> NeverTooLate(u, steps, t, p)
  {
    StartOnce(s, t, p);
    RunOnceExactly(Post(s, Start(t, s.now)), steps, t, s.now, p);
  }

  lemma OnceBy(r: State, t: Timer, c: nat, p: Tick)
    requires Inv(r) && Dated(r) && Once(r, t, c, p) && Idle(r, t)
    ensures |Of(r.fired, t)| == if c + p <= r.now then 1 else 0
  {
    hide Of, Once, Awaits, Inv, Dated, For;
    OfDated(r, t);
    OnceFacts(r, t, c, p);
    if Of(r.fired, t) == [] {
      NotYetDue(r, t, c + p, p);
    } else {
      assert Of(r.fired, t)[0].when <= r.now;
    }
  }

  /** At the end of such a run it has had at most one callback, for c + p and not before; and
      exactly one, once c + p has come and the daemon has caught up. */
  lemma FiresOnce(s: State, steps: seq<Step>, t: Timer, p: Tick)
    requires Created(s, t, p) && Dated(s) && CanRun(Post(s, Start(t, s.now)), steps)
    requires forall step :: step in steps ==> Alone(step, t)
    requires NeverTooLate(Post(s, Start(t, s.now)), steps, t, p)
    ensures var r := Run(Post(s, Start(t, s.now)), steps);
            var f := Of(r.fired, t);
            && |f| <= 1 && (|f| == 1 ==> f[0].instant == s.now + p <= f[0].when)
            && (Idle(r, t) ==> |f| == if s.now + p <= r.now then 1 else 0)
  {
    var u := Post(s, Start(t, s.now));
    StartOnce(s, t, p);
    assert Dated(u);
    hide Run, CanRun, NeverTooLate, Of, Awaits, Inv, Idle, Dated, Created, Alone, For, Listed;
    RunOnceExactly(u, steps, t, s.now, p);
    RunDated(u, steps);
    if Idle(Run(u, steps), t) { OnceBy(Run(u, steps), t, s.now, p); }
  }
}
