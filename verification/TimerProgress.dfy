/**
 The timer daemon catches up: left to itself, with time standing still, it reaches a state in which
 nothing is queued and nothing is due.
 */
module TimerProgress {
  import opened Ticks
  import opened Lists
  import opened Timers
  import opened TimerRuns
  import opened TimerDaemon

  /** How many entries are due at n. */
  function DueIn(q: seq<Entry<Timer>>, n: Tick): nat {
    if q == [] then 0 else (if q[0].value <= n then 1 else 0) + DueIn(q[1..], n)
  }

  ghost predicate NothingDue(s: State) {
    forall e :: e in s.current.entries ==> e.value > Low(s.now)
  }

  lemma {:induction false} DueConcat(a: seq<Entry<Timer>>, b: seq<Entry<Timer>>, n: Tick)
    ensures DueIn(a + b, n) == DueIn(a, n) + DueIn(b, n)
  {
    if a == [] {
      assert a + b == b;
    } else {
      assert (a + b)[1..] == a[1..] + b;
      DueConcat(a[1..], b, n);
    }
  }

  lemma DueInsert(l: List<Timer>, e: Entry<Timer>, n: Tick)
    requires e.value > n
    ensures DueIn(Insert(l, e).entries, n) == DueIn(l.entries, n)
  {
    var k := Position(l.entries, e.value);
    hide Position;
    assert l.entries == l.entries[..k] + l.entries[k..];
    DueConcat(l.entries[..k], l.entries[k..], n);
    DueConcat(l.entries[..k] + [e], l.entries[k..], n);
    DueConcat(l.entries[..k], [e], n);
    assert DueIn([e], n) == 0;
  }

  lemma CurrentIsLater(next: Tick, now: Tick, command: Tick, period: Tick)
    ensures Decide(next, now, command, period) == InCurrent ==> next > now
  {
  }

  lemma HeadDue(s: State)
    requires Inv(s) && s.current.entries != [] && s.current.entries[0].value > Low(s.now)
    ensures NothingDue(s)
  {
    ListHead(s.current);
  }

  lemma ExpiredIsNotDue(s: State)
    requires Fresh(s) && s.current.entries != [] && s.current.entries[0].value <= Low(s.now)
    ensures var r := ProcessExpired(s);
            && r.now == s.now && r.last == s.last
            && DueIn(r.current.entries, Low(s.now)) < DueIn(s.current.entries, Low(s.now))
  {
    hide ListsOk, Insert, Decide, Low, Epoch, At, Add;
    var e := s.current.entries[0];
    var next := Add(e.value, PeriodOf(s, e.owner));
    assert RemoveAt(s.current, 0).entries == s.current.entries[1..];
    CurrentIsLater(next, Low(s.now), e.value, PeriodOf(s, e.owner));
    if Decide(next, Low(s.now), e.value, PeriodOf(s, e.owner)) == InCurrent {
      DueInsert(RemoveAt(s.current, 0), Entry(e.owner, next), Low(s.now));
    }
  }

  lemma LookAgain(s: State)
    requires Inv(s) && s.last == s.now
    ensures Fits(s.current.entries) && Sample(s) == s.(epoch := Epoch(s.now)) && Fresh(Sample(s))
  {
    InvFits(s);
    SampleKeeps(s);
    hide ListsOk, SwitchLists;
  }

  /** A due head is processed: its callback is run, for its instant, and one entry fewer is due. */
  lemma TurnProcesses(s: State)
    requires Inv(s) && s.last == s.now && s.current.entries != [] && s.current.entries[0].value <= Low(s.now)
    ensures Fits(s.current.entries)
    ensures var r, e := Turn(s), s.current.entries[0];
            && r.fired == s.fired + [Firing(e.owner, At(Epoch(s.now), e.value), s.now)]
            && r.now == r.last == s.now
            && DueIn(r.current.entries, Low(s.now)) < DueIn(s.current.entries, Low(s.now))
  {
    hide Inv, Fresh, Sample, ProcessExpired, DueIn, Low, Epoch, At;
    LookAgain(s);
    assert !(Low(s.now) < Low(s.last));
    HeadFires(Sample(s));
    ExpiredIsNotDue(Sample(s));
  }

  lemma {:induction false} TurnsCatchUp(s: State) returns (steps: seq<Step>)
    requires Inv(s) && PeriodsOk(s) && s.last == s.now
    ensures (forall step :: step in steps ==> step == DaemonTurn) && CanRun(s, steps)
    ensures var r := Run(s, steps); Inv(r) && PeriodsOk(r) && r.last == r.now == s.now && NothingDue(r)
    decreases DueIn(s.current.entries, Low(s.now))
  {
    hide Inv, PeriodsOk, Turn, NothingDue, Fits;
    if s.current.entries == [] || s.current.entries[0].value > Low(s.now) {
      steps := [];
      if s.current.entries != [] { HeadDue(s); } else { EmptyIsNotDue(s); }
    } else {
      TurnProcesses(s);
      TurnKeeps(s);
      TurnPeriods(s);
      var rest := TurnsCatchUp(Turn(s));
      steps := [DaemonTurn] + rest;
      assert steps[1..] == rest;
    }
  }

  lemma EmptyIsNotDue(s: State)
    requires s.current.entries == []
    ensures NothingDue(s)
  {
  }

  lemma HandleAddsNothingDue(s: State)
    requires Inv(s) && s.queue != [] && s.last == s.now && NothingDue(s)
    ensures Fits(Remove(s.current, s.queue[0].timer).entries)
    ensures NothingDue(Handle(s)) && Handle(s).now == s.now
  {
    var t := s.queue[0].timer;
    ReadyKeeps(s);
    ListRemove(s.current, t);
    var u := Ready(s);
    assert u.current == Remove(s.current, t) && u.last == s.now;
    hide Inv, Ready, Fits, Remove;
    ActAddsNothingDue(u, s.queue[0]);
  }

  lemma ActAddsNothingDue(s: State, c: Command)
    requires ListsOk(s) && !Listed(s, c.timer) && s.last == s.now && NothingDue(s)
    ensures NothingDue(Act(s, c)) && Act(s, c).now == s.now
  {
    match c
    case Start(t, at) =>
      var next := Add(Low(at), PeriodOf(s, t));
      CurrentIsLater(next, Low(s.now), Low(at), PeriodOf(s, t));
      InsertLists(s, t, next, Decide(next, Low(s.now), Low(at), PeriodOf(s, t)));
      hide ListsOk, InsertTimer, Decide, Add;
    case ChangePeriod(t, p) =>
      var next, v := Add(Low(s.now), p), s.(period := s.period[t := p]);
      CurrentIsLater(next, Low(s.now), Low(s.now), p);
      InsertLists(v, t, next, Decide(next, Low(s.now), Low(s.now), p));
      hide ListsOk, InsertTimer, Decide, Add;
    case _ =>
  }

  lemma {:induction false} CommandsCatchUp(s: State) returns (steps: seq<Step>)
    requires Inv(s) && PeriodsOk(s) && s.last == s.now && NothingDue(s)
    ensures (forall step :: step in steps ==> step == DaemonCommand) && CanRun(s, steps)
    ensures var r := Run(s, steps); Inv(r) && r.last == r.now == s.now && NothingDue(r) && r.queue == []
    decreases Work(s)
  {
    hide Inv, PeriodsOk, Handle, NothingDue, Fits, Work, Remove;
    if s.queue == [] {
      steps := [];
    } else {
      InvFits(s);
      HandleAddsNothingDue(s);
      HandleKeeps(s);
      HandleWorks(s);
      var rest := CommandsCatchUp(Handle(s));
      steps := [DaemonCommand] + rest;
      assert steps[1..] == rest;
    }
  }

  /** From any state in order the daemon, by steps of its own alone, comes to have looked at the
      clock, with nothing queued and nothing due, for any timer. */
  lemma DaemonCatchesUp(s: State) returns (steps: seq<Step>)
    requires Inv(s) && PeriodsOk(s)
    ensures (forall step :: step in steps ==> step == DaemonTurn || step == DaemonCommand) && CanRun(s, steps)
    ensures var r := Run(s, steps); Inv(r) && r.now == s.now && forall t :: Idle(r, t)
  {
    hide Inv, PeriodsOk, Turn, NothingDue, Fits, Run, CanRun, Idle;
    InvFits(s);
    TurnKeeps(s);
    TurnPeriods(s);
    TurnLooks(s);
    NoSteps(s);
    assert Enabled(s, DaemonTurn) && Apply(s, DaemonTurn) == Turn(s);
    RunThen(s, [], DaemonTurn);
    assert [] + [DaemonTurn] == [DaemonTurn];
    var u := Turn(s);
    var turns := TurnsCatchUp(u);
    RunConcat(s, [DaemonTurn], turns);
    var v := Run(u, turns);
    var commands := CommandsCatchUp(v);
    RunConcat(s, [DaemonTurn] + turns, commands);
    steps := [DaemonTurn] + turns + commands;
    forall t
      ensures Idle(Run(s, steps), t)
    {
      CaughtUpIsIdle(Run(v, commands), t);
    }
  }

  lemma TurnLooks(s: State)
    requires Inv(s)
    ensures Fits(s.current.entries) && Turn(s).last == Turn(s).now == s.now
  {
    InvFits(s);
    SampleKeeps(s);
    hide ListsOk, Decide, Insert, RemoveAt, Sample;
  }

  lemma CaughtUpIsIdle(s: State, t: Timer)
    requires s.last == s.now && s.queue == [] && NothingDue(s)
    ensures Idle(s, t)
  {
    assert s.current.entries != [] ==> s.current.entries[0] in s.current.entries;
  }
}
