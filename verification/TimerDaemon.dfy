/**
 The timer daemon as timers.c has it: variables changed in place, and a queue that carries
 tick words.  Each method is tied to the operation of module `Timers` it performs.
 */
module TimerDaemon {
  import opened Ticks
  import opened Lists
  import opened Timers
  import opened TimerRuns

  /** What the queue really holds: a start command carries a tick word. */
  datatype Message =
    | StartMessage(timer: Timer, value: Tick)
    | StopMessage(timer: Timer)
    | ChangePeriodMessage(timer: Timer, period: Tick)
    | DeleteMessage(timer: Timer)

  function Word(c: Command): Message {
    match c
    case Start(t, at) => StartMessage(t, Low(at))
    case Stop(t) => StopMessage(t)
    case ChangePeriod(t, p) => ChangePeriodMessage(t, p)
    case Delete(t) => DeleteMessage(t)
  }

  function Words(q: seq<Command>): (r: seq<Message>)
    ensures |r| == |q|
    ensures forall i :: 0 <= i < |q| ==> r[i] == Word(q[i])
  {
    seq(|q|, i requires 0 <= i < |q| => Word(q[i]))
  }

  /** The daemon's variables, changed in place as timers.c does. */
  class Daemon {
    ghost var now: nat
    ghost var last: nat
    ghost var epoch: nat
    ghost var fired: seq<Firing>
    ghost var queue: seq<Command>
    var tick: Tick                 // xTickCount
    var lastTime: Tick             // xLastTime
    var current: List<Timer>
    var overflow: List<Timer>
    var messages: seq<Message>     // xTimerQueue
    var period: map<Timer, Tick>
    var autoReload: set<Timer>

    ghost function View(): State
      reads this
    {
      State(now, last, epoch, current, overflow, queue, period, autoReload, fired)
    }

    /** The words the code sees are those of the true times and of the commands. */
    ghost predicate Wired()
      reads this
    {
      ListsOk(View()) && tick == Low(now) && lastTime == Low(last) && messages == Words(queue)
    }

    ghost predicate Valid()
      reads this
    {
      Wired() && Inv(View())
    }

    constructor ()
      ensures Valid() && current == Empty() && overflow == Empty() && queue == []
    {
      now, last, epoch, fired := 0, 0, 0, [];
      tick, lastTime := 0, 0;
      current, overflow, queue, messages := Empty(), Empty(), [], [];
      period, autoReload := map[], {};
    }

    /** Run the callback of t. */
    ghost method Callback(t: Timer, instant: nat)
      modifies this`fired
      ensures View() == Fire(old(View()), t, instant)
    {
      fired := fired + [Firing(t, instant, now)];
    }

    /** `xTimerGenericCommand` with a start; `at` is the true time whose word is sent. */
    method SendStart(t: Timer, value: Tick, ghost at: nat)
      requires messages == Words(queue) && value == Low(at)
      modifies this`messages, this`queue
      ensures View() == Post(old(View()), Start(t, at)) && messages == Words(queue)
    {
      messages := messages + [StartMessage(t, value)];
      queue := queue + [Start(t, at)];
    }

    /** `prvInsertTimerInActiveList`. */
    method InsertTimerInActiveList(t: Timer, next: Tick, timeNow: Tick, command: Tick) returns (processNow: bool)
      modifies this`current, this`overflow
      ensures var placement := Decide(next, timeNow, command, PeriodOf(old(View()), t));
              processNow == (placement == ProcessNow) && View() == InsertTimer(old(View()), t, next, placement)
    {
      var p: Tick := if t in period then period[t] else 0;
      processNow := false;
      if next <= timeNow {
        if Sub(timeNow, command) >= p {
          processNow := true;
        } else {
          overflow := Insert(overflow, Entry(t, next));
        }
      } else {
        if timeNow < command && next >= command {
          processNow := true;
        } else {
          current := Insert(current, Entry(t, next));
        }
      }
    }

    /** One turn of the loop of `prvSwitchTimerLists`: the head of the current list expires. */
    method ExpireFirst()
      requires Wired() && current.entries != []
      modifies this`current, this`messages, this`queue, this`fired
      ensures Fits(old(current).entries) && View() == ExpireHead(old(View())) && messages == Words(queue)
    {
      hide ListsOk, Insert, RemoveAt, Words;
      ListsFit(View());
      var e := current.entries[0];
      var p: Tick := if e.owner in period then period[e.owner] else 0;
      current := RemoveAt(current, 0);
      Callback(e.owner, At(epoch, e.value));
      if e.owner in autoReload {
        var reload := Add(e.value, p);
        if reload > e.value {
          current := Insert(current, Entry(e.owner, reload));
        } else {
          Join(epoch, e.value);
          SendStart(e.owner, e.value, At(epoch, e.value));
        }
      }
    }

    /** `prvSwitchTimerLists`: terminates for any timers at all. */
    method SwitchTimerLists()
      requires Wired()
      modifies this`current, this`overflow, this`messages, this`queue, this`fired
      ensures View() == SwitchLists(old(View())) && Wired()
    {
      hide ListsOk, ExpireHead, Words, Fits, Left;
      ListsFit(View());
      ExpireAllKeeps(View());
      while current.entries != []
        invariant tick == Low(now) && lastTime == Low(last)
        invariant ListsOk(View()) && overflow == old(overflow) && messages == Words(queue)
        invariant Fits(current.entries) && ExpireAll(View()) == ExpireAll(old(View()))
        decreases Left(current.entries)
      {
        ghost var s := View();
        ExpireHeadLists(s);
        ExpireFirst();
        ListsFit(View());
      }
      SwapKeeps(View());
      current, overflow := overflow, current;
    }

    /** `prvSampleTimeNow`. */
    method SampleTimeNow() returns (timeNow: Tick, switched: bool)
      requires Valid()
      modifies this
      ensures View() == Sample(old(View())) && timeNow == tick == old(tick) && lastTime == timeNow && Valid()
      ensures switched == (tick < old(lastTime))
    {
      hide ListsOk, SwitchLists, Inv;
      SampleKeeps(View());
      timeNow := tick;
      switched := timeNow < lastTime;
      if switched {
        SwitchTimerLists();
      }
      lastTime := timeNow;
      ghost var v := View();
      last, epoch := now, Epoch(now);
      SameListsOk(v, View());
    }

    /** `prvProcessExpiredTimer`, for the head of the current list. */
    method ProcessExpiredTimer(nextExpire: Tick, timeNow: Tick)
      requires Wired() && Fresh(View())
      requires current.entries != [] && current.entries[0].value == nextExpire && timeNow == lastTime
      modifies this`current, this`overflow, this`messages, this`queue, this`fired
      ensures View() == ProcessExpired(old(View())) && Wired() && Fresh(View())
    {
      hide RemoveAt, ListsOk;
      ProcessExpiredKeeps(View());
      var t := current.entries[0].owner;
      current := RemoveAt(current, 0);
      if t in autoReload {
        var p: Tick := if t in period then period[t] else 0;
        var processNow := InsertTimerInActiveList(t, Add(nextExpire, p), timeNow, nextExpire);
        if processNow {
          Join(epoch, nextExpire);
          SendStart(t, nextExpire, At(epoch, nextExpire));
        }
      }
      Callback(t, At(epoch, nextExpire));
    }

    /** `prvGetNextExpireTime` and `prvProcessTimerOrBlockTask`.  If nothing is due and the lists
        were not switched the daemon blocks, for the time and in the way the results say. */
    method ProcessTimerOrBlock() returns (blocks: bool, ticks: Tick, forever: bool)
      requires Valid()
      modifies this
      ensures View() == Turn(old(View())) && Valid() && tick == old(tick)
      ensures blocks <==>
              tick >= old(lastTime) && (old(current).entries == [] || old(current).entries[0].value > tick)
      ensures blocks ==>
                && (current.entries != [] ==> tick < current.entries[0].value < WRAP)
                && (ticks, forever) == BlockTime(View())
    {
      hide ProcessExpired, Sample, ListsOk;
      TurnKeeps(View());
      SampleKeeps(View());
      blocks, ticks, forever := false, 0, false;
      var listWasEmpty := current.entries == [];
      var nextExpire := NextExpireTime();
      InvFits(View());
      SampleStays(View());
      var timeNow, switched := SampleTimeNow();
      if !switched {
        if !listWasEmpty && nextExpire <= timeNow {
          ProcessExpiredTimer(nextExpire, timeNow);
        } else {
          if listWasEmpty {
            listWasEmpty := overflow.entries == [];
          }
          blocks, ticks, forever := true, Sub(nextExpire, timeNow), listWasEmpty;
        }
      }
    }

    /** `prvGetNextExpireTime`: the head of the current list, or 0 to wake at the wrap. */
    method NextExpireTime() returns (next: Tick)
      requires Valid()
      ensures next == if current.entries == [] then 0 else current.entries[0].value
    {
      next := 0;
      if current.entries != [] {
        next := current.entries[0].value;
      }
    }

    /** The start and reset commands. */
    method StartTimer(t: Timer, value: Tick, timeNow: Tick, ghost at: nat)
      requires value == Low(at) && timeNow == Low(last) && messages == Words(queue)
      modifies this`current, this`overflow, this`messages, this`queue, this`fired
      ensures View() == DoStart(old(View()), t, at) && messages == Words(queue)
    {
      hide Decide, Insert;
      var p: Tick := if t in period then period[t] else 0;
      var processNow := InsertTimerInActiveList(t, Add(value, p), timeNow, value);
      if processNow {
        Callback(t, at + p);
        if t in autoReload {
          AddWords(at, p);
          SendStart(t, Add(value, p), at + p);
        }
      }
    }

    /** Receive a command, take its timer off its list, and sample the time. */
    method ReceiveCommand() returns (m: Message, timeNow: Tick, ghost c: Command)
      requires Valid() && messages != []
      modifies this
      ensures Fits(Remove(old(current), old(queue)[0].timer).entries)
      ensures c == old(queue)[0] && m == Word(c) && View() == Ready(old(View()))
      ensures Valid() && timeNow == tick == old(tick) && timeNow == lastTime
    {
      hide Remove, Sample, ListsOk, Inv, Fits;
      m, c := messages[0], queue[0];
      HeadDetached(View());
      messages, queue := messages[1..], queue[1..];
      current, overflow := Remove(current, m.timer), Remove(overflow, m.timer);
      var switched: bool;
      timeNow, switched := SampleTimeNow();
    }

    method ActOn(m: Message, timeNow: Tick, ghost c: Command)
      requires m == Word(c) && timeNow == Low(last) && messages == Words(queue)
      modifies this`current, this`overflow, this`messages, this`queue, this`fired, this`period, this`autoReload
      ensures View() == Act(old(View()), c) && messages == Words(queue)
    {
      hide Decide, Insert, DoStart;
      match m {
        case StartMessage(t, value) => StartTimer(t, value, timeNow, c.at);
        case StopMessage(_) =>
        case ChangePeriodMessage(t, p) =>
          period := period[t := p];
          var processNow := InsertTimerInActiveList(t, Add(timeNow, p), timeNow, timeNow);
        case DeleteMessage(t) =>
          period, autoReload := period - {t}, autoReload - {t};
      }
    }

    /** One turn of `prvProcessReceivedCommands`. */
    method ProcessReceivedCommand()
      requires Valid() && messages != []
      modifies this
      ensures Enabled(old(View()), DaemonCommand)
      ensures View() == Handle(old(View())) && Valid() && tick == old(tick)
    {
      hide Ready, Act, Remove, Fits, Inv, ListsOk;
      HandleKeeps(View());
      InvFits(View());
      InvLists(Handle(View()));
      var m, timeNow, c := ReceiveCommand();
      ActOn(m, timeNow, c);
    }

    /** `prvProcessReceivedCommands`: until the queue is empty.  Timers restart themselves through
        the queue, but each restart is nearer to the present. */
    method ProcessReceivedCommands() returns (ghost steps: seq<Step>)
      requires Valid() && PeriodsOk(View())
      modifies this
      ensures Valid() && PeriodsOk(View()) && messages == [] && tick == old(tick)
      ensures (forall step :: step in steps ==> step == DaemonCommand)
              && CanRun(old(View()), steps) && Run(old(View()), steps) == View()
    {
      steps := [];
      hide Handle, Inv, CanRun, Run, Work, PeriodsOk;
      ghost var start := View();
      NoSteps(start);
      while messages != []
        invariant Valid() && PeriodsOk(View()) && tick == old(tick)
        invariant forall step :: step in steps ==> step == DaemonCommand
        invariant CanRun(start, steps) && Run(start, steps) == View()
        decreases if tick < lastTime then 1 else 0, Work(View())
      {
        ghost var s := View();
        assert s.queue != [] && Inv(s);
        HandleWorks(s);
        ProcessReceivedCommand();
        RunThen(start, steps, DaemonCommand);
        steps := steps + [DaemonCommand];
      }
    }

    /** The loop of the daemon task, n times round, at one tick: it blocks for no time. */
    method Rounds(n: nat) returns (ghost steps: seq<Step>)
      requires Valid() && PeriodsOk(View())
      modifies this
      ensures Valid() && PeriodsOk(View()) && (n > 0 ==> messages == [])
      ensures (forall step :: step in steps ==> step == DaemonTurn || step == DaemonCommand)
              && CanRun(old(View()), steps) && Run(old(View()), steps) == View()
    {
      steps := [];
      hide Turn, Inv, CanRun, Run, PeriodsOk;
      ghost var start := View();
      NoSteps(start);
      for i := 0 to n
        invariant Valid() && PeriodsOk(View()) && (i > 0 ==> messages == [])
        invariant forall step :: step in steps ==> step == DaemonTurn || step == DaemonCommand
        invariant CanRun(start, steps) && Run(start, steps) == View()
      {
        ghost var s := View();
        TurnPeriods(s);
        assert Enabled(s, DaemonTurn) by { InvFits(s); }
        var blocks, ticks, forever := ProcessTimerOrBlock();
        RunThen(start, steps, DaemonTurn);
        steps := steps + [DaemonTurn];
        ghost var more := ProcessReceivedCommands();
        RunConcat(start, steps, more);
        steps := steps + more;
      }
    }
  }

  /** When no wrap is seen, sampling leaves the lists alone. */
  lemma SampleStays(s: State)
    requires Fits(s.current.entries)
    ensures !(Low(s.now) < Low(s.last)) ==> Sample(s).current == s.current && Sample(s).overflow == s.overflow
  {
  }

  lemma ListsFit(s: State)
    requires ListsOk(s)
    ensures Fits(s.current.entries)
  {
  }

  lemma SwapKeeps(s: State)
    requires ListsOk(s)
    ensures ListsOk(s.(current := s.overflow, overflow := s.current))
  {
  }

  lemma InvLists(s: State)
    requires Inv(s)
    ensures ListsOk(s)
  {
  }

  /** The first command off the queue and its timer off its list. */
  lemma HeadDetached(s: State)
    requires Inv(s) && s.queue != []
    ensures var u := Detach(s.(queue := s.queue[1..]), s.queue[0].timer);
            Fits(u.current.entries) && Inv(u) && ListsOk(u)
  {
    DetachKeeps(s.(queue := s.queue[1..]), s.queue[0].timer);
    hide Detach;
  }

  // ---- the command loop ends ---------------------------------------------------------------------

  /** Auto-reload timers have a period, and so does every change of one that is asked for. */
  ghost predicate PeriodsOk(s: State) {
    && (forall t :: t in s.autoReload ==> PeriodOf(s, t) > 0)
    && (forall i {:trigger s.queue[i]} :: 0 <= i < |s.queue| && s.queue[i].ChangePeriod? ==> s.queue[i].period > 0)
  }

  /** A restart is worth one turn for each tick it lies in the past, other commands one. */
  function Weight(s: State, c: Command): nat {
    if c.Start? && c.timer in s.autoReload then 1 + Sub(Low(s.now), Low(c.at)) else 1
  }

  function WorkOf(s: State, q: seq<Command>): nat {
    if q == [] then 0 else Weight(s, q[0]) + WorkOf(s, q[1..])
  }

  function Work(s: State): nat {
    WorkOf(s, s.queue)
  }

  lemma {:induction false} WorkSnoc(s: State, q: seq<Command>, c: Command)
    ensures WorkOf(s, q + [c]) == WorkOf(s, q) + Weight(s, c)
  {
    hide Weight;
    if q == [] {
      assert [c][1..] == [];
    } else {
      assert (q + [c])[1..] == q[1..] + [c];
      WorkSnoc(s, q[1..], c);
    }
  }

  lemma {:induction false} WorkShrinks(s: State, r: State, q: seq<Command>)
    requires r.now == s.now && r.autoReload <= s.autoReload
    ensures WorkOf(r, q) <= WorkOf(s, q)
  {
    if q != [] {
      WorkShrinks(s, r, q[1..]);
    }
  }

  /** A restart that fires at once asks for one that is nearer to the present. */
  lemma RestartNearer(next: Tick, now: Tick, command: Tick, p: Tick)
    requires next == Add(command, p) && p > 0 && Decide(next, now, command, p) == ProcessNow
    ensures Sub(now, next) < Sub(now, command)
  {
  }

  /** From s to r nothing but restarts has been sent, and none if the lists were not switched. */
  ghost predicate OnlyRestarts(s: State, r: State) {
    && r.period == s.period && r.autoReload == s.autoReload && r.now == s.now
    && |s.queue| <= |r.queue| && r.queue[..|s.queue|] == s.queue
    && (forall i {:trigger r.queue[i]} :: |s.queue| <= i < |r.queue| ==> r.queue[i].Start?)
  }

  lemma RestartsPeriods(s: State, r: State)
    requires OnlyRestarts(s, r) && PeriodsOk(s)
    ensures PeriodsOk(r)
  {
    forall i | 0 <= i < |s.queue|
      ensures r.queue[i] == s.queue[i]
    {
      assert r.queue[..|s.queue|][i] == r.queue[i];
    }
  }

  lemma RestartsTrans(s: State, u: State, r: State)
    requires OnlyRestarts(s, u) && OnlyRestarts(u, r)
    ensures OnlyRestarts(s, r)
  {
    assert r.queue[..|s.queue|] == r.queue[..|u.queue|][..|s.queue|];
    forall i | |s.queue| <= i < |r.queue|
      ensures r.queue[i].Start?
    {
      assert i < |u.queue| ==> r.queue[..|u.queue|][i] == r.queue[i];
    }
  }

  lemma {:induction false} ExpireAllRestarts(s: State)
    requires ListsOk(s)
    ensures OnlyRestarts(s, ExpireAll(s))
    decreases Left(s.current.entries)
  {
    if s.current.entries != [] {
      ExpireHeadLists(s);
      assert OnlyRestarts(s, ExpireHead(s)) by {
        hide ListOk, Insert, RemoveAt;
      }
      hide ExpireHead, ListOk, OnlyRestarts, Left;
      ExpireAllRestarts(ExpireHead(s));
      RestartsTrans(s, ExpireHead(s), ExpireAll(s));
    }
  }

  lemma SampleRestarts(s: State)
    requires Inv(s)
    ensures OnlyRestarts(s, Sample(s))
    ensures !(Low(s.now) < Low(s.last)) ==> Sample(s).queue == s.queue
  {
    ExpireAllRestarts(s);
    hide ExpireAll, ListOk;
  }

  lemma TurnPeriods(s: State)
    requires Inv(s) && PeriodsOk(s)
    ensures PeriodsOk(Turn(s))
  {
    SampleKeeps(s);
    SampleRestarts(s);
    RestartsPeriods(s, Sample(s));
    hide Sample, ListsOk, PeriodsOk, OnlyRestarts;
    var u := Sample(s);
    if u.current.entries != [] {
      assert OnlyRestarts(u, ProcessExpired(u)) by { ExpiredRestarts(u); }
      RestartsPeriods(u, ProcessExpired(u));
    }
  }

  lemma ExpiredRestarts(s: State)
    requires Fresh(s) && s.current.entries != []
    ensures OnlyRestarts(s, ProcessExpired(s))
  {
    hide Decide, Insert, RemoveAt, ListsOk;
  }

  /** One turn of the command loop: the first command is gone, and what it may have sent itself is
      worth less, unless the lists were switched, which can only happen in the first turn. */
  lemma HandleWorks(s: State)
    requires Inv(s) && PeriodsOk(s) && s.queue != []
    ensures Fits(Remove(s.current, s.queue[0].timer).entries)
    ensures PeriodsOk(Handle(s)) && Handle(s).last == Handle(s).now == s.now
    ensures !(Low(s.now) < Low(s.last)) ==> Work(Handle(s)) < Work(s)
  {
    ReadyKeeps(s);
    ReadyWorks(s);
    hide Ready, Fresh, Listed;
    ActWorks(Ready(s), s.queue[0]);
  }

  lemma ReadyWorks(s: State)
    requires Inv(s) && PeriodsOk(s) && s.queue != []
    ensures Fits(Remove(s.current, s.queue[0].timer).entries)
    ensures var u := Ready(s);
            && PeriodsOk(u) && u.last == u.now == s.now
            && (s.queue[0].ChangePeriod? ==> s.queue[0].period > 0)
            && (!(Low(s.now) < Low(s.last)) ==> Work(u) + Weight(u, s.queue[0]) == Work(s))
  {
    var v := s.(queue := s.queue[1..]);
    DetachKeeps(v, s.queue[0].timer);
    var w := Detach(v, s.queue[0].timer);
    assert PeriodsOk(w);
    SampleKeeps(w);
    SampleRestarts(w);
    hide Sample, Detach, ListsOk;
    RestartsPeriods(w, Sample(w));
    if !(Low(s.now) < Low(s.last)) {
      SameWork(s, Sample(w), s.queue[1..]);
    }
  }

  lemma SameWork(s: State, r: State, q: seq<Command>)
    requires r.now == s.now && r.autoReload == s.autoReload
    ensures WorkOf(r, q) == WorkOf(s, q)
  {
    WorkShrinks(s, r, q);
    WorkShrinks(r, s, q);
  }

  lemma ActWorks(s: State, c: Command)
    requires PeriodsOk(s) && s.last == s.now && (c.ChangePeriod? ==> c.period > 0)
    ensures var r := Act(s, c);
            PeriodsOk(r) && r.last == r.now == s.now && Work(r) < Work(s) + Weight(s, c)
  {
    hide Low, WorkOf;
    match c
    case Start(t, at) =>
      var p := PeriodOf(s, t);
      var next := Add(Low(at), p);
      var placement := Decide(next, Low(s.now), Low(at), p);
      if placement == ProcessNow && t in s.autoReload {
        RestartNearer(next, Low(s.now), Low(at), p);
        AddWords(at, p);
        WorkSnoc(s, s.queue, Start(t, at + p));
      }
      hide Decide, Insert, WorkOf;
      SameWork(s, Act(s, c), Act(s, c).queue);
    case Stop(_) =>
    case ChangePeriod(t, p) =>
      hide Decide, Insert, WorkOf;
      SameWork(s, Act(s, c), s.queue);
    case Delete(t) =>
      WorkShrinks(s, Act(s, c), s.queue);
  }
}
