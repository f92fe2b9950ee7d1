/**
 Software timers (timers.c): a daemon with one expiry list for the current wrap of the
 tick counter and one for the next, a command queue, and modular time comparisons.
 True times and the log of callbacks are history; the code sees only tick words.
 */
module Timers {
  import opened Ticks
  import opened Lists

  type Timer = nat

  datatype Command =
    | Start(timer: Timer, at: nat)          // carries the word of the true time `at`
    | Stop(timer: Timer)
    | ChangePeriod(timer: Timer, period: Tick)
    | Delete(timer: Timer)

  /** A callback: of which timer, for which expiry instant, at what true time. */
  datatype Firing = Firing(timer: Timer, instant: nat, when: nat)

  datatype State = State(
    now: nat,                      // the true tick count
    last: nat,                     // xLastTime, the previous sample of it
    epoch: nat,                    // the wrap that the current list belongs to
    current: List<Timer>,          // pxCurrentTimerList
    overflow: List<Timer>,         // pxOverflowTimerList
    queue: seq<Command>,           // xTimerQueue
    period: map<Timer, Tick>,
    autoReload: set<Timer>,
    fired: seq<Firing>)

  function PeriodOf(s: State, t: Timer): Tick {
    if t in s.period then s.period[t] else 0
  }

  // ---- placing a timer -------------------------------------------------------------------------

  datatype Placement = ProcessNow | InCurrent | InOverflow

  /** The decision of `prvInsertTimerInActiveList`, on tick words. */
  function Decide(next: Tick, now: Tick, command: Tick, period: Tick): Placement {
    if next <= now then
      if Sub(now, command) >= period then ProcessNow else InOverflow
    else
      if now < command && next >= command then ProcessNow else InCurrent
  }

  /** Handled less than one wrap after the time it counts from, a timer is processed at once
      exactly if its expiry has come, and otherwise goes to the list of the wrap its expiry
      lies in. */
  lemma PlacementIsExact(c: nat, n: nat, p: Tick)
    requires c <= n < c + WRAP && p > 0
    ensures Decide(Low(c + p), Low(n), Low(c), p) ==
            if c + p <= n then ProcessNow
            else if Epoch(c + p) == Epoch(n) then InCurrent
            else InOverflow
    ensures c + p > n ==> Epoch(c + p) == Epoch(n) || Epoch(c + p) == Epoch(n) + 1
  {
    Split(n);
    Split(c);
    Split(c + p);
    AddWords(c, p);
    SubWords(c, n);
  }

  /** `prvInsertTimerInActiveList`, when the timer is not processed at once. */
  function InsertTimer(s: State, t: Timer, next: Tick, placement: Placement): State {
    match placement
    case ProcessNow => s
    case InCurrent => s.(current := Insert(s.current, Entry(t, next)))
    case InOverflow => s.(overflow := Insert(s.overflow, Entry(t, next)))
  }

  function Fire(s: State, t: Timer, instant: nat): State {
    s.(fired := s.fired + [Firing(t, instant, s.now)])
  }

  /** `xTimerGenericCommand`; sends succeed. */
  function Post(s: State, c: Command): State {
    s.(queue := s.queue + [c])
  }

  // ---- switching lists ---------------------------------------------------------------------------

  predicate Fits(q: seq<Entry<Timer>>) {
    forall i :: 0 <= i < |q| ==> q[i].value < WRAP
  }

  /** What is left of the wrap after each expiry, summed: this falls with every callback. */
  function Left(q: seq<Entry<Timer>>): nat
    requires Fits(q)
  {
    if q == [] then 0 else WRAP - q[0].value + Left(q[1..])
  }

  lemma {:induction false} LeftConcat(a: seq<Entry<Timer>>, b: seq<Entry<Timer>>)
    requires Fits(a) && Fits(b)
    ensures Fits(a + b) && Left(a + b) == Left(a) + Left(b)
  {
    if a == [] {
      assert a + b == b;
    } else {
      assert (a + b)[1..] == a[1..] + b;
      LeftConcat(a[1..], b);
    }
  }

  lemma LeftInsert(l: List<Timer>, e: Entry<Timer>)
    requires Fits(l.entries) && e.value < WRAP
    ensures Fits(Insert(l, e).entries) && Left(Insert(l, e).entries) == Left(l.entries) + WRAP - e.value
  {
    var k := Position(l.entries, e.value);
    hide Position;
    assert l.entries == l.entries[..k] + l.entries[k..];
    LeftConcat(l.entries[..k], l.entries[k..]);
    LeftConcat([e], l.entries[k..]);
    LeftConcat(l.entries[..k], [e] + l.entries[k..]);
    assert l.entries[..k] + ([e] + l.entries[k..]) == l.entries[..k] + [e] + l.entries[k..];
    assert Left([e]) == WRAP - e.value;
  }

  /** One turn of `prvSwitchTimerLists`: the head of the current list expires. */
  function ExpireHead(s: State): (r: State)
    requires s.current.entries != [] && Fits(s.current.entries)
    ensures Fits(r.current.entries) && Left(r.current.entries) < Left(s.current.entries)
  {
    var e := s.current.entries[0];
    var t, reload := e.owner, Add(e.value, PeriodOf(s, e.owner));
    var u := Fire(s.(current := RemoveAt(s.current, 0)), t, At(s.epoch, e.value));
    assert u.current.entries == s.current.entries[1..];
    if t !in s.autoReload then u
    else if reload > e.value then
      LeftInsert(u.current, Entry(t, reload));
      u.(current := Insert(u.current, Entry(t, reload)))
    else Post(u, Start(t, At(s.epoch, e.value)))
  }

  /** The loop: until the current list is empty. */
  function ExpireAll(s: State): (r: State)
    requires Fits(s.current.entries)
    ensures r.current.entries == []
    decreases Left(s.current.entries)
  {
    if s.current.entries == [] then s else ExpireAll(ExpireHead(s))
  }

  /** `prvSwitchTimerLists`. */
  function SwitchLists(s: State): State
    requires Fits(s.current.entries)
  {
    var u := ExpireAll(s);
    u.(current := u.overflow, overflow := u.current)
  }

  /** `prvSampleTimeNow`. */
  function Sample(s: State): State
    requires Fits(s.current.entries)
  {
    var u := if Low(s.now) < Low(s.last) then SwitchLists(s) else s;
    u.(last := s.now, epoch := Epoch(s.now))
  }

  // ---- the daemon's turns -------------------------------------------------------------------------

  /** `prvProcessExpiredTimer`. */
  function ProcessExpired(s: State): State
    requires s.current.entries != [] && Fits(s.current.entries)
  {
    var e := s.current.entries[0];
    var t, instant := e.owner, At(s.epoch, e.value);
    var u := s.(current := RemoveAt(s.current, 0));
    var next := Add(e.value, PeriodOf(s, t));
    var placement := Decide(next, Low(s.last), e.value, PeriodOf(s, t));
    if t !in s.autoReload then Fire(u, t, instant)
    else if placement == ProcessNow then Fire(Post(u, Start(t, instant)), t, instant)
    else Fire(InsertTimer(u, t, next, placement), t, instant)
  }

  /** `prvGetNextExpireTime` and `prvProcessTimerOrBlockTask`: sample the time; if the lists
      stayed and the head is due, process it. */
  function Turn(s: State): State
    requires Fits(s.current.entries)
  {
    var u := Sample(s);
    if !(Low(s.now) < Low(s.last)) && s.current.entries != [] && s.current.entries[0].value <= Low(s.now)
    then ProcessExpired(u) else u
  }

  /** A start command, once the time is sampled. */
  function DoStart(s: State, t: Timer, at: nat): State {
    var p := PeriodOf(s, t);
    var next := Add(Low(at), p);
    var placement := Decide(next, Low(s.last), Low(at), p);
    if placement != ProcessNow then InsertTimer(s, t, next, placement)
    else
      var u := Fire(s, t, at + p);
      if t in s.autoReload then Post(u, Start(t, at + p)) else u
  }

  function DoChangePeriod(s: State, t: Timer, p: Tick): State {
    var next := Add(Low(s.last), p);
    InsertTimer(s.(period := s.period[t := p]), t, next, Decide(next, Low(s.last), Low(s.last), p))
  }

  function Detach(s: State, t: Timer): State {
    s.(current := Remove(s.current, t), overflow := Remove(s.overflow, t))
  }

  /** The commands, once the timer is off its list and the time is sampled. */
  function Act(s: State, c: Command): State {
    match c
    case Start(t, at) => DoStart(s, t, at)
    case Stop(_) => s
    case ChangePeriod(t, p) => DoChangePeriod(s, t, p)
    case Delete(t) => s.(period := s.period - {t}, autoReload := s.autoReload - {t})
  }

  /** The state in which the first command of the queue is acted on. */
  function Ready(s: State): State
    requires s.queue != [] && Fits(Remove(s.current, s.queue[0].timer).entries)
  {
    Sample(Detach(s.(queue := s.queue[1..]), s.queue[0].timer))
  }

  /** One turn of `prvProcessReceivedCommands`. */
  function Handle(s: State): State
    requires s.queue != [] && Fits(Remove(s.current, s.queue[0].timer).entries)
  {
    Act(Ready(s), s.queue[0])
  }

  // ---- runs -----------------------------------------------------------------------------------------

  datatype Step =
    | Pass(ticks: nat)            // time passes
    | Send(command: Command)      // any task or interrupt sends a command
    | DaemonTurn
    | DaemonCommand

  ghost predicate Enabled(s: State, step: Step) {
    match step
    case Pass(_) => true
    case Send(c) => c.Start? ==> c.at == s.now
    case DaemonTurn => Fits(s.current.entries)
    case DaemonCommand =>
      && Fits(s.current.entries)
      && s.queue != [] && Fits(Remove(s.current, s.queue[0].timer).entries)
  }

  ghost function Apply(s: State, step: Step): State
    requires Enabled(s, step)
  {
    match step
    case Pass(n) => s.(now := s.now + n)
    case Send(c) => Post(s, c)
    case DaemonTurn => Turn(s)
    case DaemonCommand => Handle(s)
  }

  // ---- the lists ------------------------------------------------------------------------------------

  ghost predicate ListOk(l: List<Timer>) {
    Valid(l) && Sorted(l.entries) && Fits(l.entries)
  }

  /** Both lists in order, and no timer in both. */
  ghost predicate ListsOk(s: State) {
    && ListOk(s.current) && ListOk(s.overflow)
    && (forall t :: Has(s.current.entries, t) ==> !Has(s.overflow.entries, t))
  }

  ghost predicate Inv(s: State) {
    && ListsOk(s)
    && s.last <= s.now
    && (s.current.entries != [] || s.overflow.entries != [] ==> s.epoch == Epoch(s.last))
  }

  /** The commands for t that wait in the queue. */
  function For(q: seq<Command>, t: Timer): seq<Command> {
    if q == [] then []
    else (if q[0].timer == t then [q[0]] else []) + For(q[1..], t)
  }

  ghost predicate Listed(s: State, t: Timer) {
    Has(s.current.entries, t) || Has(s.overflow.entries, t)
  }

  /** The daemon can still tell where t belongs: t is not listed, or less than a wrap has passed
      since the clock was last looked at, or the wrap that has passed shows and t is among those
      it expires. */
  ghost predicate InSight(s: State, t: Timer) {
    !Listed(s, t) || s.now < s.last + WRAP || (Low(s.now) < Low(s.last) && Has(s.current.entries, t))
  }

  /** The next callback of t is for the instant d: t is in the list of the wrap d lies in, or
      will be restarted from one period before d. */
  ghost predicate Awaits(s: State, t: Timer, d: nat, p: Tick) {
    || (Entry(t, Low(d)) in s.current.entries && Epoch(d) == s.epoch && For(s.queue, t) == [])
    || (Entry(t, Low(d)) in s.overflow.entries && Epoch(d) == s.epoch + 1 && For(s.queue, t) == [])
    || (p <= d && d - p <= s.now && For(s.queue, t) == [Start(t, d - p)] && !Listed(s, t))
  }

  /** The callbacks of t so far. */
  function Of(log: seq<Firing>, t: Timer): seq<Firing> {
    if log == [] then []
    else Of(log[..|log| - 1], t) + if log[|log| - 1].timer == t then [log[|log| - 1]] else []
  }

  /** The k-th expiry instant of a timer started at c with period p. */
  function Instant(c: nat, p: Tick, k: nat): nat {
    c + k * p
  }

  lemma InstantStep(c: nat, p: Tick, k: nat)
    ensures Instant(c, p, k + 1) == Instant(c, p, k) + p
  {
  }

  /** The instant the next callback of t is for. */
  function Due(s: State, t: Timer, c: nat, p: Tick): nat {
    Instant(c, p, |Of(s.fired, t)| + 1)
  }

  /** The callbacks of t are for the instants c + p, c + 2p, ..., once each and in order, none
      before its instant; the next one is due. */
  ghost predicate OnSchedule(s: State, t: Timer, c: nat, p: Tick) {
    && p > 0 && t in s.period && s.period[t] == p && t in s.autoReload
    && FiredOnce(Of(s.fired, t), c, p)
    && Awaits(s, t, Due(s, t, c, p), p)
  }

  ghost predicate FiredOnce(f: seq<Firing>, c: nat, p: Tick) {
    forall i :: 0 <= i < |f| ==> f[i].instant == Instant(c, p, i + 1) && f[i].when >= f[i].instant
  }
}
