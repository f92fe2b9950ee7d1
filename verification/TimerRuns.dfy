/**
 What the timer daemon keeps: its lists stay in order, and a timer nobody else commands
 keeps to its schedule in every run.
 */
module TimerRuns {
  import opened Sequences
  import opened Ticks
  import opened Lists
  import opened Timers

  // ---- the lists stay in order ------------------------------------------------------------------

  lemma ListInsert(l: List<Timer>, t: Timer, v: Tick)
    requires ListOk(l) && !Has(l.entries, t)
    ensures ListOk(Insert(l, Entry(t, v)))
    ensures forall x :: x in Insert(l, Entry(t, v)).entries <==> x in l.entries || x == Entry(t, v)
  {
    InsertKeeps(l, Entry(t, v));
    LeftInsert(l, Entry(t, v));
  }

  lemma ListRemove(l: List<Timer>, t: Timer)
    requires ListOk(l)
    ensures ListOk(Remove(l, t))
    ensures forall x :: x in Remove(l, t).entries <==> x in l.entries && x.owner != t
  {
    RemoveValid(l, t);
    RemoveSorted(l, t);
    RemoveEntries(l, t);
    var r := Remove(l, t).entries;
    forall i | 0 <= i < |r|
      ensures r[i].value < WRAP
    {
      assert r[i] in l.entries;
    }
  }

  lemma ListHead(l: List<Timer>)
    requires ListOk(l) && l.entries != []
    ensures RemoveAt(l, 0) == Remove(l, l.entries[0].owner)
    ensures ListOk(RemoveAt(l, 0)) && l.entries[0] in l.entries
    ensures forall x :: x in RemoveAt(l, 0).entries <==> x in l.entries && x.owner != l.entries[0].owner
    ensures forall x :: x in l.entries && x.owner == l.entries[0].owner ==> x == l.entries[0]
    ensures forall x :: x in l.entries ==> l.entries[0].value <= x.value
  {
    assert Find(l.entries, l.entries[0].owner) == 0;
    ListRemove(l, l.entries[0].owner);
  }

  lemma {:induction false} ForConcat(a: seq<Command>, b: seq<Command>, t: Timer)
    ensures For(a + b, t) == For(a, t) + For(b, t)
  {
    if a == [] {
      assert a + b == b;
    } else {
      assert (a + b)[1..] == a[1..] + b;
      ForConcat(a[1..], b, t);
      ConcatAssociates(if a[0].timer == t then [a[0]] else [], For(a[1..], t), For(b, t));
    }
  }

  /** Posting adds one command for its timer and none for others. */
  lemma PostFor(q: seq<Command>, c: Command, t: Timer)
    ensures For(q + [c], t) == For(q, t) + if c.timer == t then [c] else []
  {
    ForConcat(q, [c], t);
    assert For([c], t) == if c.timer == t then [c] else [];
  }

  lemma FireOf(log: seq<Firing>, f: Firing, t: Timer)
    ensures Of(log + [f], t) == Of(log, t) + if f.timer == t then [f] else []
  {
    assert (log + [f])[..|log|] == log;
  }

  // ---- what happens to other timers ---------------------------------------------------------------

  /** Nothing that concerns t has changed. */
  ghost predicate Untouched(s: State, r: State, t: Timer) {
    && r.now == s.now && r.last == s.last && r.epoch == s.epoch
    && (forall e: Entry<Timer> :: e.owner == t ==>
          (e in r.current.entries <==> e in s.current.entries) && (e in r.overflow.entries <==> e in s.overflow.entries))
    && For(r.queue, t) == For(s.queue, t)
    && Of(r.fired, t) == Of(s.fired, t)
    && (t in r.period <==> t in s.period) && PeriodOf(r, t) == PeriodOf(s, t)
    && (t in r.autoReload <==> t in s.autoReload)
  }

  lemma UntouchedSchedule(s: State, r: State, t: Timer, c: nat, p: Tick)
    requires Untouched(s, r, t) && OnSchedule(s, t, c, p)
    ensures OnSchedule(r, t, c, p)
  {
    assert Listed(r, t) ==> Listed(s, t);
  }

  /** What one expiry does to the current list. */
  lemma ExpireHeadList(s: State)
    requires ListOk(s.current) && s.current.entries != []
    ensures var r, e := ExpireHead(s), s.current.entries[0];
            var reload := Add(e.value, PeriodOf(s, e.owner));
            && ListOk(r.current)
            && r == s.(current := r.current, queue := r.queue, fired := r.fired)
            && (forall x :: x in r.current.entries <==>
                  (x in s.current.entries && x.owner != e.owner)
                  || (e.owner in s.autoReload && reload > e.value && x == Entry(e.owner, reload)))
  {
    var e := s.current.entries[0];
    var reload := Add(e.value, PeriodOf(s, e.owner));
    ListHead(s.current);
    var l := RemoveAt(s.current, 0);
    hide Sorted, Valid, Insert, RemoveAt;
    if e.owner in s.autoReload && reload > e.value {
      ListInsert(l, e.owner, reload);
    }
  }

  lemma ExpireHeadLists(s: State)
    requires ListsOk(s) && s.current.entries != []
    ensures ListsOk(ExpireHead(s))
  {
    ExpireHeadList(s);
    hide ListOk, ExpireHead;
    var r, e := ExpireHead(s), s.current.entries[0];
    assert e in s.current.entries;
    forall t | Has(r.current.entries, t)
      ensures !Has(r.overflow.entries, t)
    {
      assert Has(s.current.entries, t);
    }
  }

  lemma ExpireHeadUntouched(s: State, t: Timer)
    requires ListsOk(s) && s.current.entries != [] && s.current.entries[0].owner != t
    ensures Untouched(s, ExpireHead(s), t)
  {
    hide Of, RemoveAt;
    var e := s.current.entries[0];
    ExpireHeadList(s);
    FireOf(s.fired, Firing(e.owner, At(s.epoch, e.value), s.now), t);
    PostFor(s.queue, Start(e.owner, At(s.epoch, e.value)), t);
    hide Of, For, ListOk, Insert, RemoveAt;
  }

  lemma OnScheduleFacts(s: State, t: Timer, c: nat, p: Tick)
    requires OnSchedule(s, t, c, p)
    ensures p > 0 && PeriodOf(s, t) == p && t in s.period && t in s.autoReload
    ensures Awaits(s, t, Due(s, t, c, p), p)
  {
    hide FiredOnce, Awaits, Due;
  }

  /** One callback of t, for the instant that was due and not before it, moves the schedule on
      by one period. */
  lemma Advance(s: State, r: State, t: Timer, c: nat, p: Tick, when: nat)
    requires OnSchedule(s, t, c, p) && when >= Due(s, t, c, p)
    requires Of(r.fired, t) == Of(s.fired, t) + [Firing(t, Due(s, t, c, p), when)]
    requires r.period == s.period && r.autoReload == s.autoReload
    requires Awaits(r, t, Due(s, t, c, p) + p, p)
    ensures OnSchedule(r, t, c, p)
  {
    InstantStep(c, p, |Of(s.fired, t)| + 1);
    hide Instant, Of, Awaits;
  }

  /** A listed timer at the head of the current list is due in this wrap, at the head's value. */
  lemma DueAtHead(s: State, t: Timer, d: nat, p: Tick)
    requires ListsOk(s) && s.current.entries != [] && s.current.entries[0].owner == t && Awaits(s, t, d, p)
    ensures s.current.entries[0] == Entry(t, Low(d)) && Epoch(d) == s.epoch && At(s.epoch, Low(d)) == d
    ensures For(s.queue, t) == [] && !Has(s.overflow.entries, t)
  {
    ListHead(s.current);
    hide Of, For, ListOk, RemoveAt;
    assert Has(s.current.entries, t);
    assert !Has(s.overflow.entries, t);
    Split(d);
  }

  /** Where a timer goes when it expires in the switch of the lists. */
  lemma ExpireHeadNext(s: State, t: Timer, d: nat, p: Tick)
    requires ListsOk(s) && s.current.entries != [] && s.current.entries[0].owner == t && Awaits(s, t, d, p)
    requires p > 0 && PeriodOf(s, t) == p && t in s.autoReload && d <= s.now
    ensures Awaits(ExpireHead(s), t, d + p, p)
    ensures ExpireHead(s).fired == s.fired + [Firing(t, d, s.now)]
  {
    DueAtHead(s, t, d, p);
    ExpireHeadList(s);
    PostFor(s.queue, Start(t, d), t);
    AddWords(d, p);
    hide Of, For, ListOk, Insert, RemoveAt;
    assert !Has(s.overflow.entries, t);
    var r := ExpireHead(s);
    assert r.overflow == s.overflow && r.epoch == s.epoch && r.now == s.now;
  }

  lemma ExpireHeadFrame(s: State)
    requires ListOk(s.current) && s.current.entries != []
    ensures Fits(s.current.entries)
    ensures ExpireHead(s).period == s.period && ExpireHead(s).autoReload == s.autoReload
  {
  }

  /** The expiry of t itself: its callback runs for the instant it was due, which is past, and
      the next one is set up. */
  lemma ExpireHeadFires(s: State, t: Timer, c: nat, p: Tick)
    requires ListsOk(s) && s.current.entries != [] && s.current.entries[0].owner == t
    requires OnSchedule(s, t, c, p) && s.epoch < Epoch(s.now)
    ensures OnSchedule(ExpireHead(s), t, c, p)
  {
    hide OnSchedule, Awaits, ExpireHead, Of, For, Due, ListOk, Insert;
    var d := Due(s, t, c, p);
    OnScheduleFacts(s, t, c, p);
    DueAtHead(s, t, d, p);
    EarlierEpoch(d, s.now);
    ExpireHeadNext(s, t, d, p);
    FireOf(s.fired, Firing(t, d, s.now), t);
    ExpireHeadFrame(s);
    Advance(s, ExpireHead(s), t, c, p, s.now);
  }

  lemma EarlierEpoch(d: nat, n: nat)
    requires Epoch(d) < Epoch(n)
    ensures d < n
  {
    Split(d);
    Split(n);
  }

  // ---- switching the lists ------------------------------------------------------------------------

  lemma {:induction false} ExpireAllKeeps(s: State)
    requires ListsOk(s)
    ensures var r := ExpireAll(s);
            ListsOk(r) && r == s.(current := r.current, queue := r.queue, fired := r.fired)
    decreases Left(s.current.entries)
  {
    if s.current.entries != [] {
      ExpireHeadLists(s);
      ExpireHeadList(s);
      hide ExpireHead, ListOk;
      ExpireAllKeeps(ExpireHead(s));
    }
  }

  lemma {:induction false} ExpireAllTracks(s: State, t: Timer, c: nat, p: Tick)
    requires ListsOk(s) && OnSchedule(s, t, c, p) && (s.current.entries != [] ==> s.epoch < Epoch(s.now))
    ensures OnSchedule(ExpireAll(s), t, c, p)
    decreases Left(s.current.entries)
  {
    if s.current.entries != [] {
      ExpireHeadLists(s);
      ExpireHeadList(s);
      if s.current.entries[0].owner == t {
        ExpireHeadFires(s, t, c, p);
      } else {
        ExpireHeadUntouched(s, t);
        UntouchedSchedule(s, ExpireHead(s), t, c, p);
      }
      hide ExpireHead, OnSchedule, ListOk;
      ExpireAllTracks(ExpireHead(s), t, c, p);
    }
  }

  lemma {:induction false} ExpireAllUntouched(s: State, t: Timer)
    requires ListsOk(s) && !Listed(s, t)
    ensures Untouched(s, ExpireAll(s), t)
    decreases Left(s.current.entries)
  {
    if s.current.entries != [] {
      var r := ExpireHead(s);
      ExpireHeadLists(s);
      assert s.current.entries[0] in s.current.entries;
      ExpireHeadUntouched(s, t);
      hide ExpireHead, ListOk, For, Of, Left, Fits;
      assert Listed(r, t) ==> Listed(s, t);
      ExpireAllUntouched(r, t);
    }
  }

  /** `log` is `was` and then callbacks of one wrap, run at `when`, for instants from `from` on
      and in their order. */
  ghost predicate Extends(was: seq<Firing>, log: seq<Firing>, epoch: nat, from: nat, when: nat) {
    && |was| <= |log| && log[..|was|] == was
    && (forall i :: |was| <= i < |log| ==>
          from <= log[i].instant && Epoch(log[i].instant) == epoch && log[i].when == when)
    && (forall i, j :: |was| <= i < j < |log| ==> log[i].instant <= log[j].instant)
  }

  lemma ExtendsOne(was: seq<Firing>, f: Firing, log: seq<Firing>, epoch: nat, when: nat)
    requires Extends(was + [f], log, epoch, f.instant, when) && Epoch(f.instant) == epoch && f.when == when
    ensures Extends(was, log, epoch, f.instant, when)
  {
    assert log[..|was|] == log[..|was| + 1][..|was|];
    assert log[|was|] == log[..|was| + 1][|was|];
  }

  ghost predicate From(s: State, from: nat) {
    forall e :: e in s.current.entries && e.value < WRAP ==> from <= At(s.epoch, e.value)
  }

  lemma ExpireHeadFrom(s: State)
    requires ListsOk(s) && s.current.entries != []
    ensures var e := s.current.entries[0];
            && From(ExpireHead(s), At(s.epoch, e.value))
            && ExpireHead(s).fired == s.fired + [Firing(e.owner, At(s.epoch, e.value), s.now)]
            && e in s.current.entries && Epoch(At(s.epoch, e.value)) == s.epoch
  {
    ExpireHeadList(s);
    ListHead(s.current);
    Join(s.epoch, s.current.entries[0].value);
    hide ListOk, Insert, RemoveAt;
  }

  lemma {:induction false} ExpireAllExtends(s: State, from: nat)
    requires ListsOk(s) && From(s, from)
    ensures Extends(s.fired, ExpireAll(s).fired, s.epoch, from, s.now)
    decreases Left(s.current.entries)
  {
    hide ExpireHead, Left;
    if s.current.entries != [] {
      var e, u := s.current.entries[0], ExpireHead(s);
      ExpireHeadLists(s);
      ExpireHeadList(s);
      ExpireHeadFrom(s);
      hide ListOk, ExpireHead, From;
      ExpireAllExtends(u, At(s.epoch, e.value));
      ExtendsOne(s.fired, Firing(e.owner, At(s.epoch, e.value), s.now), ExpireAll(u).fired, s.epoch, s.now);
      assert from <= At(s.epoch, e.value) by { FromMember(s, from, e); }
    }
  }

  lemma FromMember(s: State, from: nat, e: Entry<Timer>)
    requires From(s, from) && e in s.current.entries && e.value < WRAP
    ensures from <= At(s.epoch, e.value)
  {
  }

  /** Switching the lists empties the current one, runs the callbacks of the wrap that has
      ended in the order of their instants, and leaves a current list that was sorted all
      along. */
  lemma SwitchFiresInOrder(s: State)
    requires ListsOk(s)
    ensures var r := SwitchLists(s);
            && Extends(s.fired, r.fired, s.epoch, At(s.epoch, 0), s.now)
            && r.current == s.overflow && Sorted(r.current.entries)
            && r.overflow.entries == []
  {
    ExpireAllExtends(s, At(s.epoch, 0));
    ExpireAllKeeps(s);
  }

  /** After its own expiry in the switch, a timer is still in the current list, or its next
      instant lies in a later wrap. */
  lemma ExpireHeadLater(s: State, t: Timer, c: nat, p: Tick)
    requires ListsOk(s) && s.current.entries != [] && s.current.entries[0].owner == t
    requires OnSchedule(s, t, c, p) && s.epoch < Epoch(s.now)
    ensures var r := ExpireHead(s);
            Has(r.current.entries, t) || (!Listed(r, t) && Epoch(Due(r, t, c, p)) > s.epoch)
  {
    var d, e := Due(s, t, c, p), s.current.entries[0];
    OnScheduleFacts(s, t, c, p);
    DueAtHead(s, t, d, p);
    ExpireHeadList(s);
    AddWords(d, p);
    ExpireHeadNext(s, t, d, p);
    FireOf(s.fired, Firing(t, d, s.now), t);
    InstantStep(c, p, |Of(s.fired, t)| + 1);
    var r := ExpireHead(s);
    assert Due(r, t, c, p) == d + p;
    hide OnSchedule, Awaits, ExpireHead, Of, For, ListOk, Instant, Due;
    if Add(e.value, p) > e.value {
      assert Entry(t, Add(e.value, p)) in r.current.entries;
    } else {
      assert !Has(r.current.entries, t);
    }
  }

  /** The switch runs every callback a listed timer still owes to the wrap that has ended: the
      next one it awaits lies beyond it. */
  lemma {:induction false} SwitchFiresAll(s: State, t: Timer, c: nat, p: Tick)
    requires ListsOk(s) && OnSchedule(s, t, c, p) && s.epoch < Epoch(s.now)
    requires Has(s.current.entries, t) || (!Listed(s, t) && Epoch(Due(s, t, c, p)) > s.epoch)
    ensures OnSchedule(ExpireAll(s), t, c, p) && Epoch(Due(ExpireAll(s), t, c, p)) > s.epoch
    decreases Left(s.current.entries)
  {
    hide Of;
    if s.current.entries != [] {
      var r := ExpireHead(s);
      ExpireHeadLists(s);
      ExpireHeadFrame(s);
      assert r.epoch == s.epoch && r.now == s.now by { ExpireHeadList(s); }
      if s.current.entries[0].owner == t {
        ExpireHeadFires(s, t, c, p);
        ExpireHeadLater(s, t, c, p);
      } else {
        ExpireHeadUntouched(s, t);
        UntouchedSchedule(s, r, t, c, p);
        assert Untouched(s, r, t) && Due(r, t, c, p) == Due(s, t, c, p);
      }
      hide ExpireHead, OnSchedule, ListOk, Of, For, Instant, Left;
      SwitchFiresAll(r, t, c, p);
    }
  }

  /** A one-shot timer in the list of the wrap that has ended gets exactly one callback in the
      switch, for its own instant, and is then neither listed nor restarted. */
  lemma {:induction false} SwitchFiresOneShot(s: State, t: Timer, v: Tick)
    requires ListsOk(s) && Entry(t, v) in s.current.entries && t !in s.autoReload
    ensures var r := ExpireAll(s);
            && Of(r.fired, t) == Of(s.fired, t) + [Firing(t, At(s.epoch, v), s.now)]
            && !Listed(r, t) && For(r.queue, t) == For(s.queue, t)
    decreases Left(s.current.entries)
  {
    var r := ExpireHead(s);
    ExpireHeadLists(s);
    ExpireHeadFrame(s);
    ExpireHeadList(s);
    ExpireHeadFrom(s);
    if s.current.entries[0].owner == t {
      ListHead(s.current);
      FireOf(s.fired, Firing(t, At(s.epoch, v), s.now), t);
      OneShotGone(s, t);
      ExpireAllUntouched(r, t);
    } else {
      ExpireHeadUntouched(s, t);
      hide ExpireHead, ListsOk, ListOk, For, Of, Left;
      SwitchFiresOneShot(r, t, v);
    }
  }

  lemma OneShotGone(s: State, t: Timer)
    requires ListsOk(s) && s.current.entries != [] && s.current.entries[0].owner == t && t !in s.autoReload
    ensures Fits(s.current.entries) && ExpireHead(s).queue == s.queue && !Listed(ExpireHead(s), t)
  {
    ExpireHeadList(s);
    ListHead(s.current);
    hide ListOk, RemoveAt, Insert;
    assert Has(s.current.entries, t);
  }

  lemma InvFits(s: State)
    requires Inv(s)
    ensures Fits(s.current.entries)
  {
  }

  // ---- sampling the time ----------------------------------------------------------------------------

  /** The words of two true times less than one wrap apart tell whether a wrap lies between. */
  lemma SampleSeesWrap(last: nat, now: nat)
    requires last <= now < last + WRAP
    ensures Low(now) < Low(last) <==> Epoch(now) == Epoch(last) + 1
    ensures Low(now) >= Low(last) <==> Epoch(now) == Epoch(last)
  {
    SubWords(last, now);
  }

  lemma SampleKeeps(s: State)
    requires Inv(s)
    ensures var r := Sample(s);
            Inv(r) && r.last == r.now == s.now && r.epoch == Epoch(s.now)
            && r.period == s.period && r.autoReload == s.autoReload
  {
    ExpireAllKeeps(s);
    hide ListOk, ExpireAll;
    EmptyOk();
  }

  lemma EmptyOk()
    ensures ListOk(Empty())
  {
  }

  /** A word that has gone down means that at least one wrap has passed, and one that has gone
      down by a gap of a wrap or more that two have. */
  lemma LowerWord(last: nat, now: nat)
    requires last <= now && Low(now) < Low(last)
    ensures Epoch(now) > Epoch(last)
    ensures now >= last + WRAP ==> Epoch(now) > Epoch(last) + 1
  {
    Split(last);
    Split(now);
  }

  lemma LaterEpoch(last: nat, now: nat)
    requires now >= last + WRAP
    ensures Epoch(now) > Epoch(last)
  {
    Split(last);
    Split(now);
  }

  /** After the switch the overflow list is current, and its wrap is the current wrap. */
  lemma SwitchNext(s: State, t: Timer, d: nat, p: Tick)
    requires Inv(s) && InSight(s, t) && Low(s.now) < Low(s.last) && Awaits(ExpireAll(s), t, d, p)
    ensures Awaits(Sample(s), t, d, p)
  {
    hide ListOk, ExpireAll, For, Fits;
    ExpireAllKeeps(s);
    if s.now < s.last + WRAP { SampleSeesWrap(s.last, s.now); }
    if Entry(t, Low(d)) in s.overflow.entries {
      assert Has(s.overflow.entries, t);
    }
  }

  lemma StayNext(s: State, t: Timer, d: nat, p: Tick)
    requires Inv(s) && InSight(s, t) && !(Low(s.now) < Low(s.last)) && Awaits(s, t, d, p)
    ensures Awaits(Sample(s), t, d, p)
  {
    if s.now < s.last + WRAP { SampleSeesWrap(s.last, s.now); }
    hide ListOk, ExpireAll, For, Fits;
    if Entry(t, Low(d)) in s.current.entries || Entry(t, Low(d)) in s.overflow.entries {
      assert Listed(s, t);
    }
  }

  lemma SampleTracks(s: State, t: Timer, c: nat, p: Tick)
    requires Inv(s) && InSight(s, t) && OnSchedule(s, t, c, p)
    ensures OnSchedule(Sample(s), t, c, p)
  {
    if Low(s.now) < Low(s.last) {
      ExpireAllKeeps(s);
      LowerWord(s.last, s.now);
      ExpireAllTracks(s, t, c, p);
      SwitchNext(s, t, Due(ExpireAll(s), t, c, p), p);
    } else {
      StayNext(s, t, Due(s, t, c, p), p);
    }
    hide Awaits, ListOk, ExpireAll, Of, FiredOnce, Instant;
  }

  /** Out of sight, the instant t awaits is not in the wrap its list is now taken for. */
  lemma OutOfSight(s: State, t: Timer, d: nat, p: Tick)
    requires Inv(s) && Awaits(s, t, d, p) && !InSight(s, t)
    ensures var r := Sample(s);
            && Of(r.fired, t) == Of(s.fired, t) && r.period == s.period && r.autoReload == s.autoReload
            && Listed(r, t) && !Awaits(r, t, d, p) && Epoch(d) < Epoch(s.now) + (if Has(r.current.entries, t) then 0 else 1)
  {
    if Low(s.now) < Low(s.last) {
      LowerWord(s.last, s.now);
      ExpireAllKeeps(s);
      NotCurrentUntouched(s, t);
    } else {
      LaterEpoch(s.last, s.now);
    }
    hide ListOk, ExpireAll, Of, For, Fits;
    assert Entry(t, Low(d)) in s.current.entries ==> Has(s.current.entries, t);
    assert Entry(t, Low(d)) in s.overflow.entries ==> Has(s.overflow.entries, t);
  }

  lemma StillAbsent(s: State, r: State, t: Timer)
    requires Untouched(s, r, t) && !Has(s.current.entries, t)
    ensures !Has(r.current.entries, t)
  {
    hide Of, For;
  }

  lemma {:induction false} NotCurrentUntouched(s: State, t: Timer)
    requires ListsOk(s) && !Has(s.current.entries, t)
    ensures Untouched(s, ExpireAll(s), t)
    decreases Left(s.current.entries)
  {
    if s.current.entries != [] {
      var r := ExpireHead(s);
      ExpireHeadLists(s);
      assert s.current.entries[0] in s.current.entries;
      ExpireHeadUntouched(s, t);
      StillAbsent(s, r, t);
      hide ExpireHead, ListOk, Untouched, Left, Fits;
      NotCurrentUntouched(r, t);
      UntouchedTrans(s, r, ExpireAll(r), t);
    }
  }

  /** Looking at the clock keeps t on schedule exactly if t is in sight. */
  lemma SampleTracksExactly(s: State, t: Timer, c: nat, p: Tick)
    requires Inv(s) && OnSchedule(s, t, c, p)
    ensures OnSchedule(Sample(s), t, c, p) <==> InSight(s, t)
  {
    if InSight(s, t) {
      SampleTracks(s, t, c, p);
    } else {
      OnScheduleFacts(s, t, c, p);
      OutOfSight(s, t, Due(s, t, c, p), p);
      hide Awaits, ListOk, Sample, Of, FiredOnce, Instant, Listed;
    }
  }

  /** A timer that is not listed is left alone by the sample. */
  lemma SampleAbsent(s: State, t: Timer)
    requires Inv(s) && !Listed(s, t)
    ensures var r := Sample(s);
            !Listed(r, t) && For(r.queue, t) == For(s.queue, t) && Of(r.fired, t) == Of(s.fired, t)
  {
    if Low(s.now) < Low(s.last) {
      ExpireAllUntouched(s, t);
    }
    hide ListOk, ExpireAll, Of, For;
  }

  // ---- processing one timer -------------------------------------------------------------------------

  /** Both lists are in order and the time has just been sampled. */
  ghost predicate Fresh(s: State) {
    ListsOk(s) && s.last == s.now && s.epoch == Epoch(s.now)
  }

  lemma InsertLists(s: State, t: Timer, next: Tick, placement: Placement)
    requires ListsOk(s) && !Listed(s, t)
    ensures var r := InsertTimer(s, t, next, placement);
            && ListsOk(r) && r == s.(current := r.current, overflow := r.overflow)
            && (forall e :: e in r.current.entries <==>
                  e in s.current.entries || (placement == InCurrent && e == Entry(t, next)))
            && (forall e :: e in r.overflow.entries <==>
                  e in s.overflow.entries || (placement == InOverflow && e == Entry(t, next)))
  {
    match placement
    case ProcessNow =>
    case InCurrent => ListInsert(s.current, t, next); hide ListOk, Insert;
    case InOverflow => ListInsert(s.overflow, t, next); hide ListOk, Insert;
  }

  /** A timer counted from v, handled in time: either its instant v + p has come, or it is now
      listed for that instant. */
  lemma InsertNext(s: State, t: Timer, v: nat, p: Tick)
    requires Fresh(s) && !Listed(s, t) && For(s.queue, t) == [] && v <= s.now < v + WRAP && p > 0
    ensures var placement := Decide(Add(Low(v), p), Low(s.now), Low(v), p);
            if placement == ProcessNow then v + p <= s.now
            else Awaits(InsertTimer(s, t, Add(Low(v), p), placement), t, v + p, p)
  {
    PlacementIsExact(v, s.now, p);
    AddWords(v, p);
    InsertLists(s, t, Add(Low(v), p), Decide(Add(Low(v), p), Low(s.now), Low(v), p));
    hide ListOk, Insert, For, Decide;
  }

  lemma UntouchedInsert(s: State, u: Timer, next: Tick, placement: Placement, t: Timer)
    requires ListsOk(s) && !Listed(s, u) && u != t
    ensures Untouched(s, InsertTimer(s, u, next, placement), t)
  {
    hide ListOk, Insert, InsertTimer, For, Of;
    InsertLists(s, u, next, placement);
  }

  lemma ExpiredHead(s: State)
    requires Fresh(s) && s.current.entries != []
    ensures var u, t := s.(current := RemoveAt(s.current, 0)), s.current.entries[0].owner;
            && Fresh(u) && !Listed(u, t) && Has(s.current.entries, t)
            && (forall x: Timer :: x != t ==> Untouched(s, u, x))
  {
    ListHead(s.current);
    hide ListOk, RemoveAt, For, Of;
  }

  lemma ProcessExpiredKeeps(s: State)
    requires Fresh(s) && s.current.entries != []
    ensures Fresh(ProcessExpired(s))
  {
    ExpiredHead(s);
    var e := s.current.entries[0];
    var u := s.(current := RemoveAt(s.current, 0));
    var next := Add(e.value, PeriodOf(s, e.owner));
    var placement := Decide(next, Low(s.last), e.value, PeriodOf(s, e.owner));
    var v := InsertTimer(u, e.owner, next, placement);
    InsertLists(u, e.owner, next, placement);
    hide RemoveAt, InsertTimer, Decide, ListsOk;
    SameListsOk(v, Fire(v, e.owner, At(s.epoch, e.value)));
    SameListsOk(u, Fire(u, e.owner, At(s.epoch, e.value)));
    SameListsOk(u, Fire(Post(u, Start(e.owner, At(s.epoch, e.value))), e.owner, At(s.epoch, e.value)));
  }

  lemma FireUntouched(s: State, u: Timer, instant: nat, t: Timer)
    requires u != t
    ensures Untouched(s, Fire(s, u, instant), t)
  {
    FireOf(s.fired, Firing(u, instant, s.now), t);
  }

  lemma PostUntouched(s: State, c: Command, t: Timer)
    requires c.timer != t
    ensures Untouched(s, Post(s, c), t)
  {
    PostFor(s.queue, c, t);
  }

  lemma UntouchedTrans(s: State, u: State, r: State, t: Timer)
    requires Untouched(s, u, t) && Untouched(u, r, t)
    ensures Untouched(s, r, t)
  {
  }

  lemma ProcessExpiredUntouched(s: State, t: Timer)
    requires Fresh(s) && s.current.entries != [] && s.current.entries[0].owner != t
    ensures Untouched(s, ProcessExpired(s), t)
  {
    ExpiredHead(s);
    var e := s.current.entries[0];
    var instant := At(s.epoch, e.value);
    var u := s.(current := RemoveAt(s.current, 0));
    var next := Add(e.value, PeriodOf(s, e.owner));
    var placement := Decide(next, Low(s.last), e.value, PeriodOf(s, e.owner));
    var v := if e.owner !in s.autoReload then u
             else if placement == ProcessNow then Post(u, Start(e.owner, instant))
             else InsertTimer(u, e.owner, next, placement);
    UntouchedInsert(u, e.owner, next, placement, t);
    PostUntouched(u, Start(e.owner, instant), t);
    FireUntouched(v, e.owner, instant, t);
    hide Untouched, Fire, Post, InsertTimer, RemoveAt, Decide;
    UntouchedTrans(s, u, v, t);
    UntouchedTrans(s, v, ProcessExpired(s), t);
  }

  lemma ProcessExpiredNext(s: State, t: Timer, d: nat, p: Tick)
    requires Fresh(s) && s.current.entries != [] && s.current.entries[0].owner == t
    requires s.current.entries[0].value <= Low(s.now) && Awaits(s, t, d, p)
    requires p > 0 && PeriodOf(s, t) == p && t in s.autoReload
    ensures Fits(s.current.entries)
    ensures var r := ProcessExpired(s);
            && d <= s.now && Awaits(r, t, d + p, p) && r.fired == s.fired + [Firing(t, d, s.now)]
            && r.period == s.period && r.autoReload == s.autoReload
  {
    DueAtHead(s, t, d, p);
    ExpiredHead(s);
    var u := s.(current := RemoveAt(s.current, 0));
    Split(d);
    Split(s.now);
    InsertNext(u, t, d, p);
    PostFor(s.queue, Start(t, d), t);
    InsertLists(u, t, Add(Low(d), p), Decide(Add(Low(d), p), Low(s.now), Low(d), p));
    hide ListOk, RemoveAt, Decide, For, Of, InsertTimer;
  }

  /** The due timer at the head fires for its instant, late or not, and its next expiry is set
      up one period after that instant, not after the present time. */
  lemma ProcessExpiredFires(s: State, t: Timer, c: nat, p: Tick)
    requires Fresh(s) && s.current.entries != [] && s.current.entries[0].owner == t
    requires s.current.entries[0].value <= Low(s.now) && OnSchedule(s, t, c, p)
    ensures OnSchedule(ProcessExpired(s), t, c, p)
  {
    hide OnSchedule, Fresh, Awaits, ProcessExpired, Of, For, Due;
    var d := Due(s, t, c, p);
    OnScheduleFacts(s, t, c, p);
    ProcessExpiredNext(s, t, d, p);
    FireOf(s.fired, Firing(t, d, s.now), t);
    Advance(s, ProcessExpired(s), t, c, p, s.now);
  }

  lemma TurnKeeps(s: State)
    requires Inv(s)
    ensures Inv(Turn(s))
  {
    var u := Sample(s);
    SampleKeeps(s);
    hide ProcessExpired, ListsOk;
    if u.current.entries != [] { ProcessExpiredKeeps(u); ProcessExpiredFrame(u); }
  }

  lemma ProcessExpiredFrame(s: State)
    requires Fresh(s) && s.current.entries != []
    ensures ProcessExpired(s).now == s.now
  {
    hide Decide, Fresh;
  }

  lemma UntouchedBack(s: State, r: State, t: Timer)
    requires Untouched(s, r, t)
    ensures Untouched(r, s, t)
  {
  }

  /** A callback of t for any instant but the one due takes it off schedule. */
  lemma WrongInstant(s: State, r: State, t: Timer, c: nat, p: Tick, f: Firing)
    requires Of(r.fired, t) == Of(s.fired, t) + [f] && f.instant != Due(s, t, c, p)
    ensures !OnSchedule(r, t, c, p)
  {
    hide Of, Instant, Awaits;
    var n := |Of(s.fired, t)|;
    assert Of(r.fired, t)[n] == f;
  }

  /** Out of sight, a turn takes t off schedule: it is taken to lie in a wrap it does not. */
  lemma TurnLoses(s: State, t: Timer, c: nat, p: Tick)
    requires Inv(s) && OnSchedule(s, t, c, p) && !InSight(s, t)
    ensures !OnSchedule(Turn(s), t, c, p)
  {
    var u, d := Sample(s), Due(s, t, c, p);
    SampleKeeps(s);
    SampleTracksExactly(s, t, c, p);
    OnScheduleFacts(s, t, c, p);
    OutOfSight(s, t, d, p);
    if !(Low(s.now) < Low(s.last)) && s.current.entries != [] && s.current.entries[0].value <= Low(s.now) {
      var e := s.current.entries[0];
      if e.owner == t {
        HeadFires(u);
        assert e in u.current.entries;
        assert Has(u.current.entries, t);
        Join(u.epoch, e.value);
        FireOf(u.fired, Firing(t, At(u.epoch, e.value), u.now), t);
        hide Of, OnSchedule, ProcessExpired, Due;
        WrongInstant(s, ProcessExpired(u), t, c, p, Firing(t, At(u.epoch, e.value), u.now));
      } else {
        ProcessExpiredUntouched(u, t);
        UntouchedBack(u, ProcessExpired(u), t);
        hide OnSchedule, ProcessExpired;
        if OnSchedule(ProcessExpired(u), t, c, p) {
          UntouchedSchedule(ProcessExpired(u), u, t, c, p);
        }
      }
    }
  }

  lemma HeadFires(s: State)
    requires Fresh(s) && s.current.entries != []
    ensures var e := s.current.entries[0];
            ProcessExpired(s).fired == s.fired + [Firing(e.owner, At(s.epoch, e.value), s.now)]
  {
    hide Decide, Insert, RemoveAt;
  }

  lemma TurnTracks(s: State, t: Timer, c: nat, p: Tick)
    requires Inv(s) && InSight(s, t) && OnSchedule(s, t, c, p)
    ensures OnSchedule(Turn(s), t, c, p)
  {
    var u := Sample(s);
    SampleKeeps(s);
    SampleTracks(s, t, c, p);
    if !(Low(s.now) < Low(s.last)) && s.current.entries != [] && s.current.entries[0].value <= Low(s.now) {
      hide OnSchedule, ProcessExpired, ListsOk, InSight;
      if s.current.entries[0].owner == t {
        ProcessExpiredFires(u, t, c, p);
      } else {
        ProcessExpiredUntouched(u, t);
        UntouchedSchedule(u, ProcessExpired(u), t, c, p);
      }
    }
  }

  // ---- handling one command ---------------------------------------------------------------------------

  lemma DetachEffect(s: State, t: Timer)
    requires ListsOk(s)
    ensures var u := Detach(s, t);
            && ListOk(u.current) && ListOk(u.overflow)
            && (forall e :: e in u.current.entries <==> e in s.current.entries && e.owner != t)
            && (forall e :: e in u.overflow.entries <==> e in s.overflow.entries && e.owner != t)
            && u == s.(current := u.current, overflow := u.overflow)
  {
    ListRemove(s.current, t);
    ListRemove(s.overflow, t);
  }

  lemma DetachKeeps(s: State, t: Timer)
    requires Inv(s)
    ensures var u := Detach(s, t); Inv(u) && !Listed(u, t)
  {
    DetachEffect(s, t);
    hide ListOk, Detach;
    var u := Detach(s, t);
    assert forall x :: Has(u.current.entries, x) ==> Has(s.current.entries, x);
    assert u.current.entries != [] ==> u.current.entries[0] in s.current.entries;
    assert u.overflow.entries != [] ==> u.overflow.entries[0] in s.overflow.entries;
  }

  lemma DetachUntouched(s: State, t: Timer, x: Timer)
    requires ListsOk(s) && x != t
    ensures Untouched(s, Detach(s, t), x)
  {
    DetachEffect(s, t);
    hide ListOk, Detach, For, Of;
  }

  lemma ReadyKeeps(s: State)
    requires Inv(s) && s.queue != []
    ensures Fits(Remove(s.current, s.queue[0].timer).entries)
    ensures Fresh(Ready(s)) && !Listed(Ready(s), s.queue[0].timer) && Ready(s).now == s.now
    ensures Ready(s).period == s.period && Ready(s).autoReload == s.autoReload
    ensures For(Ready(s).queue, s.queue[0].timer) == For(s.queue[1..], s.queue[0].timer)
    ensures Of(Ready(s).fired, s.queue[0].timer) == Of(s.fired, s.queue[0].timer)
  {
    var t, v := s.queue[0].timer, s.(queue := s.queue[1..]);
    DetachKeeps(v, t);
    var u := Detach(v, t);
    SampleKeeps(u);
    SampleAbsent(u, t);
    hide Sample, ListOk, For, Of, Remove;
  }

  lemma SightUntouched(s: State, r: State, t: Timer)
    requires Untouched(s, r, t)
    ensures InSight(r, t) <==> InSight(s, t)
  {
    hide Of, For;
    assert Has(r.current.entries, t) <==> Has(s.current.entries, t);
    assert Has(r.overflow.entries, t) <==> Has(s.overflow.entries, t);
  }

  lemma TailUntouched(s: State, t: Timer)
    requires Inv(s) && s.queue != [] && s.queue[0].timer != t
    ensures var v := s.(queue := s.queue[1..]); Untouched(s, v, t) && Inv(v) && ListsOk(v)
  {
    hide ListOk, Of;
  }

  /** Looking at the clock for another timer's command keeps t on schedule exactly if t is in
      sight. */
  lemma ReadyTracksExactly(s: State, t: Timer, c: nat, p: Tick)
    requires Inv(s) && s.queue != [] && s.queue[0].timer != t && OnSchedule(s, t, c, p)
    ensures Fits(Remove(s.current, s.queue[0].timer).entries)
    ensures OnSchedule(Ready(s), t, c, p) <==> InSight(s, t)
  {
    hide Untouched, OnSchedule, Detach, InSight, Inv, Sample, Fits, Remove;
    var x, v := s.queue[0].timer, s.(queue := s.queue[1..]);
    TailUntouched(s, t);
    ReadyKeeps(s);
    DetachUntouched(v, x, t);
    DetachKeeps(v, x);
    var w := Detach(v, x);
    UntouchedTrans(s, v, w, t);
    UntouchedSchedule(s, w, t, c, p);
    SightUntouched(s, w, t);
    SampleTracksExactly(w, t, c, p);
  }

  lemma StartKeeps(s: State, t: Timer, at: nat)
    requires Fresh(s) && !Listed(s, t)
    ensures Fresh(DoStart(s, t, at)) && DoStart(s, t, at).now == s.now
  {
    var next := Add(Low(at), PeriodOf(s, t));
    InsertLists(s, t, next, Decide(next, Low(s.last), Low(at), PeriodOf(s, t)));
    hide ListOk, InsertTimer, Decide;
  }

  lemma ChangePeriodKeeps(s: State, t: Timer, p: Tick)
    requires Fresh(s) && !Listed(s, t)
    ensures Fresh(DoChangePeriod(s, t, p)) && DoChangePeriod(s, t, p).now == s.now
  {
    var next := Add(Low(s.last), p);
    InsertLists(s.(period := s.period[t := p]), t, next, Decide(next, Low(s.last), Low(s.last), p));
    hide ListOk, InsertTimer, Decide;
  }

  lemma HandleKeeps(s: State)
    requires Inv(s) && s.queue != []
    ensures Fits(Remove(s.current, s.queue[0].timer).entries)
    ensures Inv(Handle(s))
  {
    ReadyKeeps(s);
    var u := Ready(s);
    hide ListsOk, DoStart, DoChangePeriod, Ready;
    match s.queue[0]
    case Start(t, at) => StartKeeps(u, t, at);
    case Stop(_) =>
    case ChangePeriod(t, p) => ChangePeriodKeeps(u, t, p);
    case Delete(_) => assert ListsOk(Act(u, s.queue[0])) by { SameListsOk(u, Act(u, s.queue[0])); }
  }

  lemma SameListsOk(s: State, r: State)
    requires ListsOk(s) && r.current == s.current && r.overflow == s.overflow
    ensures ListsOk(r)
  {
  }

  lemma StartUntouched(s: State, u: Timer, at: nat, t: Timer)
    requires Fresh(s) && !Listed(s, u) && u != t
    ensures Untouched(s, DoStart(s, u, at), t)
  {
    hide Untouched, InsertTimer, Decide, ListOk;
    var p := PeriodOf(s, u);
    var next := Add(Low(at), p);
    var placement := Decide(next, Low(s.last), Low(at), p);
    if placement != ProcessNow {
      UntouchedInsert(s, u, next, placement, t);
    } else {
      var v := Fire(s, u, at + p);
      FireUntouched(s, u, at + p, t);
      PostUntouched(v, Start(u, at + p), t);
      if u in s.autoReload {
        UntouchedTrans(s, v, Post(v, Start(u, at + p)), t);
      }
    }
  }

  lemma ActUntouched(s: State, c: Command, t: Timer)
    requires Fresh(s) && !Listed(s, c.timer) && c.timer != t
    ensures Untouched(s, Act(s, c), t)
  {
    match c
    case Start(u, at) => StartUntouched(s, u, at, t);
    case Stop(_) =>
    case ChangePeriod(u, p) =>
      var next := Add(Low(s.last), p);
      var v := s.(period := s.period[u := p]);
      UntouchedInsert(v, u, next, Decide(next, Low(s.last), Low(s.last), p), t);
      assert Untouched(s, v, t);
      hide Untouched, InsertTimer;
      UntouchedTrans(s, v, DoChangePeriod(s, u, p), t);
    case Delete(_) =>
  }

  /** Commands for other timers do not concern t, as long as it is in sight. */
  lemma HandleOthersExactly(s: State, t: Timer, c: nat, p: Tick)
    requires Inv(s) && s.queue != [] && s.queue[0].timer != t && OnSchedule(s, t, c, p)
    ensures Fits(Remove(s.current, s.queue[0].timer).entries)
    ensures OnSchedule(Handle(s), t, c, p) <==> InSight(s, t)
  {
    ReadyTracksExactly(s, t, c, p);
    ReadyKeeps(s);
    hide OnSchedule, Ready, Act, Untouched, InSight;
    ActUntouched(Ready(s), s.queue[0], t);
    UntouchedBack(Ready(s), Handle(s), t);
    if OnSchedule(Ready(s), t, c, p) { UntouchedSchedule(Ready(s), Handle(s), t, c, p); }
    if OnSchedule(Handle(s), t, c, p) { UntouchedSchedule(Handle(s), Ready(s), t, c, p); }
  }

  /** What a callback of t for d leaves behind: the next one is set up, or the timer has done
      its one. */
  ghost predicate GoesOn(s: State, t: Timer, d: nat, p: Tick) {
    if t in s.autoReload then Awaits(s, t, d + p, p) else !Listed(s, t) && For(s.queue, t) == []
  }

  lemma StartNext(s: State, t: Timer, v: nat, p: Tick)
    requires Fresh(s) && !Listed(s, t) && For(s.queue, t) == [] && v <= s.now < v + WRAP
    requires p > 0 && PeriodOf(s, t) == p
    ensures var r := DoStart(s, t, v);
            && r.period == s.period && r.autoReload == s.autoReload
            && if r.fired == s.fired then Awaits(r, t, v + p, p)
               else v + p <= s.now && r.fired == s.fired + [Firing(t, v + p, s.now)] && GoesOn(r, t, v + p, p)
  {
    InsertNext(s, t, v, p);
    var placement := Decide(Add(Low(v), p), Low(s.now), Low(v), p);
    InsertLists(s, t, Add(Low(v), p), placement);
    PostFor(s.queue, Start(t, v + p), t);
    hide Decide, InsertTimer, For, ListOk;
  }

  /** Without a callback the schedule stands. */
  lemma Stay(s: State, r: State, t: Timer, c: nat, p: Tick)
    requires OnSchedule(s, t, c, p) && Of(r.fired, t) == Of(s.fired, t)
    requires r.period == s.period && r.autoReload == s.autoReload
    requires Awaits(r, t, Due(s, t, c, p), p)
    ensures OnSchedule(r, t, c, p)
  {
    hide Of, FiredOnce, Instant;
  }

  /** Acting on the restart of t: either its instant has come and it fires, or it is listed. */
  lemma StartTracks(s: State, r: State, t: Timer, v: nat, c: nat, p: Tick)
    requires OnSchedule(s, t, c, p) && Fresh(r) && !Listed(r, t) && For(r.queue, t) == []
    requires Of(r.fired, t) == Of(s.fired, t) && r.period == s.period && r.autoReload == s.autoReload
    requires Due(s, t, c, p) == v + p && v <= r.now < v + WRAP
    ensures OnSchedule(DoStart(r, t, v), t, c, p)
  {
    hide OnSchedule, DoStart, Fresh, Awaits, For, Of, Due, Listed;
    OnScheduleFacts(s, t, c, p);
    StartNext(r, t, v, p);
    FireOf(r.fired, Firing(t, v + p, r.now), t);
    var q := DoStart(r, t, v);
    if q.fired != r.fired {
      Advance(s, q, t, c, p, r.now);
    } else {
      Stay(s, q, t, c, p);
    }
  }

  /** A command for t at the head of the queue is the restart it waits for, and the only one. */
  lemma HeadIsRestart(s: State, t: Timer, d: nat, p: Tick)
    requires s.queue != [] && s.queue[0].timer == t && Awaits(s, t, d, p)
    ensures p <= d && s.queue[0] == Start(t, d - p) && d - p <= s.now && For(s.queue[1..], t) == []
  {
    assert For(s.queue, t) == [s.queue[0]] + For(s.queue[1..], t);
    assert For(s.queue, t)[0] == s.queue[0];
    assert |For(s.queue, t)| == 1;
  }

  /** A restart from v is handled in time if less than a wrap has passed since v, or the word
      distance still shows a period. */
  predicate InTime(now: nat, v: nat, p: Tick) {
    now < v + WRAP || Sub(Low(now), Low(v)) >= p
  }

  /** The latest time with the word of v. */
  lemma LatestLike(now: nat, v: nat)
    requires v + WRAP <= now
    ensures var e := Sub(Low(now), Low(v)); e <= now && Low(now - e) == Low(v)
  {
    var e := Sub(Low(now), Low(v));
    AddWords(now - e, e);
    assert Add(Low(v), e) == Low(now);
    AddCancels(Low(now - e), Low(v), e);
  }

  lemma AddCancels(x: Tick, y: Tick, e: Tick)
    requires Add(x, e) == Add(y, e)
    ensures x == y
  {
  }

  /** However late, the restart fires if the word distance shows a period. */
  lemma LateDecision(now: nat, v: nat, p: Tick)
    requires v + WRAP <= now && p > 0
    ensures Decide(Add(Low(v), p), Low(now), Low(v), p) == ProcessNow <==> Sub(Low(now), Low(v)) >= p
    ensures Decide(Add(Low(v), p), Low(now), Low(v), p) == InCurrent ==> Add(Low(v), p) > Low(now)
  {
    var e := Sub(Low(now), Low(v));
    LatestLike(now, v);
    PlacementIsExact(now - e, now, p);
    AddWords(now - e, p);
    hide Low, Epoch, Sub;
  }

  /** Acting on a restart a wrap or more late: it fires if the word distance shows a period, and
      otherwise t is filed for an instant that is not the one it awaits. */
  lemma LateStart(s: State, t: Timer, v: nat, p: Tick)
    requires Fresh(s) && !Listed(s, t) && For(s.queue, t) == [] && v + WRAP <= s.now
    requires p > 0 && PeriodOf(s, t) == p
    ensures var r := DoStart(s, t, v);
            && r.period == s.period && r.autoReload == s.autoReload
            && if Sub(Low(s.now), Low(v)) >= p
               then r.fired == s.fired + [Firing(t, v + p, s.now)] && GoesOn(r, t, v + p, p)
               else r.fired == s.fired && !Awaits(r, t, v + p, p)
  {
    hide Decide, InsertTimer, For, ListOk;
    LateDecision(s.now, v, p);
    var next := Add(Low(v), p);
    var placement := Decide(next, Low(s.now), Low(v), p);
    InsertLists(s, t, next, placement);
    PostFor(s.queue, Start(t, v + p), t);
    AddWords(v, p);
    Split(v + p);
    Split(s.now);
    var r := DoStart(s, t, v);
    if placement != ProcessNow {
      assert Entry(t, next) in r.current.entries || Entry(t, next) in r.overflow.entries;
      assert Listed(r, t);
    }
  }

  /** A command for t is its restart; handling it keeps t on schedule exactly if it is in time. */
  lemma HandleOwnExactly(s: State, t: Timer, c: nat, p: Tick)
    requires Inv(s) && s.queue != [] && s.queue[0].timer == t && OnSchedule(s, t, c, p)
    ensures Fits(Remove(s.current, s.queue[0].timer).entries)
    ensures s.queue[0].Start? && (OnSchedule(Handle(s), t, c, p) <==> InTime(s.now, s.queue[0].at, p))
  {
    hide Ready, For, Of, OnSchedule, Fresh, Awaits, Due, DoStart, Listed, Fits, Remove;
    var d := Due(s, t, c, p);
    OnScheduleFacts(s, t, c, p);
    ReadyKeeps(s);
    HeadIsRestart(s, t, d, p);
    if s.now < d - p + WRAP {
      StartTracks(s, Ready(s), t, d - p, c, p);
    } else {
      LateTracksExactly(s, Ready(s), t, d - p, c, p);
    }
  }

  lemma LateTracksExactly(s: State, r: State, t: Timer, v: nat, c: nat, p: Tick)
    requires OnSchedule(s, t, c, p) && Fresh(r) && !Listed(r, t) && For(r.queue, t) == []
    requires Of(r.fired, t) == Of(s.fired, t) && r.period == s.period && r.autoReload == s.autoReload
    requires Due(s, t, c, p) == v + p && v + WRAP <= r.now
    ensures OnSchedule(DoStart(r, t, v), t, c, p) <==> Sub(Low(r.now), Low(v)) >= p
  {
    hide OnSchedule, DoStart, Fresh, Awaits, For, Of, Due, Listed;
    OnScheduleFacts(s, t, c, p);
    LateStart(r, t, v, p);
    FireOf(r.fired, Firing(t, v + p, r.now), t);
    var q := DoStart(r, t, v);
    if Sub(Low(r.now), Low(v)) >= p {
      Advance(s, q, t, c, p, r.now);
    } else if OnSchedule(q, t, c, p) {
      OnScheduleFacts(q, t, c, p);
      SameDue(s, q, t, c, p);
    }
  }

  lemma SameDue(s: State, r: State, t: Timer, c: nat, p: Tick)
    requires Of(r.fired, t) == Of(s.fired, t)
    ensures Due(r, t, c, p) == Due(s, t, c, p)
  {
  }

  // ---- every run --------------------------------------------------------------------------------------

  ghost predicate CanRun(s: State, steps: seq<Step>)
    decreases |steps|
  {
    steps == [] || (Enabled(s, steps[0]) && CanRun(Apply(s, steps[0]), steps[1..]))
  }

  ghost function Run(s: State, steps: seq<Step>): State
    requires CanRun(s, steps)
    decreases |steps|
  {
    if steps == [] then s else Run(Apply(s, steps[0]), steps[1..])
  }

  lemma NoSteps(s: State)
    ensures CanRun(s, []) && Run(s, []) == s
  {
  }

  lemma {:induction false} RunThen(s: State, steps: seq<Step>, step: Step)
    requires CanRun(s, steps) && Enabled(Run(s, steps), step)
    ensures CanRun(s, steps + [step]) && Run(s, steps + [step]) == Apply(Run(s, steps), step)
    decreases |steps|
  {
    hide Enabled, Apply;
    if steps == [] {
      assert [step][1..] == [];
    } else {
      assert (steps + [step])[1..] == steps[1..] + [step];
      RunThen(Apply(s, steps[0]), steps[1..], step);
    }
  }

  lemma {:induction false} RunConcat(s: State, a: seq<Step>, b: seq<Step>)
    requires CanRun(s, a) && CanRun(Run(s, a), b)
    ensures CanRun(s, a + b) && Run(s, a + b) == Run(Run(s, a), b)
    decreases |a|
  {
    hide Enabled, Apply;
    if a == [] {
      assert a + b == b;
    } else {
      assert (a + b)[1..] == a[1..] + b;
      RunConcat(Apply(s, a[0]), a[1..], b);
    }
  }

  /** No task commands t. */
  ghost predicate Alone(step: Step, t: Timer) {
    step.Send? ==> step.command.timer != t
  }

  /** The daemon is not too late for t in this step: t is in sight when the clock is looked at, and
      its own restart is handled in time. */
  ghost predicate NotTooLate(s: State, step: Step, t: Timer, p: Tick) {
    && (step.DaemonTurn? ==> InSight(s, t))
    && (step.DaemonCommand? && s.queue != [] ==>
          if s.queue[0].timer == t then s.queue[0].Start? ==> InTime(s.now, s.queue[0].at, p) else InSight(s, t))
  }

  ghost predicate NeverTooLate(s: State, steps: seq<Step>, t: Timer, p: Tick)
    requires CanRun(s, steps)
    decreases |steps|
  {
    steps == [] || (NotTooLate(s, steps[0], t, p) && NeverTooLate(Apply(s, steps[0]), steps[1..], t, p))
  }

  lemma StepKeeps(s: State, step: Step)
    requires Inv(s) && Enabled(s, step)
    ensures Inv(Apply(s, step))
  {
    hide Turn, Handle, ListsOk;
    match step
    case Pass(n) => assert ListsOk(s.(now := s.now + n)) by { SameListsOk(s, s.(now := s.now + n)); }
    case Send(c) => assert ListsOk(Post(s, c)) by { SameListsOk(s, Post(s, c)); }
    case DaemonTurn => TurnKeeps(s);
    case DaemonCommand => HandleKeeps(s);
  }

  /** A step keeps t on schedule exactly if the daemon is not too late in it. */
  lemma StepTracksExactly(s: State, step: Step, t: Timer, c: nat, p: Tick)
    requires Inv(s) && Enabled(s, step) && Alone(step, t) && OnSchedule(s, t, c, p)
    ensures OnSchedule(Apply(s, step), t, c, p) <==> NotTooLate(s, step, t, p)
  {
    match step
    case Pass(n) => hide ListsOk, Of, For, Instant, FiredOnce;
    case Send(x) => PostUntouched(s, x, t); UntouchedSchedule(s, Post(s, x), t, c, p);
    case DaemonTurn => if InSight(s, t) { TurnTracks(s, t, c, p); } else { TurnLoses(s, t, c, p); }
    case DaemonCommand =>
      if s.queue[0].timer == t { HandleOwnExactly(s, t, c, p); } else { HandleOthersExactly(s, t, c, p); }
  }

  /** t is on schedule at every point of the run. */
  ghost predicate Throughout(s: State, steps: seq<Step>, t: Timer, c: nat, p: Tick)
    requires CanRun(s, steps)
    decreases |steps|
  {
    OnSchedule(s, t, c, p) && (steps == [] || Throughout(Apply(s, steps[0]), steps[1..], t, c, p))
  }

  lemma {:induction false} RunTracksExactly(s: State, steps: seq<Step>, t: Timer, c: nat, p: Tick)
    requires Inv(s) && CanRun(s, steps) && OnSchedule(s, t, c, p)
    requires forall step :: step in steps ==> Alone(step, t)
    ensures Throughout(s, steps, t, c, p) <==> NeverTooLate(s, steps, t, p)
    ensures NeverTooLate(s, steps, t, p) ==> Inv(Run(s, steps)) && OnSchedule(Run(s, steps), t, c, p)
    decreases |steps|
  {
    hide Inv, OnSchedule, Enabled, Apply, Alone, NotTooLate;
    if steps != [] {
      assert steps[0] in steps;
      StepKeeps(s, steps[0]);
      StepTracksExactly(s, steps[0], t, c, p);
      if OnSchedule(Apply(s, steps[0]), t, c, p) {
        RunTracksExactly(Apply(s, steps[0]), steps[1..], t, c, p);
      }
    }
  }

  /** A timer nobody has started yet, in a daemon in order. */
  ghost predicate Unstarted(s: State, t: Timer, p: Tick) {
    && Inv(s) && For(s.queue, t) == [] && !Listed(s, t) && Of(s.fired, t) == []
    && p > 0 && t in s.period && s.period[t] == p && t in s.autoReload
  }

  lemma StartOnSchedule(s: State, t: Timer, p: Tick)
    requires Unstarted(s, t, p)
    ensures var u := Post(s, Start(t, s.now)); Inv(u) && OnSchedule(u, t, s.now, p)
  {
    var u := Post(s, Start(t, s.now));
    PostFor(s.queue, Start(t, s.now), t);
    assert Due(u, t, s.now, p) == s.now + p;
    assert ListsOk(u) by { SameListsOk(s, u); }
  }

  /** An auto-reload timer started at true time c with period p, which nobody else commands, does
      not drift as long as the daemon is never too late for it: its callbacks are for c + p,
      c + 2p, c + 3p, ..., each once, in order and never before its instant, across any number of
      wraps. */
  lemma NoDrift(s: State, steps: seq<Step>, t: Timer, p: Tick)
    requires Unstarted(s, t, p) && CanRun(Post(s, Start(t, s.now)), steps)
    requires forall step :: step in steps ==> Alone(step, t)
    requires NeverTooLate(Post(s, Start(t, s.now)), steps, t, p)
    ensures var f := Of(Run(Post(s, Start(t, s.now)), steps).fired, t);
            forall i :: 0 <= i < |f| ==>
              f[i].timer == t && f[i].instant == s.now + (i + 1) * p && f[i].when >= f[i].instant
  {
    hide Inv, Run, CanRun, NeverTooLate, Awaits, Alone, Unstarted, Of;
    var u := Post(s, Start(t, s.now));
    StartOnSchedule(s, t, p);
    RunTracksExactly(u, steps, t, s.now, p);
    OfTimer(Run(u, steps).fired, t);
  }

  /** And that hypothesis is exact: the timer is on schedule at every point of the run if and only
      if the daemon is never too late for it. */
  lemma NoDriftExactly(s: State, steps: seq<Step>, t: Timer, p: Tick)
    requires Unstarted(s, t, p) && CanRun(Post(s, Start(t, s.now)), steps)
    requires forall step :: step in steps ==> Alone(step, t)
    ensures var u := Post(s, Start(t, s.now));
            Throughout(u, steps, t, s.now, p) <==> NeverTooLate(u, steps, t, p)
  {
    StartOnSchedule(s, t, p);
    RunTracksExactly(Post(s, Start(t, s.now)), steps, t, s.now, p);
  }

  lemma {:induction false} OfTimer(log: seq<Firing>, t: Timer)
    ensures forall f :: f in Of(log, t) ==> f.timer == t
  {
    if log != [] {
      OfTimer(log[..|log| - 1], t);
    }
  }

  /** What a listed timer awaits is still to come when the head of the current list is. */
  lemma NotYetDue(s: State, t: Timer, d: nat, p: Tick)
    requires Inv(s) && Awaits(s, t, d, p) && s.last == s.now && For(s.queue, t) == []
    requires s.current.entries == [] || s.current.entries[0].value > Low(s.now)
    ensures d > s.now
  {
    Split(d);
    Split(s.now);
    hide Of, For;
    if Entry(t, Low(d)) in s.current.entries && Epoch(d) == s.epoch {
      ListHead(s.current);
    } else {
      EarlierEpoch(s.now, d);
    }
  }

  /** Once the daemon has caught up, with no restart queued and the head of the current list
      not yet due, every instant up to the present has had its callback. */
  lemma CaughtUp(s: State, t: Timer, c: nat, p: Tick)
    requires Inv(s) && OnSchedule(s, t, c, p) && s.last == s.now && For(s.queue, t) == []
    requires s.current.entries == [] || s.current.entries[0].value > Low(s.now)
    ensures c + (|Of(s.fired, t)| + 1) * p > s.now
  {
    hide Inv, Awaits, Of, For, FiredOnce;
    NotYetDue(s, t, Due(s, t, c, p), p);
  }

  // ---- callbacks are not ahead of time ------------------------------------------------------------------

  /** No callback in the log is later than the present. */
  ghost predicate Dated(s: State) {
    forall i {:trigger s.fired[i]} :: 0 <= i < |s.fired| ==> s.fired[i].when <= s.now
  }

  lemma {:induction false} ExpireAllDated(s: State)
    requires ListsOk(s) && Dated(s)
    ensures Dated(ExpireAll(s)) && ExpireAll(s).now == s.now
    decreases Left(s.current.entries)
  {
    if s.current.entries != [] {
      ExpireHeadLists(s);
      ExpireHeadFrom(s);
      ExpireHeadList(s);
      hide ExpireHead, ListOk, Left;
      ExpireAllDated(ExpireHead(s));
    }
  }

  lemma SampleDated(s: State)
    requires Inv(s) && Dated(s)
    ensures Dated(Sample(s))
  {
    ExpireAllDated(s);
    hide ExpireAll, ListOk;
  }

  lemma TurnDated(s: State)
    requires Inv(s) && Dated(s)
    ensures Dated(Turn(s))
  {
    SampleKeeps(s);
    SampleDated(s);
    hide Sample, ListsOk, Decide, Insert, RemoveAt;
  }

  lemma HandleDated(s: State)
    requires Inv(s) && Dated(s) && s.queue != []
    ensures Fits(Remove(s.current, s.queue[0].timer).entries) && Dated(Handle(s))
  {
    var v := s.(queue := s.queue[1..]);
    DetachKeeps(v, s.queue[0].timer);
    assert Dated(Detach(v, s.queue[0].timer));
    SampleDated(Detach(v, s.queue[0].timer));
    hide Sample, Detach, ListsOk;
    ActDated(Ready(s), s.queue[0]);
  }

  lemma ActDated(s: State, c: Command)
    requires Dated(s)
    ensures Dated(Act(s, c))
  {
    hide Decide, Insert;
  }

  lemma StepDated(s: State, step: Step)
    requires Inv(s) && Dated(s) && Enabled(s, step)
    ensures Dated(Apply(s, step))
  {
    hide Turn, Handle, ListsOk;
    match step
    case Pass(_) =>
    case Send(_) =>
    case DaemonTurn => TurnDated(s);
    case DaemonCommand => HandleDated(s);
  }

  lemma {:induction false} RunDated(s: State, steps: seq<Step>)
    requires Inv(s) && Dated(s) && CanRun(s, steps)
    ensures Dated(Run(s, steps))
    decreases |steps|
  {
    hide Inv, Dated, Enabled, Apply;
    if steps != [] {
      StepKeeps(s, steps[0]);
      StepDated(s, steps[0]);
      RunDated(Apply(s, steps[0]), steps[1..]);
    }
  }

  lemma {:induction false} OfMembers(log: seq<Firing>, t: Timer)
    ensures forall f :: f in Of(log, t) ==> f in log
  {
    if log != [] {
      OfMembers(log[..|log| - 1], t);
    }
  }

  /** The daemon has just looked at the clock and has nothing left to do for t. */
  ghost predicate Idle(s: State, t: Timer) {
    && s.last == s.now && For(s.queue, t) == []
    && (s.current.entries == [] || s.current.entries[0].value > Low(s.now))
  }

  lemma Multiples(k: nat, n: nat, p: nat)
    requires k <= n
    ensures k * p <= n * p
  {
    assert n * p == k * p + (n - k) * p;
  }

  lemma FiredExactly(f: seq<Firing>, c: nat, p: Tick, now: nat)
    requires FiredOnce(f, c, p) && forall i :: 0 <= i < |f| ==> f[i].when <= now
    requires c + (|f| + 1) * p > now
    ensures forall k: nat :: 1 <= k <= |f| <==> 1 <= k && c + k * p <= now
  {
    forall k: nat
      ensures 1 <= k <= |f| <==> 1 <= k && c + k * p <= now
    {
      if 1 <= k <= |f| {
        assert f[k - 1].instant == Instant(c, p, k);
      } else if k > |f| {
        Multiples(|f| + 1, k, p);
      }
    }
  }

  lemma OfDated(s: State, t: Timer)
    requires Dated(s)
    ensures forall i :: 0 <= i < |Of(s.fired, t)| ==> Of(s.fired, t)[i].when <= s.now
  {
    OfMembers(s.fired, t);
    forall i | 0 <= i < |Of(s.fired, t)|
      ensures Of(s.fired, t)[i].when <= s.now
    {
      assert Of(s.fired, t)[i] in Of(s.fired, t);
    }
  }

  lemma FiredUpToNow(r: State, t: Timer, c: nat, p: Tick)
    requires Inv(r) && Dated(r) && OnSchedule(r, t, c, p) && Idle(r, t)
    ensures forall k: nat :: 1 <= k <= |Of(r.fired, t)| <==> 1 <= k && c + k * p <= r.now
  {
    CaughtUp(r, t, c, p);
    OfDated(r, t);
    hide Of, Awaits, ListsOk, For, Dated;
    FiredExactly(Of(r.fired, t), c, p, r.now);
  }

  /** At the end of a run in which the daemon was never too late for it and has caught up, the
      timer has had exactly the callbacks for the instants that have come. */
  lemma ExactlyTheInstantsThatHaveCome(s: State, steps: seq<Step>, t: Timer, p: Tick)
    requires Unstarted(s, t, p) && Dated(s) && CanRun(Post(s, Start(t, s.now)), steps)
    requires forall step :: step in steps ==> Alone(step, t)
    requires NeverTooLate(Post(s, Start(t, s.now)), steps, t, p)
    requires Idle(Run(Post(s, Start(t, s.now)), steps), t)
    ensures var r := Run(Post(s, Start(t, s.now)), steps);
            forall k: nat :: 1 <= k <= |Of(r.fired, t)| <==> 1 <= k && s.now + k * p <= r.now
  {
    var u := Post(s, Start(t, s.now));
    StartOnSchedule(s, t, p);
    assert Dated(u);
    hide Run, CanRun, NeverTooLate, Of, OnSchedule, Inv, Idle, Dated, Unstarted, Alone;
    RunTracksExactly(u, steps, t, s.now, p);
    RunDated(u, steps);
    FiredUpToNow(Run(u, steps), t, s.now, p);
  }

  // ---- how long the daemon sleeps ---------------------------------------------------------------------

  /** The block time `prvProcessTimerOrBlockTask` asks for when nothing is due, and whether it
      means for ever. */
  function BlockTime(s: State): (Tick, bool)
    requires s.current.entries != [] ==> s.current.entries[0].value < WRAP
  {
    var next := if s.current.entries == [] then 0 else s.current.entries[0].value;
    (Sub(next, Low(s.now)), s.current.entries == [] && s.overflow.entries == [])
  }

  /** The daemon sleeps until the first expiry of this wrap, or to the end of the wrap if only
      later ones are listed, and for ever only if none is.  At word 0 the end of the wrap is
      where it already is. */
  lemma SleepsUntilNext(s: State)
    requires Inv(s) && s.last == s.now
    requires s.current.entries != [] ==> Low(s.now) < s.current.entries[0].value
    ensures var (ticks, forever) := BlockTime(s);
            && (forever <==> forall t :: !Listed(s, t))
            && (s.current.entries != [] ==> s.now + ticks == At(s.epoch, s.current.entries[0].value))
            && (s.current.entries == [] && Low(s.now) > 0 ==> s.now + ticks == At(Epoch(s.now) + 1, 0))
            && (s.current.entries == [] && Low(s.now) == 0 ==> ticks == 0)
  {
    hide ListOk;
    Split(s.now);
    SomeListed(s.current.entries);
    SomeListed(s.overflow.entries);
    if exists t :: Listed(s, t) {
      var t :| Listed(s, t);
    } else {
      assert s.current.entries != [] ==> !Listed(s, s.current.entries[0].owner);
      assert s.overflow.entries != [] ==> !Listed(s, s.overflow.entries[0].owner);
    }
  }

  lemma SomeListed(q: seq<Entry<Timer>>)
    ensures q != [] ==> Has(q, q[0].owner)
  {
    assert q == [] || q[0] in q;
  }

  /** The daemon at power on, with one auto-reload timer created. */
  function PowerOn(t: Timer, p: Tick): State {
    State(0, 0, 0, Empty(), Empty(), [], map[t := p], {t}, [])
  }

  /** t started at once, and no look at the clock for a whole wrap after that. */
  function UnseenWrap(t: Timer): seq<Step> {
    [Send(Start(t, 0)), DaemonCommand, Pass(WRAP), DaemonTurn]
  }

  lemma WrapWords(p: Tick)
    ensures Low(0) == 0 && Epoch(0) == 0 && Low(WRAP) == 0 && Epoch(WRAP) == 1
    ensures p > 0 ==> Decide(Add(Low(0), p), Low(0), Low(0), p) == InCurrent && Add(Low(0), p) == p
  {
    Join(0, 0);
    Join(1, 0);
  }

  lemma StartIsHandled(t: Timer, p: Tick)
    requires p > 0
    ensures var u := Post(PowerOn(t, p), Start(t, 0));
            && Enabled(u, DaemonCommand)
            && Apply(u, DaemonCommand) == PowerOn(t, p).(current := List([Entry(t, p)], 0))
  {
    WrapWords(p);
    hide Low, Epoch, Decide, Add;
    var u := Post(PowerOn(t, p), Start(t, 0));
    assert u.queue[1..] == [];
    assert Insert(Empty<Timer>(), Entry(t, p)) == List([Entry(t, p)], 0);
    assert Ready(u) == PowerOn(t, p);
  }

  lemma MissedTurn(w: State, t: Timer, p: Tick)
    requires p > 0 && w == PowerOn(t, p).(current := List([Entry(t, p)], 0), now := WRAP)
    ensures Enabled(w, DaemonTurn) && !InSight(w, t)
    ensures Apply(w, DaemonTurn) == w.(last := WRAP, epoch := 1)
  {
    WrapWords(p);
    hide Low, Epoch, ProcessExpired;
    assert Entry(t, p) in w.current.entries;
  }

  lemma PowerOnUnstarted(t: Timer, p: Tick)
    requires p > 0
    ensures Unstarted(PowerOn(t, p), t, p)
  {
  }

  /** Why the daemon must look at the clock once per wrap: a run from power on in which every
      instant below a whole wrap has passed, the daemon has just looked, and the timer has had
      no callback; it was out of sight at that look. */
  lemma UnseenWrapMissesExpiry(t: Timer, p: Tick)
    requires p > 0
    ensures var s, steps := PowerOn(t, p), UnseenWrap(t);
            && Unstarted(s, t, p) && CanRun(s, steps[..3]) && CanRun(s, steps)
            && !InSight(Run(s, steps[..3]), t)
            && var r := Run(s, steps);
               r.now == r.last == WRAP && r.queue == [] && r.fired == []
  {
    hide Unstarted, InSight, Run, CanRun, Turn, Handle, Fits;
    var s, steps := PowerOn(t, p), UnseenWrap(t);
    var u := Post(s, Start(t, 0));
    var v := s.(current := List([Entry(t, p)], 0));
    PowerOnUnstarted(t, p);
    NoSteps(s);
    assert Enabled(s, steps[0]) && Apply(s, steps[0]) == u;
    assert Enabled(v, steps[2]) && Apply(v, steps[2]) == v.(now := WRAP);
    StartIsHandled(t, p);
    MissedTurn(v.(now := WRAP), t, p);
    hide Enabled, Apply;
    RunThen(s, [], steps[0]);
    assert [] + [steps[0]] == steps[..1];
    RunThen(s, steps[..1], steps[1]);
    assert steps[..1] + [steps[1]] == steps[..2];
    RunThen(s, steps[..2], steps[2]);
    assert steps[..2] + [steps[2]] == steps[..3];
    RunThen(s, steps[..3], steps[3]);
    assert steps[..3] + [steps[3]] == steps;
  }
}
