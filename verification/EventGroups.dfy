/**
 Event groups (event_groups.c).  Bits are 64 wide on this port; bits 24 to 31 are kept
 for the kernel, which packs a waiting task's request and later its answer into the value
 of the task's event list item.
 */
module EventGroups {
  import opened Sequences

  type Task = nat
  type Bits = bv64

  const CLEAR_ON_EXIT: Bits := 0x0100_0000
  const UNBLOCKED: Bits := 0x0200_0000
  const WAIT_FOR_ALL: Bits := 0x0400_0000
  const IN_USE: Bits := 0x8000_0000
  const CONTROL: Bits := 0xff00_0000

  /** A task in the event list, with its item value. */
  datatype Waiter = Waiter(task: Task, item: Bits)

  /** A request as the caller makes it. */
  datatype Request = Request(bits: Bits, clearOnExit: bool, all: bool)

  /** `woken` are tasks taken off the list by a set and their item values; `expired` those
      taken off by the tick; `asked` is what the tasks that blocked had asked for. */
  datatype Group = Group(
    bits: Bits,                    // uxEventBits
    waiters: seq<Waiter>,          // xTasksWaitingForBits
    woken: map<Task, Bits>,
    expired: map<Task, Bits>,
    asked: map<Task, Request>)

  /** What a call does: return a value, or leave the task in the event list. */
  datatype Outcome = Returns(value: Bits) | Blocks

  /** `prvTestWaitCondition`. */
  predicate Met(current: Bits, bits: Bits, all: bool) {
    if all then current & bits == bits else current & bits != 0
  }

  // ---- packing ------------------------------------------------------------------------------------

  /** The item value `vTaskPlaceOnUnorderedEventList` stores. */
  function Pack(r: Request): Bits {
    r.bits | (if r.clearOnExit then CLEAR_ON_EXIT else 0) | (if r.all then WAIT_FOR_ALL else 0) | IN_USE
  }

  /** How `xEventGroupSetBits` takes it apart. */
  function Unpack(item: Bits): Request {
    Request(item & !CONTROL, item & CONTROL & CLEAR_ON_EXIT != 0, item & CONTROL & WAIT_FOR_ALL != 0)
  }

  function Answer(value: Bits): Bits {
    value | UNBLOCKED | IN_USE
  }

  predicate IsAnswer(item: Bits) {
    item & UNBLOCKED != 0
  }

  /** A value without the control byte. */
  function EventBits(value: Bits): Bits {
    value & !CONTROL
  }

  /** A value below the control byte under a tag inside it. */
  lemma Tagged(b: Bits, tag: Bits)
    requires b & 0xff00_0000 == 0 && tag & !0xff00_0000 == 0
    ensures (b | tag) & !0xff00_0000 == b && (b | tag) & 0xff00_0000 == tag
  {
  }

  lemma TagBits(clear: Bits, all: Bits)
    requires (clear == 0 || clear == 0x0100_0000) && (all == 0 || all == 0x0400_0000)
    ensures var tag := clear | all | 0x8000_0000;
            && tag & !0xff00_0000 == 0
            && tag & 0x0100_0000 == clear && tag & 0x0400_0000 == all && tag & 0x0200_0000 == 0
  {
  }

  lemma OnControl(x: Bits, m: Bits)
    requires m & !0xff00_0000 == 0
    ensures x & 0xff00_0000 & m == x & m
  {
  }

  lemma OrAssociates(b: Bits, clear: Bits, all: Bits)
    ensures b | clear | all | 0x8000_0000 == b | (clear | all | 0x8000_0000)
  {
  }

  lemma ControlBits(b: Bits, clear: Bits, all: Bits)
    requires b & 0xff00_0000 == 0 && (clear == 0 || clear == 0x0100_0000) && (all == 0 || all == 0x0400_0000)
    ensures (b | clear | all | 0x8000_0000) & !0xff00_0000 == b
    ensures (b | clear | all | 0x8000_0000) & 0xff00_0000 & 0x0100_0000 == clear
    ensures (b | clear | all | 0x8000_0000) & 0xff00_0000 & 0x0400_0000 == all
    ensures (b | clear | all | 0x8000_0000) & 0x0200_0000 == 0
  {
    var tag := clear | all | 0x8000_0000;
    TagBits(clear, all);
    Tagged(b, tag);
    OrAssociates(b, clear, all);
    OnControl(b | tag, 0x0200_0000);
  }

  lemma AnswerBits(value: Bits)
    requires value & 0xff00_0000 == 0
    ensures (value | 0x0200_0000 | 0x8000_0000) & !0xff00_0000 == value
    ensures (value | 0x0200_0000 | 0x8000_0000) & 0x0200_0000 == 0x0200_0000
  {
  }

  /** Requests that keep off the control byte survive packing, and never look answered; and
      answers survive too. */
  lemma PackingRoundTrips(r: Request, value: Bits)
    requires r.bits & CONTROL == 0 && value & CONTROL == 0
    ensures Unpack(Pack(r)) == r
    ensures !IsAnswer(Pack(r))
    ensures EventBits(Answer(value)) == value && IsAnswer(Answer(value))
  {
    ControlBits(r.bits, if r.clearOnExit then CLEAR_ON_EXIT else 0, if r.all then WAIT_FOR_ALL else 0);
    AnswerBits(value);
  }

  // ---- setting bits -----------------------------------------------------------------------------------

  predicate Matches(w: Waiter, value: Bits) {
    Met(value, Unpack(w.item).bits, Unpack(w.item).all)
  }

  function Kept(ws: seq<Waiter>, value: Bits): seq<Waiter> {
    if ws == [] then [] else (if Matches(ws[0], value) then [] else [ws[0]]) + Kept(ws[1..], value)
  }

  /** The union of what the matching clear-on-exit waiters wait for. */
  function ClearMask(ws: seq<Waiter>, value: Bits): Bits {
    if ws == [] then 0
    else if Matches(ws[0], value) && Unpack(ws[0].item).clearOnExit
    then Union(Unpack(ws[0].item).bits, ClearMask(ws[1..], value))
    else ClearMask(ws[1..], value)
  }

  function Union(a: Bits, b: Bits): Bits {
    a | b
  }

  function Minus(a: Bits, b: Bits): Bits {
    a & !b
  }

  function Wakes(ws: seq<Waiter>, value: Bits): map<Task, Bits> {
    if ws == [] then map[]
    else if Matches(ws[0], value) then Wakes(ws[1..], value)[ws[0].task := Answer(value)]
    else Wakes(ws[1..], value)
  }

  /** `xEventGroupSetBits`. */
  function SetBits(g: Group, set_: Bits): Group {
    var value := Union(g.bits, set_);
    Group(Minus(value, ClearMask(g.waiters, value)), Kept(g.waiters, value),
          g.woken + Wakes(g.waiters, value), g.expired, g.asked)
  }

  /** `xEventGroupClearBits`. */
  function ClearBits(g: Group, clear: Bits): Group {
    g.(bits := Minus(g.bits, clear))
  }

  /** `vTaskPlaceOnUnorderedEventList`. */
  function Place(g: Group, t: Task, r: Request): Group {
    g.(waiters := g.waiters + [Waiter(t, Pack(r))], asked := g.asked[t := r])
  }

  /** `xEventGroupWaitBits` up to the point where the task blocks or returns. */
  function WaitBits(g: Group, t: Task, r: Request, block: bool): (Outcome, Group) {
    if Met(g.bits, r.bits, r.all) then
      (Returns(g.bits), if r.clearOnExit then ClearBits(g, r.bits) else g)
    else if !block then (Returns(g.bits), g)
    else (Blocks, Place(g, t, r))
  }

  /** `xEventGroupSync` likewise. */
  function Sync(g: Group, t: Task, set_: Bits, bits: Bits, block: bool): (Outcome, Group) {
    var u := SetBits(g, set_);
    if Met(Union(g.bits, set_), bits, true) then (Returns(Union(g.bits, set_)), ClearBits(u, bits))
    else if !block then (Returns(u.bits), u)
    else (Blocks, Place(u, t, Request(bits, true, true)))
  }

  /** The tick takes t off the list. */
  function Expire(g: Group, t: Task, i: nat): Group
    requires i < |g.waiters| && g.waiters[i].task == t
  {
    g.(waiters := g.waiters[..i] + g.waiters[i + 1..], expired := g.expired[t := g.waiters[i].item])
  }

  /** The rest of a wait once the task runs again: the answer if there is one, otherwise the
      bits as they are now, tested once more. */
  function Resume(g: Group, t: Task): (Bits, Group)
    requires t in g.asked && (t in g.woken || t in g.expired)
  {
    var r := g.asked[t];
    var item := if t in g.woken then g.woken[t] else g.expired[t];
    var u := g.(woken := g.woken - {t}, expired := g.expired - {t}, asked := g.asked - {t});
    if !IsAnswer(item) then
      (EventBits(g.bits), if Met(g.bits, r.bits, r.all) && r.clearOnExit then ClearBits(u, r.bits) else u)
    else (EventBits(item), u)
  }

  /** `vEventGroupDelete`: everyone is woken with no bits. */
  function Delete(g: Group): Group {
    g.(waiters := [], woken := g.woken + Dismissed(g.waiters))
  }

  function Dismissed(ws: seq<Waiter>): map<Task, Bits> {
    if ws == [] then map[] else Dismissed(ws[1..])[ws[0].task := Answer(0)]
  }

  /** `xEventGroupCreate`. */
  function Created(): Group {
    Group(0, [], map[], map[], map[])
  }

  // ---- the group in place -------------------------------------------------------------------------------

  class EventGroup {
    var bits: Bits
    var waiters: seq<Waiter>
    var woken: map<Task, Bits>
    var expired: map<Task, Bits>

    ghost var asked: map<Task, Request>

    ghost function View(): Group
      reads this
    {
      Group(bits, waiters, woken, expired, asked)
    }

    constructor ()
      ensures View() == Created()
    {
      bits, waiters, woken, expired, asked := 0, [], map[], map[], map[];
    }

    /** `vTaskRemoveFromUnorderedEventList` of the i-th waiter, with its answer. */
    method Unblock(i: nat, value: Bits)
      requires i < |waiters|
      modifies this`waiters, this`woken
      ensures waiters == old(waiters)[..i] + old(waiters)[i + 1..]
      ensures woken == old(woken)[old(waiters)[i].task := Answer(value)]
    {
      woken := woken[waiters[i].task := Answer(value)];
      waiters := waiters[..i] + waiters[i + 1..];
    }

    /** `xEventGroupSetBits`: walk the list, unblock what matches, and clear only at the end. */
    method Set(toSet: Bits)
      requires DistinctTasks(waiters)
      modifies this`bits, this`waiters, this`woken
      ensures View() == SetBits(old(View()), toSet)
    {
      hide Matches, Unpack, Answer, Union, Minus, Kept, ClearMask, Wakes, DistinctTasks, Walked;
      ghost var g := View();
      bits := Union(bits, toSet);
      var toClear: Bits := 0;
      var i := 0;
      ghost var kept: seq<Waiter>, rest := [], waiters;
      WalkStarts(g, bits);
      while i < |waiters|
        invariant bits == Union(g.bits, toSet) && expired == g.expired && asked == g.asked
        invariant waiters == kept + rest && i == |kept|
        invariant Walked(g, bits, kept, rest, toClear, woken)
        decreases |rest|
      {
        var w := waiters[i];
        SplitHead(rest, kept);
        WalkTurn(g, bits, kept, rest, toClear, woken);
        rest := rest[1..];
        if Matches(w, bits) {
          if Unpack(w.item).clearOnExit {
            toClear := Union(toClear, Unpack(w.item).bits);
          }
          Unblock(i, bits);
        } else {
          kept := kept + [w];
          i := i + 1;
        }
      }
      assert rest == [] && waiters == kept;
      WalkEnds(g, bits, kept, toClear, woken);
      bits := Minus(bits, toClear);
    }

    /** `xEventGroupClearBits`; returns the bits as they were. */
    method Clear(toClear: Bits) returns (was: Bits)
      modifies this`bits
      ensures View() == ClearBits(old(View()), toClear) && was == old(bits)
    {
      was := bits;
      bits := Minus(bits, toClear);
    }

    /** `xEventGroupWaitBits` up to the point where the task blocks or returns. */
    method Wait(t: Task, r: Request, block: bool) returns (outcome: Outcome)
      modifies this
      ensures (outcome, View()) == WaitBits(old(View()), t, r, block)
    {
      if Met(bits, r.bits, r.all) {
        outcome := Returns(bits);
        if r.clearOnExit {
          bits := Minus(bits, r.bits);
        }
      } else if !block {
        outcome := Returns(bits);
      } else {
        waiters, asked := waiters + [Waiter(t, Pack(r))], asked[t := r];
        outcome := Blocks;
      }
    }

    /** `xEventGroupSync` likewise. */
    method Rendezvous(t: Task, toSet: Bits, waitFor: Bits, block: bool) returns (outcome: Outcome)
      requires DistinctTasks(waiters)
      modifies this
      ensures (outcome, View()) == Sync(old(View()), t, toSet, waitFor, block)
    {
      hide SetBits, Met, Pack, Union, Minus;
      var original := bits;
      Set(toSet);
      if Met(Union(original, toSet), waitFor, true) {
        outcome := Returns(Union(original, toSet));
        bits := Minus(bits, waitFor);
      } else if block {
        var r := Request(waitFor, true, true);
        waiters, asked := waiters + [Waiter(t, Pack(r))], asked[t := r];
        outcome := Blocks;
      } else {
        outcome := Returns(bits);
      }
    }

    /** What a wait or a rendezvous does when its task runs again. */
    method RunOn(t: Task, r: Request) returns (value: Bits)
      requires t in asked && asked[t] == r && (t in woken || t in expired)
      modifies this
      ensures (value, View()) == Resume(old(View()), t)
    {
      hide Met, Minus, IsAnswer, EventBits;
      var item := if t in woken then woken[t] else expired[t];
      woken, expired, asked := woken - {t}, expired - {t}, asked - {t};
      if !IsAnswer(item) {
        value := bits;
        if Met(value, r.bits, r.all) && r.clearOnExit {
          bits := Minus(bits, r.bits);
        }
      } else {
        value := item;
      }
      value := EventBits(value);
    }

    /** `vEventGroupDelete`: the loop wakes the head until nobody waits. */
    method DeleteGroup()
      requires DistinctTasks(waiters)
      modifies this`waiters, this`woken
      ensures View() == Delete(old(View()))
    {
      hide Answer, DistinctTasks, Dismissed;
      while |waiters| > 0
        invariant DistinctTasks(waiters)
        invariant woken + Dismissed(waiters) == old(woken) + Dismissed(old(waiters))
        decreases |waiters|
      {
        DismissTurn(waiters, woken);
        assert waiters[..0] + waiters[1..] == waiters[1..];
        Unblock(0, 0);
      }
      assert Dismissed([]) == map[] by { NobodyDismissed(); }
    }
  }

  /** The walk has passed all waiters but `rest`; `kept` of those passed stay. */
  ghost predicate Walked(g: Group, value: Bits, kept: seq<Waiter>, rest: seq<Waiter>, mask: Bits, woken: map<Task, Bits>) {
    && DistinctTasks(rest)
    && Kept(g.waiters, value) == kept + Kept(rest, value)
    && ClearMask(g.waiters, value) == Union(mask, ClearMask(rest, value))
    && g.woken + Wakes(g.waiters, value) == woken + Wakes(rest, value)
  }

  lemma WalkStarts(g: Group, value: Bits)
    requires DistinctTasks(g.waiters)
    ensures Walked(g, value, [], g.waiters, 0, g.woken)
  {
    UnionNothing(ClearMask(g.waiters, value));
    hide Kept, ClearMask, Wakes, Union;
    assert [] + Kept(g.waiters, value) == Kept(g.waiters, value);
  }

  lemma WalkTurn(g: Group, value: Bits, kept: seq<Waiter>, rest: seq<Waiter>, mask: Bits, woken: map<Task, Bits>)
    requires rest != [] && Walked(g, value, kept, rest, mask, woken)
    ensures var w, m := rest[0], Unpack(rest[0].item);
            if Matches(w, value)
            then Walked(g, value, kept, rest[1..], if m.clearOnExit then Union(mask, m.bits) else mask,
                        woken[w.task := Answer(value)])
            else Walked(g, value, kept + [w], rest[1..], mask, woken)
  {
    ClearTurn(rest, value, mask);
    WakeTurn(rest, value, woken);
    KeptTurn(rest, value, kept);
    hide Matches, Unpack, Answer, Union, Kept, ClearMask, Wakes, DistinctTasks;
  }

  lemma WalkEnds(g: Group, value: Bits, kept: seq<Waiter>, mask: Bits, woken: map<Task, Bits>)
    requires Walked(g, value, kept, [], mask, woken)
    ensures kept == Kept(g.waiters, value) && mask == ClearMask(g.waiters, value)
    ensures woken == g.woken + Wakes(g.waiters, value)
  {
    UnionNothing(mask);
    NothingLeft(value);
    hide Kept, ClearMask, Wakes, Union;
    assert kept + [] == kept && woken + map[] == woken;
  }

  lemma NothingLeft(value: Bits)
    ensures Kept([], value) == [] && ClearMask([], value) == 0 && Wakes([], value) == map[]
  {
  }

  lemma SplitHead(ws: seq<Waiter>, kept: seq<Waiter>)
    requires ws != []
    ensures (kept + ws)[|kept|] == ws[0]
    ensures (kept + ws)[..|kept|] + (kept + ws)[|kept| + 1..] == kept + ws[1..]
    ensures kept + ws == kept + [ws[0]] + ws[1..]
  {
    assert (kept + ws)[..|kept|] == kept;
    assert (kept + ws)[|kept| + 1..] == ws[1..];
  }

  lemma KeptTurn(ws: seq<Waiter>, value: Bits, kept: seq<Waiter>)
    requires ws != []
    ensures kept + Kept(ws, value) == (if Matches(ws[0], value) then kept else kept + [ws[0]]) + Kept(ws[1..], value)
  {
    KeptHead(ws, value);
    hide Matches, Kept;
    ConcatAssociates(kept, [ws[0]], Kept(ws[1..], value));
  }

  lemma KeptHead(ws: seq<Waiter>, value: Bits)
    requires ws != []
    ensures Kept(ws, value) == if Matches(ws[0], value) then Kept(ws[1..], value) else [ws[0]] + Kept(ws[1..], value)
  {
    hide Matches;
    assert [] + Kept(ws[1..], value) == Kept(ws[1..], value);
  }

  lemma UnionNothing(b: Bits)
    ensures Union(0, b) == b && Union(b, 0) == b
  {
  }

  lemma UnionAssociates(a: Bits, b: Bits, c: Bits)
    ensures Union(Union(a, b), c) == Union(a, Union(b, c))
  {
  }

  lemma {:induction false} WakesTasks(ws: seq<Waiter>, value: Bits, t: Task)
    requires forall w :: w in ws ==> w.task != t
    ensures t !in Wakes(ws, value)
  {
    hide Matches, Answer;
    if ws != [] {
      WakesTasks(ws[1..], value, t);
    }
  }

  /** One turn of the walk, in terms of the whole list. */
  lemma ClearTurn(ws: seq<Waiter>, value: Bits, mask: Bits)
    requires ws != []
    ensures var m := Unpack(ws[0].item);
            Union(mask, ClearMask(ws, value)) ==
            Union(if Matches(ws[0], value) && m.clearOnExit then Union(mask, m.bits) else mask, ClearMask(ws[1..], value))
  {
    hide Matches, Unpack, Union;
    UnionAssociates(mask, Unpack(ws[0].item).bits, ClearMask(ws[1..], value));
  }

  lemma WakeTurn(ws: seq<Waiter>, value: Bits, woken: map<Task, Bits>)
    requires ws != [] && DistinctTasks(ws)
    ensures DistinctTasks(ws[1..])
    ensures woken + Wakes(ws, value) ==
            (if Matches(ws[0], value) then woken[ws[0].task := Answer(value)] else woken) + Wakes(ws[1..], value)
  {
    hide Matches, Answer;
    WakesTasks(ws[1..], value, ws[0].task);
  }

  ghost predicate DistinctTasks(ws: seq<Waiter>) {
    forall i, j :: 0 <= i < j < |ws| ==> ws[i].task != ws[j].task
  }

  lemma {:induction false} DismissedTasks(ws: seq<Waiter>, t: Task)
    requires forall w :: w in ws ==> w.task != t
    ensures t !in Dismissed(ws)
  {
    hide Answer;
    if ws != [] {
      DismissedTasks(ws[1..], t);
    }
  }

  lemma DismissTurn(ws: seq<Waiter>, woken: map<Task, Bits>)
    requires ws != [] && DistinctTasks(ws)
    ensures DistinctTasks(ws[1..])
    ensures woken + Dismissed(ws) == woken[ws[0].task := Answer(0)] + Dismissed(ws[1..])
  {
    hide Answer;
    DismissedTasks(ws[1..], ws[0].task);
  }

  lemma NobodyDismissed()
    ensures Dismissed([]) == map[]
  {
  }

  /** Deleting a group leaves nobody waiting, and every waiter is told that no bits are set. */
  lemma {:induction false} DeleteTellsAll(g: Group)
    ensures Delete(g).waiters == []
    ensures forall w :: w in g.waiters ==> w.task in Delete(g).woken && Delete(g).woken[w.task] == Answer(0)
    decreases |g.waiters|
  {
    hide Answer;
    if g.waiters != [] {
      DeleteTellsAll(g.(waiters := g.waiters[1..]));
    }
  }

  // ---- what one set does ------------------------------------------------------------------------------

  lemma {:induction false} KeptMembers(ws: seq<Waiter>, value: Bits)
    ensures forall w :: w in Kept(ws, value) <==> w in ws && !Matches(w, value)
  {
    hide Matches;
    if ws != [] {
      KeptMembers(ws[1..], value);
    }
  }

  lemma {:induction false} KeptDistinct(ws: seq<Waiter>, value: Bits)
    requires DistinctTasks(ws)
    ensures DistinctTasks(Kept(ws, value))
  {
    hide Matches;
    if ws != [] {
      KeptDistinct(ws[1..], value);
      KeptMembers(ws[1..], value);
      KeptHead(ws, value);
      hide Kept;
      assert forall w :: w in ws[1..] ==> w.task != ws[0].task;
    }
  }

  lemma {:induction false} WakesExactly(ws: seq<Waiter>, value: Bits, t: Task)
    ensures t in Wakes(ws, value) <==> exists w :: w in ws && w.task == t && Matches(w, value)
    ensures t in Wakes(ws, value) ==> Wakes(ws, value)[t] == Answer(value)
  {
    hide Matches, Answer;
    if ws != [] {
      WakesExactly(ws[1..], value, t);
      if Matches(ws[0], value) && ws[0].task == t {
        assert ws[0] in ws;
      }
    }
  }

  predicate Avoids(m: Bits, b: Bits) {
    m & b == 0
  }

  lemma AvoidsParts(m: Bits, a: Bits, b: Bits)
    requires Avoids(m, Union(a, b))
    ensures Avoids(m, a)
  {
  }

  lemma UnionCommutes(a: Bits, b: Bits)
    ensures Union(a, b) == Union(b, a)
  {
  }

  lemma AvoidsWhole(m: Bits, a: Bits, b: Bits)
    requires Avoids(m, a) && Avoids(m, b)
    ensures Avoids(m, Union(a, b))
  {
  }

  lemma UnionAvoids(m: Bits, a: Bits, b: Bits)
    ensures Avoids(m, Union(a, b)) <==> Avoids(m, a) && Avoids(m, b)
  {
    hide Avoids, Union;
    if Avoids(m, Union(a, b)) {
      AvoidsParts(m, a, b);
      UnionCommutes(a, b);
      AvoidsParts(m, b, a);
    }
    if Avoids(m, a) && Avoids(m, b) {
      AvoidsWhole(m, a, b);
    }
  }

  /** The clear mask is the union of the requests of the matching clear-on-exit waiters, in
      whatever order they stand: a set of bits avoids it exactly if it avoids each of those. */
  lemma {:induction false} ClearMaskIsUnion(ws: seq<Waiter>, value: Bits, m: Bits)
    ensures Avoids(m, ClearMask(ws, value)) <==>
            forall w :: w in ws && Matches(w, value) && Unpack(w.item).clearOnExit ==> Avoids(m, Unpack(w.item).bits)
  {
    if ws == [] {
      NothingAvoided(m);
    } else {
      hide Matches, Unpack, Union, Avoids;
      ClearMaskIsUnion(ws[1..], value, m);
      UnionAvoids(m, Unpack(ws[0].item).bits, ClearMask(ws[1..], value));
      assert forall w :: w in ws <==> w == ws[0] || w in ws[1..];
    }
  }

  lemma NothingAvoided(m: Bits)
    ensures Avoids(m, 0)
  {
  }

  /** Bits that are taken away do not meet a condition that was not met. */
  lemma MetIsMonotone(a: Bits, c: Bits, bits: Bits, all: bool)
    requires Met(Minus(a, c), bits, all)
    ensures Met(a, bits, all)
  {
    hide Met, Minus;
    if all {
      AllIsMonotone(a, c, bits);
    } else {
      AnyIsMonotone(a, c, bits);
    }
  }

  lemma StaysUnmatched(w: Waiter, value: Bits, mask: Bits)
    requires !Matches(w, value)
    ensures !Matches(w, Minus(value, mask))
  {
    hide Met, Minus, Unpack;
    if Matches(w, Minus(value, mask)) {
      MetIsMonotone(value, mask, Unpack(w.item).bits, Unpack(w.item).all);
    }
  }

  lemma AllIsMonotone(a: Bits, c: Bits, b: Bits)
    requires Met(Minus(a, c), b, true)
    ensures Met(a, b, true)
  {
  }

  lemma AnyIsMonotone(a: Bits, c: Bits, b: Bits)
    requires Met(Minus(a, c), b, false)
    ensures Met(a, b, false)
  {
  }

  /** A set wakes exactly the waiters that the old bits with the new ones satisfy, hands each
      of them that same value, leaves the others in their order with none satisfied, and takes
      away exactly what the woken clear-on-exit waiters asked for. */
  lemma SetIsExact(g: Group, toSet: Bits)
    requires DistinctTasks(g.waiters)
    ensures var value, r := Union(g.bits, toSet), SetBits(g, toSet);
            && (forall w :: w in r.waiters <==> w in g.waiters && !Matches(w, value))
            && (forall w :: w in g.waiters && Matches(w, value) ==>
                  w.task in r.woken && r.woken[w.task] == Answer(value))
            && (forall t :: t in r.woken ==> t in g.woken || exists w :: w in g.waiters && w.task == t && Matches(w, value))
            && (forall w :: w in r.waiters ==> !Matches(w, r.bits))
            && r.bits == Minus(value, ClearMask(g.waiters, value))
            && DistinctTasks(r.waiters)
  {
    hide Matches, Union, Minus, ClearMask, Answer, Kept, Wakes, DistinctTasks;
    var value := Union(g.bits, toSet);
    KeptMembers(g.waiters, value);
    KeptDistinct(g.waiters, value);
    forall w | w in g.waiters && !Matches(w, value)
      ensures !Matches(w, SetBits(g, toSet).bits)
    {
      StaysUnmatched(w, value, ClearMask(g.waiters, value));
    }
    forall t | t in Wakes(g.waiters, value) || exists w :: w in g.waiters && w.task == t && Matches(w, value)
      ensures t in Wakes(g.waiters, value) && Wakes(g.waiters, value)[t] == Answer(value)
      ensures exists w :: w in g.waiters && w.task == t && Matches(w, value)
    {
      WakesExactly(g.waiters, value, t);
    }
  }

  // ---- every run -----------------------------------------------------------------------------------------

  datatype Step =
    | SetStep(bits: Bits)
    | ClearStep(bits: Bits)
    | WaitStep(task: Task, request: Request, block: bool)
    | SyncStep(task: Task, set_: Bits, bits: Bits, block: bool)
    | ExpireStep(task: Task, at: nat)
    | ResumeStep(task: Task)

  predicate Idle(g: Group, t: Task) {
    t !in g.woken && t !in g.expired && forall i :: 0 <= i < |g.waiters| ==> g.waiters[i].task != t
  }

  /** Callers keep off the control byte and wait for something; a waiting task does nothing. */
  predicate Enabled(g: Group, step: Step) {
    match step
    case SetStep(bits) => bits & CONTROL == 0
    case ClearStep(bits) => bits & CONTROL == 0
    case WaitStep(t, r, _) => Idle(g, t) && r.bits & CONTROL == 0 && r.bits != 0
    case SyncStep(t, set_, bits, _) => Idle(g, t) && set_ & CONTROL == 0 && bits & CONTROL == 0 && bits != 0
    case ExpireStep(t, i) => i < |g.waiters| && g.waiters[i].task == t
    case ResumeStep(t) => t in g.asked && (t in g.woken || t in g.expired)
  }

  function Apply(g: Group, step: Step): Group
    requires Enabled(g, step)
  {
    match step
    case SetStep(bits) => SetBits(g, bits)
    case ClearStep(bits) => ClearBits(g, bits)
    case WaitStep(t, r, block) => WaitBits(g, t, r, block).1
    case SyncStep(t, set_, bits, block) => Sync(g, t, set_, bits, block).1
    case ExpireStep(t, i) => Expire(g, t, i)
    case ResumeStep(t) => Resume(g, t).1
  }

  /** The value a woken task will be given meets what it asked for. */
  ghost predicate Answered(item: Bits, r: Request) {
    exists value: Bits :: item == Answer(value) && value & CONTROL == 0 && Met(value, r.bits, r.all)
  }

  ghost predicate WaiterOk(g: Group, w: Waiter) {
    && w.task in g.asked && w.item == Pack(g.asked[w.task]) && g.asked[w.task].bits & CONTROL == 0
    && !Matches(w, g.bits)
    && w.task !in g.woken && w.task !in g.expired
  }

  ghost predicate Inv(g: Group) {
    && g.bits & CONTROL == 0
    && DistinctTasks(g.waiters)
    && (forall w :: w in g.waiters ==> WaiterOk(g, w))
    && (forall t :: t in g.woken ==> t in g.asked && t !in g.expired && Answered(g.woken[t], g.asked[t]))
    && (forall t :: t in g.expired ==>
          t in g.asked && g.expired[t] == Pack(g.asked[t]) && g.asked[t].bits & CONTROL == 0)
  }

  lemma OffControl(a: Bits, b: Bits)
    requires a & CONTROL == 0 && b & CONTROL == 0
    ensures Union(a, b) & CONTROL == 0
  {
    OffControlBits(a, b);
  }

  lemma OffControlBits(a: Bits, b: Bits)
    requires a & 0xff00_0000 == 0 && b & 0xff00_0000 == 0
    ensures (a | b) & 0xff00_0000 == 0
  {
  }

  lemma MinusOffControl(a: Bits, c: Bits)
    requires a & CONTROL == 0
    ensures Minus(a, c) & CONTROL == 0
  {
    MinusOffControlBits(a, c);
  }

  lemma MinusOffControlBits(a: Bits, c: Bits)
    requires a & 0xff00_0000 == 0
    ensures a & !c & 0xff00_0000 == 0
  {
  }

  lemma ClearKeeps(g: Group, clear: Bits)
    requires Inv(g)
    ensures Inv(ClearBits(g, clear))
  {
    hide Minus;
    var r := ClearBits(g, clear);
    MinusOffControl(g.bits, clear);
    forall w | w in r.waiters
      ensures WaiterOk(r, w)
    {
      assert WaiterOk(g, w);
      if Matches(w, r.bits) {
        MetIsMonotone(g.bits, clear, Unpack(w.item).bits, Unpack(w.item).all);
      }
    }
  }

  lemma SetKeeps(g: Group, toSet: Bits)
    requires Inv(g) && toSet & CONTROL == 0
    ensures Inv(SetBits(g, toSet))
    ensures forall t :: Idle(g, t) ==> Idle(SetBits(g, toSet), t)
  {
    hide Matches, Union, Minus, ClearMask, Kept, Wakes, Answer, Pack, Answered, DistinctTasks;
    var value, r := Union(g.bits, toSet), SetBits(g, toSet);
    SetIsExact(g, toSet);
    OffControl(g.bits, toSet);
    MinusOffControl(value, ClearMask(g.waiters, value));
    SetIdle(g, toSet);
    forall t | t in r.woken
      ensures t in r.asked && t !in r.expired && Answered(r.woken[t], r.asked[t])
    {
      SetAnswers(g, toSet, t);
    }
    forall w | w in r.waiters
      ensures WaiterOk(r, w)
    {
      SetWaiter(g, toSet, w);
    }
  }

  /** Who does not wait is not woken. */
  lemma SetIdle(g: Group, toSet: Bits)
    requires DistinctTasks(g.waiters)
    ensures forall t :: Idle(g, t) ==> Idle(SetBits(g, toSet), t)
  {
    var r := SetBits(g, toSet);
    SetIsExact(g, toSet);
    hide Matches, SetBits, DistinctTasks, Union;
    forall t | Idle(g, t)
      ensures Idle(r, t)
    {
      assert forall i :: 0 <= i < |r.waiters| ==> r.waiters[i] in g.waiters;
    }
  }

  /** What a woken task is told meets its own request. */
  lemma SetAnswers(g: Group, toSet: Bits, t: Task)
    requires Inv(g) && toSet & CONTROL == 0 && t in SetBits(g, toSet).woken
    ensures t in g.asked && t !in g.expired && Answered(SetBits(g, toSet).woken[t], g.asked[t])
  {
    hide Union;
    var value := Union(g.bits, toSet);
    OffControl(g.bits, toSet);
    WakesExactly(g.waiters, value, t);
    if t in Wakes(g.waiters, value) {
      var w :| w in g.waiters && w.task == t && Matches(w, value);
      hide Union, Answer, Pack, Kept, ClearMask, Wakes, Met, DistinctTasks;
      assert WaiterOk(g, w);
      PackingRoundTrips(g.asked[t], value);
      assert Met(value, g.asked[t].bits, g.asked[t].all);
      assert Answered(Answer(value), g.asked[t]);
    }
  }

  lemma SameTask(ws: seq<Waiter>, a: Waiter, b: Waiter)
    requires DistinctTasks(ws) && a in ws && b in ws && a.task == b.task
    ensures a == b
  {
  }

  lemma SetWaiter(g: Group, toSet: Bits, w: Waiter)
    requires Inv(g) && w in SetBits(g, toSet).waiters
    ensures WaiterOk(SetBits(g, toSet), w)
  {
    var value := Union(g.bits, toSet);
    SetIsExact(g, toSet);
    assert WaiterOk(g, w);
    hide Union, Answer, Pack, Kept, ClearMask, Wakes, Matches, DistinctTasks;
    WakesExactly(g.waiters, value, w.task);
    forall v | v in g.waiters && v.task == w.task
      ensures v == w
    {
      SameTask(g.waiters, v, w);
    }
  }

  lemma PlacedUnmatched(bits: Bits, t: Task, r: Request)
    requires r.bits & CONTROL == 0 && !Met(bits, r.bits, r.all)
    ensures !Matches(Waiter(t, Pack(r)), bits)
  {
    hide Pack, Met, Unpack;
    PackingRoundTrips(r, 0);
  }

  lemma IdleIsAway(g: Group, t: Task)
    requires Idle(g, t)
    ensures t !in g.woken && t !in g.expired && forall w :: w in g.waiters ==> w.task != t
  {
  }

  lemma PlaceKeeps(g: Group, t: Task, r: Request)
    requires Inv(g) && Idle(g, t) && r.bits & CONTROL == 0 && !Met(g.bits, r.bits, r.all)
    ensures Inv(Place(g, t, r))
  {
    hide Pack, Met, Answered, Idle, WaiterOk, DistinctTasks;
    PlaceWaiters(g, t, r);
    IdleIsAway(g, t);
    PlaceDistinct(g.waiters, Waiter(t, Pack(r)));
  }

  lemma PlaceDistinct(ws: seq<Waiter>, w: Waiter)
    requires DistinctTasks(ws) && forall v :: v in ws ==> v.task != w.task
    ensures DistinctTasks(ws + [w])
  {
  }

  lemma PlaceWaiters(g: Group, t: Task, r: Request)
    requires Inv(g) && Idle(g, t) && r.bits & CONTROL == 0 && !Met(g.bits, r.bits, r.all)
    ensures forall w :: w in Place(g, t, r).waiters ==> WaiterOk(Place(g, t, r), w)
  {
    hide Pack, Met, Matches, Answered, Idle, DistinctTasks;
    var u := Place(g, t, r);
    PlacedUnmatched(g.bits, t, r);
    IdleIsAway(g, t);
    forall w | w in u.waiters
      ensures WaiterOk(u, w)
    {
      if w in g.waiters { assert WaiterOk(g, w); }
    }
  }

  lemma SyncKeeps(g: Group, t: Task, toSet: Bits, bits: Bits, block: bool)
    requires Inv(g) && Enabled(g, SyncStep(t, toSet, bits, block))
    ensures Inv(Sync(g, t, toSet, bits, block).1)
  {
    var u, value := SetBits(g, toSet), Union(g.bits, toSet);
    SetKeeps(g, toSet);
    ClearKeeps(u, bits);
    if !Met(value, bits, true) && block {
      if Met(u.bits, bits, true) {
        MetIsMonotone(value, ClearMask(g.waiters, value), bits, true);
      }
      hide Inv, SetBits, Met, Place, Idle;
      PlaceKeeps(u, t, Request(bits, true, true));
    }
  }

  lemma CutWaiters(ws: seq<Waiter>, i: nat)
    requires i < |ws| && DistinctTasks(ws)
    ensures DistinctTasks(ws[..i] + ws[i + 1..])
    ensures forall w :: w in ws[..i] + ws[i + 1..] ==> w in ws && w.task != ws[i].task
  {
    assert forall w :: w in ws[..i] + ws[i + 1..] ==> w in ws[..i] || w in ws[i + 1..];
  }

  lemma ExpireKeeps(g: Group, t: Task, i: nat)
    requires Inv(g) && Enabled(g, ExpireStep(t, i))
    ensures Inv(Expire(g, t, i))
  {
    hide DistinctTasks, Pack, Matches, Answered;
    var r := Expire(g, t, i);
    CutWaiters(g.waiters, i);
    assert g.waiters[i] in g.waiters && WaiterOk(g, g.waiters[i]);
    forall w | w in r.waiters
      ensures WaiterOk(r, w)
    {
      assert WaiterOk(g, w);
    }
  }

  lemma ResumeKeeps(g: Group, t: Task)
    requires Inv(g) && Enabled(g, ResumeStep(t))
    ensures Inv(Resume(g, t).1)
  {
    ForgetKeeps(g, t);
    hide Inv, Met, EventBits, IsAnswer;
    ClearKeeps(g.(woken := g.woken - {t}, expired := g.expired - {t}, asked := g.asked - {t}), g.asked[t].bits);
  }

  lemma ForgetKeeps(g: Group, t: Task)
    requires Inv(g) && Enabled(g, ResumeStep(t))
    ensures Inv(g.(woken := g.woken - {t}, expired := g.expired - {t}, asked := g.asked - {t}))
  {
    hide DistinctTasks, Pack, Matches, Answered, Met;
    var u := g.(woken := g.woken - {t}, expired := g.expired - {t}, asked := g.asked - {t});
    forall w | w in u.waiters
      ensures WaiterOk(u, w)
    {
      assert WaiterOk(g, w);
    }
  }

  lemma StepKeeps(g: Group, step: Step)
    requires Inv(g) && Enabled(g, step)
    ensures Inv(Apply(g, step))
  {
    hide Inv, SetBits, Met, Place, Expire;
    match step
    case SetStep(bits) => SetKeeps(g, bits);
    case ClearStep(bits) => ClearKeeps(g, bits);
    case WaitStep(t, r, block) =>
      ClearKeeps(g, r.bits);
      if !Met(g.bits, r.bits, r.all) { PlaceKeeps(g, t, r); }
    case SyncStep(t, set_, bits, block) => SyncKeeps(g, t, set_, bits, block);
    case ExpireStep(t, i) => ExpireKeeps(g, t, i);
    case ResumeStep(t) => ResumeKeeps(g, t);
  }

  predicate CanRun(g: Group, steps: seq<Step>)
    decreases |steps|
  {
    steps == [] || (Enabled(g, steps[0]) && CanRun(Apply(g, steps[0]), steps[1..]))
  }

  function Run(g: Group, steps: seq<Step>): Group
    requires CanRun(g, steps)
    decreases |steps|
  {
    if steps == [] then g else Run(Apply(g, steps[0]), steps[1..])
  }

  lemma {:induction false} RunKeeps(g: Group, steps: seq<Step>)
    requires Inv(g) && CanRun(g, steps)
    ensures Inv(Run(g, steps))
    decreases |steps|
  {
    hide Inv, Enabled, Apply;
    if steps != [] {
      StepKeeps(g, steps[0]);
      RunKeeps(Apply(g, steps[0]), steps[1..]);
    }
  }

  /** In every run no task is left waiting whose request the bits meet. */
  lemma NobodyWaitsInVain(steps: seq<Step>)
    requires CanRun(Created(), steps)
    ensures var g := Run(Created(), steps);
            forall w :: w in g.waiters ==>
              w.task in g.asked && !Met(g.bits, g.asked[w.task].bits, g.asked[w.task].all)
  {
    ZeroOffControl();
    RunKeeps(Created(), steps);
    var g := Run(Created(), steps);
    hide Run, CanRun, Met, Pack, Unpack, DistinctTasks, Answered;
    forall w | w in g.waiters
      ensures w.task in g.asked && !Met(g.bits, g.asked[w.task].bits, g.asked[w.task].all)
    {
      assert WaiterOk(g, w);
      PackingRoundTrips(g.asked[w.task], g.bits);
    }
  }

  lemma ZeroOffControl()
    ensures 0 as Bits & CONTROL == 0
  {
  }

  /** A task that runs on after its wait can tell what happened: woken by a set, it returns a
      value that met its request; timed out, it returns the bits as they are. */
  lemma ResumeTellsTruth(steps: seq<Step>, t: Task)
    requires CanRun(Created(), steps)
    requires var g := Run(Created(), steps); t in g.asked && (t in g.woken || t in g.expired)
    ensures var g := Run(Created(), steps);
            var (value, r) := Resume(g, t);
            if t in g.woken then Met(value, g.asked[t].bits, g.asked[t].all) && r.bits == g.bits
            else value == g.bits
  {
    ZeroOffControl();
    RunKeeps(Created(), steps);
    var g := Run(Created(), steps);
    if t in g.woken {
      var value: Bits :| g.woken[t] == Answer(value) && value & CONTROL == 0
                         && Met(value, g.asked[t].bits, g.asked[t].all);
      hide Run, CanRun, Met, Pack, Unpack, DistinctTasks, Answered, Inv, Answer;
      PackingRoundTrips(Request(0, false, false), value);
    } else {
      hide Run, CanRun, Met, Pack, Unpack, DistinctTasks, Answered;
      PackingRoundTrips(g.asked[t], g.bits);
      OffControlSame(g.bits);
    }
  }

  lemma OffControlSame(b: Bits)
    requires b & CONTROL == 0
    ensures EventBits(b) == b
  {
    OffControlSameBits(b);
  }

  lemma OffControlSameBits(b: Bits)
    requires b & 0xff00_0000 == 0
    ensures b & !0xff00_0000 == b
  {
  }
}
