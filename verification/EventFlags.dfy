/**
 What the conditions and operations of event groups mean, flag by flag.  A flag is a mask of one
 bit.
 */
module EventFlags {
  import opened EventGroups

  predicate Flag(m: Bits) {
    m != 0 && m & (m - 1) == 0
  }

  function Common(a: Bits, b: Bits): Bits {
    a & b
  }

  predicate Carries(v: Bits, m: Bits) {
    Common(v, m) != 0
  }

  // ---- single bits -------------------------------------------------------------------------------

  function Lowest(x: Bits): Bits {
    x & (0 - x)
  }

  lemma LowestIsFlag(x: Bits)
    requires x != 0
    ensures Flag(Lowest(x)) && x & Lowest(x) != 0
  {
  }

  lemma NoneOfLeft(v: Bits, b: Bits, m: Bits)
    requires Common(v, m) == 0
    ensures Common(Common(v, b), m) == 0
  {
  }

  lemma NoneOfRight(v: Bits, b: Bits, m: Bits)
    requires Common(b, m) == 0
    ensures Common(Common(v, b), m) == 0
  {
  }

  lemma CommonCommon(v: Bits, b: Bits, m: Bits)
    requires Common(Common(v, b), m) != 0
    ensures Common(v, m) != 0 && Common(b, m) != 0
  {
    hide Common;
    if Common(v, m) == 0 { NoneOfLeft(v, b, m); }
    if Common(b, m) == 0 { NoneOfRight(v, b, m); }
  }

  lemma FlagInBoth(v: Bits, b: Bits, m: Bits)
    requires Flag(m) && Common(v, m) != 0 && Common(b, m) != 0
    ensures Common(v, b) != 0
  {
  }

  lemma NothingOfBoth(a: Bits, b: Bits, m: Bits)
    requires Common(Union(a, b), m) == 0
    ensures Common(a, m) == 0 && Common(b, m) == 0
  {
  }

  lemma NothingOfEither(a: Bits, b: Bits, m: Bits)
    requires Common(a, m) == 0 && Common(b, m) == 0
    ensures Common(Union(a, b), m) == 0
  {
  }

  lemma AllOrNone(x: Bits, m: Bits)
    requires Flag(m)
    ensures Common(x, m) == 0 || Common(x, m) == m
  {
  }

  lemma CommonMinus(a: Bits, b: Bits, m: Bits)
    ensures Common(b, m) == 0 ==> Common(Minus(a, b), m) == Common(a, m)
    ensures Common(b, m) == m ==> Common(Minus(a, b), m) == 0
  {
  }

  lemma MinusIsZero(b: Bits, v: Bits)
    ensures Minus(b, v) == 0 <==> Common(v, b) == b
  {
    if Minus(b, v) == 0 { NothingMissing(b, v); }
    if Common(v, b) == b { NothingLeft(b, v); }
  }

  lemma NothingMissing(b: Bits, v: Bits)
    requires b & !v == 0
    ensures v & b == b
  {
  }

  lemma NothingLeft(b: Bits, v: Bits)
    requires v & b == b
    ensures b & !v == 0
  {
  }

  /** A union carries a flag if one of its parts does. */
  lemma UnionCarries(a: Bits, b: Bits, m: Bits)
    ensures Carries(Union(a, b), m) <==> Carries(a, m) || Carries(b, m)
  {
    hide Union, Common;
    if Common(Union(a, b), m) == 0 { NothingOfBoth(a, b, m); }
    if Common(a, m) == 0 && Common(b, m) == 0 { NothingOfEither(a, b, m); }
  }

  /** A difference, if the first part does and the second does not. */
  lemma MinusCarries(a: Bits, b: Bits, m: Bits)
    requires Flag(m)
    ensures Carries(Minus(a, b), m) <==> Carries(a, m) && !Carries(b, m)
  {
    hide Minus, Common, Flag;
    AllOrNone(b, m);
    CommonMinus(a, b, m);
  }

  lemma SomeFlag(x: Bits) returns (m: Bits)
    requires x != 0
    ensures Flag(m) && Carries(x, m)
  {
    LowestIsFlag(x);
    m := Lowest(x);
  }

  // ---- conditions ----------------------------------------------------------------------------------

  lemma MetByCommon(v: Bits, b: Bits)
    ensures Met(v, b, false) <==> Common(v, b) != 0
    ensures Met(v, b, true) <==> Common(v, b) == b
  {
  }

  /** Waiting for any bit is met if and only if one of the flags asked for is set. */
  lemma AnyMeans(v: Bits, b: Bits)
    ensures Met(v, b, false) <==> exists m :: Flag(m) && Carries(b, m) && Carries(v, m)
  {
    hide Met, Common, Flag;
    MetByCommon(v, b);
    if Common(v, b) != 0 {
      var m := SomeFlag(Common(v, b));
      CommonCommon(v, b, m);
    }
    if exists m :: Flag(m) && Carries(b, m) && Carries(v, m) {
      var m :| Flag(m) && Carries(b, m) && Carries(v, m);
      FlagInBoth(v, b, m);
    }
  }

  /** Waiting for all bits, if and only if every one of them is. */
  lemma AllMeans(v: Bits, b: Bits)
    ensures Met(v, b, true) <==> forall m :: Flag(m) && Carries(b, m) ==> Carries(v, m)
  {
    hide Met, Common, Flag, Minus, Carries;
    MetByCommon(v, b);
    MinusIsZero(b, v);
    if Minus(b, v) != 0 {
      var m := SomeFlag(Minus(b, v));
      MinusCarries(b, v, m);
    } else {
      forall m | Flag(m) && Carries(b, m)
        ensures Carries(v, m)
      {
        MinusCarries(b, v, m);
        ZeroCarries(m);
      }
    }
  }

  lemma ZeroCarries(m: Bits)
    ensures !Carries(0, m)
  {
  }

  /** So a condition on a union is one on its parts, and on one flag the two kinds agree. */
  lemma MetSpreads(v: Bits, a: Bits, b: Bits)
    ensures Met(v, Union(a, b), false) <==> Met(v, a, false) || Met(v, b, false)
    ensures Met(v, Union(a, b), true) <==> Met(v, a, true) && Met(v, b, true)
    ensures Flag(a) ==> (Met(v, a, true) <==> Met(v, a, false))
  {
    hide Met, Common, Flag, Union, Carries;
    forall m
      ensures Carries(Union(a, b), m) <==> Carries(a, m) || Carries(b, m)
    {
      UnionCarries(a, b, m);
    }
    AnyMeans(v, a);
    AnyMeans(v, b);
    AnyMeans(v, Union(a, b));
    AllMeans(v, a);
    AllMeans(v, b);
    AllMeans(v, Union(a, b));
    if Flag(a) {
      MetByCommon(v, a);
      AllOrNone(v, a);
      FlagIsNotZero(a);
    }
  }

  lemma FlagIsNotZero(m: Bits)
    requires Flag(m)
    ensures m != 0
  {
  }

  // ---- calls ---------------------------------------------------------------------------------------

  /** What a wait asks for is there. */
  ghost predicate There(v: Bits, r: Request) {
    if r.all then forall m :: Flag(m) && Carries(r.bits, m) ==> Carries(v, m)
    else exists m :: Flag(m) && Carries(r.bits, m) && Carries(v, m)
  }

  /** A wait blocks exactly if the caller may block and what it asks for is not there; otherwise it
      returns the bits as it found them, and takes away those it asked for exactly if they were
      there and it clears on exit.  Nobody else is woken. */
  lemma WaitExactly(g: Group, t: Task, r: Request, block: bool)
    ensures var (outcome, u) := WaitBits(g, t, r, block);
            && (outcome.Blocks? <==> block && !There(g.bits, r))
            && (outcome.Returns? ==> outcome.value == g.bits && u == g.(bits := u.bits))
            && (outcome.Blocks? ==> u == Place(g, t, r))
            && (forall m :: Flag(m) ==>
                  (Carries(u.bits, m) <==>
                   Carries(g.bits, m) && !(There(g.bits, r) && r.clearOnExit && Carries(r.bits, m))))
  {
    hide Met, Common, Flag, Minus, Carries;
    AnyMeans(g.bits, r.bits);
    AllMeans(g.bits, r.bits);
    forall m | Flag(m)
      ensures Carries(Minus(g.bits, r.bits), m) <==> Carries(g.bits, m) && !Carries(r.bits, m)
    {
      MinusCarries(g.bits, r.bits, m);
    }
  }

  /** A clear takes away exactly the flags named. */
  lemma ClearExactly(g: Group, clear: Bits, m: Bits)
    requires Flag(m)
    ensures Carries(ClearBits(g, clear).bits, m) <==> Carries(g.bits, m) && !Carries(clear, m)
  {
    hide Minus, Flag, Carries;
    MinusCarries(g.bits, clear, m);
  }

  /** A waiter asks for the flag m, is woken by the bits v and clears what it asked for. */
  ghost predicate Takes(w: Waiter, v: Bits, m: Bits) {
    Unpack(w.item).clearOnExit && Carries(Unpack(w.item).bits, m) && There(v, Unpack(w.item))
  }

  lemma MatchesMeans(w: Waiter, v: Bits)
    ensures Matches(w, v) <==> There(v, Unpack(w.item))
  {
    hide Met, Unpack, Carries, Flag;
    AnyMeans(v, Unpack(w.item).bits);
    AllMeans(v, Unpack(w.item).bits);
  }

  lemma {:induction false} MaskCarries(ws: seq<Waiter>, v: Bits, m: Bits)
    ensures Carries(ClearMask(ws, v), m) <==> exists w :: w in ws && Takes(w, v, m)
  {
    hide Matches, Unpack, Union, Carries, There;
    if ws == [] {
      ZeroCarries(m);
    } else {
      MatchesMeans(ws[0], v);
      UnionCarries(Unpack(ws[0].item).bits, ClearMask(ws[1..], v), m);
      MaskCarries(ws[1..], v, m);
      assert forall w :: w in ws <==> w == ws[0] || w in ws[1..];
      if Takes(ws[0], v, m) { assert ws[0] in ws; }
    }
  }

  /** After a set a flag stands exactly if it was set or stood, and no waiter that the set has woken
      takes it; and exactly the waiters for whom what they ask for is there are woken. */
  lemma SetExactly(g: Group, toSet: Bits)
    ensures var v, u := Union(g.bits, toSet), SetBits(g, toSet);
            && (forall m :: Flag(m) ==>
                  (Carries(u.bits, m) <==>
                   (Carries(g.bits, m) || Carries(toSet, m)) && !exists w :: w in g.waiters && Takes(w, v, m)))
            && (forall w :: w in u.waiters <==> w in g.waiters && !There(v, Unpack(w.item)))
  {
    hide Matches, Unpack, Union, Minus, Carries, There, Takes, Flag, ClearMask, Kept, Wakes;
    var v := Union(g.bits, toSet);
    forall m | Flag(m)
      ensures Carries(SetBits(g, toSet).bits, m) <==>
              (Carries(g.bits, m) || Carries(toSet, m)) && !exists w :: w in g.waiters && Takes(w, v, m)
    {
      MinusCarries(v, ClearMask(g.waiters, v), m);
      UnionCarries(g.bits, toSet, m);
      MaskCarries(g.waiters, v, m);
    }
    KeptMembers(g.waiters, v);
    forall w | w in g.waiters
      ensures Matches(w, v) <==> There(v, Unpack(w.item))
    {
      MatchesMeans(w, v);
    }
  }

  /** A rendezvous sets its bits, wakes whom they wake, and goes on exactly if all it waits for were
      there before anything was cleared; it then returns what was there, and otherwise, if it may
      not block, what is left. */
  lemma SyncExactly(g: Group, t: Task, toSet: Bits, bits: Bits, block: bool)
    ensures var (outcome, u) := Sync(g, t, toSet, bits, block);
            var v, s, r := Union(g.bits, toSet), SetBits(g, toSet), Request(bits, true, true);
            && (outcome.Blocks? <==> block && !There(v, r))
            && (There(v, r) ==> outcome == Returns(v) && u == s.(bits := u.bits))
            && (There(v, r) ==>
                  forall m :: Flag(m) ==> (Carries(u.bits, m) <==> Carries(s.bits, m) && !Carries(bits, m)))
            && (!There(v, r) ==> if block then u == Place(s, t, r) else outcome == Returns(s.bits) && u == s)
  {
    hide Met, Union, Minus, Carries, Flag, SetBits;
    AllMeans(Union(g.bits, toSet), bits);
    forall m | Flag(m)
      ensures Carries(Minus(SetBits(g, toSet).bits, bits), m) <==> Carries(SetBits(g, toSet).bits, m) && !Carries(bits, m)
    {
      MinusCarries(SetBits(g, toSet).bits, bits, m);
    }
  }

  /** A task whose wait has timed out tests once more: it returns the bits as they are now, and
      takes away those it asked for exactly if they are there and it clears on exit.  A task that
      a set has woken takes nothing away: that has been done. */
  lemma ResumeExactly(g: Group, t: Task)
    requires t in g.asked && (t in g.woken || t in g.expired)
    ensures var u, r := Resume(g, t).1, g.asked[t];
            var item := if t in g.woken then g.woken[t] else g.expired[t];
            && Resume(g, t).0 == EventBits(if IsAnswer(item) then item else g.bits)
            && (forall m :: Flag(m) ==>
                  (Carries(u.bits, m) <==>
                   Carries(g.bits, m) && !(!IsAnswer(item) && There(g.bits, r) && r.clearOnExit && Carries(r.bits, m))))
  {
    hide Met, Minus, Carries, Flag, EventBits, IsAnswer;
    var r := g.asked[t];
    AnyMeans(g.bits, r.bits);
    AllMeans(g.bits, r.bits);
    forall m | Flag(m)
      ensures Carries(Minus(g.bits, r.bits), m) <==> Carries(g.bits, m) && !Carries(r.bits, m)
    {
      MinusCarries(g.bits, r.bits, m);
    }
  }
}
