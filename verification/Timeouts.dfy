/**
 Timeouts that survive spurious wake-ups (tasks.c): a `TimeOut_t` remembers when a wait
 began, and each check either reports expiry or restarts the wait for what is left of it.
 */
module Timeouts {
  import opened Ticks

  /** What a `TimeOut_t` holds. */
  datatype Mark = Mark(overflowCount: nat, timeOnEntering: Tick)

  datatype Outcome = Outcome(expired: bool, left: Tick, mark: Mark)

  function MarkOf(now: nat): Mark {
    Mark(Epoch(now), Low(now))
  }

  function Check(m: Mark, wait: Tick, overflows: nat, tick: Tick): Outcome {
    var elapsed := Sub(tick, m.timeOnEntering);
    if wait == MAX_DELAY then Outcome(false, wait, m)
    else if overflows != m.overflowCount && tick >= m.timeOnEntering then Outcome(true, 0, m)
    else if elapsed < wait then Outcome(false, wait - elapsed, Mark(overflows, tick))
    else Outcome(true, 0, m)
  }

  class TimeOut {
    var overflowCount: nat
    var timeOnEntering: Tick

    function State(): Mark
      reads this
    {
      Mark(overflowCount, timeOnEntering)
    }

    /** `vTaskInternalSetTimeOutState`. */
    method SetTimeOutState(overflows: nat, tick: Tick)
      modifies this
      ensures State() == MarkOf(At(overflows, tick))
    {
      overflowCount, timeOnEntering := overflows, tick;
      Join(overflows, tick);
    }

    /** `xTaskCheckForTimeOut`. */
    method CheckForTimeOut(wait: Tick, overflows: nat, tick: Tick) returns (expired: bool, left: Tick)
      modifies this
      ensures Outcome(expired, left, State()) == Check(old(State()), wait, overflows, tick)
    {
      expired, left := false, wait;
      var elapsed := Sub(tick, timeOnEntering);
      if wait == MAX_DELAY {
        expired := false;
      } else if overflows != overflowCount && tick >= timeOnEntering {
        expired, left := true, 0;
      } else if elapsed < wait {
        left := left - elapsed;
        SetTimeOutState(overflows, tick);
        Join(overflows, tick);
      } else {
        expired, left := true, 0;
      }
    }
  }

  /** The true elapsed time, from its word and the two epochs. */
  lemma Elapsed(entered: nat, now: nat)
    requires entered <= now
    ensures Epoch(entered) <= Epoch(now)
    ensures var e := Epoch(now) - Epoch(entered);
            && now - entered == e * 0x1_0000_0000_0000_0000 + Low(now) - Low(entered)
            && (Low(now) < Low(entered) ==> e >= 1)
  {
    Split(entered);
    Split(now);
  }

  /** An expiry reported is always genuine, and the answer is right in all cases but one:
      two wraps or more have passed, the tick word is below the entry word, and their
      distance is still short of the wait. */
  lemma CheckIsExact(entered: nat, now: nat, wait: Tick)
    requires entered <= now && wait != MAX_DELAY
    ensures var r := Check(MarkOf(entered), wait, Epoch(now), Low(now));
            && (r.expired ==> now - entered >= wait)
            && ((r.expired <==> now - entered >= wait) <==>
                !(Epoch(now) >= Epoch(entered) + 2 && Low(now) < Low(entered) && Sub(Low(now), Low(entered)) < wait))
  {
    Elapsed(entered, now);
    if Epoch(now) == Epoch(entered) {
    } else if Low(now) >= Low(entered) {
      assert now - entered >= WRAP;
    } else if Epoch(now) == Epoch(entered) + 1 {
      assert now - entered == Sub(Low(now), Low(entered));
    } else {
      assert now - entered > WRAP;
    }
  }

  /** The times at which a waiting task wakes and checks: in order, fewer than two wraps apart. */
  predicate Wakes(entered: nat, times: seq<nat>)
    decreases |times|
  {
    times == [] || (entered <= times[0] && Epoch(times[0]) < Epoch(entered) + 2 && Wakes(times[0], times[1..]))
  }

  /** The retry loop of the blocking calls: check at each wake-up, until one check expires. */
  function CheckAll(m: Mark, wait: Tick, times: seq<nat>): Outcome
    decreases |times|
  {
    if times == [] then Outcome(false, wait, m)
    else
      var r := Check(m, wait, Epoch(times[0]), Low(times[0]));
      if r.expired then r else CheckAll(r.mark, r.left, times[1..])
  }

  /** Through any number of spurious wake-ups the deadline stands: the wait expires at the
      first check at or after entry + wait, and until then the time of the last check plus
      what is left of the wait is that deadline. */
  lemma {:induction false} DeadlineStands(entered: nat, wait: Tick, times: seq<nat>)
    requires Wakes(entered, times) && wait != MAX_DELAY && (wait > 0 || times != [])
    ensures var r := CheckAll(MarkOf(entered), wait, times);
            var last := if times == [] then entered else times[|times| - 1];
            && (r.expired <==> last >= entered + wait)
            && (!r.expired ==> r.mark == MarkOf(last) && last + r.left == entered + wait)
    decreases |times|
  {
    if times != [] {
      var now := times[0];
      CheckIsExact(entered, now, wait);
      Elapsed(entered, now);
      Last(now, times[1..]);
      if now < entered + wait {
        assert Check(MarkOf(entered), wait, Epoch(now), Low(now)) ==
          Outcome(false, entered + wait - now, MarkOf(now)) by { SubWords(entered, now); }
        DeadlineStands(now, entered + wait - now, times[1..]);
      }
    }
  }

  lemma {:induction false} Last(entered: nat, times: seq<nat>)
    requires Wakes(entered, times)
    ensures times != [] ==> entered <= times[|times| - 1]
    decreases |times|
  {
    if times != [] {
      Last(times[0], times[1..]);
    }
  }

  /** A wait of `portMAX_DELAY` never expires. */
  lemma {:induction false} ForeverIsForever(m: Mark, times: seq<nat>)
    ensures CheckAll(m, MAX_DELAY, times) == Outcome(false, MAX_DELAY, m)
    decreases |times|
  {
    if times != [] {
      ForeverIsForever(m, times[1..]);
    }
  }

  /** Two wraps and a little between checks: the wait has long expired and is reported alive. */
  lemma TwoWrapsHideAnExpiry()
    ensures var entered, now := 10, 2 * WRAP + 5;
            now - entered > MAX_DELAY && !Check(MarkOf(entered), MAX_DELAY - 1, Epoch(now), Low(now)).expired
  {
  }
}
