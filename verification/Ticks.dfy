/**
 Tick arithmetic.  `TickType_t` is an unsigned 64-bit word on this rv64 port, so
 every tick value the kernel stores is a true time reduced modulo 2^64.  True
 times are plain naturals here: `Low` is the word the kernel sees, `Epoch` the
 number of wraps that word has forgotten.
 */
module Ticks {

  const WRAP: nat := 0x1_0000_0000_0000_0000
  const MAX_DELAY: nat := 0xffff_ffff_ffff_ffff

  type Tick = t: nat | t < 0x1_0000_0000_0000_0000

  /** Unsigned addition of two tick words. */
  function Add(a: Tick, b: Tick): Tick {
    if a + b < WRAP then a + b else a + b - WRAP
  }

  /** Unsigned subtraction of two tick words. */
  function Sub(a: Tick, b: Tick): Tick {
    if b <= a then a - b else a + WRAP - b
  }

  function Low(t: nat): Tick {
    t % 0x1_0000_0000_0000_0000
  }

  function Epoch(t: nat): nat {
    t / 0x1_0000_0000_0000_0000
  }

  /** The true time whose word is `low` in epoch `epoch`. */
  function At(epoch: nat, low: Tick): nat {
    epoch * 0x1_0000_0000_0000_0000 + low
  }

  /** A true time is its epoch and its word, and nothing else is. */
  lemma Split(t: nat)
    ensures At(Epoch(t), Low(t)) == t
  {
  }

  lemma Join(epoch: nat, low: Tick)
    ensures Epoch(At(epoch, low)) == epoch && Low(At(epoch, low)) == low
  {
  }

  lemma SameTime(t: nat, epoch: nat, low: Tick)
    ensures t == At(epoch, low) <==> Epoch(t) == epoch && Low(t) == low
  {
    Split(t);
    Join(epoch, low);
  }

  /** Adding words adds true times, up to a carry of at most one epoch. */
  lemma AddWords(t: nat, d: Tick)
    ensures Low(t + d) == Add(Low(t), d)
    ensures Epoch(t + d) == if Low(t) + d < WRAP then Epoch(t) else Epoch(t) + 1
  {
    Split(t);
    var carry := if Low(t) + d < WRAP then 0 else 1;
    assert t + d == At(Epoch(t) + carry, Add(Low(t), d));
    Join(Epoch(t) + carry, Add(Low(t), d));
  }

  /** Subtracting words gives the true distance when that is below one wrap. */
  lemma SubWords(from: nat, to: nat)
    requires from <= to < from + WRAP
    ensures Sub(Low(to), Low(from)) == to - from
    ensures Low(to) < Low(from) ==> Epoch(to) == Epoch(from) + 1
    ensures Low(from) <= Low(to) ==> Epoch(to) == Epoch(from)
  {
    Split(from);
    Split(to);
    AddWords(from, to - from);
  }
}
