/**
 * The generator's sources of entropy and time, injected as objects: the
 * shared `System.Random`, `Guid.NewGuid` and `DateTime.Now`. Callers rely
 * only on the ranges these promise; the bodies are one arbitrary way of
 * meeting them.
 */
module Entropy {

  import opened Text
  import opened Timestamps

  /** `System.Random`: a stateful source of bounded integers. */
  class RandomSource {
    var state: nat

    constructor (seed: nat)
      ensures state == seed
    {
      state := seed;
    }

    /** `Next(lo, hi)`: a number from [lo, hi), or `lo` when the range is empty. `Next(n)` is `Next(0, n)`. */
    method Next(lo: int, hi: int) returns (r: int)
      requires lo <= hi
      modifies this
      ensures lo == hi ==> r == lo
      ensures lo < hi ==> lo <= r < hi
    {
      r := if lo == hi then lo else lo + state % (hi - lo);
      state := (state * 6364136223846793005 + 1442695040888963407) % 0x1_0000_0000_0000_0000;
    }
  }

  /** `Guid.NewGuid()`: a fresh 128-bit value. */
  class GuidSource {
    var state: nat

    constructor (seed: nat)
      ensures state == seed
    {
      state := seed;
    }

    method NewGuid() returns (g: nat)
      modifies this
      ensures g < Pow(16, 32)
    {
      PowPositive(16, 32);
      g := state % Pow(16, 32);
      state := state + 1;
    }
  }

  lemma {:induction false} PowPositive(b: nat, w: nat)
    requires b > 0
    ensures Pow(b, w) > 0
  {
    if w > 0 { PowPositive(b, w - 1); }
  }

  /** `DateTime.Now`: the local wall-clock reading. */
  class Clock {
    var now: LocalTime

    constructor (t: LocalTime)
      ensures now == t
    {
      now := t;
    }

    method Now() returns (t: LocalTime)
      ensures t == now
    {
      t := now;
    }
  }
}
