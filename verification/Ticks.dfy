/** Times that wrap: the tick counts of the Windows timer example, 32 bits without sign, and their differences,
    32 bits with sign. */
module Ticks {

  const WRAP := 0x1_0000_0000
  const HALF := 0x8000_0000

  /** A DWORD. */
  type Tick = n: int | 0 <= n < WRAP

  /** A LONG. */
  type Duration = n: int | -HALF <= n < HALF

  /** Unsigned arithmetic wraps. */
  function Wrapped(n: int): Tick {
    n % WRAP
  }

  /** `static_cast<LONG>` of a DWORD. */
  function Signed(t: Tick): Duration {
    if t < HALF then t else t - WRAP
  }

  function Add(t: Tick, d: Duration): Tick {
    Wrapped(t + d)
  }

  function Subtract(t1: Tick, t2: Tick): Duration {
    if LessThan(t1, t2) then -Signed(Wrapped(t2 - t1)) else Signed(Wrapped(t1 - t2))
  }

  predicate LessThan(t1: Tick, t2: Tick) {
    Wrapped(t2 - t1) < HALF
  }

  lemma WrapDifference(a: int, b: int)
    ensures Wrapped(Wrapped(a) - Wrapped(b)) == Wrapped(a - b)
  {}

  lemma Unique(n: int, k: int, r: Tick)
    requires n == k * WRAP + r
    ensures Wrapped(n) == r
  {}

  /** Give or take `k` wraps, `b` is at or after `a`, by less than 2 to the 31. */
  predicate Ahead(a: int, b: int, k: int) {
    a <= b + k * WRAP < a + HALF
  }

  /** What the comparison says of any two true times. */
  lemma LessThanMeans(a: int, b: int)
    ensures LessThan(Wrapped(a), Wrapped(b)) <==> exists k :: Ahead(a, b, k)
  {
    WrapDifference(b, a);
    var d := b - a;
    if Wrapped(d) < HALF {
      assert Ahead(a, b, -(d / WRAP));
    }
    if k :| Ahead(a, b, k) {
      Unique(d, -k, d + k * WRAP);
    }
  }

  /** It holds of equal times. */
  lemma LessThanItself(t: Tick)
    ensures LessThan(t, t)
  {}

  /** Of times exactly 2 to the 31 apart it holds neither way; those are the only ones. */
  lemma NeitherLessThan(t1: Tick, t2: Tick)
    ensures !LessThan(t1, t2) && !LessThan(t2, t1) <==> t2 - t1 == HALF || t1 - t2 == HALF
  {
    var d := t2 - t1;
    if d > 0 {
      Unique(d, 0, d);
      Unique(-d, -1, WRAP - d);
    } else if d < 0 {
      Unique(d, -1, WRAP + d);
      Unique(-d, 0, -d);
    }
  }

  /** Of two true times less than a wrap apart, it says rightly whether the first is no later than the second
      exactly when they are less than 2 to the 31 apart, or that far apart with the first the later one. */
  lemma LessThanIsNotLater(a: int, b: int)
    requires -WRAP < b - a < WRAP
    ensures (LessThan(Wrapped(a), Wrapped(b)) <==> a <= b) <==> -HALF <= b - a < HALF
  {}

  /** The difference of two tick counts is the true difference exactly when that is a 32-bit signed number. */
  lemma SubtractIsDifference(a: int, b: int)
    ensures Subtract(Wrapped(a), Wrapped(b)) == a - b <==> -HALF <= a - b < HALF
  {}

  /** Adding a duration and subtracting the time again gives the duration back, for every duration. */
  lemma AddThenSubtract(t: Tick, d: Duration)
    ensures Subtract(Add(t, d), t) == d
  {}

  /** Adding the difference takes one tick count to the other, for every two tick counts. */
  lemma SubtractThenAdd(t1: Tick, t2: Tick)
    ensures Add(t2, Subtract(t1, t2)) == t1
  {}
}
