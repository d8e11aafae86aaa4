/**
 * Exponential reconnection backoff (socketio/Backoff.kt).
 *
 * `factor` is a natural number here (the client always uses 2), the random
 * draw of `Random.nextDouble()` is an explicit parameter, and arithmetic is
 * exact over the reals rather than in double precision.
 */
module Backoff {
  import opened Common

  datatype Backoff = Backoff(min: int, max: int, jitter: real, factor: nat, attempts: nat)

  const JitterError := "jitter should be between 0.0 and 1.0"

  predicate ValidJitter(j: real)
  {
    0.0 <= j <= 1.0
  }

  /** The constructor: rejects a jitter outside [0, 1], otherwise starts with no attempts. */
  function New(min: int, max: int, jitter: real, factor: nat): (r: Result<Backoff>)
    ensures r.Ok? <==> 0.0 <= jitter <= 1.0
    ensures r.Failure? ==> r.error == JitterError
    ensures r.Ok? ==> r.value.attempts == 0 && r.value.min == min && r.value.max == max
                      && r.value.jitter == jitter && r.value.factor == factor
  {
    if ValidJitter(jitter) then Ok(Backoff(min, max, jitter, factor, 0)) else Failure(JitterError)
  }

  /** The default backoff: 100 ms to 10 s, doubling, no jitter. */
  function Default(): Backoff
  {
    Backoff(100, 10000, 0.0, 2, 0)
  }

  /** The `jitter` setter: rejects a value outside [0, 1] and leaves everything else alone. */
  function SetJitter(b: Backoff, jitter: real): (r: Result<Backoff>)
    ensures r.Ok? <==> 0.0 <= jitter <= 1.0
    ensures r.Failure? ==> r.error == JitterError
    ensures r.Ok? ==> r.value == b.(jitter := jitter)
  {
    if ValidJitter(jitter) then Ok(b.(jitter := jitter)) else Failure(JitterError)
  }

  function Pow(f: nat, k: nat): nat
  {
    if k == 0 then 1 else f * Pow(f, k - 1)
  }

  /** Double-to-Long conversion: truncation toward zero. */
  function Trunc(x: real): int
  {
    if x >= 0.0 then x.Floor else -((-x).Floor)
  }

  function MinInt(a: int, b: int): int { if a <= b then a else b }
  function MaxInt(a: int, b: int): int { if a >= b then a else b }

  /** `max(min(ms, max), min)`: the final clamp of `duration`. */
  function Clamp(ms: int, lo: int, hi: int): (r: int)
    ensures r >= lo
    ensures lo <= hi ==> r <= hi
    ensures lo <= ms <= hi ==> r == ms
  {
    MaxInt(MinInt(ms, hi), lo)
  }

  /** The undeviated delay of the attempt numbered `k`: `min * factor^k`. */
  function Base(b: Backoff, k: nat): int
  {
    b.min * Pow(b.factor, k)
  }

  /** The jittered (or plain) delay before truncation, given the random draw. */
  function Jittered(b: Backoff, draw: real): real
  {
    var ms := Base(b, b.attempts) as real;
    if b.jitter > 0.0 then
      var deviation := draw * b.jitter * ms;
      if (draw * 10.0).Floor % 2 == 0 then ms - deviation else ms + deviation
    else ms
  }

  /**
   * Reading `duration`: the delay for the current attempt, clamped to
   * [min, max], and the backoff with one more attempt recorded.
   */
  function Duration(b: Backoff, draw: real): (r: (int, Backoff))
    requires 0.0 <= draw < 1.0
    ensures r.1 == b.(attempts := b.attempts + 1)
    ensures r.0 >= b.min
    ensures b.min <= b.max ==> r.0 <= b.max
    ensures b.jitter == 0.0 ==> r.0 == MaxInt(MinInt(b.min * Pow(b.factor, b.attempts), b.max), b.min)
  {
    (Clamp(Trunc(Jittered(b, draw)), b.min, b.max), b.(attempts := b.attempts + 1))
  }

  /** `reset()`: returns the attempt count it had and starts over. */
  function Reset(b: Backoff): (r: (nat, Backoff))
    ensures r.0 == b.attempts
    ensures r.1.attempts == 0
    ensures r.1 == b.(attempts := 0)
  {
    (b.attempts, b.(attempts := 0))
  }

  /** The delays returned by `n` successive reads of `duration` without jitter. */
  function Delays(b: Backoff, n: nat): (r: seq<int>)
    requires b.jitter == 0.0
    ensures |r| == n
    decreases n
  {
    if n == 0 then []
    else
      var (d, b') := Duration(b, 0.0);
      [d] + Delays(b', n - 1)
  }

  lemma {:induction false} PowMonotone(f: nat, k: nat)
    requires f >= 1
    ensures Pow(f, k) <= Pow(f, k + 1)
  {
    assert Pow(f, k + 1) == f * Pow(f, k);
  }

  lemma BaseMonotone(b: Backoff, k: nat)
    requires b.factor >= 1
    ensures MaxInt(MinInt(Base(b, k), b.max), b.min) <= MaxInt(MinInt(Base(b, k + 1), b.max), b.min)
  {
    PowMonotone(b.factor, k);
    if b.min >= 0 {
      assert b.min * Pow(b.factor, k) <= b.min * Pow(b.factor, k + 1) by {
        MulMonotone(b.min, Pow(b.factor, k), Pow(b.factor, k + 1));
      }
    } else {
      assert Pow(b.factor, k) >= 1 by { PowPositive(b.factor, k); }
      assert b.min * Pow(b.factor, k) <= b.min by {
        MulNegative(b.min, Pow(b.factor, k));
      }
      assert b.min * Pow(b.factor, k + 1) <= b.min by {
        PowPositive(b.factor, k + 1);
        MulNegative(b.min, Pow(b.factor, k + 1));
      }
    }
  }

  lemma MulMonotone(a: int, x: int, y: int)
    requires a >= 0 && x <= y
    ensures a * x <= a * y
  {}

  lemma MulNegative(a: int, x: int)
    requires a < 0 && x >= 1
    ensures a * x <= a
  {}

  lemma {:induction false} PowPositive(f: nat, k: nat)
    requires f >= 1
    ensures Pow(f, k) >= 1
  {
    if k > 0 {
      PowPositive(f, k - 1);
      MulMonotone(f, 1, Pow(f, k - 1));
    }
  }

  /** Every delay of the sequence is the clamped undeviated delay of its attempt number. */
  lemma {:induction false} DelaysClosedForm(b: Backoff, n: nat, i: nat)
    requires b.jitter == 0.0 && i < n
    ensures Delays(b, n)[i] == MaxInt(MinInt(Base(b, b.attempts + i), b.max), b.min)
    decreases n
  {
    if i > 0 {
      DelaysClosedForm(b.(attempts := b.attempts + 1), n - 1, i - 1);
    }
  }

  /** Without jitter and with factor at least 1, successive delays between resets never decrease. */
  lemma DelaysNonDecreasing(b: Backoff, n: nat, i: nat)
    requires b.jitter == 0.0 && b.factor >= 1
    requires i + 1 < n
    ensures Delays(b, n)[i] <= Delays(b, n)[i + 1]
  {
    DelaysClosedForm(b, n, i);
    DelaysClosedForm(b, n, i + 1);
    BaseMonotone(b, b.attempts + i);
  }

  /** The defaults give 100, 200, 400, 800. */
  lemma DefaultDelays()
    ensures Delays(Default(), 4) == [100, 200, 400, 800]
  {
    var b := Default();
    assert Pow(2, 0) == 1 && Pow(2, 1) == 2 && Pow(2, 2) == 4 && Pow(2, 3) == 8;
    DelaysClosedForm(b, 4, 0);
    DelaysClosedForm(b, 4, 1);
    DelaysClosedForm(b, 4, 2);
    DelaysClosedForm(b, 4, 3);
  }
}
