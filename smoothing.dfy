/**
 * The one smoothing rule every animated scalar of the scene uses:
 * `THREE.MathUtils.lerp(a, b, t) = a + (b - a) * t`, unclamped, applied once per
 * frame with `t = delta * rate`.
 */
module Smoothing {

  function Lerp(a: real, b: real, t: real): real
  {
    a + (b - a) * t
  }

  /** x lies on the closed segment between a and b, whichever is larger. */
  predicate Between(x: real, a: real, b: real)
  {
    (a <= x <= b) || (b <= x <= a)
  }

  function Abs(x: real): real
  {
    if x < 0.0 then -x else x
  }

  /** One frame of approach toward `target` at `rate` per second. */
  function Approach(current: real, target: real, rate: real, delta: real): real
  {
    Lerp(current, target, delta * rate)
  }

  /** With a step factor in [0, 1] a lerp never passes its target and never moves away from it. */
  lemma LerpNoOvershoot(a: real, b: real, t: real)
    requires 0.0 <= t <= 1.0
    ensures Between(Lerp(a, b, t), a, b)
    ensures Abs(Lerp(a, b, t) - b) <= Abs(a - b)
    ensures a < b ==> a <= Lerp(a, b, t)
    ensures b < a ==> Lerp(a, b, t) <= a
  {
    var d := b - a;
    assert d - d * t == d * (1.0 - t);
    if a <= b {
      NonNegativeProduct(d, t);
      NonNegativeProduct(d, 1.0 - t);
    } else {
      NonPositiveProduct(d, t);
      NonPositiveProduct(d, 1.0 - t);
    }
  }

  lemma PositiveProduct(a: real, b: real)
    requires a > 0.0 && b > 0.0
    ensures a * b > 0.0
  {
  }

  lemma NonNegativeProduct(a: real, b: real)
    requires a >= 0.0 && b >= 0.0
    ensures a * b >= 0.0
  {
  }

  lemma NonPositiveProduct(a: real, b: real)
    requires a <= 0.0 && b >= 0.0
    ensures a * b <= 0.0
  {
    NonNegativeProduct(-a, b);
    assert (-a) * b == -(a * b);
  }

  /** A lerp between two points of an interval stays in the interval. */
  lemma LerpKeepsInterval(a: real, b: real, t: real, lo: real, hi: real)
    requires lo <= a <= hi && lo <= b <= hi
    requires 0.0 <= t <= 1.0
    ensures lo <= Lerp(a, b, t) <= hi
  {
    LerpNoOvershoot(a, b, t);
  }

  /** A frame of approach with a step factor in [0, 1] keeps the value inside any interval holding both it and the target. */
  lemma ApproachBounded(current: real, target: real, rate: real, delta: real, lo: real, hi: real)
    requires 0.0 <= delta * rate <= 1.0
    requires lo <= current <= hi && lo <= target <= hi
    ensures lo <= Approach(current, target, rate, delta) <= hi
    ensures Between(Approach(current, target, rate, delta), current, target)
  {
    LerpNoOvershoot(current, target, delta * rate);
  }

  /** Repeated frames of approach toward one fixed target, with the step factors of the frames. */
  function Settle(x: real, target: real, steps: seq<real>): real
    decreases |steps|
  {
    if steps == [] then x else Settle(Lerp(x, target, steps[0]), target, steps[1..])
  }

  predicate UnitSteps(steps: seq<real>)
  {
    forall i :: 0 <= i < |steps| ==> 0.0 <= steps[i] <= 1.0
  }

  /**
   * Exponential smoothing toward a constant target never overshoots: after any
   * number of frames whose step factors lie in [0, 1] the value lies between its
   * start and the target, and it is never farther from the target than at the start.
   */
  lemma {:induction false} SettleNoOvershoot(x: real, target: real, steps: seq<real>)
    requires UnitSteps(steps)
    ensures Between(Settle(x, target, steps), x, target)
    ensures Abs(Settle(x, target, steps) - target) <= Abs(x - target)
    decreases |steps|
  {
    if steps != [] {
      var y := Lerp(x, target, steps[0]);
      LerpNoOvershoot(x, target, steps[0]);
      assert UnitSteps(steps[1..]) by {
        forall i | 0 <= i < |steps[1..]| ensures 0.0 <= steps[1..][i] <= 1.0 {
          assert steps[1..][i] == steps[i + 1];
        }
      }
      SettleNoOvershoot(y, target, steps[1..]);
    }
  }

  /** Rising toward a target above the start, the value never decreases from frame to frame. */
  lemma {:induction false} SettleRisesMonotonically(x: real, target: real, steps: seq<real>, k: nat)
    requires UnitSteps(steps)
    requires x <= target
    requires k < |steps|
    ensures Settle(x, target, steps[..k]) <= Settle(x, target, steps[..k + 1]) <= target
    decreases k
  {
    var y := Lerp(x, target, steps[0]);
    LerpNoOvershoot(x, target, steps[0]);
    assert steps[..k + 1][1..] == steps[1..][..k];
    if k == 0 {
      assert steps[..1] == [steps[0]];
      assert steps[..0] == [];
    } else {
      assert steps[..k][1..] == steps[1..][..k - 1];
      assert UnitSteps(steps[1..]) by {
        forall i | 0 <= i < |steps[1..]| ensures 0.0 <= steps[1..][i] <= 1.0 {
          assert steps[1..][i] == steps[i + 1];
        }
      }
      SettleRisesMonotonically(y, target, steps[1..], k - 1);
    }
  }
}
