/**
 * three.js `Vector3` as a value, and the parts of JavaScript's `Math` the scene
 * uses (cos, sin, sqrt, pow, acos). The transcendental functions are passed in
 * as a `MathLib` value; nothing is assumed of them beyond `ValidMath`.
 */
module Geometry {
  import opened Smoothing

  datatype Vec3 = Vec3(x: real, y: real, z: real)

  const Origin := Vec3(0.0, 0.0, 0.0)

  /** `Math.PI` as a double. */
  const PI: real := 3.141592653589793

  function Add(a: Vec3, b: Vec3): Vec3
  {
    Vec3(a.x + b.x, a.y + b.y, a.z + b.z)
  }

  function Scale(v: Vec3, k: real): Vec3
  {
    Vec3(v.x * k, v.y * k, v.z * k)
  }

  function NormSq(v: Vec3): real
  {
    v.x * v.x + v.y * v.y + v.z * v.z
  }

  /** Squared distance from the vertical (y) axis. */
  function HorizontalSq(v: Vec3): real
  {
    v.x * v.x + v.z * v.z
  }

  /** `new Vector3().lerpVectors(a, b, t)`: component-wise unclamped lerp. */
  function LerpVectors(a: Vec3, b: Vec3, t: real): (r: Vec3)
    ensures t == 0.0 ==> r == a
    ensures t == 1.0 ==> r == b
  {
    Vec3(Lerp(a.x, b.x, t), Lerp(a.y, b.y, t), Lerp(a.z, b.z, t))
  }

  /** Every component of `LerpVectors(a, b, t)` lies between the components of a and b. */
  lemma LerpVectorsBetween(a: Vec3, b: Vec3, t: real)
    requires 0.0 <= t <= 1.0
    ensures Between(LerpVectors(a, b, t).x, a.x, b.x)
    ensures Between(LerpVectors(a, b, t).y, a.y, b.y)
    ensures Between(LerpVectors(a, b, t).z, a.z, b.z)
  {
    LerpNoOvershoot(a.x, b.x, t);
    LerpNoOvershoot(a.y, b.y, t);
    LerpNoOvershoot(a.z, b.z, t);
  }

  datatype MathLib = MathLib(
    cos: real -> real,
    sin: real -> real,
    sqrt: real -> real,
    pow: (real, real) -> real,
    acos: real -> real)

  /**
   * The facts about `Math` the model relies on: cos and sin lie on the unit
   * circle, sqrt is the non-negative square root, and a power of a number in
   * [0, 1) with a positive exponent stays in [0, 1). acos is unconstrained.
   */
  ghost predicate ValidMath(m: MathLib)
  {
    && (forall a :: m.cos(a) * m.cos(a) + m.sin(a) * m.sin(a) == 1.0)
    && (forall v :: 0.0 <= v ==> 0.0 <= m.sqrt(v) && m.sqrt(v) * m.sqrt(v) == v)
    && (forall u, p :: 0.0 <= u < 1.0 && 0.0 < p ==> 0.0 <= m.pow(u, p) < 1.0)
  }

  /** `Vector3.length()`. */
  function Length(m: MathLib, v: Vec3): real
  {
    m.sqrt(NormSq(v))
  }

  /** `Vector3.normalize()`: divides by `length() || 1`, so the zero vector is left as it is. */
  function Normalize(m: MathLib, v: Vec3): Vec3
  {
    var len := Length(m, v);
    if len == 0.0 then v else Scale(v, 1.0 / len)
  }

  /** sin and cos of any angle lie in [-1, 1]. */
  lemma TrigBounded(m: MathLib, a: real)
    requires ValidMath(m)
    ensures -1.0 <= m.sin(a) <= 1.0
    ensures -1.0 <= m.cos(a) <= 1.0
  {
    var s, c := m.sin(a), m.cos(a);
    assert c * c + s * s == 1.0;
    assert s * s <= 1.0;
    assert c * c <= 1.0;
    SquareAtMostOne(s);
    SquareAtMostOne(c);
  }

  lemma SquareAtMostOne(x: real)
    requires x * x <= 1.0
    ensures -1.0 <= x <= 1.0
  {
    assert x > 1.0 ==> x * x > 1.0;
    assert x < -1.0 ==> x * x > 1.0;
  }

  lemma SquareNonNegative(x: real)
    ensures x * x >= 0.0
  {
    assert x >= 0.0 ==> x * x >= 0.0;
    assert x < 0.0 ==> x * x > 0.0;
  }

  /** Multiplying both sides by a positive factor keeps a strict comparison. */
  lemma CompareScaled(c: real, a: real, b: real)
    requires c > 0.0
    ensures c * a > c * b <==> a > b
    ensures c * a < c * b <==> a < b
  {
    assert c * a - c * b == c * (a - b);
    assert a - b > 0.0 ==> c * (a - b) > 0.0;
    assert a - b < 0.0 ==> c * (a - b) < 0.0;
  }




  /** Squaring is strictly monotone on the non-negative reals. */
  lemma SquareMonotone(a: real, b: real)
    requires a >= 0.0 && b >= 0.0
    ensures a > b <==> a * a > b * b
  {
    assert a * a - b * b == (a - b) * (a + b);
    if a > b {
      PositiveProduct(a - b, a + b);
    } else {
      NonPositiveProduct(a - b, a + b);
    }
  }

  /**
   * For square roots sa of A and ss > 0 of S, comparing the ratio sa / ss with
   * a positive threshold t is the same as comparing A with t squared times S.
   */
  lemma RatioThreshold(sa: real, ss: real, A: real, S: real, t: real, t2: real)
    requires sa >= 0.0 && ss > 0.0 && sa * sa == A && ss * ss == S && t > 0.0 && t2 == t * t
    ensures sa / ss > t <==> A > t2 * S
    ensures sa / ss < t <==> A < t2 * S
  {
    var r := sa / ss;
    assert sa == r * ss;
    var ts := t * ss;
    assert ts > 0.0;
    CompareScaled(ss, r, t);
    assert r > t <==> sa > ts;
    assert r < t <==> sa < ts;
    SquareMonotone(sa, ts);
    SquareMonotone(ts, sa);
    assert ts * ts == t2 * S;
  }

  /** Scaling by k scales the squared length by k squared. */
  lemma NormSqScale(v: Vec3, k: real)
    ensures NormSq(Scale(v, k)) == k * k * NormSq(v)
  {
    calc {
      NormSq(Scale(v, k));
      (v.x * k) * (v.x * k) + (v.y * k) * (v.y * k) + (v.z * k) * (v.z * k);
      k * k * (v.x * v.x) + k * k * (v.y * v.y) + k * k * (v.z * v.z);
    }
  }

  /** A vector of non-zero length normalizes to a unit vector pointing the same way. */
  lemma NormalizeUnit(m: MathLib, v: Vec3)
    requires ValidMath(m)
    requires NormSq(v) > 0.0
    ensures Length(m, v) > 0.0
    ensures Normalize(m, v) == Scale(v, 1.0 / Length(m, v))
    ensures NormSq(Normalize(m, v)) == 1.0
  {
    var n := NormSq(v);
    var len := m.sqrt(n);
    assert len * len == n;
    assert len > 0.0;
    var k := 1.0 / len;
    NormSqScale(v, k);
    assert k * k * n == 1.0 by {
      assert k * len == 1.0;
      calc {
        k * k * n;
        k * k * (len * len);
        (k * len) * (k * len);
        1.0;
      }
    }
  }

  /** A point at radius r along the direction of an angle is at squared horizontal distance r squared, at any height. */
  lemma PolarRadius(m: MathLib, r: real, a: real, y: real)
    requires ValidMath(m)
    ensures HorizontalSq(Vec3(r * m.cos(a), y, r * m.sin(a))) == r * r
  {
    var c, s := m.cos(a), m.sin(a);
    assert c * c + s * s == 1.0;
    calc {
      HorizontalSq(Vec3(r * c, y, r * s));
      (r * c) * (r * c) + (r * s) * (r * s);
      r * r * (c * c + s * s);
      r * r;
    }
  }
}
