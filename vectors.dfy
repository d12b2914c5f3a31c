/** Value types shared by every component: optional values, three.js-style vectors and
    quaternions, the scalar clamps of THREE.MathUtils, and the ranges that the model assumes
    of the transcendental helpers (Math.exp, Vector3.length, Math.hypot).

    Those helpers are not computed here. Each component receives them as function-valued
    parameters, and its preconditions state the range it relies on (IsExp, IsLength,
    IsHypot). Nothing else about them is assumed. */
module Vectors {

  datatype Option<T> = None | Some(value: T)
  {
    /** The `??` operator: the value when present, the fallback otherwise. */
    function GetOr(fallback: T): T
    {
      match this
      case Some(v) => v
      case None => fallback
    }
  }

  /** A THREE.Vector3 (or a `[number, number, number]` tuple) as exact reals. */
  datatype Vec3 = Vec3(x: real, y: real, z: real)

  /** A THREE.Quaternion, `[x, y, z, w]`. */
  datatype Quat = Quat(x: real, y: real, z: real, w: real)

  const Zero: Vec3 := Vec3(0.0, 0.0, 0.0)

  /** `new THREE.Quaternion()` is the identity rotation. */
  const Identity: Quat := Quat(0.0, 0.0, 0.0, 1.0)

  function Add(a: Vec3, b: Vec3): Vec3
  {
    Vec3(a.x + b.x, a.y + b.y, a.z + b.z)
  }

  function Sub(a: Vec3, b: Vec3): Vec3
  {
    Vec3(a.x - b.x, a.y - b.y, a.z - b.z)
  }

  function Scale(a: Vec3, k: real): Vec3
  {
    Vec3(a.x * k, a.y * k, a.z * k)
  }

  /** Vector3.lerpVectors(a, b, f) and, with a == this, Vector3.lerp(b, f). */
  function Lerp(a: Vec3, b: Vec3, f: real): Vec3
  {
    Vec3(a.x + (b.x - a.x) * f, a.y + (b.y - a.y) * f, a.z + (b.z - a.z) * f)
  }

  lemma LerpEnds(a: Vec3, b: Vec3)
    ensures Lerp(a, b, 0.0) == a && Lerp(a, b, 1.0) == b
  {
  }

  lemma LerpSame(a: Vec3, f: real)
    ensures Lerp(a, a, f) == a
  {
  }

  function Abs(v: real): real
  {
    if v < 0.0 then -v else v
  }

  function Max(a: real, b: real): real
  {
    if a >= b then a else b
  }

  function Min(a: real, b: real): real
  {
    if a <= b then a else b
  }

  /** THREE.MathUtils.clamp(v, lo, hi), that is Math.max(lo, Math.min(hi, v)). */
  function Clamp(v: real, lo: real, hi: real): (r: real)
    ensures lo <= hi ==> lo <= r <= hi
    ensures lo <= v <= hi ==> r == v
    ensures lo <= hi && v < lo ==> r == lo
    ensures lo <= hi && hi < v ==> r == hi
  {
    Max(lo, Min(hi, v))
  }

  /** The range assumed of Math.exp: positive, at most 1 for non-positive arguments and
      below 1 for negative ones. */
  ghost predicate IsExp(exp: real -> real)
  {
    forall x :: 0.0 < exp(x) && (x <= 0.0 ==> exp(x) <= 1.0) && (x < 0.0 ==> exp(x) < 1.0)
  }

  /** What is assumed of Vector3.length: a norm. It is never negative, it is zero exactly for
      the zero vector, and scaling a vector by k >= 0 scales its length by k. */
  ghost predicate IsLength(length: Vec3 -> real)
  {
    && (forall v :: 0.0 <= length(v))
    && (forall v :: length(v) == 0.0 <==> v == Zero)
    && (forall v, k {:trigger length(Scale(v, k))} :: 0.0 <= k ==> length(Scale(v, k)) == k * length(v))
  }

  /** The horizontal (x, z) part of a vector. */
  datatype Planar = Planar(x: real, z: real)

  function ScalePlanar(p: Planar, k: real): Planar
  {
    Planar(p.x * k, p.z * k)
  }

  /** What is assumed of Math.hypot on two coordinates: never negative, and scaling both by
      k >= 0 scales the result by k. */
  ghost predicate IsHypot(hypot: Planar -> real)
  {
    && (forall p :: 0.0 <= hypot(p))
    && (forall p, k {:trigger hypot(ScalePlanar(p, k))} :: 0.0 <= k ==> hypot(ScalePlanar(p, k)) == k * hypot(p))
  }

  lemma LengthOfScaled(length: Vec3 -> real, v: Vec3, k: real)
    requires IsLength(length) && 0.0 <= k
    ensures length(Scale(v, k)) == k * length(v)
  {
  }

  lemma LengthPositive(length: Vec3 -> real, v: Vec3)
    requires IsLength(length) && v != Zero
    ensures 0.0 < length(v)
  {
  }

  // Arithmetic facts, each proved apart from any quantified context so that the solver's
  // nonlinear reasoning stays small.

  /** a / b of 0 <= a < b lies in [0, 1). */
  lemma DivFraction(a: real, b: real)
    requires 0.0 <= a < b
    ensures 0.0 <= a / b < 1.0
  {
  }

  lemma DivTimes(a: real, b: real)
    requires b != 0.0
    ensures a / b * b == a
  {
  }

  /** x / d for 0 <= x <= d lies in [0, 1]. */
  lemma DivUnit(x: real, d: real)
    requires 0.0 <= x <= d && 0.0 < d
    ensures 0.0 <= x / d <= 1.0
  {
  }

  lemma DivNegative(x: real, d: real)
    requires x < 0.0 < d
    ensures x / d < 0.0
  {
  }

  lemma DivAboveOne(x: real, d: real)
    requires 0.0 < d < x
    ensures 1.0 < x / d
  {
  }

  /** x = m * l with 0 < m < 1 and 0 < l is strictly smaller than l. */
  lemma ShrinkBy(x: real, l: real, m: real)
    requires 0.0 < m < 1.0 && 0.0 < l && x == m * l
    ensures 0.0 < x < l
  {
    ShrinkPositive(x, l, m);
    ShrinkBelow(x, l, m);
  }

  lemma ShrinkPositive(x: real, l: real, m: real)
    requires 0.0 < m < 1.0 && 0.0 < l && x == m * l
    ensures 0.0 < x
  {
  }

  lemma ShrinkBelow(x: real, l: real, m: real)
    requires 0.0 < m < 1.0 && 0.0 < l && x == m * l
    ensures x < l
  {
  }

  /** Multiplying by a positive factor keeps the sign. */
  lemma SignKept(a: real, m: real)
    requires 0.0 < m
    ensures 0.0 < a <==> 0.0 < a * m
    ensures a < 0.0 <==> a * m < 0.0
  {
    if a < 0.0 {
      assert 0.0 < (-a) * m;
    } else if 0.0 < a {
      assert 0.0 < a * m;
    }
  }

  /** Products of two fractions in (0, 1] stay in (0, 1]. */
  lemma FractionProduct(c: real, k: real)
    requires 0.0 < c <= 1.0 && 0.0 < k <= 1.0
    ensures 0.0 < c * k <= c
  {
  }

  /** A THREE.Object3D (the locomotion rig): only the pose that motion code touches. */
  class Object3D {
    var position: Vec3
    var quaternion: Quat

    constructor (position: Vec3)
      ensures this.position == position && quaternion == Identity
    {
      this.position := position;
      quaternion := Identity;
    }
  }
}
