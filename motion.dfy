/** The motion update that Locomotion.step and PlayerController.step both perform, written
    once: a thrust impulse, exponential drag, a speed clamp, then position integration. */
module Motion {
  import opened Vectors

  /** Velocity after `velocity.addScaledVector(thrust, accel * dt)` and
      `velocity.multiplyScalar(dragCoeff)`, before the speed clamp. */
  function Driven(v: Vec3, thrust: Vec3, accel: real, dt: real, dragCoeff: real): Vec3
  {
    Scale(Add(v, Scale(thrust, accel * dt)), dragCoeff)
  }

  /** `Math.exp(-drag * dt)`, the fraction of velocity that survives `dt` seconds of drag. */
  function DragCoeff(drag: real, dt: real, exp: real -> real): real
  {
    exp(-drag * dt)
  }

  /** `const speed = velocity.length(); if (speed > maxVel) velocity.multiplyScalar(maxVel / speed)`:
      the result never exceeds the limit, is left alone when already within it, lands exactly on
      the limit otherwise, and is always `v` rescaled by a factor in [0, 1]. */
  function ClampSpeed(v: Vec3, maxVel: real, length: Vec3 -> real): (r: Vec3)
    requires IsLength(length) && 0.0 <= maxVel
    ensures length(r) <= maxVel
    ensures length(v) <= maxVel ==> r == v
    ensures maxVel < length(v) ==> length(r) == maxVel
    ensures exists k :: 0.0 <= k <= 1.0 && (0.0 < maxVel ==> 0.0 < k) && r == Scale(v, k)
  {
    var speed := length(v);
    if speed > maxVel then
      var k := maxVel / speed;
      DivFraction(maxVel, speed);
      DivTimes(maxVel, speed);
      LengthOfScaled(length, v, k);
      assert 0.0 < maxVel ==> 0.0 < k by {
        if 0.0 < maxVel { ShrinkBy(maxVel, speed, k); }
      }
      Scale(v, k)
    else
      assert v == Scale(v, 1.0);
      v
  }

  /** The velocity one `step` leaves behind: thrust scaled by `accel * dt`, then the drag
      factor `exp(-drag * dt)`, then the clamp to `maxVel`. */
  function Step(v: Vec3, thrust: Vec3, accel: real, drag: real, dt: real, maxVel: real,
                exp: real -> real, length: Vec3 -> real): (r: Vec3)
    requires IsLength(length) && 0.0 <= maxVel
    ensures length(r) <= maxVel
  {
    ClampSpeed(Driven(v, thrust, accel, dt, DragCoeff(drag, dt, exp)), maxVel, length)
  }

  /** `rig.position.addScaledVector(velocity, dt)`. */
  function Advance(p: Vec3, v: Vec3, dt: real): Vec3
  {
    Add(p, Scale(v, dt))
  }

  /** Both components of `u` and `v` have the same sign, axis by axis. */
  predicate SameSigns(u: Vec3, v: Vec3)
  {
    && (0.0 < u.x <==> 0.0 < v.x) && (u.x < 0.0 <==> v.x < 0.0)
    && (0.0 < u.y <==> 0.0 < v.y) && (u.y < 0.0 <==> v.y < 0.0)
    && (0.0 < u.z <==> 0.0 < v.z) && (u.z < 0.0 <==> v.z < 0.0)
  }

  /** Coasting: with no thrust and positive `drag * dt`, a moving body strictly slows down and
      no velocity component changes sign. */
  lemma ZeroThrustDecays(v: Vec3, accel: real, drag: real, dt: real, maxVel: real,
                         exp: real -> real, length: Vec3 -> real)
    requires IsExp(exp) && IsLength(length)
    requires 0.0 < drag * dt && 0.0 < maxVel && v != Zero
    ensures var u := Step(v, Zero, accel, drag, dt, maxVel, exp, length);
            length(u) < length(v) && SameSigns(u, v)
  {
    var c := DragCoeff(drag, dt, exp);
    NegatedProduct(drag, dt);
    assert 0.0 < c < 1.0;
    var pre := Driven(v, Zero, accel, dt, c);
    assert pre == Scale(v, c);
    var u := ClampSpeed(pre, maxVel, length);
    var k :| 0.0 < k <= 1.0 && u == Scale(pre, k);
    FractionProduct(c, k);
    ScaleTwice(v, c, k);
    Shrink(v, c * k, length);
  }

  lemma NegatedProduct(a: real, b: real)
    ensures -a * b == -(a * b)
  {
  }

  lemma ScaleTwice(v: Vec3, a: real, b: real)
    ensures Scale(Scale(v, a), b) == Scale(v, a * b)
  {
  }

  /** Scaling a nonzero vector by a factor strictly between 0 and 1 shortens it and keeps
      every component's sign. */
  lemma Shrink(v: Vec3, m: real, length: Vec3 -> real)
    requires IsLength(length) && 0.0 < m < 1.0 && v != Zero
    ensures length(Scale(v, m)) < length(v) && SameSigns(Scale(v, m), v)
  {
    LengthOfScaled(length, v, m);
    LengthPositive(length, v);
    ShrinkBy(length(Scale(v, m)), length(v), m);
    SignKept(v.x, m);
    SignKept(v.y, m);
    SignKept(v.z, m);
  }
}
