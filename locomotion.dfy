/** client/src/xr/locomotion.ts: the integrator the client actually drives every frame. */
module Locomotion {
  import opened Vectors
  import Motion

  /** Effective acceleration of a step: the base value, doubled while `fast` is held. */
  function EffectiveAccel(base: real, fast: bool): real
  {
    base * (if fast then 2.0 else 1.0)
  }

  class Locomotion {
    var velocity: Vec3
    var maxVel: real
    var accel: real
    var drag: real
    const rig: Object3D

    constructor (rig: Object3D)
      ensures this.rig == rig && velocity == Zero
      ensures maxVel == 3.5 && accel == 2.0 && drag == 0.8
    {
      this.rig := rig;
      velocity := Zero;
      maxVel := 3.5;
      accel := 2.0;
      drag := 0.8;
    }

    /** One frame: thrust impulse, exponential drag, speed clamp, then the rig moves by the new
        velocity times `dt`. The rig's orientation and the tuning fields are untouched. */
    method Step(thrust: Vec3, fast: bool, dt: real, exp: real -> real, length: Vec3 -> real)
      requires IsLength(length) && 0.0 <= maxVel
      modifies this, rig
      ensures maxVel == old(maxVel) && accel == old(accel) && drag == old(drag)
      ensures velocity == Motion.Step(old(velocity), thrust, EffectiveAccel(accel, fast), drag, dt,
                                      maxVel, exp, length)
      ensures length(velocity) <= maxVel
      ensures rig.position == Motion.Advance(old(rig.position), velocity, dt)
      ensures rig.quaternion == old(rig.quaternion)
    {
      ghost var v0 := velocity;
      var a := accel * (if fast then 2.0 else 1.0);
      velocity := Add(velocity, Scale(thrust, a * dt));
      var dragCoeff := Motion.DragCoeff(drag, dt, exp);
      velocity := Scale(velocity, dragCoeff);
      ghost var pre := velocity;
      assert pre == Motion.Driven(v0, thrust, EffectiveAccel(accel, fast), dt, dragCoeff);
      var speed := length(velocity);
      if speed > maxVel {
        velocity := Scale(velocity, maxVel / speed);
      }
      assert velocity == Motion.ClampSpeed(pre, maxVel, length);
      rig.position := Add(rig.position, Scale(velocity, dt));
    }
  }
}
