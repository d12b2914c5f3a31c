/** client/src/player/controller.ts: the configurable motion controller with mild reconciliation
    toward a server-authoritative position. */
module Controller {
  import opened Vectors
  import Motion
  import Locomotion

  /** PlayerControllerConfig. */
  datatype Config = Config(accel: real, accelFast: real, drag: real, maxVel: real, reconcileLerp: real)

  /** Partial<PlayerControllerConfig>: a field is `Some` exactly when the object carries that key. */
  datatype PartialConfig = PartialConfig(accel: Option<real>, accelFast: Option<real>,
                                         drag: Option<real>, maxVel: Option<real>,
                                         reconcileLerp: Option<real>)

  const NoChanges: PartialConfig := PartialConfig(None, None, None, None, None)

  const Defaults: Config := Config(2.0, 4.0, 0.8, 3.5, 0.1)

  /** `{ ...base, ...patch }`: every key present in the patch wins, every other key is kept. */
  function Override(base: Config, patch: PartialConfig): (r: Config)
    ensures patch == NoChanges ==> r == base
  {
    Config(patch.accel.GetOr(base.accel), patch.accelFast.GetOr(base.accelFast),
           patch.drag.GetOr(base.drag), patch.maxVel.GetOr(base.maxVel),
           patch.reconcileLerp.GetOr(base.reconcileLerp))
  }

  /** The patch `{ ...p, ...q }`: keys of `q` win over keys of `p`. */
  function Merge(p: PartialConfig, q: PartialConfig): PartialConfig
  {
    PartialConfig(if q.accel.Some? then q.accel else p.accel,
                  if q.accelFast.Some? then q.accelFast else p.accelFast,
                  if q.drag.Some? then q.drag else p.drag,
                  if q.maxVel.Some? then q.maxVel else p.maxVel,
                  if q.reconcileLerp.Some? then q.reconcileLerp else p.reconcileLerp)
  }

  /** Applying the same patch twice is the same as applying it once. */
  lemma OverrideIdempotent(base: Config, patch: PartialConfig)
    ensures Override(Override(base, patch), patch) == Override(base, patch)
  {
  }

  /** Two successive `configure` calls equal one call with the merged patch. */
  lemma OverrideCompose(base: Config, p: PartialConfig, q: PartialConfig)
    ensures Override(Override(base, p), q) == Override(base, Merge(p, q))
  {
  }

  /** `input.fast ? accelFast : accel`. */
  function ChosenAccel(cfg: Config, fast: bool): real
  {
    if fast then cfg.accelFast else cfg.accel
  }

  /** `position.lerp(auth, f)` leaves the gap to `auth` scaled by `1 - f`. */
  lemma ReconcileGap(p: Vec3, auth: Vec3, f: real)
    ensures Sub(auth, Lerp(p, auth, f)) == Scale(Sub(auth, p), 1.0 - f)
  {
    GapComponent(p.x, auth.x, f);
    GapComponent(p.y, auth.y, f);
    GapComponent(p.z, auth.z, f);
  }

  lemma GapComponent(p: real, a: real, f: real)
    ensures a - (p + (a - p) * f) == (a - p) * (1.0 - f)
  {
  }

  /** InputStateLike: `thrust` arrives as a tuple and is read with `fromArray`. */
  datatype InputStateLike = InputStateLike(thrust: Vec3, fast: bool)

  class PlayerController {
    const rig: Object3D
    var velocity: Vec3
    var cfg: Config
    var authPos: Option<Vec3>

    constructor (rig: Object3D, patch: PartialConfig)
      ensures this.rig == rig && velocity == Zero && authPos == None
      ensures cfg == Override(Defaults, patch)
    {
      this.rig := rig;
      velocity := Zero;
      cfg := Override(Defaults, patch);
      authPos := None;
    }

    method Configure(patch: PartialConfig)
      modifies this
      ensures cfg == Override(old(cfg), patch)
      ensures velocity == old(velocity) && authPos == old(authPos)
    {
      cfg := Override(cfg, patch);
    }

    /** One frame of integration, then, when an authoritative position is known, a blend of
        `reconcileLerp` toward it. */
    method Step(dt: real, input: InputStateLike, exp: real -> real, length: Vec3 -> real)
      requires IsLength(length) && 0.0 <= cfg.maxVel
      modifies this, rig
      ensures cfg == old(cfg) && authPos == old(authPos)
      ensures velocity == Motion.Step(old(velocity), input.thrust, ChosenAccel(cfg, input.fast),
                                      cfg.drag, dt, cfg.maxVel, exp, length)
      ensures length(velocity) <= cfg.maxVel
      ensures authPos.None? ==> rig.position == Motion.Advance(old(rig.position), velocity, dt)
      ensures authPos.Some? ==>
                Sub(authPos.value, rig.position)
                == Scale(Sub(authPos.value, Motion.Advance(old(rig.position), velocity, dt)),
                         1.0 - cfg.reconcileLerp)
      ensures rig.quaternion == old(rig.quaternion)
    {
      var accel := if input.fast then cfg.accelFast else cfg.accel;
      Integrate(input.thrust, accel, dt, exp, length);
      if authPos.Some? {
        ghost var moved := rig.position;
        rig.position := Lerp(rig.position, authPos.value, cfg.reconcileLerp);
        ReconcileGap(moved, authPos.value, cfg.reconcileLerp);
      }
    }

    /** The thrust, drag, clamp and integrate part of `step`. */
    method Integrate(thrust: Vec3, accel: real, dt: real, exp: real -> real, length: Vec3 -> real)
      requires IsLength(length) && 0.0 <= cfg.maxVel
      modifies this, rig
      ensures cfg == old(cfg) && authPos == old(authPos)
      ensures velocity == Motion.Step(old(velocity), thrust, accel, cfg.drag, dt, cfg.maxVel, exp, length)
      ensures rig.position == Motion.Advance(old(rig.position), velocity, dt)
      ensures rig.quaternion == old(rig.quaternion)
    {
      ghost var v0 := velocity;
      velocity := Add(velocity, Scale(thrust, accel * dt));
      var dragCoeff := Motion.DragCoeff(cfg.drag, dt, exp);
      velocity := Scale(velocity, dragCoeff);
      ghost var pre := velocity;
      assert pre == Motion.Driven(v0, thrust, accel, dt, dragCoeff);
      var speed := length(velocity);
      if speed > cfg.maxVel {
        velocity := Scale(velocity, cfg.maxVel / speed);
      }
      assert velocity == Motion.ClampSpeed(pre, cfg.maxVel, length);
      rig.position := Add(rig.position, Scale(velocity, dt));
    }

    method ApplyAuthoritative(position: Vec3)
      modifies this
      ensures authPos == Some(position)
      ensures velocity == old(velocity) && cfg == old(cfg)
    {
      authPos := Some(position);
    }
  }

  /** With the default configuration and no authoritative position, a controller step and a
      Locomotion step from the same state end in the same velocity and rig position. */
  method StepLikeLocomotion(pc: PlayerController, loc: Locomotion.Locomotion, thrust: Vec3,
                            fast: bool, dt: real, exp: real -> real, length: Vec3 -> real)
    requires IsLength(length) && pc.rig != loc.rig
    requires pc.cfg == Defaults && pc.authPos == None
    requires loc.accel == Defaults.accel && loc.drag == Defaults.drag
    requires loc.maxVel == Defaults.maxVel
    requires pc.velocity == loc.velocity && pc.rig.position == loc.rig.position
    modifies pc, pc.rig, loc, loc.rig
    ensures pc.velocity == loc.velocity && pc.rig.position == loc.rig.position
  {
    pc.Step(dt, InputStateLike(thrust, fast), exp, length);
    loc.Step(thrust, fast, dt, exp, length);
  }
}
