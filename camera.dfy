/** client/src/player/camera.ts: the third-person orbit camera. Stick input moves target values
    (yaw, pitch, radius, or in pan mode the look-at offset); the current values then decay
    exponentially toward their targets. Placing the Three.js camera from these values
    (`updateImmediate`) is trigonometry on the scene graph and is not modelled. */
module Camera {
  import opened Vectors

  /** CameraConfig. */
  datatype CameraConfig = CameraConfig(
    orbitSpeed: real, pitchSpeed: real, zoomSpeed: real,
    minPitch: real, maxPitch: real, minRadius: real, maxRadius: real,
    yawDamp: real, pitchDamp: real, zoomDamp: real,
    panSpeed: real, panVertSpeed: real, maxPan: real, minPanY: real, maxPanY: real)

  /** Partial<CameraConfig>: a field is `Some` exactly when the object carries that key. */
  datatype PartialCameraConfig = PartialCameraConfig(
    orbitSpeed: Option<real>, pitchSpeed: Option<real>, zoomSpeed: Option<real>,
    minPitch: Option<real>, maxPitch: Option<real>, minRadius: Option<real>, maxRadius: Option<real>,
    yawDamp: Option<real>, pitchDamp: Option<real>, zoomDamp: Option<real>,
    panSpeed: Option<real>, panVertSpeed: Option<real>, maxPan: Option<real>,
    minPanY: Option<real>, maxPanY: Option<real>)

  /** THREE.MathUtils.degToRad, with the value of pi supplied. */
  function DegToRad(degrees: real, pi: real): real
  {
    degrees * pi / 180.0
  }

  /** The built-in configuration; the pitch limits are 15 and 85 degrees. */
  function Defaults(pi: real): CameraConfig
  {
    CameraConfig(2.5, 1.8, 3.0, DegToRad(15.0, pi), DegToRad(85.0, pi), 1.5, 10.0,
                 6.0, 6.0, 6.0, 2.0, 1.5, 2.0, -0.5, 1.5)
  }

  /** The empty patch `{}`. */
  const NoChanges: PartialCameraConfig :=
    PartialCameraConfig(None, None, None, None, None, None, None, None, None, None, None, None,
                        None, None, None)

  /** `{ ...base, ...patch }`: every key present in the patch wins, every other key is kept. */
  function Override(base: CameraConfig, patch: PartialCameraConfig): (r: CameraConfig)
    ensures patch == NoChanges ==> r == base
    ensures patch.maxPan.None? ==> r.maxPan == base.maxPan
    ensures patch.minPitch.None? && patch.maxPitch.None? ==> r.minPitch == base.minPitch && r.maxPitch == base.maxPitch
  {
    CameraConfig(
      patch.orbitSpeed.GetOr(base.orbitSpeed), patch.pitchSpeed.GetOr(base.pitchSpeed),
      patch.zoomSpeed.GetOr(base.zoomSpeed), patch.minPitch.GetOr(base.minPitch),
      patch.maxPitch.GetOr(base.maxPitch), patch.minRadius.GetOr(base.minRadius),
      patch.maxRadius.GetOr(base.maxRadius), patch.yawDamp.GetOr(base.yawDamp),
      patch.pitchDamp.GetOr(base.pitchDamp), patch.zoomDamp.GetOr(base.zoomDamp),
      patch.panSpeed.GetOr(base.panSpeed), patch.panVertSpeed.GetOr(base.panVertSpeed),
      patch.maxPan.GetOr(base.maxPan), patch.minPanY.GetOr(base.minPanY),
      patch.maxPanY.GetOr(base.maxPanY))
  }

  /** The patch `{ ...p, ...q }`: keys of `q` win over keys of `p`. */
  function Merge(p: PartialCameraConfig, q: PartialCameraConfig): PartialCameraConfig
  {
    PartialCameraConfig(
      Later(p.orbitSpeed, q.orbitSpeed), Later(p.pitchSpeed, q.pitchSpeed),
      Later(p.zoomSpeed, q.zoomSpeed), Later(p.minPitch, q.minPitch),
      Later(p.maxPitch, q.maxPitch), Later(p.minRadius, q.minRadius),
      Later(p.maxRadius, q.maxRadius), Later(p.yawDamp, q.yawDamp),
      Later(p.pitchDamp, q.pitchDamp), Later(p.zoomDamp, q.zoomDamp),
      Later(p.panSpeed, q.panSpeed), Later(p.panVertSpeed, q.panVertSpeed),
      Later(p.maxPan, q.maxPan), Later(p.minPanY, q.minPanY), Later(p.maxPanY, q.maxPanY))
  }

  /** One key of a spread merge: the later object's key, if it has one. */
  function Later(a: Option<real>, b: Option<real>): Option<real>
  {
    if b.Some? then b else a
  }

  /** Applying the same patch twice is the same as applying it once. */
  lemma OverrideIdempotent(base: CameraConfig, patch: PartialCameraConfig)
    ensures Override(Override(base, patch), patch) == Override(base, patch)
  {
  }

  /** Two successive `configure` calls merge like one call with the merged patch. */
  lemma OverrideCompose(base: CameraConfig, p: PartialCameraConfig, q: PartialCameraConfig)
    ensures Override(Override(base, p), q) == Override(base, Merge(p, q))
  {
  }

  /** The default pitch and radius ranges are non-empty for any positive pi. */
  lemma DefaultRanges(pi: real)
    requires 0.0 < pi
    ensures var d := Defaults(pi);
            0.0 < d.minPitch < d.maxPitch && d.minRadius <= d.maxRadius && d.minPanY <= d.maxPanY
            && 0.0 <= d.maxPan
  {
  }

  /** `clampTargets`, on values. */
  predicate TargetsInRange(cfg: CameraConfig, pitchT: real, radiusT: real)
  {
    (cfg.minPitch <= cfg.maxPitch ==> cfg.minPitch <= pitchT <= cfg.maxPitch)
    && (cfg.minRadius <= cfg.maxRadius ==> cfg.minRadius <= radiusT <= cfg.maxRadius)
  }

  /** `Math.exp(-damp * dt)`: the share of the gap to the target left after `dt`. */
  function Retained(damp: real, dt: real, exp: real -> real): real
  {
    exp(-damp * dt)
  }

  /** `target + (current - target) * a`: one smoothing step. */
  function Damp(current: real, target: real, a: real): real
  {
    target + (current - target) * a
  }

  /** With a retained share in (0, 1] the new value lies between the old value and the target
      (reaching neither unless it was already there), and a value at its target stays. */
  lemma DampBetween(current: real, target: real, a: real)
    requires 0.0 < a <= 1.0
    ensures Min(current, target) <= Damp(current, target, a) <= Max(current, target)
    ensures current == target ==> Damp(current, target, a) == target
    ensures current != target ==> Damp(current, target, a) != target
    ensures Abs(Damp(current, target, a) - target) <= Abs(current - target)
  {
    GapShrinks(current - target, a);
  }

  lemma GapShrinks(g: real, a: real)
    requires 0.0 < a <= 1.0
    ensures Abs(g * a) <= Abs(g) && (g != 0.0 ==> g * a != 0.0)
    ensures 0.0 <= g ==> 0.0 <= g * a <= g
    ensures g <= 0.0 ==> g <= g * a <= 0.0
  {
    if g < 0.0 {
      assert (-g) * a <= -g;
    }
  }

  /** Non-negative damping over a non-negative time step retains a share in (0, 1]. */
  lemma RetainedShare(damp: real, dt: real, exp: real -> real)
    requires IsExp(exp) && 0.0 <= damp && 0.0 <= dt
    ensures 0.0 < Retained(damp, dt, exp) <= 1.0
  {
    assert -damp * dt <= 0.0 by {
      assert 0.0 <= damp * dt;
    }
  }

  /** The pan offset after one pan-mode input: x and y move with the stick (y inverted), then
      the horizontal part is pulled back onto the `maxPan` circle if it left it, and y is
      clamped. */
  function PanStep(pan: Vec3, mx: real, my: real, dt: real, cfg: CameraConfig,
                   hypot: Planar -> real): Vec3
    requires 0.0 <= cfg.maxPan
  {
    var moved := Planar(pan.x + mx * cfg.panSpeed * dt, pan.z);
    var y := pan.y + -my * cfg.panVertSpeed * dt;
    var xz := if hypot(moved) > cfg.maxPan then PullBack(moved, cfg.maxPan, hypot) else moved;
    Vec3(xz.x, Clamp(y, cfg.minPanY, cfg.maxPanY), xz.z)
  }

  /** `s = maxPan / horiz; x *= s; z *= s`. */
  function PullBack(p: Planar, maxPan: real, hypot: Planar -> real): Planar
    requires 0.0 <= maxPan < hypot(p)
  {
    ScalePlanar(p, maxPan / hypot(p))
  }

  /** Pulling back lands exactly on the circle of radius `maxPan`, by a factor in [0, 1). */
  lemma PullBackOnCircle(p: Planar, maxPan: real, hypot: Planar -> real)
    requires IsHypot(hypot) && 0.0 <= maxPan < hypot(p)
    ensures hypot(PullBack(p, maxPan, hypot)) == maxPan
    ensures exists k :: 0.0 <= k < 1.0 && PullBack(p, maxPan, hypot) == ScalePlanar(p, k)
  {
    var s := maxPan / hypot(p);
    DivFraction(maxPan, hypot(p));
    DivTimes(maxPan, hypot(p));
    assert hypot(ScalePlanar(p, s)) == s * hypot(p);
  }

  /** After a pan-mode input the horizontal offset is within `maxPan` (on the circle if the
      move left it, untouched otherwise) and, for a non-empty range, the height is within
      [minPanY, maxPanY]. */
  lemma PanStepBounded(pan: Vec3, mx: real, my: real, dt: real, cfg: CameraConfig,
                       hypot: Planar -> real)
    requires IsHypot(hypot) && 0.0 <= cfg.maxPan
    ensures var r := PanStep(pan, mx, my, dt, cfg, hypot);
            var moved := Planar(pan.x + mx * cfg.panSpeed * dt, pan.z);
            && hypot(Planar(r.x, r.z)) <= cfg.maxPan
            && (hypot(moved) <= cfg.maxPan ==> Planar(r.x, r.z) == moved)
            && (cfg.maxPan < hypot(moved) ==> hypot(Planar(r.x, r.z)) == cfg.maxPan)
            && (cfg.minPanY <= cfg.maxPanY ==> cfg.minPanY <= r.y <= cfg.maxPanY)
  {
    var moved := Planar(pan.x + mx * cfg.panSpeed * dt, pan.z);
    var r := PanStep(pan, mx, my, dt, cfg, hypot);
    if cfg.maxPan < hypot(moved) {
      PullBackOnCircle(moved, cfg.maxPan, hypot);
      assert Planar(r.x, r.z) == PullBack(moved, cfg.maxPan, hypot);
    } else {
      assert Planar(r.x, r.z) == moved;
    }
  }

  class CameraController {
    var yaw: real
    var pitch: real
    var radius: real
    var yawT: real
    var pitchT: real
    var radiusT: real
    var cfg: CameraConfig
    /** panOffsetLocal: the look-at offset in the rig's local space. */
    var pan: Vec3

    /** Starts at yaw pi, pitch pi / 2.2, radius 3, with the targets clamped to the
        configuration (the current values are not). */
    constructor (pi: real, patch: PartialCameraConfig)
      ensures cfg == Override(Defaults(pi), patch)
      ensures yaw == pi && pitch == pi / 2.2 && radius == 3.0 && yawT == pi
      ensures pitchT == Clamp(pi / 2.2, cfg.minPitch, cfg.maxPitch)
      ensures radiusT == Clamp(3.0, cfg.minRadius, cfg.maxRadius)
      ensures pan == Zero
      ensures TargetsInRange(cfg, pitchT, radiusT)
    {
      yaw := pi;
      pitch := pi / 2.2;
      radius := 3.0;
      yawT := yaw;
      pitchT := pitch;
      radiusT := radius;
      cfg := Override(Defaults(pi), patch);
      pan := Zero;
      new;
      ClampTargets();
    }

    /** `configure`: merge the patch, then re-clamp the targets. */
    method Configure(patch: PartialCameraConfig)
      modifies this
      ensures cfg == Override(old(cfg), patch)
      ensures pitchT == Clamp(old(pitchT), cfg.minPitch, cfg.maxPitch)
      ensures radiusT == Clamp(old(radiusT), cfg.minRadius, cfg.maxRadius)
      ensures yaw == old(yaw) && pitch == old(pitch) && radius == old(radius)
      ensures yawT == old(yawT) && pan == old(pan)
      ensures TargetsInRange(cfg, pitchT, radiusT)
    {
      cfg := Override(cfg, patch);
      ClampTargets();
    }

    /** `setState`: current values and targets set as given, with no clamping. */
    method SetState(yaw: real, pitch: real, radius: real)
      modifies this
      ensures this.yaw == yaw && this.pitch == pitch && this.radius == radius
      ensures yawT == yaw && pitchT == pitch && radiusT == radius
      ensures cfg == old(cfg) && pan == old(pan)
    {
      this.yaw, this.pitch, this.radius := yaw, pitch, radius;
      yawT, pitchT, radiusT := yaw, pitch, radius;
    }

    /** `nudgeZoom`: move the radius target, then re-clamp both targets. */
    method NudgeZoom(dz: real)
      modifies this
      ensures radiusT == Clamp(old(radiusT) + dz, cfg.minRadius, cfg.maxRadius)
      ensures pitchT == Clamp(old(pitchT), cfg.minPitch, cfg.maxPitch)
      ensures cfg == old(cfg) && yaw == old(yaw) && pitch == old(pitch) && radius == old(radius)
      ensures yawT == old(yawT) && pan == old(pan)
      ensures TargetsInRange(cfg, pitchT, radiusT)
    {
      radiusT := radiusT + dz;
      ClampTargets();
    }

    /** `clampTargets`: pitch and radius targets into their configured ranges. */
    method ClampTargets()
      modifies this
      ensures pitchT == Clamp(old(pitchT), cfg.minPitch, cfg.maxPitch)
      ensures radiusT == Clamp(old(radiusT), cfg.minRadius, cfg.maxRadius)
      ensures cfg == old(cfg) && yaw == old(yaw) && pitch == old(pitch) && radius == old(radius)
      ensures yawT == old(yawT) && pan == old(pan)
      ensures TargetsInRange(cfg, pitchT, radiusT)
    {
      pitchT := Clamp(pitchT, cfg.minPitch, cfg.maxPitch);
      radiusT := Clamp(radiusT, cfg.minRadius, cfg.maxRadius);
    }

    /** `update(dt, [mx, my], panMode)`: nonzero input moves either the pan offset or the
        orbit targets, never both; then every current value decays toward its target. */
    method Update(dt: real, move: (real, real), panMode: bool, exp: real -> real,
                  hypot: Planar -> real)
      requires panMode ==> 0.0 <= cfg.maxPan
      modifies this
      ensures cfg == old(cfg)
      ensures move == (0.0, 0.0) ==>
                yawT == old(yawT) && pitchT == old(pitchT) && radiusT == old(radiusT) && pan == old(pan)
      ensures move != (0.0, 0.0) && panMode ==>
                yawT == old(yawT) && pitchT == old(pitchT) && radiusT == old(radiusT)
                && pan == PanStep(old(pan), move.0, move.1, dt, cfg, hypot)
      ensures move != (0.0, 0.0) && !panMode ==>
                pan == old(pan) && yawT == old(yawT) + move.0 * cfg.orbitSpeed * dt
                && pitchT == Clamp(old(pitchT) + -move.1 * cfg.pitchSpeed * dt, cfg.minPitch, cfg.maxPitch)
                && radiusT == Clamp(old(radiusT) + move.1 * cfg.zoomSpeed * dt, cfg.minRadius, cfg.maxRadius)
                && TargetsInRange(cfg, pitchT, radiusT)
      ensures yaw == Damp(old(yaw), yawT, Retained(cfg.yawDamp, dt, exp))
      ensures pitch == Damp(old(pitch), pitchT, Retained(cfg.pitchDamp, dt, exp))
      ensures radius == Damp(old(radius), radiusT, Retained(cfg.zoomDamp, dt, exp))
    {
      var (mx, my) := move;
      if mx != 0.0 || my != 0.0 {
        if panMode {
          MovePan(mx, my, dt, hypot);
        } else {
          MoveOrbit(mx, my, dt);
        }
      }
      Smooth(dt, exp);
    }

    /** The orbit branch of `update`: yaw is free, pitch (inverted stick) and radius are
        clamped. */
    method MoveOrbit(mx: real, my: real, dt: real)
      modifies this
      ensures cfg == old(cfg) && pan == old(pan)
      ensures yaw == old(yaw) && pitch == old(pitch) && radius == old(radius)
      ensures yawT == old(yawT) + mx * cfg.orbitSpeed * dt
      ensures pitchT == Clamp(old(pitchT) + -my * cfg.pitchSpeed * dt, cfg.minPitch, cfg.maxPitch)
      ensures radiusT == Clamp(old(radiusT) + my * cfg.zoomSpeed * dt, cfg.minRadius, cfg.maxRadius)
      ensures TargetsInRange(cfg, pitchT, radiusT)
    {
      yawT := yawT + mx * cfg.orbitSpeed * dt;
      pitchT := pitchT + -my * cfg.pitchSpeed * dt;
      radiusT := radiusT + my * cfg.zoomSpeed * dt;
      ClampTargets();
    }

    /** The smoothing tail of `update`: each current value decays toward its target. */
    method Smooth(dt: real, exp: real -> real)
      modifies this
      ensures cfg == old(cfg) && pan == old(pan)
      ensures yawT == old(yawT) && pitchT == old(pitchT) && radiusT == old(radiusT)
      ensures yaw == Damp(old(yaw), yawT, Retained(cfg.yawDamp, dt, exp))
      ensures pitch == Damp(old(pitch), pitchT, Retained(cfg.pitchDamp, dt, exp))
      ensures radius == Damp(old(radius), radiusT, Retained(cfg.zoomDamp, dt, exp))
    {
      var ay := Retained(cfg.yawDamp, dt, exp);
      var ap := Retained(cfg.pitchDamp, dt, exp);
      var az := Retained(cfg.zoomDamp, dt, exp);
      yaw := yawT + (yaw - yawT) * ay;
      pitch := pitchT + (pitch - pitchT) * ap;
      radius := radiusT + (radius - radiusT) * az;
    }

    /** The pan branch of `update`, on `panOffsetLocal` in place. */
    method MovePan(mx: real, my: real, dt: real, hypot: Planar -> real)
      requires 0.0 <= cfg.maxPan
      modifies this
      ensures cfg == old(cfg) && yaw == old(yaw) && pitch == old(pitch) && radius == old(radius)
      ensures pan == PanStep(old(pan), mx, my, dt, cfg, hypot)
      ensures yawT == old(yawT) && pitchT == old(pitchT) && radiusT == old(radiusT)
    {
      ghost var moved := Planar(pan.x + mx * cfg.panSpeed * dt, pan.z);
      ghost var y := Clamp(pan.y + -my * cfg.panVertSpeed * dt, cfg.minPanY, cfg.maxPanY);
      ghost var want := PanStep(pan, mx, my, dt, cfg, hypot);
      pan := pan.(x := pan.x + mx * cfg.panSpeed * dt);
      pan := pan.(y := pan.y + -my * cfg.panVertSpeed * dt);
      assert Planar(pan.x, pan.z) == moved;
      var horiz := hypot(Planar(pan.x, pan.z));
      if horiz > cfg.maxPan {
        var s := cfg.maxPan / horiz;
        pan := pan.(x := pan.x * s);
        pan := pan.(z := pan.z * s);
        assert Planar(pan.x, pan.z) == ScalePlanar(moved, s) == PullBack(moved, cfg.maxPan, hypot);
        assert want == Vec3(pan.x, y, pan.z);
      } else {
        assert want == Vec3(pan.x, y, pan.z);
      }
      pan := pan.(y := Clamp(pan.y, cfg.minPanY, cfg.maxPanY));
      assert pan == want;
    }
  }

  /** Smoothing never overshoots: with non-negative damping rates and time step, each current
      value moves toward its target and stays between where it was and the target. */
  lemma UpdateApproaches(current: real, target: real, damp: real, dt: real, exp: real -> real)
    requires IsExp(exp) && 0.0 <= damp && 0.0 <= dt
    ensures var next := Damp(current, target, Retained(damp, dt, exp));
            Min(current, target) <= next <= Max(current, target)
            && Abs(next - target) <= Abs(current - target)
  {
    RetainedShare(damp, dt, exp);
    DampBetween(current, target, Retained(damp, dt, exp));
  }
}
