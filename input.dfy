/** client/src/xr/input.ts: turning XR gamepads and the desktop keyboard into one InputState per
    frame. The head-yaw forward and right vectors and the camera's world quaternion come from
    Three.js and arrive here as parameters. */
module Input {
  import opened Vectors
  import Text

  /** Stick values whose magnitude is at most this are read as 0. */
  const Deadzone: real := 0.15

  /** `XRInputSource.handedness`; Unknown stands for `undefined` or any other string. */
  datatype Handedness = Left | Right | NoHand | Unknown

  /** A Gamepad: its axes and, per button, whether it is pressed. */
  datatype Gamepad = Gamepad(axes: seq<real>, buttons: seq<bool>)

  datatype InputSource = InputSource(handedness: Handedness, gamepad: Option<Gamepad>)

  /** The InputState a sample returns. */
  datatype InputState = InputState(thrust: Vec3, fast: bool, turn: real, quat: Quat,
                                   cameraMove: (real, real))

  /** `axes[i] ?? 0`: reading past the end gives `undefined`. */
  function AxisAt(axes: seq<real>, i: nat): real
  {
    if i < |axes| then axes[i] else 0.0
  }

  /** |x| + |y|, the magnitude the axis heuristic compares. */
  function Magnitude(pair: (real, real)): real
  {
    Abs(pair.0) + Abs(pair.1)
  }

  /** `pickStickAxes`: axes [0, 1], unless there are at least four axes and [2, 3] move at least
      as much. */
  function PickStickAxes(axes: seq<real>): (r: (real, real))
    ensures |axes| < 4 ==> r == (AxisAt(axes, 0), AxisAt(axes, 1))
    ensures |axes| >= 4 ==> r == (axes[0], axes[1]) || r == (axes[2], axes[3])
    ensures |axes| >= 4 ==> Magnitude(r) == Max(Magnitude((axes[2], axes[3])), Magnitude((axes[0], axes[1])))
    ensures |axes| >= 4 && Magnitude((axes[0], axes[1])) <= Magnitude((axes[2], axes[3]))
            ==> r == (axes[2], axes[3])
  {
    var ax2 := if |axes| >= 4 then (AxisAt(axes, 2), AxisAt(axes, 3)) else (0.0, 0.0);
    var ax0 := (AxisAt(axes, 0), AxisAt(axes, 1));
    if |axes| >= 4 then
      var m2 := Abs(ax2.0) + Abs(ax2.1);
      var m0 := Abs(ax0.0) + Abs(ax0.1);
      if m2 >= m0 then ax2 else ax0
    else ax0
  }

  /** `clampUnit`: Math.max(-1, Math.min(1, n)). */
  function ClampUnit(n: real): (r: real)
    ensures -1.0 <= r <= 1.0
    ensures -1.0 <= n <= 1.0 ==> r == n
    ensures n < -1.0 ==> r == -1.0
    ensures 1.0 < n ==> r == 1.0
  {
    Max(-1.0, Min(1.0, n))
  }

  /** `Math.abs(v) > deadzone ? v : 0`. */
  function DeadzoneCut(v: real): (r: real)
    ensures Abs(v) <= Deadzone ==> r == 0.0
    ensures Deadzone < Abs(v) ==> r == v
  {
    if Abs(v) > Deadzone then v else 0.0
  }

  /** Gamepad buttons that mean "fast": trigger (0), squeeze (1) and A/B (4, 5). */
  predicate FastButton(i: int)
  {
    i == 0 || i == 1 || i == 4 || i == 5
  }

  /** `gp.buttons.some((b, i) => (i === 0 || i === 1 || i === 4 || i === 5) && !!b.pressed)`. */
  function AnyFastButton(buttons: seq<bool>): (r: bool)
    ensures r <==> exists i :: 0 <= i < |buttons| && FastButton(i) && buttons[i]
  {
    var r := (0 < |buttons| && buttons[0]) || (1 < |buttons| && buttons[1])
             || (4 < |buttons| && buttons[4]) || (5 < |buttons| && buttons[5]);
    assert r ==> exists i :: 0 <= i < |buttons| && FastButton(i) && buttons[i] by {
      if 0 < |buttons| && buttons[0] { assert FastButton(0); }
      else if 1 < |buttons| && buttons[1] { assert FastButton(1); }
      else if 4 < |buttons| && buttons[4] { assert FastButton(4); }
      else if 5 < |buttons| && buttons[5] { assert FastButton(5); }
    }
    r
  }

  /** The locals `sample` accumulates: left stick, fast flag and camera stick. */
  datatype Sticks = Sticks(lx: real, ly: real, fast: bool, camX: real, camY: real)

  const Idle: Sticks := Sticks(0.0, 0.0, false, 0.0, 0.0)

  /** One pass of the input-source loop. A left or handless stick drives movement (Y
      inverted), a right stick drives the camera, any other hand neither; every gamepad may
      set `fast`, and none clears it. A source without a gamepad is skipped. */
  function ReadSource(st: Sticks, src: InputSource): Sticks
  {
    match src.gamepad
    case None => st
    case Some(gp) =>
      var pair := PickStickAxes(gp.axes);
      var axX := ClampUnit(pair.0);
      var axY := ClampUnit(pair.1);
      var moved :=
        if src.handedness == Left || src.handedness == NoHand then
          st.(lx := DeadzoneCut(axX), ly := -DeadzoneCut(axY))
        else if src.handedness == Right then
          st.(camX := DeadzoneCut(axX), camY := DeadzoneCut(axY))
        else st;
      moved.(fast := moved.fast || AnyFastButton(gp.buttons))
  }

  /** The loop over `session.inputSources`, in order. */
  function ReadSources(sources: seq<InputSource>): Sticks
  {
    if |sources| == 0 then Idle
    else ReadSource(ReadSources(sources[..|sources| - 1]), sources[|sources| - 1])
  }

  /** A stick reading after the deadzone: in [-1, 1], and either 0 or beyond the deadzone. */
  predicate StickValue(v: real)
  {
    -1.0 <= v <= 1.0 && (v == 0.0 || Deadzone < Abs(v))
  }

  predicate SticksInRange(st: Sticks)
  {
    StickValue(st.lx) && StickValue(st.ly) && StickValue(st.camX) && StickValue(st.camY)
  }

  /** Whatever the gamepads report, every stick value ends up in [-1, 1] and outside the
      deadzone unless it is 0. */
  lemma {:induction false} SourcesInRange(sources: seq<InputSource>)
    ensures SticksInRange(ReadSources(sources))
  {
    if |sources| > 0 {
      SourcesInRange(sources[..|sources| - 1]);
      SourceInRange(ReadSources(sources[..|sources| - 1]), sources[|sources| - 1]);
    }
  }

  /** One pass of the source loop keeps every stick value in range. */
  lemma SourceInRange(st: Sticks, src: InputSource)
    requires SticksInRange(st)
    ensures SticksInRange(ReadSource(st, src))
  {
    if src.gamepad.Some? {
      var pair := PickStickAxes(src.gamepad.value.axes);
      var x := DeadzoneCut(ClampUnit(pair.0));
      var y := DeadzoneCut(ClampUnit(pair.1));
      assert StickValue(x) && StickValue(y) && StickValue(-y);
    }
  }

  predicate HasFastButton(src: InputSource)
  {
    src.gamepad.Some? && AnyFastButton(src.gamepad.value.buttons)
  }

  /** `fast` from the gamepads holds exactly when some source has a fast button pressed. */
  lemma {:induction false} SourcesFast(sources: seq<InputSource>)
    ensures ReadSources(sources).fast <==> exists i :: 0 <= i < |sources| && HasFastButton(sources[i])
  {
    if |sources| > 0 {
      var n := |sources| - 1;
      SourcesFast(sources[..n]);
      if exists i :: 0 <= i < n && HasFastButton(sources[..n][i]) {
        var i :| 0 <= i < n && HasFastButton(sources[..n][i]);
        assert sources[i] == sources[..n][i];
      }
      if exists i :: 0 <= i < |sources| && HasFastButton(sources[i]) {
        var i :| 0 <= i < |sources| && HasFastButton(sources[i]);
        if i < n {
          assert sources[..n][i] == sources[i];
        }
      }
    }
  }

  /** A source whose stick moves the body. */
  predicate Moves(src: InputSource)
  {
    src.gamepad.Some? && (src.handedness == Left || src.handedness == NoHand)
  }

  /** A source whose stick moves the camera. */
  predicate Aims(src: InputSource)
  {
    src.gamepad.Some? && src.handedness == Right
  }

  /** Right-hand sticks feed only the camera: without a moving source, movement stays 0. */
  lemma {:induction false} OnlyLeftMoves(sources: seq<InputSource>)
    requires forall i :: 0 <= i < |sources| ==> !Moves(sources[i])
    ensures ReadSources(sources).lx == 0.0 && ReadSources(sources).ly == 0.0
  {
    if |sources| > 0 {
      var n := |sources| - 1;
      assert forall i :: 0 <= i < n ==> sources[..n][i] == sources[i];
      OnlyLeftMoves(sources[..n]);
    }
  }

  /** Left and handless sticks feed only movement: without a right-hand source the camera
      input stays 0. */
  lemma {:induction false} OnlyRightAims(sources: seq<InputSource>)
    requires forall i :: 0 <= i < |sources| ==> !Aims(sources[i])
    ensures ReadSources(sources).camX == 0.0 && ReadSources(sources).camY == 0.0
  {
    if |sources| > 0 {
      var n := |sources| - 1;
      assert forall i :: 0 <= i < n ==> sources[..n][i] == sources[i];
      OnlyRightAims(sources[..n]);
    }
  }

  /** The last moving source decides movement: its stick, clamped, cut at the deadzone, Y
      inverted; sources after it that do not move leave it alone. */
  lemma {:induction false} LastMoverWins(before: seq<InputSource>, src: InputSource,
                                         after: seq<InputSource>)
    requires Moves(src)
    requires forall i :: 0 <= i < |after| ==> !Moves(after[i])
    ensures var pair := PickStickAxes(src.gamepad.value.axes);
            var st := ReadSources(before + [src] + after);
            st.lx == DeadzoneCut(ClampUnit(pair.0)) && st.ly == -DeadzoneCut(ClampUnit(pair.1))
  {
    var all := before + [src] + after;
    if |after| == 0 {
      assert all[..|all| - 1] == before;
    } else {
      var n := |after| - 1;
      assert forall i :: 0 <= i < n ==> after[..n][i] == after[i];
      LastMoverWins(before, src, after[..n]);
      assert all[..|all| - 1] == before + [src] + after[..n];
      assert all[|all| - 1] == after[n];
    }
  }

  /** The desktop override: once any key is held, keys replace everything the gamepads gave. */
  function KeyboardOverride(st: Sticks, keys: set<string>): (r: Sticks)
    ensures |keys| == 0 ==> r == st
    ensures |keys| > 0 ==> r.fast == ("shift" in keys)
    ensures |keys| > 0 ==> r.lx == (if "d" in keys then 1.0 else 0.0) - (if "a" in keys then 1.0 else 0.0)
    ensures |keys| > 0 ==> r.ly == (if "w" in keys then 1.0 else 0.0) - (if "s" in keys then 1.0 else 0.0)
    ensures |keys| > 0 ==> r.camX == (if "arrowright" in keys then 1.0 else 0.0) - (if "arrowleft" in keys then 1.0 else 0.0)
    ensures |keys| > 0 ==> r.camY == (if "arrowdown" in keys then 1.0 else 0.0) - (if "arrowup" in keys then 1.0 else 0.0)
  {
    if |keys| > 0 then
      Sticks((if "d" in keys then 1.0 else 0.0) + (if "a" in keys then -1.0 else 0.0),
             (if "w" in keys then 1.0 else 0.0) + (if "s" in keys then -1.0 else 0.0),
             "shift" in keys,
             (if "arrowright" in keys then 1.0 else 0.0) + (if "arrowleft" in keys then -1.0 else 0.0),
             (if "arrowup" in keys then -1.0 else 0.0) + (if "arrowdown" in keys then 1.0 else 0.0))
    else st
  }

  /** Held keys make the gamepads irrelevant, and give unit steps. */
  lemma KeysOverrideGamepads(st1: Sticks, st2: Sticks, keys: set<string>)
    requires |keys| > 0
    ensures KeyboardOverride(st1, keys) == KeyboardOverride(st2, keys)
    ensures var r := KeyboardOverride(st1, keys);
            r.lx in {-1.0, 0.0, 1.0} && r.ly in {-1.0, 0.0, 1.0} &&
            r.camX in {-1.0, 0.0, 1.0} && r.camY in {-1.0, 0.0, 1.0}
  {
  }

  /** The head-yaw local thrust for the yaw-only right and forward vectors, with X and Z
      inverted. */
  function Thrust(right: Vec3, fwd: Vec3, lx: real, ly: real): Vec3
  {
    Vec3(-(right.x * lx + fwd.x * ly), right.y * lx + fwd.y * ly, -(right.z * lx + fwd.z * ly))
  }

  /** The thrust is linear in the stick: sticks at rest give none, and the strafe and forward
      parts add up. */
  lemma ThrustLinear(right: Vec3, fwd: Vec3, lx: real, ly: real, k: real)
    ensures Thrust(right, fwd, 0.0, 0.0) == Zero
    ensures Thrust(right, fwd, lx, ly) == Add(Thrust(right, fwd, lx, 0.0), Thrust(right, fwd, 0.0, ly))
    ensures Thrust(right, fwd, k * lx, k * ly) == Scale(Thrust(right, fwd, lx, ly), k)
  {
    ScaleComponent(right.x, fwd.x, lx, ly, k);
    ScaleComponent(right.y, fwd.y, lx, ly, k);
    ScaleComponent(right.z, fwd.z, lx, ly, k);
  }

  lemma ScaleComponent(r: real, f: real, lx: real, ly: real, k: real)
    ensures r * (k * lx) + f * (k * ly) == (r * lx + f * ly) * k
  {
  }

  /** The InputState one `sample` call returns, from the session's sources (None without a
      session), the held keys, and the head pose. */
  function Sampled(session: Option<seq<InputSource>>, keys: set<string>, right: Vec3, fwd: Vec3,
                   quat: Quat): InputState
  {
    var fromPads := if session.Some? then ReadSources(session.value) else Idle;
    var st := KeyboardOverride(fromPads, keys);
    InputState(Thrust(right, fwd, st.lx, st.ly), st.fast, 0.0, quat, (st.camX, st.camY))
  }

  /** With a key held, `fast` is exactly whether Shift is among the held keys. */
  lemma SampledFast(session: Option<seq<InputSource>>, keys: set<string>, right: Vec3, fwd: Vec3,
                    quat: Quat)
    ensures |keys| > 0 ==> Sampled(session, keys, right, fwd, quat).fast == ("shift" in keys)
  {
  }

  /** With no key held and no gamepad source, nothing moves, nothing is fast and the camera
      stays put. */
  lemma NoInputNoMotion(sources: seq<InputSource>, right: Vec3, fwd: Vec3, quat: Quat)
    requires forall i :: 0 <= i < |sources| ==> sources[i].gamepad.None?
    ensures Sampled(Some(sources), {}, right, fwd, quat)
            == InputState(Zero, false, 0.0, quat, (0.0, 0.0))
  {
    OnlyLeftMoves(sources);
    OnlyRightAims(sources);
    SourcesFast(sources);
    assert ReadSources(sources) == Idle;
    ThrustLinear(right, fwd, 0.0, 0.0, 0.0);
  }

  /** The loop over `session.inputSources`, reassigning the stick locals source by source. */
  method ScanSources(sources: seq<InputSource>)
    returns (lx: real, ly: real, fast: bool, cameraMoveX: real, cameraMoveY: real)
    ensures Sticks(lx, ly, fast, cameraMoveX, cameraMoveY) == ReadSources(sources)
  {
    lx, ly := 0.0, 0.0;
    fast := false;
    cameraMoveX, cameraMoveY := 0.0, 0.0;
    var i := 0;
    while i < |sources|
      invariant 0 <= i <= |sources|
      invariant Sticks(lx, ly, fast, cameraMoveX, cameraMoveY) == ReadSources(sources[..i])
    {
      assert sources[..i + 1][..i] == sources[..i];
      var src := sources[i];
      i := i + 1;
      if src.gamepad.None? {
        continue;
      }
      var gp := src.gamepad.value;
      var pair := PickStickAxes(gp.axes);
      var axX := ClampUnit(pair.0);
      var axY := ClampUnit(pair.1);
      if src.handedness == Left || src.handedness == NoHand {
        lx := if Abs(axX) > Deadzone then axX else 0.0;
        ly := if Abs(axY) > Deadzone then -axY else 0.0;
      } else if src.handedness == Right {
        cameraMoveX := if Abs(axX) > Deadzone then axX else 0.0;
        cameraMoveY := if Abs(axY) > Deadzone then axY else 0.0;
      }
      if |gp.buttons| > 0 {
        var pressed := AnyFastButton(gp.buttons);
        fast := fast || pressed;
      }
    }
    assert sources[..|sources|] == sources;
  }

  /** The desktop fallback of `sample`: when any key is held, the keys overwrite the locals. */
  method ApplyKeys(keys: set<string>, lx0: real, ly0: real, fast0: bool, camX0: real, camY0: real)
    returns (lx: real, ly: real, fast: bool, cameraMoveX: real, cameraMoveY: real)
    ensures Sticks(lx, ly, fast, cameraMoveX, cameraMoveY)
            == KeyboardOverride(Sticks(lx0, ly0, fast0, camX0, camY0), keys)
  {
    lx, ly, fast, cameraMoveX, cameraMoveY := lx0, ly0, fast0, camX0, camY0;
    if |keys| > 0 {
      lx := (if "d" in keys then 1.0 else 0.0) + (if "a" in keys then -1.0 else 0.0);
      ly := (if "w" in keys then 1.0 else 0.0) + (if "s" in keys then -1.0 else 0.0);
      fast := "shift" in keys;
      cameraMoveX := (if "arrowright" in keys then 1.0 else 0.0) + (if "arrowleft" in keys then -1.0 else 0.0);
      cameraMoveY := (if "arrowup" in keys then -1.0 else 0.0) + (if "arrowdown" in keys then 1.0 else 0.0);
    }
  }

  /** XRInput: the set of held keys, lower-cased, kept by the window key listeners. */
  class XRInput {
    var keys: set<string>

    constructor ()
      ensures keys == {}
    {
      keys := {};
    }

    /** The `keydown` listener. */
    method KeyDown(key: string)
      modifies this
      ensures keys == old(keys) + {Text.Lower(key)}
    {
      keys := keys + {Text.Lower(key)};
    }

    /** The `keyup` listener. */
    method KeyUp(key: string)
      modifies this
      ensures keys == old(keys) - {Text.Lower(key)}
    {
      keys := keys - {Text.Lower(key)};
    }

    /** `sample`: the source loop, the keyboard override, then the thrust mapping. `turn` is
        always 0. */
    method Sample(session: Option<seq<InputSource>>, right: Vec3, fwd: Vec3, quat: Quat)
      returns (state: InputState)
      ensures state == Sampled(session, keys, right, fwd, quat)
      ensures state.turn == 0.0
      ensures |keys| > 0 ==> state.fast == ("shift" in keys)
    {
      var pads := Idle;
      if session.Some? {
        var lx, ly, fast, cameraMoveX, cameraMoveY := ScanSources(session.value);
        pads := Sticks(lx, ly, fast, cameraMoveX, cameraMoveY);
      }
      var lx, ly, fast, cameraMoveX, cameraMoveY :=
        ApplyKeys(keys, pads.lx, pads.ly, pads.fast, pads.camX, pads.camY);
      ghost var st := KeyboardOverride(pads, keys);
      assert lx == st.lx && ly == st.ly && fast == st.fast;
      var turn := 0.0;
      var thrust := Vec3(-(right.x * lx + fwd.x * ly), right.y * lx + fwd.y * ly,
                         -(right.z * lx + fwd.z * ly));
      assert thrust == Thrust(right, fwd, st.lx, st.ly);
      state := InputState(thrust, fast, turn, quat, (cameraMoveX, cameraMoveY));
      SampledFast(session, keys, right, fwd, quat);
    }
  }
}
