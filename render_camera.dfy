/** The live camera of `src/render/camera.rs`: key presses and mouse motion
    accumulate between frames, and `update` turns them into a turn and a
    move of the eye, keeping the pitch within a right angle either way. */
module RenderCamera {
  import opened Vectors
  import opened Input

  /** Starting yaw, -90 degrees: the camera looks down the negative z axis. */
  const YAW: real := -FRAC_PI_2
  /** Starting pitch: level. */
  const PITCH: real := 0.0
  const SPEED: real := 8.0
  const SENSITIVITY: real := 1.0
  /** Vertical field of view, 45 degrees. */
  const ZOOM: real := FRAC_PI_2 / 2.0
  const ZNEAR: real := 0.1
  const ZFAR: real := 100000.0
  const WORLD_UP: Vec3 := Vec3(0.0, 1.0, 0.0)
  /** Where the eye starts: ten units above the origin. */
  const START_EYE: Vec3 := Vec3(0.0, 10.0, 0.0)

  /** The camera's fields, GPU handles and uniform aside. `movement` counts
      presses of W, S, A and D since the last frame in its x, y, z and w
      components; `rotation` is the last mouse motion. */
  datatype CameraState = CameraState(
    eye: Vec3, yaw: real, pitch: real,
    aspect: real, fovy: real, znear: real, zfar: real,
    speed: real, sensitivity: real,
    movement: Vec4, rotation: Vec2)

  /** `Camera::new` for a surface of `width` by `height` pixels. */
  function NewCamera(width: nat, height: nat): (s: CameraState)
    requires height > 0
    ensures s.eye == Vec3(0.0, 10.0, 0.0) && s.yaw == -FRAC_PI_2 && s.pitch == 0.0
    ensures s.aspect * (height as real) == width as real
    ensures s.fovy == FRAC_PI_2 / 2.0 && s.znear == 0.1 && s.zfar == 100000.0
    ensures s.speed == 8.0 && s.sensitivity == 1.0
    ensures s.movement == Zero4 && s.rotation == Zero2
  {
    CameraState(START_EYE, YAW, PITCH,
                (width as real) / (height as real), ZOOM, ZNEAR, ZFAR,
                SPEED, SENSITIVITY, Zero4, Zero2)
  }

  /** The unnormalised direction of a yaw and pitch, from their sines and
      cosines. */
  function Facing(yawSin: real, yawCos: real, pitchSin: real, pitchCos: real): Vec3 {
    Vec3(yawCos * pitchCos, pitchSin, yawSin * pitchCos)
  }

  /** `front_right_up`: where the camera looks, its strafing axis (square
      to the world's up axis) and its own up axis. */
  function FrontRightUp(num: Numerics, yaw: real, pitch: real): Basis {
    var front := num.normalize(Facing(num.sin(yaw), num.cos(yaw), num.sin(pitch), num.cos(pitch)));
    var right := num.normalize(Cross(front, WORLD_UP));
    Basis(front, right, num.normalize(Cross(right, front)))
  }

  /** `resize`: only the aspect ratio follows the surface. */
  function ResizeStep(s: CameraState, width: nat, height: nat): (r: CameraState)
    requires height > 0
    ensures r.aspect * (height as real) == width as real
    ensures r == s.(aspect := r.aspect)
  {
    s.(aspect := (width as real) / (height as real))
  }

  /** `process_key`: W, S, A and D each add one press to their component of
      `movement` and are handled; every other key is ignored. */
  function KeyStep(s: CameraState, key: KeyCode): (CameraState, bool) {
    var m := s.movement;
    match key
    case KeyW => (s.(movement := m.(x := m.x + 1.0)), true)
    case KeyS => (s.(movement := m.(y := m.y + 1.0)), true)
    case KeyA => (s.(movement := m.(z := m.z + 1.0)), true)
    case KeyD => (s.(movement := m.(w := m.w + 1.0)), true)
    case _ => (s, false)
  }

  /** `process_mouse`: the motion replaces the pending rotation. */
  function MouseStep(s: CameraState, delta: Vec2): CameraState {
    s.(rotation := delta)
  }

  /** The pitch after a frame: turned against the vertical mouse motion
      and clamped to `[-FRAC_PI_2, FRAC_PI_2]`. */
  function Pitched(pitch: real, rotationY: real, sensitivity: real, dt: real): (r: real)
    ensures -FRAC_PI_2 <= r <= FRAC_PI_2
    ensures var target := pitch - Turn(rotationY, sensitivity, dt);
      (-FRAC_PI_2 <= target <= FRAC_PI_2 ==> r == target) &&
      (target < -FRAC_PI_2 ==> r == -FRAC_PI_2) &&
      (FRAC_PI_2 < target ==> r == FRAC_PI_2)
  {
    Clamp(pitch - Turn(rotationY, sensitivity, dt), -FRAC_PI_2, FRAC_PI_2)
  }

  /** The distance one key press moves the eye in a frame of `dt` seconds. */
  function Velocity(speed: real, dt: real): real {
    speed * dt
  }

  /** How far the eye moves in a frame: `velocity` along the front axis per
      W press less per S press, and along the right axis per D press less
      per A press. */
  function Displacement(b: Basis, velocity: real, m: Vec4): Vec3 {
    Add(Sub(Sub(Scale(Scale(b.front, velocity), m.x), Scale(Scale(b.front, velocity), m.y)),
            Scale(Scale(b.right, velocity), m.z)),
        Scale(Scale(b.right, velocity), m.w))
  }

  /** `update` over a frame of `dt` seconds: turn, then move in the basis
      of the new angles, then clear the pending input. */
  function UpdateStep(s: CameraState, dt: real, num: Numerics): CameraState {
    var yaw := s.yaw + Turn(s.rotation.x, s.sensitivity, dt);
    var pitch := Pitched(s.pitch, s.rotation.y, s.sensitivity, dt);
    var b := FrontRightUp(num, yaw, pitch);
    s.(eye := Add(s.eye, Displacement(b, Velocity(s.speed, dt), s.movement)),
       yaw := yaw, pitch := pitch,
       movement := Zero4, rotation := Zero2)
  }

  // ---------------------------------------------------------------------------
  // Properties

  /** The four bound keys are handled and each adds exactly one press to
      its own component; every other key is ignored and changes nothing. */
  lemma KeyStepSpec(s: CameraState, key: KeyCode)
    ensures KeyStep(s, key).1 <==> key in {KeyW, KeyS, KeyA, KeyD}
    ensures var r := KeyStep(s, key).0;
      r.movement.x == s.movement.x + (if key == KeyW then 1.0 else 0.0) &&
      r.movement.y == s.movement.y + (if key == KeyS then 1.0 else 0.0) &&
      r.movement.z == s.movement.z + (if key == KeyA then 1.0 else 0.0) &&
      r.movement.w == s.movement.w + (if key == KeyD then 1.0 else 0.0) &&
      r == s.(movement := r.movement)
  {
  }

  /** The state after each key of `keys` in turn. */
  function KeyRun(s: CameraState, keys: seq<KeyCode>): CameraState
    decreases |keys|
  {
    if keys == [] then s else KeyRun(KeyStep(s, keys[0]).0, keys[1..])
  }

  /** Presses accumulate: after any run of key events each movement
      component has grown by the number of presses of its key, and nothing
      else has changed. Unlike the legacy controller, a key pressed twice
      before a frame moves the camera twice as far. */
  lemma {:induction false} KeyRunCounts(s: CameraState, keys: seq<KeyCode>)
    ensures var r := KeyRun(s, keys);
      r.movement.x == s.movement.x + (multiset(keys)[KeyW] as real) &&
      r.movement.y == s.movement.y + (multiset(keys)[KeyS] as real) &&
      r.movement.z == s.movement.z + (multiset(keys)[KeyA] as real) &&
      r.movement.w == s.movement.w + (multiset(keys)[KeyD] as real) &&
      r == s.(movement := r.movement)
    decreases |keys|
  {
    if keys != [] {
      KeyStepSpec(s, keys[0]);
      KeyRunCounts(KeyStep(s, keys[0]).0, keys[1..]);
      assert keys == [keys[0]] + keys[1..];
      assert multiset(keys) == multiset{keys[0]} + multiset(keys[1..]);
    }
  }

  /** Of two mouse motions before a frame only the last counts. */
  lemma MouseLastWins(s: CameraState, d1: Vec2, d2: Vec2)
    ensures MouseStep(MouseStep(s, d1), d2) == MouseStep(s, d2)
    ensures MouseStep(s, d2).rotation == d2
  {
  }

  /** A frame turns the yaw without limit and keeps the pitch within a
      right angle either way; it clears the pending input and keeps the
      projection, the speed and the sensitivity. */
  lemma UpdateStepSpec(s: CameraState, dt: real, num: Numerics)
    ensures var r := UpdateStep(s, dt, num);
      r.yaw == s.yaw + Turn(s.rotation.x, s.sensitivity, dt) &&
      -FRAC_PI_2 <= r.pitch <= FRAC_PI_2 &&
      r.movement == Zero4 && r.rotation == Zero2 &&
      r.aspect == s.aspect && r.fovy == s.fovy && r.znear == s.znear && r.zfar == s.zfar &&
      r.speed == s.speed && r.sensitivity == s.sensitivity
  {
  }

  /** A frame, seen from its turned angles: the eye moves in the basis of
      those angles and the pending input is cleared. */
  lemma UpdateStepAt(s: CameraState, dt: real, num: Numerics, yaw: real, pitch: real)
    requires yaw == s.yaw + Turn(s.rotation.x, s.sensitivity, dt)
    requires pitch == Pitched(s.pitch, s.rotation.y, s.sensitivity, dt)
    ensures UpdateStep(s, dt, num) ==
      s.(eye := Add(s.eye, Displacement(FrontRightUp(num, yaw, pitch), Velocity(s.speed, dt), s.movement)),
         yaw := yaw, pitch := pitch, movement := Zero4, rotation := Zero2)
  {
  }

  /** A frame leaves the projection alone: the aspect ratio in particular. */
  lemma UpdateKeepsAspect(s: CameraState, dt: real, num: Numerics)
    ensures UpdateStep(s, dt, num).aspect == s.aspect
  {
  }

  /** The eye moves `velocity` times the net forward presses along the
      front axis plus `velocity` times the net rightward presses along the
      right axis. */
  lemma {:induction false} DisplacementFormula(b: Basis, velocity: real, m: Vec4)
    ensures Displacement(b, velocity, m) ==
      Add(Scale(Scale(b.front, velocity), m.x - m.y), Scale(Scale(b.right, velocity), m.w - m.z))
  {
    NetComponent(b.front.x * velocity, b.right.x * velocity, m);
    NetComponent(b.front.y * velocity, b.right.y * velocity, m);
    NetComponent(b.front.z * velocity, b.right.z * velocity, m);
  }

  lemma NetComponent(f: real, r: real, m: Vec4)
    ensures f * m.x - f * m.y - r * m.z + r * m.w == f * (m.x - m.y) + r * (m.w - m.z)
  {
  }

  /** Equal presses of opposite keys cancel: the eye does not move. */
  lemma {:induction false} OppositePressesCancel(b: Basis, velocity: real, m: Vec4)
    requires m.x == m.y && m.z == m.w
    ensures Displacement(b, velocity, m) == Zero3
  {
    var f := Scale(Scale(b.front, velocity), m.x);
    var r := Scale(Scale(b.right, velocity), m.z);
    assert Sub(f, f) == Zero3;
    assert Sub(Zero3, r) == Vec3(-r.x, -r.y, -r.z);
  }

  /** With no key pressed since the last frame the eye stays put. */
  lemma UpdateAtRest(s: CameraState, dt: real, num: Numerics)
    requires s.movement == Zero4
    ensures UpdateStep(s, dt, num).eye == s.eye
  {
    var yaw := s.yaw + Turn(s.rotation.x, s.sensitivity, dt);
    var pitch := Pitched(s.pitch, s.rotation.y, s.sensitivity, dt);
    OppositePressesCancel(FrontRightUp(num, yaw, pitch), Velocity(s.speed, dt), s.movement);
    ScaleByZero(s.eye);
  }

  /** With no mouse motion since the last frame the angles stay put. */
  lemma UpdateStill(s: CameraState, dt: real)
    requires s.rotation == Zero2 && -FRAC_PI_2 <= s.pitch <= FRAC_PI_2
    ensures s.yaw + Turn(s.rotation.x, s.sensitivity, dt) == s.yaw
    ensures Pitched(s.pitch, s.rotation.y, s.sensitivity, dt) == s.pitch
  {
    assert Turn(0.0, s.sensitivity, dt) == 0.0;
  }

  /** A frame with no input since the previous one changes nothing: the
      state a frame leaves is a fixed point of the next frame. */
  lemma UpdateIdempotent(s: CameraState, dt1: real, dt2: real, num: Numerics)
    ensures var r := UpdateStep(s, dt1, num);
      UpdateStep(r, dt2, num) == r
  {
    var r := UpdateStep(s, dt1, num);
    UpdateStepSpec(s, dt1, num);
    UpdateStill(r, dt2);
    UpdateAtRest(r, dt2, num);
  }

  // ---------------------------------------------------------------------------
  // The camera object

  class Camera {
    var eye: Vec3
    var yaw: real
    var pitch: real
    var aspect: real
    var fovy: real
    var znear: real
    var zfar: real
    var speed: real
    var sensitivity: real
    var movement: Vec4
    var rotation: Vec2

    function State(): CameraState
      reads this
    {
      CameraState(eye, yaw, pitch, aspect, fovy, znear, zfar, speed, sensitivity, movement, rotation)
    }

    /** `Camera::new`. */
    constructor (width: nat, height: nat)
      requires height > 0
      ensures State() == NewCamera(width, height)
    {
      eye := START_EYE;
      yaw := YAW;
      pitch := PITCH;
      aspect := (width as real) / (height as real);
      fovy := ZOOM;
      znear := ZNEAR;
      zfar := ZFAR;
      speed := SPEED;
      sensitivity := SENSITIVITY;
      movement := Zero4;
      rotation := Zero2;
    }

    /** `resize`. */
    method Resize(width: nat, height: nat)
      requires height > 0
      modifies this
      ensures State() == ResizeStep(old(State()), width, height)
    {
      aspect := (width as real) / (height as real);
    }

    /** `process_key`. */
    method ProcessKey(key: KeyCode) returns (handled: bool)
      modifies this
      ensures (State(), handled) == KeyStep(old(State()), key)
    {
      match key {
        case KeyW =>
          movement := movement.(x := movement.x + 1.0);
          handled := true;
        case KeyS =>
          movement := movement.(y := movement.y + 1.0);
          handled := true;
        case KeyA =>
          movement := movement.(z := movement.z + 1.0);
          handled := true;
        case KeyD =>
          movement := movement.(w := movement.w + 1.0);
          handled := true;
        case _ =>
          handled := false;
      }
    }

    /** `process_mouse`. */
    method ProcessMouse(delta: Vec2)
      modifies this
      ensures State() == MouseStep(old(State()), delta)
    {
      rotation := delta;
    }

    /** The turning half of `update`: the yaw turns by the horizontal
        rotation and the pitch against the vertical one, clamped. */
    method TurnBy(dt: real)
      modifies this
      ensures yaw == old(yaw) + Turn(rotation.x, sensitivity, dt)
      ensures pitch == Pitched(old(pitch), rotation.y, sensitivity, dt)
      ensures State() == old(State()).(yaw := yaw, pitch := pitch)
    {
      yaw := yaw + Turn(rotation.x, sensitivity, dt);
      pitch := pitch - Turn(rotation.y, sensitivity, dt);
      pitch := Clamp(pitch, -FRAC_PI_2, FRAC_PI_2);
    }

    /** `update`, the uniform and its upload aside. */
    method Update(dt: real, num: Numerics)
      modifies this
      ensures State() == UpdateStep(old(State()), dt, num)
    {
      ghost var s := State();
      TurnBy(dt);
      UpdateStepAt(s, dt, num, yaw, pitch);
      var b := FrontRightUp(num, yaw, pitch);
      eye := Add(eye, Displacement(b, Velocity(speed, dt), movement));
      movement := Zero4;
      rotation := Zero2;
    }
  }
}
