/** The first-person camera controller of `src/camera.rs`: key, mouse and
    scroll input accumulate in a `CameraController`, and `update_camera`
    turns them into a move and a turn of a `Camera`, keeping the pitch
    strictly inside a right angle. */
module LegacyCamera {
  import opened Vectors
  import opened Input

  /** `SAFE_FRAC_PI_2`: the largest pitch magnitude the controller allows. */
  const SAFE_FRAC_PI_2: real := FRAC_PI_2 - 0.0001

  // ---------------------------------------------------------------------------
  // Camera and projection

  /** Where the camera is and where it looks. */
  datatype Pose = Pose(position: Vec3, yaw: real, pitch: real)

  class Camera {
    var position: Vec3
    var yaw: real
    var pitch: real

    function Current(): Pose
      reads this
    {
      Pose(position, yaw, pitch)
    }

    constructor (position: Vec3, yaw: real, pitch: real)
      ensures Current() == Pose(position, yaw, pitch)
    {
      this.position := position;
      this.yaw := yaw;
      this.pitch := pitch;
    }
  }

  class Projection {
    var aspect: real
    var fovy: real
    var znear: real
    var zfar: real

    constructor (aspect: real, fovy: real, znear: real, zfar: real)
      ensures this.aspect == aspect && this.fovy == fovy && this.znear == znear && this.zfar == zfar
    {
      this.aspect := aspect;
      this.fovy := fovy;
      this.znear := znear;
      this.zfar := zfar;
    }

    /** `Projection::resize`: the aspect ratio follows the surface; the
        field of view and the clip planes stay. */
    method Resize(width: nat, height: nat)
      requires height > 0
      modifies this
      ensures aspect == (width as real) / (height as real)
      ensures aspect * (height as real) == width as real
      ensures fovy == old(fovy) && znear == old(znear) && zfar == old(zfar)
    {
      aspect := (width as real) / (height as real);
    }
  }

  // ---------------------------------------------------------------------------
  // Controller state and its transitions

  /** The six movement directions a key can drive. */
  datatype Axis = Forward | Backward | Left | Right | Up | Down

  /** The key bindings: WASD and the arrow keys move in the plane, Space
      and left Shift move up and down; every other key is unbound. */
  function MappedAxis(key: KeyCode): Option<Axis> {
    match key
    case KeyW => Some(Forward)
    case ArrowUp => Some(Forward)
    case KeyS => Some(Backward)
    case ArrowDown => Some(Backward)
    case KeyA => Some(Left)
    case ArrowLeft => Some(Left)
    case KeyD => Some(Right)
    case ArrowRight => Some(Right)
    case Space => Some(Up)
    case ShiftLeft => Some(Down)
    case _ => None
  }

  /** The amount a key event sets: 1 while pressed, 0 once released. */
  function KeyAmount(state: ElementState): (amount: real)
    ensures state == Pressed ==> amount == 1.0
    ensures state == Released ==> amount == 0.0
  {
    match state
    case Pressed => 1.0
    case Released => 0.0
  }

  /** The fields of a `CameraController`. */
  datatype Controller = Controller(
    amountLeft: real, amountRight: real,
    amountForward: real, amountBackward: real,
    amountUp: real, amountDown: real,
    rotateHorizontal: real, rotateVertical: real,
    scroll: real, speed: real, sensitivity: real)

  /** `CameraController::new`: no movement, rotation or scroll pending. */
  function NewController(speed: real, sensitivity: real): Controller {
    Controller(0.0, 0.0, 0.0, 0.0, 0.0, 0.0, 0.0, 0.0, 0.0, speed, sensitivity)
  }

  function AmountOf(c: Controller, a: Axis): real {
    match a
    case Forward => c.amountForward
    case Backward => c.amountBackward
    case Left => c.amountLeft
    case Right => c.amountRight
    case Up => c.amountUp
    case Down => c.amountDown
  }

  /** `c` with the amount of axis `a` set to `v`: that amount changes, and
      nothing else does. */
  function WithAmount(c: Controller, a: Axis, v: real): (r: Controller)
    ensures AmountOf(r, a) == v
    ensures forall b :: b != a ==> AmountOf(r, b) == AmountOf(c, b)
    ensures r.rotateHorizontal == c.rotateHorizontal && r.rotateVertical == c.rotateVertical
    ensures r.scroll == c.scroll && r.speed == c.speed && r.sensitivity == c.sensitivity
  {
    match a
    case Forward => c.(amountForward := v)
    case Backward => c.(amountBackward := v)
    case Left => c.(amountLeft := v)
    case Right => c.(amountRight := v)
    case Up => c.(amountUp := v)
    case Down => c.(amountDown := v)
  }

  /** A key event: a bound key sets its axis to the event's amount and is
      reported handled; an unbound key changes nothing and is not. */
  function KeyboardStep(c: Controller, key: KeyCode, state: ElementState): (Controller, bool) {
    match MappedAxis(key)
    case Some(a) => (WithAmount(c, a, KeyAmount(state)), true)
    case None => (c, false)
  }

  /** A mouse motion replaces the pending rotation. */
  function MouseStep(c: Controller, dx: real, dy: real): Controller {
    c.(rotateHorizontal := dx, rotateVertical := dy)
  }

  /** The scroll a wheel step leaves pending: a line counts as 100 pixels,
      and the direction is inverted. */
  function ScrollAmount(delta: ScrollDelta): real {
    match delta
    case LineDelta(_, ly) => -(ly * 100.0)
    case PixelDelta(_, py) => -py
  }

  /** What `update_camera` leaves in the controller: the one-shot scroll and
      rotation are consumed, the held amounts stay. */
  function Consumed(c: Controller): Controller {
    c.(scroll := 0.0, rotateHorizontal := 0.0, rotateVertical := 0.0)
  }

  /** A frame clears the scroll and the rotation and keeps every held
      amount, the speed and the sensitivity; a second frame with no input
      in between changes nothing more. */
  lemma ConsumedSpec(c: Controller)
    ensures Consumed(c).scroll == 0.0
    ensures Consumed(c).rotateHorizontal == 0.0 && Consumed(c).rotateVertical == 0.0
    ensures forall a :: AmountOf(Consumed(c), a) == AmountOf(c, a)
    ensures Consumed(c).speed == c.speed && Consumed(c).sensitivity == c.sensitivity
    ensures Consumed(Consumed(c)) == Consumed(c)
  {
  }

  /** Every held amount is 0 or 1. */
  predicate AmountsBinary(c: Controller) {
    forall a :: AmountOf(c, a) == 0.0 || AmountOf(c, a) == 1.0
  }

  /** The inputs a controller receives between and at frames. */
  datatype ControllerEvent =
    | KeyEvent(key: KeyCode, state: ElementState)
    | MouseMotion(dx: real, dy: real)
    | Wheel(delta: ScrollDelta)
    | Frame

  /** The controller's fields after each event in turn. */
  function Run(c: Controller, events: seq<ControllerEvent>): Controller
    decreases |events|
  {
    if events == [] then c else
      var c' := match events[0]
        case KeyEvent(key, state) => KeyboardStep(c, key, state).0
        case MouseMotion(dx, dy) => MouseStep(c, dx, dy)
        case Wheel(delta) => c.(scroll := ScrollAmount(delta))
        case Frame => Consumed(c);
      Run(c', events[1..])
  }

  // ---------------------------------------------------------------------------
  // Properties of the transitions

  /** A bound key is handled and sets exactly its axis, to 1 on a press and
      0 on a release; an unbound key is ignored and changes nothing. */
  lemma KeyboardStepSpec(c: Controller, key: KeyCode, state: ElementState)
    ensures KeyboardStep(c, key, state).1 <==> MappedAxis(key).Some?
    ensures MappedAxis(key).Some? ==>
      var c' := KeyboardStep(c, key, state).0;
      AmountOf(c', MappedAxis(key).value) == KeyAmount(state) &&
      (forall b :: b != MappedAxis(key).value ==> AmountOf(c', b) == AmountOf(c, b)) &&
      Consumed(c') == Consumed(WithAmount(c, MappedAxis(key).value, KeyAmount(state)))
    ensures MappedAxis(key).None? ==> KeyboardStep(c, key, state).0 == c
  {
  }

  /** The key bindings, aliases included. */
  lemma Bindings()
    ensures MappedAxis(KeyW) == MappedAxis(ArrowUp) == Some(Forward)
    ensures MappedAxis(KeyS) == MappedAxis(ArrowDown) == Some(Backward)
    ensures MappedAxis(KeyA) == MappedAxis(ArrowLeft) == Some(Left)
    ensures MappedAxis(KeyD) == MappedAxis(ArrowRight) == Some(Right)
    ensures MappedAxis(Space) == Some(Up) && MappedAxis(ShiftLeft) == Some(Down)
    ensures MappedAxis(Escape) == None
    ensures forall id :: MappedAxis(OtherKey(id)) == None
  {
  }

  /** Repeating a key event is the same as sending it once: a held key does
      not build up speed. */
  lemma KeyboardIdempotent(c: Controller, key: KeyCode, state: ElementState)
    ensures KeyboardStep(KeyboardStep(c, key, state).0, key, state) == KeyboardStep(c, key, state)
  {
  }

  /** Of two mouse motions before a frame, only the last one counts. */
  lemma MouseLastWins(c: Controller, dx1: real, dy1: real, dx2: real, dy2: real)
    ensures MouseStep(MouseStep(c, dx1, dy1), dx2, dy2) == MouseStep(c, dx2, dy2)
    ensures MouseStep(c, dx2, dy2).rotateHorizontal == dx2 && MouseStep(c, dx2, dy2).rotateVertical == dy2
  {
  }

  /** A wheel step of `k` lines leaves `-100 k`, one of `k` pixels `-k`;
      scrolling forward (positive) always gives a negative scroll. */
  lemma ScrollAmountSpec(delta: ScrollDelta)
    ensures delta.LineDelta? ==> ScrollAmount(delta) == -100.0 * delta.ly
    ensures delta.PixelDelta? ==> ScrollAmount(delta) == -delta.py
    ensures delta.LineDelta? && delta.ly > 0.0 ==> ScrollAmount(delta) < 0.0
    ensures delta.PixelDelta? && delta.py > 0.0 ==> ScrollAmount(delta) < 0.0
  {
  }

  /** A new controller has binary amounts, and every key event, mouse
      motion, wheel step and frame keeps them binary. */
  lemma {:induction false} AmountsStayBinary(speed: real, sensitivity: real, events: seq<ControllerEvent>)
    ensures AmountsBinary(Run(NewController(speed, sensitivity), events))
  {
    RunKeepsBinary(NewController(speed, sensitivity), events);
  }

  lemma {:induction false} RunKeepsBinary(c: Controller, events: seq<ControllerEvent>)
    requires AmountsBinary(c)
    ensures AmountsBinary(Run(c, events))
    decreases |events|
  {
    if events != [] {
      var c' := match events[0]
        case KeyEvent(key, state) => KeyboardStep(c, key, state).0
        case MouseMotion(dx, dy) => MouseStep(c, dx, dy)
        case Wheel(delta) => c.(scroll := ScrollAmount(delta))
        case Frame => Consumed(c);
      assert AmountsBinary(c') by {
        forall a
          ensures AmountOf(c', a) == 0.0 || AmountOf(c', a) == 1.0
        {
          assert AmountOf(c', a) == AmountOf(c, a) || AmountOf(c', a) == 0.0 || AmountOf(c', a) == 1.0;
        }
      }
      RunKeepsBinary(c', events[1..]);
    }
  }

  // ---------------------------------------------------------------------------
  // update_camera

  /** The unnormalised direction of a yaw and pitch, from their sines and
      cosines. */
  function Heading(pitchSin: real, pitchCos: real, yawSin: real, yawCos: real): Vec3 {
    Vec3(pitchCos * yawCos, pitchSin, pitchCos * yawSin)
  }

  /** The direction the camera looks in, from its yaw and pitch. */
  function FrontOf(num: Numerics, yaw: real, pitch: real): Vec3 {
    num.normalize(Heading(num.sin(pitch), num.cos(pitch), num.sin(yaw), num.cos(yaw)))
  }

  /** The unnormalised strafing direction exactly as `update_camera` writes
      it: `(-sin yaw, 0, -cos yaw)`. */
  function StrafeAsWritten(yawSin: real, yawCos: real): Vec3 {
    Vec3(-yawSin, 0.0, -yawCos)
  }

  /** The strafing direction as written is not square to the heading: its
      dot product with it is `-2 cos(pitch) sin(yaw) cos(yaw)`, and at a yaw
      whose sine equals its cosine (a quarter turn off an axis, `pi / 4`)
      with the pitch level it points straight back along the heading, so
      "strafe right" walks backwards. */
  lemma {:induction false} StrafeAsWrittenNotSquare(pitchSin: real, pitchCos: real, yawSin: real, yawCos: real)
    ensures Dot(Heading(pitchSin, pitchCos, yawSin, yawCos), StrafeAsWritten(yawSin, yawCos)) ==
      -2.0 * pitchCos * yawSin * yawCos
    ensures yawSin == yawCos && pitchSin == 0.0 && pitchCos == 1.0 ==>
      StrafeAsWritten(yawSin, yawCos) == Scale(Heading(pitchSin, pitchCos, yawSin, yawCos), -1.0)
  {
    StrafeDot(pitchCos, yawSin, yawCos);
  }

  lemma StrafeDot(pitchCos: real, yawSin: real, yawCos: real)
    ensures pitchCos * yawCos * -yawSin + pitchCos * yawSin * -yawCos == -2.0 * pitchCos * yawSin * yawCos
  {
  }

  /** The unnormalised horizontal strafing direction of a yaw, from its
      sine and cosine: `(-sin yaw, 0, cos yaw)`, the direction the comment
      in `update_camera` names (the heading crossed with the world's up
      axis, divided by `cos pitch`). */
  function Strafe(yawSin: real, yawCos: real): (r: Vec3)
    ensures r.y == 0.0
  {
    Vec3(-yawSin, 0.0, yawCos)
  }

  /** The corrected strafing direction is square to the heading at every
      yaw and pitch, and is the heading crossed with the world's up axis,
      scaled down by `cos pitch`, as the live camera computes its right
      axis. */
  lemma {:induction false} StrafeSquareToHeading(pitchSin: real, pitchCos: real, yawSin: real, yawCos: real)
    ensures Dot(Heading(pitchSin, pitchCos, yawSin, yawCos), Strafe(yawSin, yawCos)) == 0.0
    ensures Cross(Heading(pitchSin, pitchCos, yawSin, yawCos), Vec3(0.0, 1.0, 0.0)) ==
      Scale(Strafe(yawSin, yawCos), pitchCos)
  {
    SquareDot(pitchCos, yawSin, yawCos);
  }

  lemma SquareDot(pitchCos: real, yawSin: real, yawCos: real)
    ensures pitchCos * yawCos * -yawSin + pitchCos * yawSin * yawCos == 0.0
  {
  }

  /** The horizontal strafing direction, from the yaw alone. */
  function RightOf(num: Numerics, yaw: real): Vec3 {
    num.normalize(Strafe(num.sin(yaw), num.cos(yaw)))
  }

  /** The strafing direction exactly as `update_camera` computes it. */
  function RightAsWritten(num: Numerics, yaw: real): Vec3 {
    num.normalize(StrafeAsWritten(num.sin(yaw), num.cos(yaw)))
  }

  /** The basis a camera moves in, given its strafing axis: where it looks,
      that axis, and the local up axis `right x front`. */
  function BasisWith(num: Numerics, front: Vec3, right: Vec3): Basis {
    Basis(front, right, num.normalize(Cross(right, front)))
  }

  /** The intended basis: where the camera looks, its horizontal strafing
      axis and a local up axis square to the other two. */
  function BasisOf(num: Numerics, yaw: real, pitch: real): Basis {
    BasisWith(num, FrontOf(num, yaw, pitch), RightOf(num, yaw))
  }

  /** The basis `update_camera` actually moves in, built on the strafing
      direction as written. */
  function BasisAsWritten(num: Numerics, yaw: real, pitch: real): Basis {
    BasisWith(num, FrontOf(num, yaw, pitch), RightAsWritten(num, yaw))
  }

  /** The local up axis as written, `StrafeAsWritten x Heading`, against the
      intended one, `Strafe x Heading`, before normalising: the vertical
      parts are `cos(pitch) (sin^2 yaw - cos^2 yaw)` and
      `cos(pitch) (cos^2 yaw + sin^2 yaw)`. At yaw 0 and a level pitch the
      written one points straight down where the intended one points up,
      so the "up" keys move the camera down. */
  lemma {:induction false} UpAsWrittenInverted(pitchSin: real, pitchCos: real, yawSin: real, yawCos: real)
    ensures Cross(StrafeAsWritten(yawSin, yawCos), Heading(pitchSin, pitchCos, yawSin, yawCos)) ==
      Vec3(yawCos * pitchSin, pitchCos * (yawSin * yawSin - yawCos * yawCos), -yawSin * pitchSin)
    ensures Cross(Strafe(yawSin, yawCos), Heading(pitchSin, pitchCos, yawSin, yawCos)) ==
      Vec3(-yawCos * pitchSin, pitchCos * (yawCos * yawCos + yawSin * yawSin), -yawSin * pitchSin)
    ensures yawSin == 0.0 && yawCos == 1.0 && pitchSin == 0.0 && pitchCos == 1.0 ==>
      Cross(StrafeAsWritten(yawSin, yawCos), Heading(pitchSin, pitchCos, yawSin, yawCos)) == Vec3(0.0, -1.0, 0.0) &&
      Cross(Strafe(yawSin, yawCos), Heading(pitchSin, pitchCos, yawSin, yawCos)) == Vec3(0.0, 1.0, 0.0)
  {
    var h := Heading(pitchSin, pitchCos, yawSin, yawCos);
    var w, r := Cross(StrafeAsWritten(yawSin, yawCos), h), Cross(Strafe(yawSin, yawCos), h);
    UpProducts(pitchSin, pitchCos, yawSin, yawCos);
    assert w.x == yawCos * pitchSin && w.z == -yawSin * pitchSin;
    assert r.x == -yawCos * pitchSin && r.z == -yawSin * pitchSin;
  }

  lemma UpProducts(pitchSin: real, pitchCos: real, yawSin: real, yawCos: real)
    ensures 0.0 * (pitchCos * yawSin) - -yawCos * pitchSin == yawCos * pitchSin
    ensures 0.0 * (pitchCos * yawSin) - yawCos * pitchSin == -yawCos * pitchSin
    ensures -yawSin * pitchSin - 0.0 * (pitchCos * yawCos) == -yawSin * pitchSin
    ensures -yawCos * (pitchCos * yawCos) - -yawSin * (pitchCos * yawSin) ==
      pitchCos * (yawSin * yawSin - yawCos * yawCos)
    ensures yawCos * (pitchCos * yawCos) - -yawSin * (pitchCos * yawSin) ==
      pitchCos * (yawCos * yawCos + yawSin * yawSin)
  {
  }

  /** The direction of travel the held keys ask for, before normalising: an
      axis pair contributes only when one of its amounts is positive. */
  function Direction(c: Controller, b: Basis): Vec3 {
    var d1 := if c.amountForward > 0.0 || c.amountBackward > 0.0
      then Add(Zero3, Scale(b.front, c.amountForward - c.amountBackward)) else Zero3;
    var d2 := if c.amountRight > 0.0 || c.amountLeft > 0.0
      then Add(d1, Scale(b.right, c.amountRight - c.amountLeft)) else d1;
    if c.amountUp > 0.0 || c.amountDown > 0.0
      then Add(d2, Scale(b.up, c.amountUp - c.amountDown)) else d2
  }

  /** The direction of travel, normalised unless it is zero. */
  function Travel(c: Controller, b: Basis, num: Numerics): Vec3 {
    var d := Direction(c, b);
    if MagnitudeSquared(d) > 0.0 then num.normalize(d) else d
  }

  /** Where a camera with basis `b` at `position` is after a frame: it
      moves `speed * dt` along the direction of travel, then along its
      forward axis by the scroll. */
  function Moved(position: Vec3, c: Controller, b: Basis, dt: real, num: Numerics): Vec3 {
    var moved := Add(position, Scale(Scale(Travel(c, b, num), c.speed), dt));
    Add(moved, Scale(Scale(Scale(Scale(b.front, c.scroll), c.speed), c.sensitivity), dt))
  }

  /** The pitch after a frame: turned against the vertical rotation and
      clamped to `[-SAFE_FRAC_PI_2, SAFE_FRAC_PI_2]`. */
  function TurnedPitch(pitch: real, c: Controller, dt: real): (r: real)
    ensures -SAFE_FRAC_PI_2 <= r <= SAFE_FRAC_PI_2
    ensures var target := pitch + Turn(-c.rotateVertical, c.sensitivity, dt);
      (-SAFE_FRAC_PI_2 <= target <= SAFE_FRAC_PI_2 ==> r == target) &&
      (target < -SAFE_FRAC_PI_2 ==> r == -SAFE_FRAC_PI_2) &&
      (SAFE_FRAC_PI_2 < target ==> r == SAFE_FRAC_PI_2)
  {
    Clamp(pitch + Turn(-c.rotateVertical, c.sensitivity, dt), -SAFE_FRAC_PI_2, SAFE_FRAC_PI_2)
  }

  /** The camera after a frame of `dt` seconds in basis `b`: moved within
      `b`, then turned by the pending rotation with an unlimited yaw and a
      clamped pitch. */
  function StepIn(p: Pose, c: Controller, b: Basis, dt: real, num: Numerics): Pose {
    Pose(Moved(p.position, c, b, dt, num),
         p.yaw + Turn(c.rotateHorizontal, c.sensitivity, dt),
         TurnedPitch(p.pitch, c, dt))
  }

  /** A frame exactly as `update_camera` computes it: in the basis of the
      old angles built on the strafing direction as written. */
  function CameraStepAsWritten(p: Pose, c: Controller, dt: real, num: Numerics): Pose {
    StepIn(p, c, BasisAsWritten(num, p.yaw, p.pitch), dt, num)
  }

  /** A frame as intended: in the basis of the old angles built on the
      horizontal strafing direction. */
  function CameraStep(p: Pose, c: Controller, dt: real, num: Numerics): Pose {
    StepIn(p, c, BasisOf(num, p.yaw, p.pitch), dt, num)
  }

  /** After any frame the pitch lies strictly inside a right angle either
      way, so the camera never looks straight up or down. */
  lemma CameraStepPitchBounded(p: Pose, c: Controller, dt: real, num: Numerics)
    ensures -FRAC_PI_2 < CameraStepAsWritten(p, c, dt, num).pitch < FRAC_PI_2
    ensures -FRAC_PI_2 < CameraStep(p, c, dt, num).pitch < FRAC_PI_2
  {
  }

  /** The written and the intended frame differ only through the strafing
      and vertical keys: with those released both give the same pose. */
  lemma {:induction false} StepsAgreeWithoutSideKeys(p: Pose, c: Controller, dt: real, num: Numerics)
    requires c.amountLeft == c.amountRight == c.amountUp == c.amountDown == 0.0
    ensures CameraStepAsWritten(p, c, dt, num) == CameraStep(p, c, dt, num)
  {
    SameFrontSameStep(p, c, BasisAsWritten(num, p.yaw, p.pitch), BasisOf(num, p.yaw, p.pitch), dt, num);
  }

  lemma SameFrontSameStep(p: Pose, c: Controller, b1: Basis, b2: Basis, dt: real, num: Numerics)
    requires c.amountLeft == c.amountRight == c.amountUp == c.amountDown == 0.0
    requires b1.front == b2.front
    ensures StepIn(p, c, b1, dt, num) == StepIn(p, c, b2, dt, num)
  {
    SameFrontSameDirection(c, b1, b2);
    var d := Direction(c, b1);
    assert Travel(c, b1, num) == if MagnitudeSquared(d) > 0.0 then num.normalize(d) else d;
  }

  lemma SameFrontSameDirection(c: Controller, b1: Basis, b2: Basis)
    requires c.amountLeft == c.amountRight == c.amountUp == c.amountDown == 0.0
    requires b1.front == b2.front
    ensures Direction(c, b1) == Direction(c, b2)
  {
  }

  lemma ZeroScaled(k: real)
    ensures Scale(Zero3, k) == Zero3
  {
  }

  lemma ZeroScaledTwice(a: Vec3, k: real, l: real)
    requires a == Zero3
    ensures Scale(Scale(a, k), l) == Zero3
  {
  }

  /** With no key held there is no travel, whatever way the camera faces. */
  lemma TravelAtRest(c: Controller, b: Basis, num: Numerics)
    requires c.amountForward == c.amountBackward == c.amountLeft == c.amountRight == 0.0
    requires c.amountUp == c.amountDown == 0.0
    ensures Travel(c, b, num) == Zero3
  {
  }

  /** With no key held and no scroll pending the camera stays where it is,
      whatever way it faces. */
  lemma MovedAtRest(position: Vec3, c: Controller, b: Basis, dt: real, num: Numerics)
    requires c.amountForward == c.amountBackward == c.amountLeft == c.amountRight == 0.0
    requires c.amountUp == c.amountDown == 0.0 && c.scroll == 0.0
    ensures Moved(position, c, b, dt, num) == position
  {
    TravelAtRest(c, b, num);
    ZeroScaledTwice(Travel(c, b, num), c.speed, dt);
    ScaleByZero(b.front);
    ZeroScaledTwice(Scale(b.front, c.scroll), c.speed, c.sensitivity);
    ZeroScaled(dt);
    ScaleByZero(position);
  }

  /** Holding two opposite keys cancels them out: with forward and backward
      both held and nothing else, the camera does not travel. */
  lemma OppositeKeysCancel(c: Controller, b: Basis, num: Numerics)
    requires c.amountForward == c.amountBackward == 1.0
    requires c.amountLeft == c.amountRight == c.amountUp == c.amountDown == 0.0
    ensures Travel(c, b, num) == Zero3
  {
    ScaleByZero(b.front);
    var d := Direction(c, b);
    assert d == Zero3;
  }

  /** With only the forward key held and no scroll, the camera moves
      `speed * dt` along its normalised forward axis. */
  lemma MovedForwardOnly(position: Vec3, c: Controller, b: Basis, dt: real, num: Numerics)
    requires c.amountForward == 1.0 && c.amountBackward == 0.0
    requires c.amountLeft == c.amountRight == c.amountUp == c.amountDown == 0.0 && c.scroll == 0.0
    requires MagnitudeSquared(b.front) > 0.0
    ensures Moved(position, c, b, dt, num) == Add(position, Scale(Scale(num.normalize(b.front), c.speed), dt))
  {
    ForwardOnlyTravel(c, b, num);
    ScaleByZero(b.front);
    ZeroScaledTwice(Scale(b.front, c.scroll), c.speed, c.sensitivity);
    ZeroScaled(dt);
    ScaleByZero(Add(position, Scale(Scale(num.normalize(b.front), c.speed), dt)));
  }

  /** With only the forward key held the camera travels along its
      normalised forward axis. */
  lemma ForwardOnlyTravel(c: Controller, b: Basis, num: Numerics)
    requires c.amountForward == 1.0 && c.amountBackward == 0.0
    requires c.amountLeft == c.amountRight == c.amountUp == c.amountDown == 0.0
    requires MagnitudeSquared(b.front) > 0.0
    ensures Travel(c, b, num) == num.normalize(b.front)
  {
    var d := Direction(c, b);
    assert d == b.front;
  }

  /** A camera with nothing pending keeps its position across a frame. */
  lemma CameraStepAtRest(p: Pose, c: Controller, dt: real, num: Numerics)
    requires c.amountForward == c.amountBackward == c.amountLeft == c.amountRight == 0.0
    requires c.amountUp == c.amountDown == 0.0 && c.scroll == 0.0
    ensures CameraStepAsWritten(p, c, dt, num).position == p.position
    ensures CameraStep(p, c, dt, num).position == p.position
  {
    MovedAtRest(p.position, c, BasisAsWritten(num, p.yaw, p.pitch), dt, num);
    MovedAtRest(p.position, c, BasisOf(num, p.yaw, p.pitch), dt, num);
  }

  // ---------------------------------------------------------------------------
  // The controller object

  class CameraController {
    var amountLeft: real
    var amountRight: real
    var amountForward: real
    var amountBackward: real
    var amountUp: real
    var amountDown: real
    var rotateHorizontal: real
    var rotateVertical: real
    var scroll: real
    var speed: real
    var sensitivity: real

    function State(): Controller
      reads this
    {
      Controller(amountLeft, amountRight, amountForward, amountBackward, amountUp, amountDown,
                 rotateHorizontal, rotateVertical, scroll, speed, sensitivity)
    }

    /** `CameraController::new`. */
    constructor (speed: real, sensitivity: real)
      ensures State() == NewController(speed, sensitivity)
      ensures AmountsBinary(State())
    {
      amountLeft, amountRight := 0.0, 0.0;
      amountForward, amountBackward := 0.0, 0.0;
      amountUp, amountDown := 0.0, 0.0;
      rotateHorizontal, rotateVertical := 0.0, 0.0;
      scroll := 0.0;
      this.speed, this.sensitivity := speed, sensitivity;
    }

    /** `process_keyboard`. */
    method ProcessKeyboard(key: KeyCode, state: ElementState) returns (handled: bool)
      modifies this
      ensures (State(), handled) == KeyboardStep(old(State()), key, state)
      ensures AmountsBinary(old(State())) ==> AmountsBinary(State())
    {
      var amount := if state == Pressed then 1.0 else 0.0;
      match key {
        case KeyW =>
          amountForward := amount;
          handled := true;
        case ArrowUp =>
          amountForward := amount;
          handled := true;
        case KeyS =>
          amountBackward := amount;
          handled := true;
        case ArrowDown =>
          amountBackward := amount;
          handled := true;
        case KeyA =>
          amountLeft := amount;
          handled := true;
        case ArrowLeft =>
          amountLeft := amount;
          handled := true;
        case KeyD =>
          amountRight := amount;
          handled := true;
        case ArrowRight =>
          amountRight := amount;
          handled := true;
        case Space =>
          amountUp := amount;
          handled := true;
        case ShiftLeft =>
          amountDown := amount;
          handled := true;
        case _ =>
          handled := false;
      }
    }

    /** `process_mouse`. */
    method ProcessMouse(dx: real, dy: real)
      modifies this
      ensures State() == MouseStep(old(State()), dx, dy)
    {
      rotateHorizontal := dx;
      rotateVertical := dy;
    }

    /** `process_scroll`. */
    method ProcessScroll(delta: ScrollDelta)
      modifies this
      ensures State() == old(State()).(scroll := ScrollAmount(delta))
    {
      var s := match delta
        case LineDelta(_, ly) => ly * 100.0
        case PixelDelta(_, py) => py;
      scroll := -s;
    }

    /** The direction of travel of `update_camera`: the held axis pairs
        summed over the camera's basis, normalised unless zero. */
    method TravelDirection(forward: Vec3, right: Vec3, up: Vec3, num: Numerics) returns (direction: Vec3)
      ensures direction == Travel(State(), Basis(forward, right, up), num)
    {
      direction := Zero3;
      if amountForward > 0.0 || amountBackward > 0.0 {
        direction := Add(direction, Scale(forward, amountForward - amountBackward));
      }
      if amountRight > 0.0 || amountLeft > 0.0 {
        direction := Add(direction, Scale(right, amountRight - amountLeft));
      }
      if amountUp > 0.0 || amountDown > 0.0 {
        direction := Add(direction, Scale(up, amountUp - amountDown));
      }
      if MagnitudeSquared(direction) > 0.0 {
        direction := num.normalize(direction);
      }
    }

    /** `update_camera`: move and turn `camera` by the pending input over
        `dt` seconds, then consume the scroll and the rotation. */
    method UpdateCamera(camera: Camera, dt: real, num: Numerics)
      modifies this, camera
      ensures camera.Current() == CameraStepAsWritten(old(camera.Current()), old(State()), dt, num)
      ensures State() == Consumed(old(State()))
    {
      ghost var c, p := State(), camera.Current();
      var pitchSin, pitchCos := num.sin(camera.pitch), num.cos(camera.pitch);
      var yawSin, yawCos := num.sin(camera.yaw), num.cos(camera.yaw);
      var forward := num.normalize(Heading(pitchSin, pitchCos, yawSin, yawCos));
      var right := num.normalize(StrafeAsWritten(yawSin, yawCos));
      var up := num.normalize(Cross(right, forward));
      ghost var b := Basis(forward, right, up);

      var direction := TravelDirection(forward, right, up, num);
      assert b == BasisAsWritten(num, p.yaw, p.pitch);
      assert direction == Travel(c, b, num);

      camera.position := Add(camera.position, Scale(Scale(direction, speed), dt));
      camera.position := Add(camera.position, Scale(Scale(Scale(Scale(forward, scroll), speed), sensitivity), dt));
      scroll := 0.0;
      assert camera.position == Moved(p.position, c, b, dt, num);

      camera.yaw := camera.yaw + Turn(rotateHorizontal, sensitivity, dt);
      camera.pitch := camera.pitch + Turn(-rotateVertical, sensitivity, dt);
      camera.pitch := Clamp(camera.pitch, -SAFE_FRAC_PI_2, SAFE_FRAC_PI_2);

      rotateHorizontal := 0.0;
      rotateVertical := 0.0;
    }
  }
}
