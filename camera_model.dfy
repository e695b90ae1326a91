/**
 * The camera of src/camera.cpp as a value: what each Camera method does to
 * the position, the {forward, right, up} basis, the two speeds and the two
 * mouse angles.  The Camera class in module Cameras is proved to follow these
 * functions; the lemmas here state what the source promises about them.
 */
module CameraModel {
  import opened MathEnv
  import opened Geometry

  datatype CameraState = CameraState(
    position: Vec3,
    forward: Vec3,
    right: Vec3,
    up: Vec3,
    speed: real,
    turnSpeed: real,
    mouseUpDown: real,
    mouseLeftRight: real)

  /** The orientation that transformWithMouse writes to its outputs. */
  datatype Basis = Basis(forward: Vec3, up: Vec3, right: Vec3)

  // The literals that the constructor and reset write.
  const InitialSpeed := 0.005
  const InitialTurnSpeed := 0.01
  const HomePosition := Vec3(0.764331460, -1.66760659, 0.642456770)
  const HomeForward := Vec3(-0.398769796, 0.763009906, -0.508720219)
  const HomeRight := Vec3(0.886262059, 0.463184059, 0.0)
  const HomeUp := Vec3(-0.235630989, 0.450859368, 0.860931039)

  /** speedUp doubles below this speed; slowDown halves above MinSpeed. */
  const MaxDoublingSpeed := 1.0
  const MinSpeed := 0.000001

  /** The angle pointAt turns by, and the vertical axis it turns around. */
  const QuarterTurn := 1.57079632679
  const WorldUp := Vec3(0.0, 0.0, 1.0)

  /** setMouse re-centres the pointer on (600, 350) and projects it onto a
      hemisphere of radius 350. */
  const MouseCentreX := 600.0
  const MouseCentreY := 350.0
  const TrackballRadius := 350.0

  /** The camera as its constructor leaves it; the mouse angles of the global
      camera object are zero from static initialisation. */
  const Initial := CameraState(HomePosition, HomeForward, HomeRight, HomeUp,
                               InitialSpeed, InitialTurnSpeed, 0.0, 0.0)

  /** reset: the constructor's speeds, position and basis; the mouse angles stay. */
  function Reset(s: CameraState): (r: CameraState)
    ensures r == Initial.(mouseUpDown := s.mouseUpDown, mouseLeftRight := s.mouseLeftRight)
  {
    CameraState(HomePosition, HomeForward, HomeRight, HomeUp, InitialSpeed, InitialTurnSpeed,
                s.mouseUpDown, s.mouseLeftRight)
  }

  /** speedUp: double the speed when it is below 1.0. */
  function SpeedUp(s: CameraState): (r: CameraState)
    ensures r.(speed := s.speed) == s
    ensures s.speed < MaxDoublingSpeed ==> r.speed == 2.0 * s.speed && r.speed < 2.0 * MaxDoublingSpeed
    ensures s.speed >= MaxDoublingSpeed ==> r == s
  {
    if s.speed < MaxDoublingSpeed then s.(speed := s.speed * 2.0) else s
  }

  /** slowDown: halve the speed when it is above 0.000001. */
  function SlowDown(s: CameraState): (r: CameraState)
    ensures r.(speed := s.speed) == s
    ensures s.speed > MinSpeed ==> 2.0 * r.speed == s.speed && r.speed > MinSpeed / 2.0
    ensures s.speed <= MinSpeed ==> r == s
    ensures s.speed > 0.0 ==> r.speed > 0.0
  {
    if s.speed > MinSpeed then s.(speed := s.speed / 2.0) else s
  }

  /** The speeds that speedUp and slowDown can reach from the initial 0.005. */
  predicate SpeedInBand(s: CameraState)
  {
    MinSpeed / 2.0 < s.speed < 2.0 * MaxDoublingSpeed
  }

  lemma SpeedBandInvariant(s: CameraState)
    ensures SpeedInBand(Initial) && SpeedInBand(Reset(s))
    ensures SpeedInBand(s) ==> SpeedInBand(SpeedUp(s)) && SpeedInBand(SlowDown(s))
  {
  }

  /** Halving undoes doubling whenever doubling happened and the doubled speed
      is above the halving threshold. */
  lemma SlowDownUndoesSpeedUp(s: CameraState)
    requires MinSpeed / 2.0 < s.speed < MaxDoublingSpeed
    ensures SlowDown(SpeedUp(s)) == s
  {
  }

  lemma SpeedUpUndoesSlowDown(s: CameraState)
    requires MinSpeed < s.speed < 2.0 * MaxDoublingSpeed
    ensures SpeedUp(SlowDown(s)) == s
  {
  }

  /** transformWithMouse: yaw forward and right around up by theta, then pitch
      the yawed forward and the up vector around the yawed right by phi. The
      yaw keeps right's angle with a unit up, and the pitch keeps up's angle
      with a unit steering right. */
  function MouseBasis(forward: Vec3, up: Vec3, right: Vec3, theta: real, phi: real, env: Env): (b: Basis)
    ensures Dot(up, up) == 1.0 ==> Dot(up, b.right) == Dot(up, right)
    ensures Dot(b.right, b.right) == 1.0 ==> Dot(b.right, b.up) == Dot(b.right, up)
  {
    var tempVec := Rotate(forward, up, theta, env);
    var tempRight := Rotate(right, up, theta, env);
    var tempForward := Rotate(tempVec, tempRight, phi, env);
    var tempUp := Rotate(up, tempRight, phi, env);
    assert Dot(up, up) == 1.0 ==> Dot(up, tempRight) == Dot(up, right) by {
      if Dot(up, up) == 1.0 {
        RotateKeepsAxisAngle(right, up, theta, env);
      }
    }
    assert Dot(tempRight, tempRight) == 1.0 ==> Dot(tempRight, tempUp) == Dot(tempRight, up) by {
      if Dot(tempRight, tempRight) == 1.0 {
        RotateKeepsAxisAngle(up, tempRight, phi, env);
      }
    }
    Basis(tempForward, tempUp, tempRight)
  }

  /** The basis the movement methods steer by: the stored basis turned by the
      stored mouse angles. */
  function SteeringBasis(s: CameraState, env: Env): Basis
  {
    MouseBasis(s.forward, s.up, s.right, s.mouseLeftRight, s.mouseUpDown, env)
  }

  /** With the mouse at rest (both angles 0) the steering basis is the stored one. */
  lemma {:induction false} MouseBasisAtRest(forward: Vec3, up: Vec3, right: Vec3, env: Env)
    requires TrigAtZero(env)
    ensures MouseBasis(forward, up, right, 0.0, 0.0, env) == Basis(forward, up, right)
  {
    RodriguesAtZero(up, env);
    var tempRight := Rotate(right, up, 0.0, env);
    RodriguesAtZero(tempRight, env);
  }

  /** Rotation around a unit axis keeps a vector's dot product with the axis. */
  lemma {:induction false} RotateKeepsAxisAngle(v: Vec3, a: Vec3, angle: real, env: Env)
    requires Dot(a, a) == 1.0
    ensures Dot(a, Rotate(v, a, angle, env)) == Dot(a, v)
  {
    MatrixIsVectorForm(v, a, env.cos(angle), env.sin(angle));
    AxisDotUnchanged(v, a, env.cos(angle), env.sin(angle));
  }

  /** forward / backward: move along the steering forward vector by +-speed. */
  function MoveForward(s: CameraState, env: Env): (r: CameraState)
    ensures r.(position := s.position) == s
  {
    s.(position := Add(s.position, Scale(SteeringBasis(s, env).forward, s.speed)))
  }

  function MoveBackward(s: CameraState, env: Env): (r: CameraState)
    ensures r.(position := s.position) == s
  {
    s.(position := Add(s.position, Scale(SteeringBasis(s, env).forward, -s.speed)))
  }

  /** left / right: move along the steering right vector by -+speed. */
  function MoveLeft(s: CameraState, env: Env): (r: CameraState)
    ensures r.(position := s.position) == s
  {
    s.(position := Add(s.position, Scale(SteeringBasis(s, env).right, -s.speed)))
  }

  function MoveRight(s: CameraState, env: Env): (r: CameraState)
    ensures r.(position := s.position) == s
  {
    s.(position := Add(s.position, Scale(SteeringBasis(s, env).right, s.speed)))
  }

  /** A move changes only the position, so the steering basis is the same after it. */
  lemma {:induction false} SteeringIgnoresPosition(s: CameraState, p: Vec3, env: Env)
    ensures SteeringBasis(s.(position := p), env) == SteeringBasis(s, env)
  {
  }

  lemma {:induction false} BackwardUndoesForward(s: CameraState, env: Env)
    ensures MoveBackward(MoveForward(s, env), env) == s
  {
    SteeringIgnoresPosition(s, MoveForward(s, env).position, env);
  }

  lemma {:induction false} ForwardUndoesBackward(s: CameraState, env: Env)
    ensures MoveForward(MoveBackward(s, env), env) == s
  {
    SteeringIgnoresPosition(s, MoveBackward(s, env).position, env);
  }

  lemma {:induction false} RightUndoesLeft(s: CameraState, env: Env)
    ensures MoveRight(MoveLeft(s, env), env) == s
  {
    SteeringIgnoresPosition(s, MoveLeft(s, env).position, env);
  }

  lemma {:induction false} LeftUndoesRight(s: CameraState, env: Env)
    ensures MoveLeft(MoveRight(s, env), env) == s
  {
    SteeringIgnoresPosition(s, MoveRight(s, env).position, env);
  }

  /** yawLeft / yawRight: turn forward and right around up by +-turnSpeed. */
  function YawLeft(s: CameraState, env: Env): (r: CameraState)
    ensures r.(forward := s.forward, right := s.right) == s
  {
    s.(forward := Rotate(s.forward, s.up, s.turnSpeed, env), right := Rotate(s.right, s.up, s.turnSpeed, env))
  }

  function YawRight(s: CameraState, env: Env): (r: CameraState)
    ensures r.(forward := s.forward, right := s.right) == s
  {
    s.(forward := Rotate(s.forward, s.up, -s.turnSpeed, env), right := Rotate(s.right, s.up, -s.turnSpeed, env))
  }

  /** sin odd, cos even and sin^2 + cos^2 = 1 at t hold at -t as well. */
  lemma TrigAtNegated(env: Env, t: real)
    requires TrigAt(env, t)
    ensures TrigAt(env, -t)
  {
    assert - -t == t;
  }

  /** Yawing right undoes yawing left around a unit up vector, and the other
      way round, given the trigonometric laws at the turn speed. */
  lemma {:induction false} YawRightUndoesYawLeft(s: CameraState, env: Env)
    requires Dot(s.up, s.up) == 1.0
    requires TrigAt(env, s.turnSpeed)
    ensures YawRight(YawLeft(s, env), env) == s
  {
    RotateInverse(s.forward, s.up, s.turnSpeed, env);
    RotateInverse(s.right, s.up, s.turnSpeed, env);
  }

  lemma {:induction false} YawLeftUndoesYawRight(s: CameraState, env: Env)
    requires Dot(s.up, s.up) == 1.0
    requires TrigAt(env, s.turnSpeed)
    ensures YawLeft(YawRight(s, env), env) == s
  {
    TrigAtNegated(env, s.turnSpeed);
    RotateInverse(s.forward, s.up, -s.turnSpeed, env);
    RotateInverse(s.right, s.up, -s.turnSpeed, env);
    assert - -s.turnSpeed == s.turnSpeed;
  }

  /** Yawing keeps the angles of forward and right with a unit up vector, so a
      forward and right perpendicular to up stay perpendicular to it. */
  lemma {:induction false} YawKeepsAnglesToUp(s: CameraState, env: Env)
    requires Dot(s.up, s.up) == 1.0
    ensures var l, r := YawLeft(s, env), YawRight(s, env);
      && Dot(l.up, l.forward) == Dot(s.up, s.forward) && Dot(l.up, l.right) == Dot(s.up, s.right)
      && Dot(r.up, r.forward) == Dot(s.up, s.forward) && Dot(r.up, r.right) == Dot(s.up, s.right)
  {
    RotateKeepsAxisAngle(s.forward, s.up, s.turnSpeed, env);
    RotateKeepsAxisAngle(s.right, s.up, s.turnSpeed, env);
    RotateKeepsAxisAngle(s.forward, s.up, -s.turnSpeed, env);
    RotateKeepsAxisAngle(s.right, s.up, -s.turnSpeed, env);
  }

  /** pointAt, step 1: the unit vector from the position to the target. */
  function AimAt(s: CameraState, target: Vec3, env: Env): Vec3
    requires Length(Sub(target, s.position), env) != 0.0
  {
    Normalized(Sub(target, s.position), env)
  }

  /** pointAt, step 2: forward turned a quarter turn clockwise around the
      vertical, with its vertical component cleared. */
  function Horizontal(forward: Vec3, env: Env): Vec3
  {
    Rotate(forward, WorldUp, -QuarterTurn, env).(z := 0.0)
  }

  /** pointAt normalizes twice; both lengths have to be nonzero. */
  predicate CanPointAt(s: CameraState, target: Vec3, env: Env)
  {
    Length(Sub(target, s.position), env) != 0.0
    && Length(Horizontal(AimAt(s, target, env), env), env) != 0.0
  }

  /** pointAt: forward aims at the target, right is the horizontal vector a
      quarter turn clockwise of it, up is forward turned a quarter turn around
      right.  Position, speeds and mouse angles stay. */
  function PointAt(s: CameraState, target: Vec3, env: Env): (r: CameraState)
    requires CanPointAt(s, target, env)
    ensures r.(forward := s.forward, right := s.right, up := s.up) == s
    ensures r.right.z == 0.0
  {
    var forward := AimAt(s, target, env);
    var right := Normalized(Horizontal(forward, env), env);
    s.(forward := forward, right := right, up := Rotate(forward, right, QuarterTurn, env))
  }

  /** The new forward vector points at the target: scaled by the distance it is
      the offset from the camera to the target. */
  lemma {:induction false} PointAtFacesTarget(s: CameraState, target: Vec3, env: Env)
    requires CanPointAt(s, target, env)
    ensures var d := Sub(target, s.position);
      Scale(PointAt(s, target, env).forward, Length(d, env)) == d
  {
    var d := Sub(target, s.position);
    var l := Length(d, env);
    var k := 1.0 / l;
    assert k * l == 1.0;
    ScaleScale(d, k, l);
  }

  lemma ScaleScale(v: Vec3, k: real, l: real)
    requires k * l == 1.0
    ensures Scale(Scale(v, k), l) == v
  {
    assert v.x * k * l == v.x * (k * l);
    assert v.y * k * l == v.y * (k * l);
    assert v.z * k * l == v.z * (k * l);
  }

  /** With lawful square roots, forward and right come out as unit vectors. */
  lemma {:induction false} PointAtUnitVectors(s: CameraState, target: Vec3, env: Env)
    requires CanPointAt(s, target, env)
    requires SqrtAt(env, Dot(Sub(target, s.position), Sub(target, s.position)))
    requires var h := Horizontal(AimAt(s, target, env), env); SqrtAt(env, Dot(h, h))
    ensures var r := PointAt(s, target, env); Dot(r.forward, r.forward) == 1.0 && Dot(r.right, r.right) == 1.0
  {
    NormalizedIsUnit(Sub(target, s.position), env);
    NormalizedIsUnit(Horizontal(AimAt(s, target, env), env), env);
  }

  /** A turn around the vertical axis has rows (c, -s, 0) and (s, c, 0). */
  lemma AroundVertical(v: Vec3, c: real, s: real)
    ensures MatVec(RodriguesOf(WorldUp, c, s), v).x == c * v.x - s * v.y
    ensures MatVec(RodriguesOf(WorldUp, c, s), v).y == s * v.x + c * v.y
  {
  }

  lemma HorizontalDot(fx: real, fy: real, fz: real, hx: real, hy: real, hz: real, c: real, s: real)
    requires hz == 0.0
    requires hx == c * fx - s * fy && hy == s * fx + c * fy
    ensures hx * fx + hy * fy + hz * fz == c * (fx * fx + fy * fy)
  {
  }

  /** The coordinates of the horizontal vector. */
  lemma {:induction false} HorizontalCoordinates(forward: Vec3, env: Env)
    ensures var c, s, h := env.cos(-QuarterTurn), env.sin(-QuarterTurn), Horizontal(forward, env);
      h.x == c * forward.x - s * forward.y && h.y == s * forward.x + c * forward.y && h.z == 0.0
  {
    AroundVertical(forward, env.cos(-QuarterTurn), env.sin(-QuarterTurn));
  }

  /** The horizontal vector's dot product with forward is cos(-quarter turn)
      times forward's squared horizontal length. The source's quarter turn
      1.57079632679 falls just short of pi/2, so the two are perpendicular
      only where that cosine is 0 or forward is vertical. */
  lemma {:induction false} HorizontalDeviation(forward: Vec3, env: Env)
    ensures Dot(Horizontal(forward, env), forward)
      == env.cos(-QuarterTurn) * (forward.x * forward.x + forward.y * forward.y)
  {
    var c, s := env.cos(-QuarterTurn), env.sin(-QuarterTurn);
    var h := Horizontal(forward, env);
    HorizontalCoordinates(forward, env);
    DotUnfold(h, forward);
    HorizontalDot(forward.x, forward.y, forward.z, h.x, h.y, h.z, c, s);
  }

  /** pointAt's second length is zero exactly when the target is straight
      above or below the camera, with lawful trig at the quarter turn and a
      lawful square root there. */
  lemma {:induction false} UnpointableIffVertical(s: CameraState, target: Vec3, env: Env)
    requires Length(Sub(target, s.position), env) != 0.0
    requires TrigAt(env, QuarterTurn)
    requires var h := Horizontal(AimAt(s, target, env), env); SqrtAt(env, Dot(h, h))
    ensures Length(Horizontal(AimAt(s, target, env), env), env) == 0.0
      <==> target.x == s.position.x && target.y == s.position.y
  {
    var d := Sub(target, s.position);
    var k := 1.0 / Length(d, env);
    var f := AimAt(s, target, env);
    assert f.x == k * d.x && f.y == k * d.y;
    HorizontalZeroIffVertical(f, env);
    ProductZero(k, d.x, f.x);
    ProductZero(k, d.y, f.y);
  }

  /** The horizontal vector has zero length exactly when forward is vertical:
      a turn around the vertical keeps the horizontal length. */
  lemma {:induction false} HorizontalZeroIffVertical(forward: Vec3, env: Env)
    requires TrigAt(env, QuarterTurn)
    requires var h := Horizontal(forward, env); SqrtAt(env, Dot(h, h))
    ensures Length(Horizontal(forward, env), env) == 0.0 <==> forward.x == 0.0 && forward.y == 0.0
  {
    var h := Horizontal(forward, env);
    TrigAtNegated(env, QuarterTurn);
    HorizontalCoordinates(forward, env);
    DotUnfold(h, h);
    HorizontalLength(forward.x, forward.y, h.x, h.y, h.z,
      env.cos(-QuarterTurn), env.sin(-QuarterTurn), Dot(h, h), Length(h, env));
  }

  lemma HorizontalLength(fx: real, fy: real, hx: real, hy: real, hz: real, c: real, s: real, sq: real, r: real)
    requires hx == c * fx - s * fy && hy == s * fx + c * fy && hz == 0.0
    requires s * s + c * c == 1.0
    requires sq == hx * hx + hy * hy + hz * hz
    requires 0.0 <= r && r * r == sq
    ensures r == 0.0 <==> fx == 0.0 && fy == 0.0
  {
    var q := fx * fx + fy * fy;
    HorizontalSquare(fx, fy, hx, hy, c, s);
    assert sq == (s * s + c * c) * q;
    assert sq == q;
    SquareSign(r, sq);
    SquareSign(fx, fx * fx);
    SquareSign(fy, fy * fy);
  }

  lemma HorizontalSquare(fx: real, fy: real, hx: real, hy: real, c: real, s: real)
    requires hx == c * fx - s * fy && hy == s * fx + c * fy
    ensures hx * hx + hy * hy + 0.0 * 0.0 == (s * s + c * c) * (fx * fx + fy * fy)
  {
  }

  /** A square is non-negative, and zero exactly at zero. */
  lemma SquareSign(x: real, p: real)
    requires p == x * x
    ensures p >= 0.0
    ensures p == 0.0 <==> x == 0.0
  {
    if x < 0.0 {
      PositiveProduct(-x, -x, p);
    } else if x > 0.0 {
      PositiveProduct(x, x, p);
    }
  }

  lemma ProductZero(a: real, b: real, p: real)
    requires a != 0.0 && p == a * b
    ensures p == 0.0 <==> b == 0.0
  {
  }

  lemma ScaledDot(u: Vec3, v: Vec3, k: real)
    ensures Dot(Scale(u, k), v) == k * Dot(u, v)
  {
  }

  /** pointAt's right vector is the horizontal vector scaled to unit length,
      so its dot product with the new forward is the horizontal deviation
      divided by the horizontal length; and, with a unit right vector, the new
      up vector is as far from perpendicular to right as forward is. */
  lemma {:induction false} PointAtRightDeviation(s: CameraState, target: Vec3, env: Env)
    requires CanPointAt(s, target, env)
    ensures var r := PointAt(s, target, env);
      Dot(r.right, r.forward) == env.cos(-QuarterTurn) * (r.forward.x * r.forward.x + r.forward.y * r.forward.y)
        / Length(Horizontal(r.forward, env), env)
    ensures var r := PointAt(s, target, env);
      Dot(r.right, r.right) == 1.0 ==> Dot(r.right, r.up) == Dot(r.right, r.forward)
  {
    var r := PointAt(s, target, env);
    var forward := AimAt(s, target, env);
    var h := Horizontal(forward, env);
    var l := Length(h, env);
    HorizontalDeviation(forward, env);
    ScaledDot(h, forward, 1.0 / l);
    assert Dot(r.right, r.forward) == (1.0 / l) * Dot(h, forward);
    if Dot(r.right, r.right) == 1.0 {
      RotateKeepsAxisAngle(forward, r.right, QuarterTurn, env);
      DotSymmetric(r.right, forward);
    }
  }

  lemma DotSymmetric(u: Vec3, v: Vec3)
    ensures Dot(u, v) == Dot(v, u)
  {
  }

  /** The pointer position projected onto the trackball hemisphere. */
  datatype TrackPoint = TrackPoint(x: real, y: real, z: real)

  /** setMouse re-centres the pointer and flips both axes. */
  function CentredX(x: real): real { -(x - MouseCentreX) }

  function CentredY(y: real): real { -(y - MouseCentreY) }

  /** The squared distance of the re-centred pointer from the centre. */
  function PointerSquare(x: real, y: real): real
  {
    CentredX(x) * CentredX(x) + CentredY(y) * CentredY(y)
  }

  /** The library square root of PointerSquare: the pointer's radius. */
  function PointerRadius(x: real, y: real, env: Env): real
  {
    env.sqrt(PointerSquare(x, y))
  }

  /** What is left of 350 * 350 for the height, as setMouse computes it. */
  function Lift(x: real, y: real): real
  {
    TrackballRadius * TrackballRadius - CentredX(x) * CentredX(x) - CentredY(y) * CentredY(y)
  }

  /** setMouse, geometry: re-centre and flip the pointer, then either pull it
      onto the rim (radius above 350, z = 0) or lift it onto the hemisphere. */
  function Trackball(x: real, y: real, env: Env): TrackPoint
  {
    var r := PointerRadius(x, y, env);
    if r > TrackballRadius then
      TrackPoint(CentredX(x) * TrackballRadius / r, CentredY(y) * TrackballRadius / r, 0.0)
    else
      TrackPoint(CentredX(x), CentredY(y), env.sqrt(Lift(x, y)))
  }

  /** setMouse: the yaw angle is atan(x / z), the pitch angle asin(y / 350).
      x / z is a division by zero on the rim; the library quotient models it. */
  function SetMouse(s: CameraState, x: real, y: real, env: Env): (r: CameraState)
    ensures r.(mouseLeftRight := s.mouseLeftRight, mouseUpDown := s.mouseUpDown) == s
  {
    var p := Trackball(x, y, env);
    s.(mouseLeftRight := env.atanOfQuotient(p.x, p.z), mouseUpDown := env.asin(p.y / TrackballRadius))
  }

  /** The square roots setMouse takes, lawful where they are taken. */
  predicate TrackballLaws(x: real, y: real, env: Env)
  {
    && SqrtAt(env, PointerSquare(x, y))
    && (PointerRadius(x, y, env) <= TrackballRadius ==> SqrtAt(env, Lift(x, y)))
  }

  /** A point of the trackball hemisphere: on the sphere of radius 350, not
      below the screen plane, and so with y in [-350, 350]. */
  predicate OnHemisphere(p: TrackPoint)
  {
    && p.x * p.x + p.y * p.y + p.z * p.z == TrackballRadius * TrackballRadius
    && 0.0 <= p.z
    && -TrackballRadius <= p.y <= TrackballRadius
  }

  /** A product of two positives is positive.  The product is passed in as
      `p` so that callers can name it by a term of their own. */
  lemma PositiveProduct(u: real, v: real, p: real)
    requires p == u * v
    ensures u > 0.0 && v > 0.0 ==> p > 0.0
  {
  }

  lemma {:induction false} SquareBound(y: real, b: real)
    requires b > 0.0 && y * y <= b * b
    ensures -b <= y <= b
  {
    PositiveProduct(y - b, y + b, y * y - b * b);
    PositiveProduct(-y - b, b - y, y * y - b * b);
  }

  /** Outside the rim the pointer is scaled back onto the circle of radius 350. */
  lemma {:induction false} RimScaling(x1: real, y1: real, r: real, px: real, py: real, pz: real)
    requires r > TrackballRadius && r * r == x1 * x1 + y1 * y1
    requires px == x1 * TrackballRadius / r && py == y1 * TrackballRadius / r && pz == 0.0
    ensures OnHemisphere(TrackPoint(px, py, pz))
  {
    var k := TrackballRadius / r;
    assert px == x1 * k && py == y1 * k;
    assert k * k * (r * r) == TrackballRadius * TrackballRadius;
    calc {
      px * px + py * py;
      (x1 * x1 + y1 * y1) * (k * k);
      (r * r) * (k * k);
    }
    SquareBound(py, TrackballRadius);
  }

  /** Inside the rim the lifted point is on the sphere, and its height is zero
      exactly when the pointer is on the rim itself. */
  lemma {:induction false} InsideSphere(x1: real, y1: real, r: real, q: real, z: real)
    requires 0.0 <= r <= TrackballRadius && r * r == x1 * x1 + y1 * y1
    requires q == TrackballRadius * TrackballRadius - x1 * x1 - y1 * y1
    requires 0.0 <= z && z * z == q
    ensures OnHemisphere(TrackPoint(x1, y1, z))
    ensures z == 0.0 <==> r == TrackballRadius
  {
    PositiveProduct(TrackballRadius - r, TrackballRadius + r, q);
    PositiveProduct(z, z, q);
    SquareBound(y1, TrackballRadius);
  }

  /** Trackball outside the rim, from the square-root law for the radius. */
  lemma {:induction false} TrackballOutside(x: real, y: real, env: Env)
    requires TrackballLaws(x, y, env) && PointerRadius(x, y, env) > TrackballRadius
    ensures OnHemisphere(Trackball(x, y, env)) && Trackball(x, y, env).z == 0.0
  {
    var p := Trackball(x, y, env);
    RimScaling(CentredX(x), CentredY(y), PointerRadius(x, y, env), p.x, p.y, p.z);
  }

  /** Trackball on or inside the rim, from both square-root laws. */
  lemma {:induction false} TrackballInside(x: real, y: real, env: Env)
    requires TrackballLaws(x, y, env) && PointerRadius(x, y, env) <= TrackballRadius
    ensures OnHemisphere(Trackball(x, y, env))
    ensures Trackball(x, y, env).z == 0.0 <==> PointerRadius(x, y, env) == TrackballRadius
  {
    var p := Trackball(x, y, env);
    InsideSphere(CentredX(x), CentredY(y), PointerRadius(x, y, env), Lift(x, y), p.z);
  }

  /** The projected point lies on the sphere of radius 350 with z >= 0, so
      y / 350 is in the domain of asin; z is 0 exactly when the re-centred
      pointer is on or outside the rim, which is when x / z divides by zero. */
  lemma {:induction false} TrackballOnSphere(x: real, y: real, env: Env)
    requires TrackballLaws(x, y, env)
    ensures OnHemisphere(Trackball(x, y, env))
    ensures -1.0 <= Trackball(x, y, env).y / TrackballRadius <= 1.0
    ensures Trackball(x, y, env).z == 0.0 <==> PointerRadius(x, y, env) >= TrackballRadius
  {
    if PointerRadius(x, y, env) > TrackballRadius {
      TrackballOutside(x, y, env);
    } else {
      TrackballInside(x, y, env);
    }
  }

  /** Off the rim the yaw angle is the library atan of x / z. */
  lemma {:induction false} SetMouseYaw(s: CameraState, x: real, y: real, env: Env)
    requires var p := Trackball(x, y, env); p.z != 0.0 && QuotientAt(env, p.x, p.z)
    ensures var p := Trackball(x, y, env);
      SetMouse(s, x, y, env).mouseLeftRight == env.atan(p.x / p.z)
  {
  }
}
