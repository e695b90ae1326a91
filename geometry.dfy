/**
 * Value-level 3-D vectors and 3x3 matrices over the reals: the meaning of the
 * float[3] and float[16] buffers that src/camera.cpp manipulates.
 */
module Geometry {
  import opened MathEnv

  datatype Vec3 = Vec3(x: real, y: real, z: real)

  /** A 3x3 matrix stored by rows, as rotationMatrix lays it out in
      matrix[0..2], matrix[3..5] and matrix[6..8]. */
  datatype Mat3 = Mat3(r0: Vec3, r1: Vec3, r2: Vec3)

  const Zero := Vec3(0.0, 0.0, 0.0)
  const Identity := Mat3(Vec3(1.0, 0.0, 0.0), Vec3(0.0, 1.0, 0.0), Vec3(0.0, 0.0, 1.0))

  function Add(u: Vec3, v: Vec3): Vec3 { Vec3(u.x + v.x, u.y + v.y, u.z + v.z) }

  function Sub(u: Vec3, v: Vec3): Vec3 { Vec3(u.x - v.x, u.y - v.y, u.z - v.z) }

  function Scale(v: Vec3, k: real): Vec3 { Vec3(v.x * k, v.y * k, v.z * k) }

  function Dot(u: Vec3, v: Vec3): real { u.x * v.x + u.y * v.y + u.z * v.z }

  function Cross(u: Vec3, v: Vec3): Vec3
  {
    Vec3(u.y * v.z - u.z * v.y, u.z * v.x - u.x * v.z, u.x * v.y - u.y * v.x)
  }

  /** Row-major matrix times column vector. */
  function MatVec(m: Mat3, v: Vec3): Vec3 { Vec3(Dot(m.r0, v), Dot(m.r1, v), Dot(m.r2, v)) }

  function Transpose(m: Mat3): Mat3
  {
    Mat3(Vec3(m.r0.x, m.r1.x, m.r2.x), Vec3(m.r0.y, m.r1.y, m.r2.y), Vec3(m.r0.z, m.r1.z, m.r2.z))
  }

  /** Rodrigues' rotation matrix for a unit `axis`, given c = cos(angle) and
      s = sin(angle), entry by entry as rotationMatrix fills it. */
  function RodriguesOf(axis: Vec3, c: real, s: real): Mat3
  {
    Mat3(Vec3(c + axis.x * axis.x * (1.0 - c), axis.x * axis.y * (1.0 - c) - axis.z * s, axis.x * axis.z * (1.0 - c) + axis.y * s),
         Vec3(axis.y * axis.x * (1.0 - c) + axis.z * s, c + axis.y * axis.y * (1.0 - c), axis.y * axis.z * (1.0 - c) - axis.x * s),
         Vec3(axis.z * axis.x * (1.0 - c) - axis.y * s, axis.z * axis.y * (1.0 - c) + axis.x * s, c + axis.z * axis.z * (1.0 - c)))
  }

  /** The rotation matrix for `axis` and `angle`, through the library's cos and sin. */
  function Rodrigues(axis: Vec3, angle: real, env: Env): Mat3
  {
    RodriguesOf(axis, env.cos(angle), env.sin(angle))
  }

  /** v rotated around `axis` by `angle`. */
  function Rotate(v: Vec3, axis: Vec3, angle: real, env: Env): Vec3
  {
    MatVec(Rodrigues(axis, angle, env), v)
  }

  /** The magnitude, through the library's sqrt. */
  function Length(v: Vec3, env: Env): real { env.sqrt(Dot(v, v)) }

  /** v divided by its magnitude, as normalizeVec computes it. */
  function Normalized(v: Vec3, env: Env): Vec3
    requires Length(v, env) != 0.0
  {
    Scale(v, 1.0 / Length(v, env))
  }

  /** Rodrigues' formula in vector form: c v + (1 - c)(a.v) a + s (a x v). */
  function VectorForm(v: Vec3, a: Vec3, c: real, s: real): Vec3
  {
    Vec3(v.x * c + a.x * ((1.0 - c) * Dot(a, v)) + Cross(a, v).x * s,
         v.y * c + a.y * ((1.0 - c) * Dot(a, v)) + Cross(a, v).y * s,
         v.z * c + a.z * ((1.0 - c) * Dot(a, v)) + Cross(a, v).z * s)
  }

  /** At angle 0 the rotation matrix is the identity, so rotating changes nothing. */
  lemma RodriguesAtZero(axis: Vec3, env: Env)
    requires TrigAtZero(env)
    ensures Rodrigues(axis, 0.0, env) == Identity
    ensures forall v :: Rotate(v, axis, 0.0, env) == v
  {
  }

  /** Each off-diagonal pair of the matrix differs only in the sign of its
      sin term: flipping the sign of sin transposes the matrix. */
  lemma RodriguesOfTranspose(axis: Vec3, c: real, s: real)
    ensures RodriguesOf(axis, c, -s) == Transpose(RodriguesOf(axis, c, s))
  {
  }

  /** Negating the angle transposes the rotation matrix, given that sin is odd
      and cos is even at that angle. */
  lemma {:induction false} RodriguesNegatedIsTranspose(axis: Vec3, angle: real, env: Env)
    requires env.sin(-angle) == -env.sin(angle) && env.cos(-angle) == env.cos(angle)
    ensures Rodrigues(axis, -angle, env) == Transpose(Rodrigues(axis, angle, env))
  {
    RodriguesOfTranspose(axis, env.cos(angle), env.sin(angle));
  }

  // The proofs below keep two kinds of step apart: identities on plain reals,
  // whose parameters stand for coordinates and dot products, and wrappers that
  // only unfold definitions to instantiate them.

  /** First coordinate of the matrix product equals that of the vector form. */
  lemma RowX(vx: real, vy: real, vz: real, ax: real, ay: real, az: real, c: real, s: real,
             d: real, cx: real, px: real, fx: real)
    requires d == ax * vx + ay * vy + az * vz
    requires cx == ay * vz - az * vy
    requires px == (c + ax * ax * (1.0 - c)) * vx + (ax * ay * (1.0 - c) - az * s) * vy + (ax * az * (1.0 - c) + ay * s) * vz
    requires fx == vx * c + ax * ((1.0 - c) * d) + cx * s
    ensures px == fx
  {
  }

  lemma RowY(vx: real, vy: real, vz: real, ax: real, ay: real, az: real, c: real, s: real,
             d: real, cy: real, py: real, fy: real)
    requires d == ax * vx + ay * vy + az * vz
    requires cy == az * vx - ax * vz
    requires py == (ay * ax * (1.0 - c) + az * s) * vx + (c + ay * ay * (1.0 - c)) * vy + (ay * az * (1.0 - c) - ax * s) * vz
    requires fy == vy * c + ay * ((1.0 - c) * d) + cy * s
    ensures py == fy
  {
  }

  lemma RowZ(vx: real, vy: real, vz: real, ax: real, ay: real, az: real, c: real, s: real,
             d: real, cz: real, pz: real, fz: real)
    requires d == ax * vx + ay * vy + az * vz
    requires cz == ax * vy - ay * vx
    requires pz == (az * ax * (1.0 - c) - ay * s) * vx + (az * ay * (1.0 - c) + ax * s) * vy + (c + az * az * (1.0 - c)) * vz
    requires fz == vz * c + az * ((1.0 - c) * d) + cz * s
    ensures pz == fz
  {
  }

  // Unfolding steps for the wrappers.

  /** A row dotted with a vector, with the row entries as atoms. */
  lemma DotOfRow(e0: real, e1: real, e2: real, v: Vec3)
    ensures Dot(Vec3(e0, e1, e2), v) == e0 * v.x + e1 * v.y + e2 * v.z
  {
  }

  lemma ProductX(v: Vec3, a: Vec3, c: real, s: real)
    ensures MatVec(RodriguesOf(a, c, s), v).x
         == (c + a.x * a.x * (1.0 - c)) * v.x + (a.x * a.y * (1.0 - c) - a.z * s) * v.y + (a.x * a.z * (1.0 - c) + a.y * s) * v.z
  {
    var r := RodriguesOf(a, c, s).r0;
    assert MatVec(RodriguesOf(a, c, s), v).x == Dot(r, v);
    DotOfRow(r.x, r.y, r.z, v);
  }

  lemma ProductY(v: Vec3, a: Vec3, c: real, s: real)
    ensures MatVec(RodriguesOf(a, c, s), v).y
         == (a.y * a.x * (1.0 - c) + a.z * s) * v.x + (c + a.y * a.y * (1.0 - c)) * v.y + (a.y * a.z * (1.0 - c) - a.x * s) * v.z
  {
    var r := RodriguesOf(a, c, s).r1;
    assert MatVec(RodriguesOf(a, c, s), v).y == Dot(r, v);
    DotOfRow(r.x, r.y, r.z, v);
  }

  lemma ProductZ(v: Vec3, a: Vec3, c: real, s: real)
    ensures MatVec(RodriguesOf(a, c, s), v).z
         == (a.z * a.x * (1.0 - c) - a.y * s) * v.x + (a.z * a.y * (1.0 - c) + a.x * s) * v.y + (c + a.z * a.z * (1.0 - c)) * v.z
  {
    var r := RodriguesOf(a, c, s).r2;
    assert MatVec(RodriguesOf(a, c, s), v).z == Dot(r, v);
    DotOfRow(r.x, r.y, r.z, v);
  }

  lemma FormX(v: Vec3, a: Vec3, c: real, s: real)
    ensures VectorForm(v, a, c, s).x == v.x * c + a.x * ((1.0 - c) * Dot(a, v)) + Cross(a, v).x * s
  {
  }

  lemma FormY(v: Vec3, a: Vec3, c: real, s: real)
    ensures VectorForm(v, a, c, s).y == v.y * c + a.y * ((1.0 - c) * Dot(a, v)) + Cross(a, v).y * s
  {
  }

  lemma FormZ(v: Vec3, a: Vec3, c: real, s: real)
    ensures VectorForm(v, a, c, s).z == v.z * c + a.z * ((1.0 - c) * Dot(a, v)) + Cross(a, v).z * s
  {
  }

  lemma DotUnfold(u: Vec3, v: Vec3)
    ensures Dot(u, v) == u.x * v.x + u.y * v.y + u.z * v.z
  {
  }

  lemma CrossUnfold(u: Vec3, v: Vec3)
    ensures Cross(u, v).x == u.y * v.z - u.z * v.y
    ensures Cross(u, v).y == u.z * v.x - u.x * v.z
    ensures Cross(u, v).z == u.x * v.y - u.y * v.x
  {
  }

  // The matrix product and the vector form agree coordinate by coordinate.

  lemma {:induction false} MatrixX(v: Vec3, a: Vec3, c: real, s: real)
    ensures MatVec(RodriguesOf(a, c, s), v).x == VectorForm(v, a, c, s).x
  {
    ProductX(v, a, c, s);
    FormX(v, a, c, s);
    DotUnfold(a, v);
    CrossUnfold(a, v);
    RowX(v.x, v.y, v.z, a.x, a.y, a.z, c, s, Dot(a, v), Cross(a, v).x,
         MatVec(RodriguesOf(a, c, s), v).x, VectorForm(v, a, c, s).x);
  }

  lemma {:induction false} MatrixY(v: Vec3, a: Vec3, c: real, s: real)
    ensures MatVec(RodriguesOf(a, c, s), v).y == VectorForm(v, a, c, s).y
  {
    ProductY(v, a, c, s);
    FormY(v, a, c, s);
    DotUnfold(a, v);
    CrossUnfold(a, v);
    RowY(v.x, v.y, v.z, a.x, a.y, a.z, c, s, Dot(a, v), Cross(a, v).y,
         MatVec(RodriguesOf(a, c, s), v).y, VectorForm(v, a, c, s).y);
  }

  lemma {:induction false} MatrixZ(v: Vec3, a: Vec3, c: real, s: real)
    ensures MatVec(RodriguesOf(a, c, s), v).z == VectorForm(v, a, c, s).z
  {
    ProductZ(v, a, c, s);
    FormZ(v, a, c, s);
    DotUnfold(a, v);
    CrossUnfold(a, v);
    RowZ(v.x, v.y, v.z, a.x, a.y, a.z, c, s, Dot(a, v), Cross(a, v).z,
         MatVec(RodriguesOf(a, c, s), v).z, VectorForm(v, a, c, s).z);
  }

  /** The matrix product equals the vector form of Rodrigues' formula. */
  lemma {:induction false} MatrixIsVectorForm(v: Vec3, a: Vec3, c: real, s: real)
    ensures MatVec(RodriguesOf(a, c, s), v) == VectorForm(v, a, c, s)
  {
    MatrixX(v, a, c, s);
    MatrixY(v, a, c, s);
    MatrixZ(v, a, c, s);
  }

  lemma FixedRow(p: real, c: real, s: real, d: real, cp: real, fp: real)
    requires d == 1.0 && cp == 0.0
    requires fp == p * c + p * ((1.0 - c) * d) + cp * s
    ensures fp == p
  {
  }

  /** Rotating a unit axis around itself leaves it where it is. */
  lemma {:induction false} RotateFixesAxis(a: Vec3, angle: real, env: Env)
    requires Dot(a, a) == 1.0
    ensures Rotate(a, a, angle, env) == a
  {
    var c, s := env.cos(angle), env.sin(angle);
    MatrixIsVectorForm(a, a, c, s);
    var f, axa := VectorForm(a, a, c, s), Cross(a, a);
    FormX(a, a, c, s);
    FormY(a, a, c, s);
    FormZ(a, a, c, s);
    CrossUnfold(a, a);
    FixedRow(a.x, c, s, Dot(a, a), axa.x, f.x);
    FixedRow(a.y, c, s, Dot(a, a), axa.y, f.y);
    FixedRow(a.z, c, s, Dot(a, a), axa.z, f.z);
  }

  /** a . w == a . v when w is the vector form of v around the unit vector a. */
  lemma AxisDotRow(vx: real, vy: real, vz: real, ax: real, ay: real, az: real, c: real, s: real,
                   d: real, cx: real, cy: real, cz: real, wx: real, wy: real, wz: real)
    requires d == ax * vx + ay * vy + az * vz
    requires cx == ay * vz - az * vy && cy == az * vx - ax * vz && cz == ax * vy - ay * vx
    requires ax * ax + ay * ay + az * az == 1.0
    requires wx == vx * c + ax * ((1.0 - c) * d) + cx * s
    requires wy == vy * c + ay * ((1.0 - c) * d) + cy * s
    requires wz == vz * c + az * ((1.0 - c) * d) + cz * s
    ensures ax * wx + ay * wy + az * wz == d
  {
    var k := (1.0 - c) * d;
    assert ax * cx + ay * cy + az * cz == 0.0;
    assert ax * wx == c * (ax * vx) + k * (ax * ax) + s * (ax * cx);
    assert ay * wy == c * (ay * vy) + k * (ay * ay) + s * (ay * cy);
    assert az * wz == c * (az * vz) + k * (az * az) + s * (az * cz);
    assert ax * wx + ay * wy + az * wz == c * d + k * (ax * ax + ay * ay + az * az) + s * (ax * cx + ay * cy + az * cz);
  }

  lemma {:induction false} AxisDotUnchanged(v: Vec3, a: Vec3, c: real, s: real)
    requires Dot(a, a) == 1.0
    ensures Dot(a, VectorForm(v, a, c, s)) == Dot(a, v)
  {
    var w, axv := VectorForm(v, a, c, s), Cross(a, v);
    DotUnfold(a, v);
    DotUnfold(a, w);
    DotUnfold(a, a);
    CrossUnfold(a, v);
    FormX(v, a, c, s);
    FormY(v, a, c, s);
    FormZ(v, a, c, s);
    AxisDotRow(v.x, v.y, v.z, a.x, a.y, a.z, c, s, Dot(a, v), axv.x, axv.y, axv.z, w.x, w.y, w.z);
  }

  /** One coordinate of a x w, for w the vector form of v: c (a x v) + s ((a.v) a - v). */
  lemma AxisCrossRow(p: real, q: real, r: real, vp: real, vq: real, vr: real, c: real, s: real,
                     d: real, cp: real, cq: real, cr: real, wq: real, wr: real)
    requires d == p * vp + q * vq + r * vr
    requires cp == q * vr - r * vq && cq == r * vp - p * vr && cr == p * vq - q * vp
    requires p * p + q * q + r * r == 1.0
    requires wq == vq * c + q * ((1.0 - c) * d) + cq * s
    requires wr == vr * c + r * ((1.0 - c) * d) + cr * s
    ensures q * wr - r * wq == cp * c + (p * d - vp) * s
  {
    var k := (1.0 - c) * d;
    assert q * cr - r * cq == p * d - vp * (p * p + q * q + r * r);
    assert q * wr == c * (q * vr) + k * (q * r) + s * (q * cr);
    assert r * wq == c * (r * vq) + k * (r * q) + s * (r * cq);
  }

  lemma {:induction false} AxisCrossX(v: Vec3, a: Vec3, c: real, s: real)
    requires Dot(a, a) == 1.0
    ensures Cross(a, VectorForm(v, a, c, s)).x == Cross(a, v).x * c + (a.x * Dot(a, v) - v.x) * s
  {
    var w, axv := VectorForm(v, a, c, s), Cross(a, v);
    DotUnfold(a, v);
    DotUnfold(a, a);
    CrossUnfold(a, v);
    CrossUnfold(a, w);
    FormY(v, a, c, s);
    FormZ(v, a, c, s);
    AxisCrossRow(a.x, a.y, a.z, v.x, v.y, v.z, c, s, Dot(a, v), axv.x, axv.y, axv.z, w.y, w.z);
  }

  lemma {:induction false} AxisCrossY(v: Vec3, a: Vec3, c: real, s: real)
    requires Dot(a, a) == 1.0
    ensures Cross(a, VectorForm(v, a, c, s)).y == Cross(a, v).y * c + (a.y * Dot(a, v) - v.y) * s
  {
    var w, axv := VectorForm(v, a, c, s), Cross(a, v);
    DotUnfold(a, v);
    DotUnfold(a, a);
    CrossUnfold(a, v);
    CrossUnfold(a, w);
    FormZ(v, a, c, s);
    FormX(v, a, c, s);
    AxisCrossRow(a.y, a.z, a.x, v.y, v.z, v.x, c, s, Dot(a, v), axv.y, axv.z, axv.x, w.z, w.x);
  }

  lemma {:induction false} AxisCrossZ(v: Vec3, a: Vec3, c: real, s: real)
    requires Dot(a, a) == 1.0
    ensures Cross(a, VectorForm(v, a, c, s)).z == Cross(a, v).z * c + (a.z * Dot(a, v) - v.z) * s
  {
    var w, axv := VectorForm(v, a, c, s), Cross(a, v);
    DotUnfold(a, v);
    DotUnfold(a, a);
    CrossUnfold(a, v);
    CrossUnfold(a, w);
    FormX(v, a, c, s);
    FormY(v, a, c, s);
    AxisCrossRow(a.z, a.x, a.y, v.z, v.x, v.y, c, s, Dot(a, v), axv.z, axv.x, axv.y, w.x, w.y);
  }

  /** One coordinate of the vector form, from scalars: the coordinate v of
      the vector, a of the axis, the dot product d and the cross coordinate cv. */
  function Row(v: real, a: real, d: real, cv: real, c: real, s: real): real
  {
    v * c + a * ((1.0 - c) * d) + cv * s
  }

  /** One coordinate of rotating back by -s: u, the vector form of w with -s, is v again. */
  lemma InverseRow(v: real, a: real, d: real, dw: real, cv: real, cw: real, w: real, u: real, c: real, s: real)
    requires s * s + c * c == 1.0
    requires w == Row(v, a, d, cv, c, s)
    requires dw == d
    requires cw == cv * c + (a * d - v) * s
    requires u == Row(w, a, dw, cw, c, -s)
    ensures u == v
  {
    calc {
      u;
      v * (c * c + s * s) + a * d * (c * (1.0 - c) + (1.0 - c) - s * s);
      v;
    }
  }

  // Rotating back by -s restores each coordinate.

  lemma {:induction false} InverseX(v: Vec3, a: Vec3, c: real, s: real)
    requires Dot(a, a) == 1.0
    requires s * s + c * c == 1.0
    ensures VectorForm(VectorForm(v, a, c, s), a, c, -s).x == v.x
  {
    var w := VectorForm(v, a, c, s);
    AxisDotUnchanged(v, a, c, s);
    AxisCrossX(v, a, c, s);
    FormX(v, a, c, s);
    FormX(w, a, c, -s);
    assert w.x == Row(v.x, a.x, Dot(a, v), Cross(a, v).x, c, s);
    assert VectorForm(w, a, c, -s).x == Row(w.x, a.x, Dot(a, w), Cross(a, w).x, c, -s);
    InverseRow(v.x, a.x, Dot(a, v), Dot(a, w), Cross(a, v).x, Cross(a, w).x, w.x, VectorForm(w, a, c, -s).x, c, s);
  }

  lemma {:induction false} InverseY(v: Vec3, a: Vec3, c: real, s: real)
    requires Dot(a, a) == 1.0
    requires s * s + c * c == 1.0
    ensures VectorForm(VectorForm(v, a, c, s), a, c, -s).y == v.y
  {
    var w := VectorForm(v, a, c, s);
    AxisDotUnchanged(v, a, c, s);
    AxisCrossY(v, a, c, s);
    FormY(v, a, c, s);
    FormY(w, a, c, -s);
    assert w.y == Row(v.y, a.y, Dot(a, v), Cross(a, v).y, c, s);
    assert VectorForm(w, a, c, -s).y == Row(w.y, a.y, Dot(a, w), Cross(a, w).y, c, -s);
    InverseRow(v.y, a.y, Dot(a, v), Dot(a, w), Cross(a, v).y, Cross(a, w).y, w.y, VectorForm(w, a, c, -s).y, c, s);
  }

  lemma {:induction false} InverseZ(v: Vec3, a: Vec3, c: real, s: real)
    requires Dot(a, a) == 1.0
    requires s * s + c * c == 1.0
    ensures VectorForm(VectorForm(v, a, c, s), a, c, -s).z == v.z
  {
    var w := VectorForm(v, a, c, s);
    AxisDotUnchanged(v, a, c, s);
    AxisCrossZ(v, a, c, s);
    FormZ(v, a, c, s);
    FormZ(w, a, c, -s);
    assert w.z == Row(v.z, a.z, Dot(a, v), Cross(a, v).z, c, s);
    assert VectorForm(w, a, c, -s).z == Row(w.z, a.z, Dot(a, w), Cross(a, w).z, c, -s);
    InverseRow(v.z, a.z, Dot(a, v), Dot(a, w), Cross(a, v).z, Cross(a, w).z, w.z, VectorForm(w, a, c, -s).z, c, s);
  }

  /** Vector form with -s undoes vector form with s around a unit axis. */
  lemma {:induction false} VectorFormInverse(v: Vec3, a: Vec3, c: real, s: real)
    requires Dot(a, a) == 1.0
    requires s * s + c * c == 1.0
    ensures VectorForm(VectorForm(v, a, c, s), a, c, -s) == v
  {
    InverseX(v, a, c, s);
    InverseY(v, a, c, s);
    InverseZ(v, a, c, s);
  }

  /** Rotation by -angle undoes rotation by angle around the same unit axis. */
  lemma {:induction false} RotateInverse(v: Vec3, a: Vec3, angle: real, env: Env)
    requires Dot(a, a) == 1.0
    requires TrigAt(env, angle)
    ensures Rotate(Rotate(v, a, angle, env), a, -angle, env) == v
  {
    var c, s := env.cos(angle), env.sin(angle);
    var w := Rotate(v, a, angle, env);
    MatrixIsVectorForm(v, a, c, s);
    MatrixIsVectorForm(w, a, c, -s);
    VectorFormInverse(v, a, c, s);
  }

  /** With a lawful sqrt, a normalized vector has unit length. */
  lemma {:induction false} NormalizedIsUnit(v: Vec3, env: Env)
    requires SqrtAt(env, Dot(v, v))
    requires Length(v, env) != 0.0
    ensures Dot(Normalized(v, env), Normalized(v, env)) == 1.0
  {
    var l := Length(v, env);
    var k := 1.0 / l;
    assert l * l == Dot(v, v);
    assert Dot(Scale(v, k), Scale(v, k)) == Dot(v, v) * (k * k);
    assert (k * k) * (l * l) == 1.0;
  }
}
