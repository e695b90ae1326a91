/**
 * The vector helpers of src/camera.cpp: free functions that read and write
 * float[3] vectors and float[16] matrix buffers through pointers.  A buffer is
 * an array<real>; its meaning is a Geometry value.
 */
module Vectors {
  import opened MathEnv
  import opened Geometry

  /** A 3-element buffer read as a vector. */
  function Of(a: array<real>): Vec3
    reads a
    requires a.Length == 3
  {
    Vec3(a[0], a[1], a[2])
  }

  /** The first nine entries of a matrix buffer read as a row-major 3x3 matrix. */
  function MatOf(m: array<real>): Mat3
    reads m
    requires m.Length >= 9
  {
    Mat3(Vec3(m[0], m[1], m[2]), Vec3(m[3], m[4], m[5]), Vec3(m[6], m[7], m[8]))
  }

  /** vectorSet: overwrite the three components. */
  method VectorSet(vec: array<real>, x: real, y: real, z: real)
    requires vec.Length == 3
    modifies vec
    ensures Of(vec) == Vec3(x, y, z)
  {
    vec[0] := x;
    vec[1] := y;
    vec[2] := z;
  }

  /** vectorAdd: v1 += v2 component by component.  v1 and v2 may be the same
      buffer, in which case v1 is doubled. */
  method VectorAdd(v1: array<real>, v2: array<real>)
    requires v1.Length == 3 && v2.Length == 3
    modifies v1
    ensures Of(v1) == Add(old(Of(v1)), old(Of(v2)))
  {
    v1[0] := v1[0] + v2[0];
    v1[1] := v1[1] + v2[1];
    v1[2] := v1[2] + v2[2];
  }

  /** vectorCopy: v1 := v2. */
  method VectorCopy(v1: array<real>, v2: array<real>)
    requires v1.Length == 3 && v2.Length == 3
    modifies v1
    ensures Of(v1) == old(Of(v2))
  {
    v1[0] := v2[0];
    v1[1] := v2[1];
    v1[2] := v2[2];
  }

  /** vectorMul: vec *= scalar component by component. */
  method VectorMul(vec: array<real>, scalar: real)
    requires vec.Length == 3
    modifies vec
    ensures Of(vec) == Scale(old(Of(vec)), scalar)
  {
    vec[0] := vec[0] * scalar;
    vec[1] := vec[1] * scalar;
    vec[2] := vec[2] * scalar;
  }

  /** lengthOfVec: the library square root of the sum of squares, which is the
      non-negative number whose square is that sum wherever sqrt is lawful. */
  function LengthOfVec(vec: array<real>, env: Env): (r: real)
    reads vec
    requires vec.Length == 3
    ensures SqrtAt(env, Dot(Of(vec), Of(vec))) ==> 0.0 <= r && r * r == vec[0] * vec[0] + vec[1] * vec[1] + vec[2] * vec[2]
  {
    env.sqrt(Dot(Of(vec), Of(vec)))
  }

  /** normalizeVec: divide by the length.  The source divides by zero for the
      zero vector; the model requires a nonzero length. */
  method NormalizeVec(vec: array<real>, env: Env)
    requires vec.Length == 3
    requires LengthOfVec(vec, env) != 0.0
    modifies vec
    ensures Of(vec) == Normalized(old(Of(vec)), env)
    ensures SqrtAt(env, Dot(old(Of(vec)), old(Of(vec)))) ==> Dot(Of(vec), Of(vec)) == 1.0
  {
    ghost var v := Of(vec);
    var k := 1.0 / LengthOfVec(vec, env);
    VectorMul(vec, k);
    if SqrtAt(env, Dot(v, v)) {
      NormalizedIsUnit(v, env);
    }
  }

  /** rotationMatrix: fill matrix[0..8] with Rodrigues' matrix for `axis` and
      `angle` (RodriguesOf spells out the nine entries as the source computes
      them, with cos2 = 1 - cos1); the rest of the 16-entry buffer is left as
      it was. */
  method RotationMatrix(matrix: array<real>, axis: array<real>, angle: real, env: Env)
    requires matrix.Length >= 9 && axis.Length == 3
    requires matrix != axis
    modifies matrix
    ensures MatOf(matrix) == Rodrigues(Of(axis), angle, env)
    ensures matrix[9..] == old(matrix[9..])
  {
    var cos1 := env.cos(angle);
    var sin1 := env.sin(angle);
    var m := RodriguesOf(Of(axis), cos1, sin1);

    matrix[0], matrix[1], matrix[2] := m.r0.x, m.r0.y, m.r0.z;
    matrix[3], matrix[4], matrix[5] := m.r1.x, m.r1.y, m.r1.z;
    matrix[6], matrix[7], matrix[8] := m.r2.x, m.r2.y, m.r2.z;
  }

  /** mulVecBy: v2 := matrix * v1.  The source writes v2 while it still reads
      v1, so the two must be different buffers. */
  method MulVecBy(v1: array<real>, matrix: array<real>, v2: array<real>)
    requires v1.Length == 3 && v2.Length == 3 && matrix.Length >= 9
    requires v2 != v1 && v2 != matrix
    modifies v2
    ensures Of(v2) == MatVec(MatOf(matrix), Of(v1))
  {
    v2[0] := v1[0] * matrix[0] + v1[1] * matrix[1] + v1[2] * matrix[2];
    v2[1] := v1[0] * matrix[3] + v1[1] * matrix[4] + v1[2] * matrix[5];
    v2[2] := v1[0] * matrix[6] + v1[1] * matrix[7] + v1[2] * matrix[8];
  }

  /** rotateAroundVec: v3 := v1 rotated around the axis v2 by `angle`, through
      a scratch 16-entry matrix.  v3 may be the axis buffer but not v1. */
  method RotateAroundVec(v1: array<real>, v2: array<real>, angle: real, v3: array<real>, env: Env)
    requires v1.Length == 3 && v2.Length == 3 && v3.Length == 3
    requires v3 != v1
    modifies v3
    ensures Of(v3) == Rotate(old(Of(v1)), old(Of(v2)), angle, env)
  {
    var matrix := new real[16];
    RotationMatrix(matrix, v2, angle, env);
    MulVecBy(v1, matrix, v3);
  }
}
