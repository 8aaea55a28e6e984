/**
  The small part of Unity's maths library that the overfill geometry relies on,
  over the reals instead of single-precision floats: three-component vectors,
  quaternions acting on vectors, and Mathf's Min, Max and Abs.
 */
module UnityMath {

  /** A point or a ray direction in camera space; z is the forward axis. */
  datatype Vector3 = Vector3(x: real, y: real, z: real)

  /** A quaternion in Unity's field order (vector part first, scalar part last). */
  datatype Quaternion = Quaternion(x: real, y: real, z: real, w: real)

  /** The quaternion that leaves every vector where it is. */
  const Identity: Quaternion := Quaternion(0.0, 0.0, 0.0, 1.0)

  /** `s * v`: every component multiplied by the scalar. */
  function Scale(s: real, v: Vector3): Vector3 {
    Vector3(s * v.x, s * v.y, s * v.z)
  }

  function Add(u: Vector3, v: Vector3): Vector3 {
    Vector3(u.x + v.x, u.y + v.y, u.z + v.z)
  }

  /** The dot product of a row of coefficients with a vector. */
  function Dot(row: Vector3, v: Vector3): real {
    row.x * v.x + row.y * v.y + row.z * v.z
  }

  /**
    The rotation matrix of q, row by row, as Unity writes it with the doubled
    products of the quaternion's components.
   */
  function MatrixRow0(q: Quaternion): Vector3 {
    Vector3(1.0 - (q.y * (q.y * 2.0) + q.z * (q.z * 2.0)), q.x * (q.y * 2.0) - q.w * (q.z * 2.0), q.x * (q.z * 2.0) + q.w * (q.y * 2.0))
  }

  function MatrixRow1(q: Quaternion): Vector3 {
    Vector3(q.x * (q.y * 2.0) + q.w * (q.z * 2.0), 1.0 - (q.x * (q.x * 2.0) + q.z * (q.z * 2.0)), q.y * (q.z * 2.0) - q.w * (q.x * 2.0))
  }

  function MatrixRow2(q: Quaternion): Vector3 {
    Vector3(q.x * (q.z * 2.0) - q.w * (q.y * 2.0), q.y * (q.z * 2.0) + q.w * (q.x * 2.0), 1.0 - (q.x * (q.x * 2.0) + q.y * (q.y * 2.0)))
  }

  /**
    `q * v`: Unity applies a quaternion to a vector through the rotation
    matrix of q. The matrix is read off q directly, so the map is linear in v
    for every q (RotateScale, RotateAdd), and it keeps the coordinate along
    the axis a quaternion turns about (RotateKeepsAxis).
   */
  function Rotate(q: Quaternion, v: Vector3): Vector3 {
    Vector3(Dot(MatrixRow0(q), v), Dot(MatrixRow1(q), v), Dot(MatrixRow2(q), v))
  }

  lemma DotScale(row: Vector3, s: real, v: Vector3)
    ensures Dot(row, Scale(s, v)) == s * Dot(row, v)
  {
    assert row.x * (s * v.x) == s * (row.x * v.x);
    assert row.y * (s * v.y) == s * (row.y * v.y);
    assert row.z * (s * v.z) == s * (row.z * v.z);
  }

  /** Rotating a scaled vector is scaling the rotated vector. */
  lemma RotateScale(q: Quaternion, s: real, v: Vector3)
    ensures Rotate(q, Scale(s, v)) == Scale(s, Rotate(q, v))
  {
    DotScale(MatrixRow0(q), s, v);
    DotScale(MatrixRow1(q), s, v);
    DotScale(MatrixRow2(q), s, v);
  }

  /** Rotating a sum is summing the rotations. */
  lemma RotateAdd(q: Quaternion, u: Vector3, v: Vector3)
    ensures Rotate(q, Add(u, v)) == Add(Rotate(q, u), Rotate(q, v))
  {
  }

  /**
    A quaternion whose vector part lies along one coordinate axis turns about
    that axis and leaves the coordinate along it unchanged: with no x and y
    part the depth z is kept, and likewise for the other two axes.
   */
  lemma RotateKeepsAxis(q: Quaternion, v: Vector3)
    ensures q.x == 0.0 && q.y == 0.0 ==> Rotate(q, v).z == v.z
    ensures q.x == 0.0 && q.z == 0.0 ==> Rotate(q, v).y == v.y
    ensures q.y == 0.0 && q.z == 0.0 ==> Rotate(q, v).x == v.x
  {
  }

  /** The identity quaternion applied to any vector gives that vector back. */
  lemma RotateIdentity(v: Vector3)
    ensures Rotate(Identity, v) == v
  {
  }

  /** `Mathf.Max(a, b)`. */
  function Max(a: real, b: real): (m: real)
    ensures m >= a && m >= b
    ensures m == a || m == b
  {
    if a > b then a else b
  }

  /** `Mathf.Abs(a)`. */
  function Abs(a: real): (m: real)
    ensures m >= 0.0
    ensures m == a || m == -a
  {
    if a < 0.0 then -a else a
  }

  /**
    `Mathf.Min(values)` over a non-empty array: a left-to-right scan that
    keeps the running minimum, replacing it only by a strictly smaller value.
   */
  function MinOf(values: seq<real>): (m: real)
    requires |values| > 0
    ensures forall i :: 0 <= i < |values| ==> m <= values[i]
    ensures exists i :: 0 <= i < |values| && values[i] == m
  {
    if |values| == 1 then values[0]
    else
      var running := MinOf(values[..|values| - 1]);
      var last := values[|values| - 1];
      if last < running then last else running
  }

  /**
    `Mathf.Max(values)` over a non-empty array: the same scan keeping the
    running maximum.
   */
  function MaxOf(values: seq<real>): (m: real)
    requires |values| > 0
    ensures forall i :: 0 <= i < |values| ==> values[i] <= m
    ensures exists i :: 0 <= i < |values| && values[i] == m
  {
    if |values| == 1 then values[0]
    else
      var running := MaxOf(values[..|values| - 1]);
      var last := values[|values| - 1];
      if last > running then last else running
  }
}
