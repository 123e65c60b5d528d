/**
 * The fixed-size vectors and 4x4 matrices of the viewer. A matrix is the
 * 16-entry float array of the source; `MulMatVec` indexes it row-major
 * (row i is entries 4i .. 4i+3), exactly as `multiplyMat4ByVec4` does,
 * whatever layout the library that produced the matrix used.
 */
module Linear {

  datatype Vec3 = Vec3(x: real, y: real, z: real)

  datatype Vec4 = Vec4(x: real, y: real, z: real, w: real)

  type Mat4 = s: seq<real> | |s| == 16 witness seq(16, _ => 0.0)

  /** A freshly allocated `float[16]`: every entry zero. */
  const ZERO: Mat4 := seq(16, _ => 0.0)

  function Dot3(u: Vec3, v: Vec3): real
  {
    u.x * v.x + u.y * v.y + u.z * v.z
  }

  function Sub3(u: Vec3, v: Vec3): Vec3
  {
    Vec3(u.x - v.x, u.y - v.y, u.z - v.z)
  }

  /** The 4x4 identity matrix (the same in either layout). */
  const IDENTITY: Mat4 := [1.0, 0.0, 0.0, 0.0,
                           0.0, 1.0, 0.0, 0.0,
                           0.0, 0.0, 1.0, 0.0,
                           0.0, 0.0, 0.0, 1.0]

  /** Under row-major indexing, the bottom row is (0, 0, 0, 1): the matrix is an affine map. */
  predicate IsAffine(m: Mat4)
  {
    m[12] == 0.0 && m[13] == 0.0 && m[14] == 0.0 && m[15] == 1.0
  }

  /**
   * multiplyMat4ByVec4: entry i of the result is row i of `m` times `v`.
   * The identity leaves every vector alone, and an affine matrix keeps `w`,
   * so it maps directions (w = 0) to directions and points (w = 1) to points.
   */
  function MulMatVec(m: Mat4, v: Vec4): (r: Vec4)
    ensures m == IDENTITY ==> r == v
    ensures IsAffine(m) ==> r.w == v.w
  {
    Vec4(
      (m[0] * v.x) + (m[1] * v.y) + (m[2] * v.z) + (m[3] * v.w),
      (m[4] * v.x) + (m[5] * v.y) + (m[6] * v.z) + (m[7] * v.w),
      (m[8] * v.x) + (m[9] * v.y) + (m[10] * v.z) + (m[11] * v.w),
      (m[12] * v.x) + (m[13] * v.y) + (m[14] * v.z) + (m[15] * v.w))
  }

  /** `a` and `b` agree everywhere except possibly at entries 3, 7, 11 and 15. */
  predicate AgreeOffColumn3(a: Mat4, b: Mat4)
  {
    && a[0] == b[0] && a[1] == b[1] && a[2] == b[2]
    && a[4] == b[4] && a[5] == b[5] && a[6] == b[6]
    && a[8] == b[8] && a[9] == b[9] && a[10] == b[10]
    && a[12] == b[12] && a[13] == b[13] && a[14] == b[14]
  }

  /** `a` and `b` agree on the first two rows, entries 0 to 7. */
  predicate AgreeOnRows01(a: Mat4, b: Mat4)
  {
    forall i :: 0 <= i < 8 ==> a[i] == b[i]
  }

  /** Multiplying a direction (w = 0) never reads entries 3, 7, 11, 15. */
  lemma DirectionIgnoresColumn3(a: Mat4, b: Mat4, v: Vec4)
    requires AgreeOffColumn3(a, b)
    requires v.w == 0.0
    ensures MulMatVec(a, v) == MulMatVec(b, v)
  {
  }
}
