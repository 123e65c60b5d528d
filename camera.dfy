/**
 * Camera state of the renderer: where `updateEyeAngle` puts the eye, the
 * look-at point and the up vector for a given pitch, and the frustum bounds
 * `calculateProjection` hands to the matrix library.
 */
module Camera {
  import opened JavaMath
  import opened Linear

  /** Distance of the eye from the globe's centre. */
  const EYE_DISTANCE: real := 5.0
  const NEAR: real := 1.0
  const FAR: real := 10.0

  datatype Camera = Camera(eye: Vec3, look: Vec3, up: Vec3)

  /** The eye at distance 5 in the y-z plane, tilted by `angle` degrees. */
  function OrbitCamera(angle: real, m: MathLib): (cam: Camera)
    ensures cam.eye.x == 0.0 && cam.look.x == 0.0 && cam.up.x == 0.0
  {
    var s := m.sin(Radians(angle));
    var c := m.cos(Radians(angle));
    Camera(
      Vec3(0.0, s * EYE_DISTANCE, c * EYE_DISTANCE),
      Vec3(0.0, s * -EYE_DISTANCE, c * -EYE_DISTANCE),
      Vec3(0.0, c, s * -1.0))
  }

  /**
   * Whatever the pitch, the eye is 5 from the centre, the look-at point is the
   * eye mirrored through the centre, and the up vector is a unit vector
   * orthogonal to the viewing direction.
   */
  lemma OrbitCameraGeometry(angle: real, m: MathLib)
    requires Sound(m)
    ensures var cam := OrbitCamera(angle, m);
      && Dot3(cam.eye, cam.eye) == EYE_DISTANCE * EYE_DISTANCE
      && cam.look == Vec3(-cam.eye.x, -cam.eye.y, -cam.eye.z)
      && Dot3(cam.up, cam.up) == 1.0
      && Dot3(cam.up, Sub3(cam.look, cam.eye)) == 0.0
  {
    var s := m.sin(Radians(angle));
    var c := m.cos(Radians(angle));
    assert s * s + c * c == 1.0;
  }

  /** The arguments of the frustum the projection matrix is built from. */
  datatype Frustum = Frustum(left: real, right: real, bottom: real, top: real, near: real, far: real)

  /** The frustum `calculateProjection(width, height, scale)` asks for. */
  function FrustumFor(width: int, height: int, scale: real): (f: Frustum)
    requires height != 0
    ensures f.left == -f.right && f.bottom == -f.top
    ensures f.top == scale
    ensures f.right * height as real == f.top * width as real
    ensures f.near == NEAR && f.far == FAR
  {
    var ratio := width as real / height as real;
    assert ratio * scale * height as real == scale * width as real;
    Frustum(-ratio * scale, ratio * scale, -1.0 * scale, 1.0 * scale, NEAR, FAR)
  }

  /** A smaller zoom scale gives a narrower frustum: the globe looks bigger. */
  lemma {:induction false} SmallerScaleNarrowsFrustum(width: int, height: int, s1: real, s2: real)
    requires width > 0 && height > 0
    requires s1 < s2
    ensures FrustumFor(width, height, s1).right < FrustumFor(width, height, s2).right
    ensures FrustumFor(width, height, s1).top < FrustumFor(width, height, s2).top
  {
    var ratio := width as real / height as real;
    assert ratio > 0.0;
    assert ratio * (s2 - s1) > 0.0;
  }

  /**
   * android.opengl.Matrix as the model sees it: `setLookAtM`, `frustumM` and
   * `invertM`, whose output matrices are opaque.
   */
  datatype MatrixLib = MatrixLib(
    lookAt: (Vec3, Vec3, Vec3) -> Mat4,
    frustum: Frustum -> Mat4,
    invert: Mat4 -> Mat4)
}
