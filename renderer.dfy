/**
 * The renderer object: the orbit fields it updates every frame, the camera
 * vectors it rewrites in place, and the matrices it recomputes through the
 * matrix library. GL calls, shaders, textures and bitmaps are not modelled.
 */
module Rendering {
  import opened JavaMath
  import opened Linear
  import opened Camera
  import opened OrbitControl

  class Renderer {
    var xAngle: real
    var yAngle: real
    var xMovement: real
    var yMovement: real
    var viewportWidth: int
    var viewportHeight: int
    /** `mViewMatrix`, rebuilt whenever the camera moves. */
    var view: Mat4
    /** `mInverseViewMatrix`, computed once when the surface is created. */
    var inverseView: Mat4
    var projection: Mat4
    var inverseProjection: Mat4
    /** The `final float[3]` camera vectors, written in place. */
    const eye: array<real>
    const look: array<real>
    const up: array<real>

    /**
     * Three distinct arrays of length 3 whose first entries stay 0 (nothing
     * writes them), and the angle ranges every frame re-establishes.
     */
    ghost predicate Valid()
      reads this, eye, look, up
    {
      && eye.Length == 3 && look.Length == 3 && up.Length == 3
      && eye != look && eye != up && look != up
      && eye[0] == 0.0 && look[0] == 0.0 && up[0] == 0.0
      && Settled(OrbitState())
    }

    function OrbitState(): Orbit
      reads this
    {
      Orbit(xAngle, yAngle, xMovement, yMovement)
    }

    /** The camera the three arrays currently describe. */
    function CameraState(): Camera
      reads this, eye, look, up
      requires eye.Length == 3 && look.Length == 3 && up.Length == 3
    {
      Camera(Vec3(eye[0], eye[1], eye[2]), Vec3(look[0], look[1], look[2]), Vec3(up[0], up[1], up[2]))
    }

    /** The field initialisers: yaw -70 and pitch -16, at rest, eye on +z looking down -z. */
    constructor ()
      ensures Valid()
      ensures fresh(eye) && fresh(look) && fresh(up)
      ensures OrbitState() == Orbit(-70.0, -16.0, 0.0, 0.0)
      ensures CameraState() == Camera(Vec3(0.0, 0.0, 5.0), Vec3(0.0, 0.0, -5.0), Vec3(0.0, 1.0, 0.0))
      ensures viewportWidth == 0 && viewportHeight == 0
    {
      xAngle, yAngle := -70.0, -16.0;
      xMovement, yMovement := 0.0, 0.0;
      viewportWidth, viewportHeight := 0, 0;
      view, inverseView, projection, inverseProjection := ZERO, ZERO, ZERO, ZERO;
      eye := new real[3] [0.0, 0.0, 5.0];
      look := new real[3] [0.0, 0.0, -5.0];
      up := new real[3] [0.0, 1.0, 0.0];
    }

    /** `onSurfaceCreated`: build the view matrix and invert it, once. */
    method OnSurfaceCreated(lib: MatrixLib)
      requires Valid()
      modifies this`view, this`inverseView
      ensures Valid()
      ensures view == lib.lookAt(CameraState().eye, CameraState().look, CameraState().up)
      ensures inverseView == lib.invert(view)
    {
      CalculateViewMatrix(lib);
      inverseView := lib.invert(view);
    }

    /** `calculateViewMatrix`: `setLookAtM` from the current camera vectors. */
    method CalculateViewMatrix(lib: MatrixLib)
      requires Valid()
      modifies this`view
      ensures Valid()
      ensures view == lib.lookAt(CameraState().eye, CameraState().look, CameraState().up)
    {
      view := lib.lookAt(Vec3(eye[0], eye[1], eye[2]), Vec3(look[0], look[1], look[2]), Vec3(up[0], up[1], up[2]));
    }

    /** `onSurfaceChanged`: record the viewport and project at zoom scale 1. */
    method OnSurfaceChanged(width: int, height: int, lib: MatrixLib)
      requires Valid()
      requires height != 0
      modifies this`viewportWidth, this`viewportHeight, this`projection, this`inverseProjection
      ensures Valid()
      ensures viewportWidth == width && viewportHeight == height
      ensures projection == lib.frustum(FrustumFor(width, height, 1.0))
      ensures inverseProjection == lib.invert(projection)
    {
      viewportWidth := width;
      viewportHeight := height;
      CalculateProjection(width, height, 1.0, lib);
    }

    /**
     * `calculateProjection`: a frustum symmetric about the view axis, as wide
     * as the viewport's aspect ratio times `scale` and `scale` high, from
     * depth 1 to 10; then its inverse.
     */
    method CalculateProjection(width: int, height: int, scale: real, lib: MatrixLib)
      requires height != 0
      modifies this`projection, this`inverseProjection
      ensures projection == lib.frustum(FrustumFor(width, height, scale))
      ensures inverseProjection == lib.invert(projection)
    {
      var ratio := width as real / height as real;
      var left := -ratio * scale;
      var right := ratio * scale;
      var bottom := -1.0 * scale;
      var top := 1.0 * scale;
      var near := 1.0;
      var far := 10.0;
      assert Frustum(left, right, bottom, top, near, far) == FrustumFor(width, height, scale);
      projection := lib.frustum(Frustum(left, right, bottom, top, near, far));
      inverseProjection := lib.invert(projection);
    }

    /**
     * `updateEyeAngle`: put the eye at distance 5 tilted by `angle` degrees,
     * the look-at point opposite it and the up vector square to the view
     * direction, writing entries 1 and 2 of each array and leaving entry 0.
     */
    method UpdateEyeAngle(angle: real, m: MathLib, lib: MatrixLib)
      requires Valid()
      modifies this`view, eye, look, up
      ensures Valid()
      ensures eye[0] == old(eye[0]) && look[0] == old(look[0]) && up[0] == old(up[0])
      ensures CameraState() == OrbitCamera(angle, m)
      ensures view == lib.lookAt(CameraState().eye, CameraState().look, CameraState().up)
    {
      eye[1] := m.sin(angle * PI / 180.0) * 5.0;
      eye[2] := m.cos(angle * PI / 180.0) * 5.0;
      look[1] := m.sin(angle * PI / 180.0) * -5.0;
      look[2] := m.cos(angle * PI / 180.0) * -5.0;
      up[1] := m.cos(angle * PI / 180.0);
      up[2] := m.sin(angle * PI / 180.0) * -1.0;
      CalculateViewMatrix(lib);
    }

    /**
     * The orbit part of `onDrawFrame`: advance the orbit one frame, then aim
     * the camera at the negated pitch. The inverse view matrix is not
     * recomputed.
     */
    method DrawFrame(m: MathLib, lib: MatrixLib)
      requires Valid()
      modifies this, eye, look, up
      ensures Valid()
      ensures OrbitState() == FrameStep(old(OrbitState()))
      ensures CameraState() == OrbitCamera(-yAngle, m)
      ensures view == lib.lookAt(CameraState().eye, CameraState().look, CameraState().up)
      ensures inverseView == old(inverseView)
      ensures projection == old(projection) && inverseProjection == old(inverseProjection)
      ensures viewportWidth == old(viewportWidth) && viewportHeight == old(viewportHeight)
    {
      AdvanceOrbit();
      UpdateEyeAngle(-yAngle, m, lib);
    }

    /**
     * Decay or stop each velocity, integrate the angles, clamp pitch, wrap
     * yaw: the four field updates at the start of `onDrawFrame`, in order.
     */
    method AdvanceOrbit()
      modifies this`xAngle, this`yAngle, this`xMovement, this`yMovement
      ensures OrbitState() == FrameStep(old(OrbitState()))
    {
      ghost var after := FrameStep(OrbitState());
      var slowCoefficient := 0.93;
      var verticalMovementRatio := 0.7;
      var maxAngle := 45.0;

      if Abs(xMovement) < 0.08 {
        xMovement := 0.0;
      } else {
        xMovement := Round(xMovement * slowCoefficient * 100.0) as real / 100.0;
      }
      if Abs(yMovement) < 0.08 {
        yMovement := 0.0;
      } else {
        yMovement := Round(yMovement * slowCoefficient * 100.0) as real / 100.0;
      }
      assert xMovement == after.xMovement && yMovement == after.yMovement;
      xAngle := xAngle + xMovement;
      yAngle := yAngle + yMovement * verticalMovementRatio;

      yAngle := Min(maxAngle, Max(-maxAngle, yAngle));
      xAngle := JavaRem(xAngle + 360.0, 360.0);
    }
  }
}
