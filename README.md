# World3D globe viewer: orbit, gestures and picking

World3D is an Android app that shows a textured globe. A finger drags it, two
fingers zoom it, and a tap marks the tapped point on a map overlay and prints
its longitude and latitude. This project models the three pieces of logic
behind that and proves properties of each. The GL and Android API calls around
them are left out.

- **Orbit controller** (`OpenGLRenderer`). Every frame the two velocities decay
  by 0.93, are rounded to hundredths, and snap to zero below 0.08. The angles
  integrate them, with pitch at 0.7 times its velocity. Pitch is clamped to
  ±45°, yaw is wrapped with Java's `%`, and the camera is re-aimed at the
  negated pitch. `OrbitControl.FrameStep` is the pure step.
  `Rendering.Renderer` is the class whose methods update the same fields and
  the `eye`/`look`/`up` arrays in place, proved against that step.
- **Gesture state machine** (`OpenGLView.onTouchEvent`). `Gestures.Touch` is
  the pure transition over the seven gesture fields. `Gestures.Run` runs it
  over a stream of events. `View.TouchView.OnTouchEvent` is the source's
  switch written imperatively and proved to agree with `Touch`. It also writes
  the renderer's velocities and projection.
- **Pick pipeline** (the `ACTION_UP` branch and its helpers). The steps are:
  - screen to normalised device coordinates, then the ray through the two
    inverse matrices, with the row-major multiply exactly as written;
  - the smaller root of the ray-sphere quadratic, from the fixed origin (0, 0, 5);
  - rotation about the x axis by the pitch;
  - polar coordinates, the yaw shift, the longitude wrap and latitude clamp;
  - the pole band, the 1920×960 map pixel, and the hundredths and hemisphere
    letters of the coordinate text.

Floats are exact `real`s:
- `Math.round` is `floor(x + 1/2)`.
- Java's `%` is `a - b·trunc(a/b)`, which keeps the dividend's sign.
- `Math.PI` is the exact rational value of the double.

`sin`, `cos`, `sqrt` and `asin` come in a `MathLib` value. The predicate
`JavaMath.Sound` lists the only facts about them that the proofs use:
- sin² + cos² = 1;
- `sqrt` of a non-negative number is non-negative and squares back to it, and `sqrt(0) = 0`;
- `asin` maps [-1, 1] into [-π/2, π/2], with `asin(±1) = ±π/2`.

`android.opengl.Matrix` (`setLookAtM`, `frustumM`, `invertM`) is a `MatrixLib`
value whose output matrices are opaque.

A NaN in the source is an explicit `None` here. This covers a ray that misses
the globe (negative discriminant, or a zero direction). It also covers a
longitude taken at a pole, where `x / h` is `0 / 0`.

An unknown touch action throws `IllegalStateException`. Here that is the
`Illegal` effect, which ends an event stream. The hemisphere letter `N` for a
negative latitude is kept as coded.

## Model

| member | source | states |
|---|---|---|
| JavaMath.Round | app/src/main/java/com/example/world3d/OpenGLRenderer.java:269 | `Math.round` gives the integer within one half of its argument, a tie rounding up |
| JavaMath.JavaRem | app/src/main/java/com/example/world3d/OpenGLRenderer.java:282 | Java's `%` by a positive divisor has the dividend's sign, is smaller than the divisor in magnitude, and differs from the dividend by a whole number of divisors |
| JavaMath.JavaRemOnRange | app/src/main/java/com/example/world3d/OpenGLRenderer.java:282 | `%` leaves a dividend already in [0, b) unchanged |
| JavaMath.Radians | app/src/main/java/com/example/world3d/OpenGLRenderer.java:191 | `angle * Math.PI / 180` is the angle in radians: r·180 = degrees·π |
| OrbitControl.Decay | app/src/main/java/com/example/world3d/OpenGLRenderer.java:266-275 | a velocity becomes exactly 0 iff its magnitude is below 0.08. Otherwise it is `Math.round(v·93)/100`, pinned as v·93 − ½ < r·100 ≤ v·93 + ½ so a tie rounds up. It keeps its sign, strictly loses magnitude, and is a whole number of hundredths |
| OrbitControl.ClampPitch | app/src/main/java/com/example/world3d/OpenGLRenderer.java:280 | pitch ends in [-45, 45]. It is unchanged inside that range and pinned to the nearer bound outside it |
| OrbitControl.WrapYaw | app/src/main/java/com/example/world3d/OpenGLRenderer.java:282 | `(a + 360) % 360` lies in (-360, 360), and in [0, 360) when a ≥ -360. It is non-positive below -360 and differs from a by whole turns |
| OrbitControl.WrapYawKeepsNormal | app/src/main/java/com/example/world3d/OpenGLRenderer.java:282 | a yaw already in [0, 360) is not moved by the wrap |
| OrbitControl.YawWrapExample | app/src/main/java/com/example/world3d/OpenGLRenderer.java:276-282 | a yaw of 359 turned by 5 reads 4 |
| OrbitControl.FrameStep | app/src/main/java/com/example/world3d/OpenGLRenderer.java:259-282 | after any frame pitch is in [-45, 45] and yaw in (-360, 360), and yaw is in [0, 360) when the integrated yaw is ≥ -360. The new velocities are the decayed old ones. Yaw moves by the full new velocity up to whole turns. Pitch moves by 0.7 times its new velocity when that stays within ±45, and is pinned to exactly ±45 when it would overshoot |
| OrbitControl.AxesIndependent | app/src/main/java/com/example/world3d/OpenGLRenderer.java:266-282 | the new yaw and yaw velocity depend only on the old yaw and yaw velocity, and likewise for pitch |
| OrbitControl.SlowAxisStops | app/src/main/java/com/example/world3d/OpenGLRenderer.java:266-277 | from a normalised state, an axis whose velocity is below 0.08 ends the frame with velocity 0 and its angle unchanged |
| OrbitControl.CoastFromRest | app/src/main/java/com/example/world3d/OpenGLRenderer.java:266-267 | a zero velocity stays zero over any number of frames |
| OrbitControl.CoastHundredths | app/src/main/java/com/example/world3d/OpenGLRenderer.java:265-275 | a velocity of k hundredths is exactly 0 after more than \|k\| frames |
| OrbitControl.InertiaStops | app/src/main/java/com/example/world3d/OpenGLRenderer.java:265-275 | any velocity v is exactly 0 after `floor(100·\|v\|) + 2` frames with no input, and at every later frame |
| OrbitControl.FramesCoast | app/src/main/java/com/example/world3d/OpenGLRenderer.java:266-282 | over n frames each velocity evolves by decay alone, whatever the angles do |
| OrbitControl.OrbitComesToRest | app/src/main/java/com/example/world3d/OpenGLRenderer.java:259-282 | with no input the globe stops, with both velocities exactly 0 after finitely many frames |
| Camera.OrbitCamera | app/src/main/java/com/example/world3d/OpenGLRenderer.java:187-198 | the camera vectors for a pitch have x component 0 |
| Camera.OrbitCameraGeometry | app/src/main/java/com/example/world3d/OpenGLRenderer.java:187-198 | given sin²+cos²=1: the eye is at distance 5, the look-at point is the eye mirrored through the centre, and up is a unit vector orthogonal to look − eye |
| Camera.FrustumFor | app/src/main/java/com/example/world3d/OpenGLRenderer.java:224-234 | the frustum is symmetric: left = −right, bottom = −top, top = scale, right·height = scale·width, near 1 and far 10 |
| Camera.SmallerScaleNarrowsFrustum | app/src/main/java/com/example/world3d/OpenGLRenderer.java:224-234 | a smaller zoom scale gives a strictly narrower and lower frustum |
| Linear.MulMatVec | app/src/main/java/com/example/world3d/OpenGLView.java:236-243 | entry i is row i (entries 4i..4i+3) times v. The identity maps every vector to itself, and an affine matrix (bottom row 0 0 0 1) keeps w |
| Linear.DirectionIgnoresColumn3 | app/src/main/java/com/example/world3d/OpenGLView.java:236-243 | the row-major multiply of a vector with w = 0 does not read entries 3, 7, 11, 15 |
| Rendering.Renderer.constructor | app/src/main/java/com/example/world3d/OpenGLRenderer.java:85-101 | yaw -70, pitch -16, at rest; eye (0,0,5), look (0,0,-5), up (0,1,0) in three fresh arrays |
| Rendering.Renderer.OnSurfaceCreated | app/src/main/java/com/example/world3d/OpenGLRenderer.java:152-174 | the view matrix is the look-at of the current camera vectors, and the inverse view matrix is its inverse |
| Rendering.Renderer.CalculateViewMatrix | app/src/main/java/com/example/world3d/OpenGLRenderer.java:201-209 | the view matrix is rebuilt from the current camera arrays, and only the view matrix changes |
| Rendering.Renderer.OnSurfaceChanged | app/src/main/java/com/example/world3d/OpenGLRenderer.java:212-221 | records the viewport and projects at zoom scale 1 |
| Rendering.Renderer.CalculateProjection | app/src/main/java/com/example/world3d/OpenGLRenderer.java:224-240 | the projection is the frustum of `FrustumFor(width, height, scale)`, and its inverse is stored beside it |
| Rendering.Renderer.UpdateEyeAngle | app/src/main/java/com/example/world3d/OpenGLRenderer.java:187-198 | the three arrays hold the orbit camera for the angle. Entry 0 of each is untouched, and the view matrix is rebuilt |
| Rendering.Renderer.AdvanceOrbit | app/src/main/java/com/example/world3d/OpenGLRenderer.java:259-282 | the in-place decay, integrate, clamp and wrap of the four fields equals the pure frame step |
| Rendering.Renderer.DrawFrame | app/src/main/java/com/example/world3d/OpenGLRenderer.java:259-285 | the orbit fields take one frame step, then the camera is aimed at the negated new pitch. The inverse view, projection and viewport are untouched |
| Gestures.Masked | app/src/main/java/com/example/world3d/OpenGLView.java:45 | the masked action is a code in [0, 256) |
| Gestures.ZoomStep | app/src/main/java/com/example/world3d/OpenGLView.java:77 | the new zoom coefficient is in [0.25, 1]. It equals the unclamped step when that is in range, and is exactly 1 or 0.25 when the step overshoots |
| Gestures.Touch | app/src/main/java/com/example/world3d/OpenGLView.java:41-139 | Gesture rules (listed after the table) |
| Gestures.Run | app/src/main/java/com/example/world3d/OpenGLView.java:41-139 | a stream yields at most one effect per event. It stops early only right after an exception, and no effect but the last is an exception |
| Gestures.TapPicksOnce | app/src/main/java/com/example/world3d/OpenGLView.java:46-133 | with no movement pending, Down then Up picks exactly once, at the Down position, and leaves no movement pending |
| Gestures.MovementSuppressesPicks | app/src/main/java/com/example/world3d/OpenGLView.java:51-133 | once movement is seen, nothing picks before an UP has cleared it |
| Gestures.DragNeverPicks | app/src/main/java/com/example/world3d/OpenGLView.java:41-139 | Down, Move, then any events up to the final Up, never picks |
| Gestures.PicksBoundedByUps | app/src/main/java/com/example/world3d/OpenGLView.java:90-133 | only UP picks: a stream never picks more often than it has UP events |
| Gestures.IgnoreOnceSurvives | app/src/main/java/com/example/world3d/OpenGLView.java:59-88 | once set, `ignoreOnce` survives every event but a one-pointer move |
| Gestures.SizeCoefStaysInRange | app/src/main/java/com/example/world3d/OpenGLView.java:70-82 | the zoom coefficient stays in [0.25, 1] over any stream |
| Gestures.PinchingZoomsOut | app/src/main/java/com/example/world3d/OpenGLView.java:70-82 | n two-finger moves with the fingers closing each time give coefficient min(1, c + 0.03n) |
| Gestures.SpreadingZoomsIn | app/src/main/java/com/example/world3d/OpenGLView.java:70-82 | n two-finger moves with the fingers not closing give coefficient max(0.25, c − 0.03n) |
| View.TouchView.constructor | app/src/main/java/com/example/world3d/OpenGLView.java:14-38 | the gesture fields start at their initialisers (zoom coefficient 1), and a fresh renderer starts at yaw -70 and pitch -16, at rest |
| View.TouchView.OnTouchEvent | app/src/main/java/com/example/world3d/OpenGLView.java:41-139 | The imperative `onTouchEvent` (details after the table) |
| View.TouchView.DragMove | app/src/main/java/com/example/world3d/OpenGLView.java:59-69 | a one-pointer move always clears `ignoreOnce` and records the position. It leaves the velocities alone when `ignoreOnce` was set, and otherwise sets them to the displacement over 5 times `sizeCoef` |
| View.TouchView.PinchMove | app/src/main/java/com/example/world3d/OpenGLView.java:70-82 | the direction is 1 iff the fingers closed. The coefficient takes one clamped step in [0.25, 1] and the projection is rebuilt at it. The distance and position are recorded |
| Picking.Ndc | app/src/main/java/com/example/world3d/OpenGLView.java:194-195 | `2·pos/size − 1` inverts as (r + 1)·size = 2·pos |
| Picking.NdcRange | app/src/main/java/com/example/world3d/OpenGLView.java:194-195 | a position on the screen maps into [-1, 1] |
| Picking.NdcKeepsOrder | app/src/main/java/com/example/world3d/OpenGLView.java:194-195 | the mapping is strictly increasing (y is not flipped) |
| Picking.Unproject | app/src/main/java/com/example/world3d/OpenGLView.java:193-200 | the touch's NDC point (x, y, -1, 1) is carried by the inverse projection. With the identity it is that point, and an affine inverse keeps w = 1 |
| Picking.CastRay | app/src/main/java/com/example/world3d/OpenGLView.java:192-205 | the unprojected point is forced to the direction (x, y, -1, 0) and carried by the inverse view. Under an affine inverse view the ray has w = 0, and with both inverses the identity it is (NDC x, NDC y, -1, 0) |
| Picking.CastRayIgnoresViewColumn3 | app/src/main/java/com/example/world3d/OpenGLView.java:192-205 | entries 3, 7, 11, 15 of the inverse view matrix cannot change the ray |
| Picking.CastRayReadsProjectionRows01 | app/src/main/java/com/example/world3d/OpenGLView.java:192-205 | only the first two rows of the inverse projection matrix affect the ray |
| Picking.MinRoot | app/src/main/java/com/example/world3d/OpenGLView.java:171-179 | there is no root (NaN) exactly when the discriminant is negative or a = 0 |
| Picking.MinRootSolves | app/src/main/java/com/example/world3d/OpenGLView.java:171-179 | a root it returns solves a·t² + b·t + c = 0 |
| Picking.MinRootIsSmallest | app/src/main/java/com/example/world3d/OpenGLView.java:171-179 | for a ≠ 0, if any s solves the quadratic, then a root is returned and it is ≤ s |
| Picking.RayAtQuadratic | app/src/main/java/com/example/world3d/OpenGLView.java:153-168 | for o + t·d, \|p\|² − r² equals a·t² + b·t + c with the coefficients as coded |
| Picking.IntersectionPoint | app/src/main/java/com/example/world3d/OpenGLView.java:153-168 | a miss happens exactly when the discriminant is negative or \|d\|² = 0. A hit has w = 1 and lies on the ray from (0,0,5) |
| Picking.IntersectionOnSphere | app/src/main/java/com/example/world3d/OpenGLView.java:153-168 | a hit lies on the sphere of the given radius about the origin |
| Picking.IntersectionFindsNearest | app/src/main/java/com/example/world3d/OpenGLView.java:153-168 | for a non-zero direction, if the ray meets the sphere at parameter s at all, it reports a hit whose parameter is ≤ s |
| Picking.RotationX | app/src/main/java/com/example/world3d/OpenGLView.java:211-217 | the rotation matrix is affine, and the identity at angle 0 (cos 1, sin 0) |
| Picking.RotatePoint | app/src/main/java/com/example/world3d/OpenGLView.java:208-233 | rotation about the x axis: x and w are kept and (y, z) turn by the angle. The `xAngle` argument is unused |
| Picking.RotationKeepsRadius | app/src/main/java/com/example/world3d/OpenGLView.java:208-233 | the rotation keeps the distance from the origin |
| Picking.GetPolar | app/src/main/java/com/example/world3d/OpenGLView.java:182-189 | the longitude is undefined exactly when `sqrt(x² + z²)` is 0. The latitude is `asin(y / 2)` |
| Picking.PolarRanges | app/src/main/java/com/example/world3d/OpenGLView.java:182-189 | the longitude is undefined iff x = z = 0, and otherwise in [-π/2, π/2]. For \|y\| ≤ 2 the latitude is in [-π/2, π/2] |
| Picking.WrapLongitude | app/src/main/java/com/example/world3d/OpenGLView.java:106-108 | the wrap lands in (-2π, 2π), and in [0, 2π) when the shifted longitude is ≥ -2π. It moves by whole turns |
| Picking.ClampLatitude | app/src/main/java/com/example/world3d/OpenGLView.java:110 | the latitude ends in [-π/2, π/2] and is unchanged inside it |
| Picking.MapPixel | app/src/main/java/com/example/world3d/OpenGLView.java:113-118 | x·2π = lon·1920 and y·π = (lat + π/2)·960 |
| Picking.MapPixelOnOverlay | app/src/main/java/com/example/world3d/OpenGLView.java:112-119 | a longitude in [0, 2π) maps into [0, 1920). A latitude in the pole band maps strictly inside (0, 960) |
| Picking.Hundredths | app/src/main/java/com/example/world3d/OpenGLView.java:143-144 | `round(v·100)/100` is a whole number of hundredths with v·100 − ½ < r·100 ≤ v·100 + ½ (a tie rounds up), and negative only if v is |
| Picking.HundredthsWithin | app/src/main/java/com/example/world3d/OpenGLView.java:143-144 | rounding to hundredths keeps a whole-hundredths bound on v |
| Picking.ShowCoordinates | app/src/main/java/com/example/world3d/OpenGLView.java:141-150 | Coordinate text rules (listed after the table) |
| Picking.DisplayedRanges | app/src/main/java/com/example/world3d/OpenGLView.java:141-150 | for a wrapped longitude and a clamped latitude, the text shows at most 180° and 90° |
| Picking.Pick | app/src/main/java/com/example/world3d/OpenGLView.java:93-126 | the text is cleared exactly when the ray misses, and a miss draws no marker |
| Picking.Locate | app/src/main/java/com/example/world3d/OpenGLView.java:102-123 | a hit always yields coordinates, and a marker only with the clamped latitude inside the pole band |
| Picking.RotatedPointOnGlobe | app/src/main/java/com/example/world3d/OpenGLView.java:102 | a point on the globe, turned by the pitch, stays on the globe with \|y\| ≤ 2 |
| Picking.UndefinedLongitudeAtPole | app/src/main/java/com/example/world3d/OpenGLView.java:104-113 | on the globe an undefined longitude occurs only at a pole, whose latitude is outside the marker band |
| Picking.LocateLandsOnMap | app/src/main/java/com/example/world3d/OpenGLView.java:104-123 | for a point with \|y\| ≤ 2 and yaw in [0, 360), a marker lands on the overlay and the text shows at most 180° and 90° |
| Picking.RotatedHitOnGlobe | app/src/main/java/com/example/world3d/OpenGLView.java:99-102 | a hit turned by the pitch is still on the globe of radius 2, so \|y\| ≤ 2 |
| Picking.LatitudeNeverClamped | app/src/main/java/com/example/world3d/OpenGLView.java:104-110 | on a hit the latitude is already in [-π/2, π/2], so the clamp never acts |
| Picking.MarkerIffBand | app/src/main/java/com/example/world3d/OpenGLView.java:104-119 | on a hit a marker is drawn exactly when the latitude is inside the pole band. An undefined longitude occurs only at a pole, outside the band |
| Picking.PickLandsOnMap | app/src/main/java/com/example/world3d/OpenGLView.java:93-126 | with yaw in [0, 360) a marker always lands on the 1920×960 overlay, and the text shows at most 180° and 90° |

Gesture rules proved for `Gestures.Touch`:
- An unknown action is exactly the `Illegal` effect. It carries the action and changes nothing.
- DOWN only records the touch position.
- POINTER_UP only sets `ignoreOnce`.
- POINTER_DOWN sets `movementDetected` and the finger distance.
- Every MOVE sets `movementDetected`.
- UP clears `movementDetected`. It picks at the stored touch position iff no movement was pending.
- A drag happens iff a one-pointer move arrives with `ignoreOnce` clear. The velocity times 5 equals the finger displacement times `sizeCoef`.
- A one-pointer move sets `movementDetected`, clears `ignoreOnce` and updates the touch position. Nothing else changes.
- A move with three or more pointers only sets `movementDetected`.
- A zoom happens iff a two-pointer move arrives. The direction is 1 if the fingers closed and -1 otherwise. The scale is the new `sizeCoef`, one clamped step in that direction. The distance and touch position are recorded, and nothing else changes.
- Nothing else changes `sizeCoef` or `ignoreOnce`.

`View.TouchView.OnTouchEvent`, the imperative `onTouchEvent`, is proved against the pure transition:
- The gesture fields become `Touch(old, event).next`.
- The renderer's velocities are set exactly on a drag effect.
- Its projection is recomputed at the new scale exactly on a zoom effect.
- A pick result, from the old renderer state, is returned exactly on a pick effect.
- An exception is returned exactly on an illegal action.
- The globe's angles, the viewport and the view matrices are never touched.

Coordinate text rules proved for `Picking.ShowCoordinates`:
- Both values are non-negative whole hundredths.
- W and N appear only with a positive value.
- An undefined longitude shows 0 with E.
- Each signed value is exactly the degrees rounded to hundredths (`Picking.Hundredths`): the longitude minus 180°, and the latitude.

## Left out

- GL plumbing is not part of this model: shaders, textures, buffers, draw calls, `glViewport`, `rotateM`/`multiplyMM` and the model matrix. These are foreign API calls with no logic of the app's own.
- The `android.opengl.Matrix` routines are opaque functions of their arguments. Inversion and look-at are not computed.
- Bitmap and canvas compositing (`drawPointOnBitmap`) is left out. A pick returns the marker position instead, and "no marker" means the overlay is left as it was.
- `MainActivity` and its text view are left out. The text shown is a `Text` value: `Cleared` or two hundredths with hemisphere letters. `String.valueOf` formatting is not modelled.
- IEEE-754 float rounding, infinities and NaN propagation are not modelled. The two NaN cases the app relies on become `None`. Float casts of intermediate values are exact.
- A NaN finger distance is not modelled. With reals, one of `<` and `>=` always holds, so the touch direction is always written.
- The real `sin`/`cos`/`sqrt`/`asin`, and `getTouchedDistance`: the latter is an input of the touch event.
- The unsynchronised sharing of the velocities and the projection between the UI thread and the GL thread. This is a concurrency concern.
- The `Sphere` mesh is not part of this model.
- View.TouchView.OnTouchEvent: requires a non-zero viewport for a tap that picks, and a non-zero viewport height for a two-pointer move. These are the only events that divide by the viewport size. Before the surface has a size the source divides by zero there, which yields float infinities and NaN this model does not have.
- Picking.IntersectionFindsNearest: requires a non-zero ray direction. With a zero direction the quadratic degenerates (a = 0): the source yields NaN and the model reports a miss.
- Picking.Locate: draws no marker when the longitude is undefined. In that case the source still tests the latitude band and would draw at a NaN x. `Picking.MarkerIffBand` proves that an undefined longitude occurs only at a pole, outside the band, so the two agree on every hit.
- Rendering.Renderer.DrawFrame: covers only the orbit part of `onDrawFrame` (up to `updateEyeAngle`). The model-matrix rotations and the draw call are left out.
- The unused `eye` argument of `intersectionPoint` is dropped from `Picking.IntersectionPoint`. The unused `xAngle` argument of `rotatePoint` is kept, unused, by `Picking.RotatePoint`.
- JavaMath.Round: does not model `Math.round(float)` saturating at the `int` range. The velocities and degree values rounded here stay far inside it.
