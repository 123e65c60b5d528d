/**
 * The orbit controller: the per-frame update of the globe's yaw (`xAngle`),
 * pitch (`yAngle`) and their velocities (`xMovement`, `yMovement`) at the
 * start of `onDrawFrame`, as pure functions of the previous values.
 *
 * Per frame and per axis: the velocity decays by 0.93 and is rounded to
 * hundredths, or is snapped to exactly 0 once below 0.08; yaw then advances by
 * the velocity and pitch by 0.7 times it; pitch is clamped to [-45, 45] and
 * yaw reduced with Java's remainder by 360.
 */
module OrbitControl {
  import opened JavaMath

  const SLOW_COEFFICIENT: real := 0.93
  const VERTICAL_MOVEMENT_RATIO: real := 0.7
  const MAX_ANGLE: real := 45.0
  /** Below this speed a velocity is snapped to exactly zero. */
  const STOP_SPEED: real := 0.08
  const FULL_TURN: real := 360.0

  datatype Orbit = Orbit(xAngle: real, yAngle: real, xMovement: real, yMovement: real)

  /** Where every frame leaves the angles: yaw strictly inside one turn either way, pitch within 45 degrees. */
  predicate Settled(o: Orbit)
  {
    -FULL_TURN < o.xAngle < FULL_TURN && -MAX_ANGLE <= o.yAngle <= MAX_ANGLE
  }

  /** Yaw in the range the wrap is meant to produce, [0, 360). */
  predicate Normalised(o: Orbit)
  {
    0.0 <= o.xAngle < FULL_TURN && -MAX_ANGLE <= o.yAngle <= MAX_ANGLE
  }

  /**
   * One frame of friction on one velocity. A slow velocity stops dead; any
   * other keeps its sign, loses magnitude, and becomes a whole number of
   * hundredths.
   */
  function Decay(v: real): (r: real)
    ensures Abs(v) < STOP_SPEED <==> r == 0.0
    ensures Abs(v) >= STOP_SPEED ==> Abs(r) < Abs(v) && (r > 0.0 <==> v > 0.0)
    ensures Abs(v) >= STOP_SPEED ==> v * 93.0 - 0.5 < r * 100.0 <= v * 93.0 + 0.5
    ensures Abs(v) >= STOP_SPEED ==> Abs(r - v * SLOW_COEFFICIENT) <= 0.005
    ensures IsHundredth(r)
  {
    if Abs(v) < STOP_SPEED then
      0.0
    else
      var k := Round(v * SLOW_COEFFICIENT * 100.0);
      assert (k as real / 100.0 * 100.0).Floor == k;
      k as real / 100.0
  }

  /** `Math.min(maxAngle, Math.max(-maxAngle, angle))`. */
  function ClampPitch(angle: real): (r: real)
    ensures -MAX_ANGLE <= r <= MAX_ANGLE
    ensures -MAX_ANGLE <= angle <= MAX_ANGLE ==> r == angle
    ensures angle > MAX_ANGLE ==> r == MAX_ANGLE
    ensures angle < -MAX_ANGLE ==> r == -MAX_ANGLE
  {
    Min(MAX_ANGLE, Max(-MAX_ANGLE, angle))
  }

  /**
   * `(angle + 360) % 360` with Java's remainder. It lands in [0, 360) when
   * the angle is at least -360; below that it is never positive. Either way
   * it differs from the angle by whole turns.
   */
  function WrapYaw(angle: real): (r: real)
    ensures -FULL_TURN < r < FULL_TURN
    ensures angle >= -FULL_TURN ==> 0.0 <= r < FULL_TURN
    ensures angle < -FULL_TURN ==> r <= 0.0
    ensures IsMultiple(angle - r, FULL_TURN)
  {
    var r := JavaRem(angle + FULL_TURN, FULL_TURN);
    OneLess(angle + FULL_TURN - r, FULL_TURN);
    r
  }

  /** A yaw already in [0, 360) is left where it is. */
  lemma {:induction false} WrapYawKeepsNormal(angle: real)
    requires 0.0 <= angle < FULL_TURN
    ensures WrapYaw(angle) == angle
  {
    var r := WrapYaw(angle);
    var q := (angle - r) / FULL_TURN;
    assert q.Floor as real == q;
    assert -1.0 < q < 1.0;
  }

  /** The worked example: a yaw of 359 turned by 5 more degrees reads 4, not 364. */
  lemma YawWrapExample()
    ensures WrapYaw(359.0 + 5.0) == 4.0
  {
    var r := WrapYaw(364.0);
    var q := (364.0 - r) / FULL_TURN;
    assert q.Floor as real == q;
    assert 0.0 < q < 2.0;
  }

  /** One rendered frame of the orbit controller. */
  function FrameStep(o: Orbit): (p: Orbit)
    ensures Settled(p)
    ensures o.xAngle + p.xMovement >= -FULL_TURN ==> Normalised(p)
    ensures IsMultiple(o.xAngle + p.xMovement - p.xAngle, FULL_TURN)
    ensures p.xMovement == Decay(o.xMovement) && p.yMovement == Decay(o.yMovement)
    ensures -MAX_ANGLE <= o.yAngle + p.yMovement * VERTICAL_MOVEMENT_RATIO <= MAX_ANGLE ==>
              p.yAngle == o.yAngle + p.yMovement * VERTICAL_MOVEMENT_RATIO
    ensures o.yAngle + p.yMovement * VERTICAL_MOVEMENT_RATIO > MAX_ANGLE ==> p.yAngle == MAX_ANGLE
    ensures o.yAngle + p.yMovement * VERTICAL_MOVEMENT_RATIO < -MAX_ANGLE ==> p.yAngle == -MAX_ANGLE
  {
    var xMovement := Decay(o.xMovement);
    var yMovement := Decay(o.yMovement);
    Orbit(
      WrapYaw(o.xAngle + xMovement),
      ClampPitch(o.yAngle + yMovement * VERTICAL_MOVEMENT_RATIO),
      xMovement,
      yMovement)
  }

  /**
   * The two axes do not interact: the new yaw and yaw velocity depend only on
   * the old yaw and yaw velocity, and likewise for pitch.
   */
  lemma AxesIndependent(o1: Orbit, o2: Orbit)
    ensures o1.xAngle == o2.xAngle && o1.xMovement == o2.xMovement ==>
      FrameStep(o1).xAngle == FrameStep(o2).xAngle && FrameStep(o1).xMovement == FrameStep(o2).xMovement
    ensures o1.yAngle == o2.yAngle && o1.yMovement == o2.yMovement ==>
      FrameStep(o1).yAngle == FrameStep(o2).yAngle && FrameStep(o1).yMovement == FrameStep(o2).yMovement
  {
  }

  /**
   * A velocity below the threshold is zero after the frame and its angle does
   * not move (for an angle already in its normal range).
   */
  lemma {:induction false} SlowAxisStops(o: Orbit)
    requires Normalised(o)
    ensures Abs(o.xMovement) < STOP_SPEED ==>
      FrameStep(o).xMovement == 0.0 && FrameStep(o).xAngle == o.xAngle
    ensures Abs(o.yMovement) < STOP_SPEED ==>
      FrameStep(o).yMovement == 0.0 && FrameStep(o).yAngle == o.yAngle
  {
    if Abs(o.xMovement) < STOP_SPEED {
      WrapYawKeepsNormal(o.xAngle);
    }
  }

  /** `n` frames in a row with no input in between. */
  function Frames(o: Orbit, n: nat): Orbit
    decreases n
  {
    if n == 0 then o else Frames(FrameStep(o), n - 1)
  }

  /** What `n` frames of friction make of one velocity. */
  function Coast(v: real, n: nat): real
    decreases n
  {
    if n == 0 then v else Coast(Decay(v), n - 1)
  }

  lemma {:induction false} CoastFromRest(n: nat)
    ensures Coast(0.0, n) == 0.0
  {
    if n > 0 {
      CoastFromRest(n - 1);
    }
  }

  /** A velocity of `k` hundredths stops within `|k| + 1` frames. */
  lemma {:induction false} CoastHundredths(k: int, n: nat)
    requires n as real > Abs(k as real)
    ensures Coast(k as real / 100.0, n) == 0.0
    decreases n
  {
    var v := k as real / 100.0;
    var r := Decay(v);
    if Abs(v) < STOP_SPEED {
      CoastFromRest(n - 1);
    } else {
      var j := (r * 100.0).Floor;
      assert r == j as real / 100.0;
      CoastHundredths(j, n - 1);
    }
  }

  /** Frames enough for any velocity `v` to come to rest. */
  function StopBound(v: real): nat
  {
    (Abs(v) * 100.0).Floor + 2
  }

  /**
   * Inertia stops: with no further input, any velocity is exactly zero after
   * `StopBound(v)` frames and stays zero.
   */
  lemma {:induction false} InertiaStops(v: real, n: nat)
    requires n >= StopBound(v)
    ensures Coast(v, n) == 0.0
  {
    var r := Decay(v);
    if Abs(v) < STOP_SPEED {
      CoastFromRest(n - 1);
    } else {
      var j := (r * 100.0).Floor;
      assert r == j as real / 100.0;
      assert Abs(j as real) < Abs(v) * 100.0;
      CoastHundredths(j, n - 1);
    }
  }

  /** Over several frames each velocity just coasts, independently of the angles. */
  lemma {:induction false} FramesCoast(o: Orbit, n: nat)
    ensures Frames(o, n).xMovement == Coast(o.xMovement, n)
    ensures Frames(o, n).yMovement == Coast(o.yMovement, n)
    decreases n
  {
    if n > 0 {
      FramesCoast(FrameStep(o), n - 1);
    }
  }

  /** With no input the globe comes to a complete stop after finitely many frames. */
  lemma {:induction false} OrbitComesToRest(o: Orbit, n: nat)
    requires n >= StopBound(o.xMovement) && n >= StopBound(o.yMovement)
    ensures Frames(o, n).xMovement == 0.0 && Frames(o, n).yMovement == 0.0
  {
    FramesCoast(o, n);
    InertiaStops(o.xMovement, n);
    InertiaStops(o.yMovement, n);
  }
}
