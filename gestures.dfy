/**
 * The touch gesture state machine of the globe view, as a pure transition
 * function. One finger drags the globe, two fingers pinch to zoom, and a tap
 * (down and up with no movement in between) picks a point. An action code
 * the switch does not know throws, which ends the event stream.
 */
module Gestures {
  import opened JavaMath

  /** `MotionEvent` action codes after masking with `ACTION_MASK`. */
  const ACTION_MASK: bv32 := 0xFF
  const ACTION_DOWN: int := 0
  const ACTION_UP: int := 1
  const ACTION_MOVE: int := 2
  const ACTION_POINTER_DOWN: int := 5
  const ACTION_POINTER_UP: int := 6

  /** A one-finger move of `d` pixels turns into a velocity of `d / 5` times the zoom coefficient. */
  const DRAG_DIVISOR: real := 5.0
  /** Each two-finger move changes the zoom coefficient by this much, within [0.25, 1]. */
  const ZOOM_STEP: real := 0.03
  const MIN_SIZE_COEF: real := 0.25
  const MAX_SIZE_COEF: real := 1.0

  /** `action & MotionEvent.ACTION_MASK`: the low byte, dropping the pointer index. */
  function Masked(action: bv32): (code: int)
    ensures 0 <= code < 256
  {
    (action & ACTION_MASK) as int
  }

  predicate Handled(code: int)
  {
    code == ACTION_DOWN || code == ACTION_UP || code == ACTION_MOVE
    || code == ACTION_POINTER_DOWN || code == ACTION_POINTER_UP
  }

  /**
   * What the handler reads from a `MotionEvent`: the raw action, the number
   * of pointers, pointer 0's position and the distance between pointers 0
   * and 1 (`getTouchedDistance`, read only where two pointers are down).
   */
  datatype TouchEvent = TouchEvent(action: bv32, pointerCount: int, x: real, y: real, distance: real)

  /** The view's gesture fields. */
  datatype Gesture = Gesture(
    touchX: real,
    touchY: real,
    lastTouchDistance: real,
    touchDir: real,
    sizeCoef: real,
    ignoreOnce: bool,
    movementDetected: bool)

  /** The field initialisers: Java's zero defaults, and a zoom coefficient of 1. */
  const INITIAL: Gesture := Gesture(0.0, 0.0, 0.0, 0.0, 1.0, false, false)

  /** What one event does outside the gesture fields. */
  datatype Effect =
    | NoEffect
      /** New renderer velocities. */
    | Drag(xMovement: real, yMovement: real)
      /** A new projection at this zoom scale. */
    | Zoom(scale: real)
      /** A pick at the stored touch position. */
    | PickAt(x: real, y: real)
      /** `IllegalStateException` for an unknown action. */
    | Illegal(action: bv32)

  datatype Transition = Transition(next: Gesture, effect: Effect)

  /** The zoom coefficient after one pinch step in direction `dir`, clamped to [0.25, 1]. */
  function ZoomStep(sizeCoef: real, dir: real): (r: real)
    ensures MIN_SIZE_COEF <= r <= MAX_SIZE_COEF
    ensures MIN_SIZE_COEF <= sizeCoef + ZOOM_STEP * dir <= MAX_SIZE_COEF ==> r == sizeCoef + ZOOM_STEP * dir
    ensures sizeCoef + ZOOM_STEP * dir > MAX_SIZE_COEF ==> r == MAX_SIZE_COEF
    ensures sizeCoef + ZOOM_STEP * dir < MIN_SIZE_COEF ==> r == MIN_SIZE_COEF
  {
    Max(MIN_SIZE_COEF, Min(MAX_SIZE_COEF, sizeCoef + ZOOM_STEP * dir))
  }

  /** `onTouchEvent` for one event. */
  function Touch(s: Gesture, ev: TouchEvent): (t: Transition)
    // An unknown action throws before anything is written.
    ensures t.effect.Illegal? <==> !Handled(Masked(ev.action))
    ensures t.effect.Illegal? ==> t.next == s && t.effect.action == ev.action
    // DOWN only records the position; POINTER_UP only arms `ignoreOnce`.
    ensures Masked(ev.action) == ACTION_DOWN ==>
      t == Transition(s.(touchX := ev.x, touchY := ev.y), NoEffect)
    ensures Masked(ev.action) == ACTION_POINTER_UP ==>
      t == Transition(s.(ignoreOnce := true), NoEffect)
    ensures Masked(ev.action) == ACTION_POINTER_DOWN ==>
      t == Transition(s.(movementDetected := true, lastTouchDistance := ev.distance), NoEffect)
    // Every MOVE counts as movement; UP clears it, and picks exactly when there was none.
    ensures Masked(ev.action) == ACTION_MOVE ==> t.next.movementDetected
    ensures Masked(ev.action) == ACTION_UP ==> t.next == s.(movementDetected := false)
    ensures t.effect.PickAt? <==> Masked(ev.action) == ACTION_UP && !s.movementDetected
    ensures t.effect.PickAt? ==> t.effect.x == s.touchX && t.effect.y == s.touchY
    // A one-pointer move drags unless `ignoreOnce` swallows it; either way the position is updated.
    ensures t.effect.Drag? <==>
      Masked(ev.action) == ACTION_MOVE && ev.pointerCount == 1 && !s.ignoreOnce
    ensures t.effect.Drag? ==>
      t.effect.xMovement * DRAG_DIVISOR == (s.touchX - ev.x) * s.sizeCoef &&
      t.effect.yMovement * DRAG_DIVISOR == (s.touchY - ev.y) * s.sizeCoef
    ensures Masked(ev.action) == ACTION_MOVE && ev.pointerCount == 1 ==>
      t.next == s.(movementDetected := true, ignoreOnce := false, touchX := ev.x, touchY := ev.y)
    // Three or more pointers only count as movement.
    ensures Masked(ev.action) == ACTION_MOVE && ev.pointerCount != 1 && ev.pointerCount != 2 ==>
      t == Transition(s.(movementDetected := true), NoEffect)
    // A two-pointer move zooms: in when the fingers spread, out when they close.
    ensures t.effect.Zoom? <==> Masked(ev.action) == ACTION_MOVE && ev.pointerCount == 2
    ensures t.effect.Zoom? ==>
      && t.effect.scale == t.next.sizeCoef
      && MIN_SIZE_COEF <= t.next.sizeCoef <= MAX_SIZE_COEF
      && t.next.lastTouchDistance == ev.distance
      && t.next.touchX == ev.x && t.next.touchY == ev.y
      && t.next.touchDir == (if ev.distance < s.lastTouchDistance then 1.0 else -1.0)
      && t.next.sizeCoef == ZoomStep(s.sizeCoef, t.next.touchDir)
      && t.next == s.(movementDetected := true, touchDir := t.next.touchDir, sizeCoef := t.next.sizeCoef,
                      lastTouchDistance := ev.distance, touchX := ev.x, touchY := ev.y)
    ensures !t.effect.Zoom? ==> t.next.sizeCoef == s.sizeCoef
    ensures t.next.ignoreOnce != s.ignoreOnce ==>
      Masked(ev.action) == ACTION_POINTER_UP || (Masked(ev.action) == ACTION_MOVE && ev.pointerCount == 1)
  {
    var code := Masked(ev.action);
    if code == ACTION_DOWN then
      Transition(s.(touchX := ev.x, touchY := ev.y), NoEffect)
    else if code == ACTION_POINTER_DOWN then
      Transition(s.(movementDetected := true, lastTouchDistance := ev.distance), NoEffect)
    else if code == ACTION_MOVE then
      var moved := s.(movementDetected := true);
      if ev.pointerCount == 1 then
        var effect :=
          if moved.ignoreOnce then NoEffect
          else Drag((moved.touchX - ev.x) / DRAG_DIVISOR * moved.sizeCoef,
                    (moved.touchY - ev.y) / DRAG_DIVISOR * moved.sizeCoef);
        Transition(moved.(ignoreOnce := false, touchX := ev.x, touchY := ev.y), effect)
      else if ev.pointerCount == 2 then
        var dir := if ev.distance < moved.lastTouchDistance then 1.0 else -1.0;
        var coef := ZoomStep(moved.sizeCoef, dir);
        Transition(
          moved.(touchDir := dir, sizeCoef := coef, lastTouchDistance := ev.distance, touchX := ev.x, touchY := ev.y),
          Zoom(coef))
      else
        Transition(moved, NoEffect)
    else if code == ACTION_POINTER_UP then
      Transition(s.(ignoreOnce := true), NoEffect)
    else if code == ACTION_UP then
      Transition(s.(movementDetected := false), if !s.movementDetected then PickAt(s.touchX, s.touchY) else NoEffect)
    else
      Transition(s, Illegal(ev.action))
  }

  /** The final gesture state and the effect of each event handled. */
  datatype Trace = Trace(final: Gesture, effects: seq<Effect>)

  /**
   * A stream of events, one `onTouchEvent` at a time. An exception ends the
   * stream: its effect is the last one recorded.
   */
  function Run(s: Gesture, events: seq<TouchEvent>): (tr: Trace)
    ensures |tr.effects| <= |events|
    ensures |tr.effects| < |events| ==> |tr.effects| > 0 && tr.effects[|tr.effects| - 1].Illegal?
    ensures forall i :: 0 <= i < |tr.effects| - 1 ==> !tr.effects[i].Illegal?
    decreases |events|
  {
    if |events| == 0 then
      Trace(s, [])
    else
      var t := Touch(s, events[0]);
      if t.effect.Illegal? then
        Trace(t.next, [t.effect])
      else
        var rest := Run(t.next, events[1..]);
        Trace(rest.final, [t.effect] + rest.effects)
  }

  function PickCount(effects: seq<Effect>): nat
  {
    if |effects| == 0 then 0
    else (if effects[0].PickAt? then 1 else 0) + PickCount(effects[1..])
  }

  function UpCount(events: seq<TouchEvent>): nat
  {
    if |events| == 0 then 0
    else (if Masked(events[0].action) == ACTION_UP then 1 else 0) + UpCount(events[1..])
  }

  /** Down then up with no movement in between picks once, where the finger went down. */
  lemma TapPicksOnce(s: Gesture, down: TouchEvent, up: TouchEvent)
    requires !s.movementDetected
    requires Masked(down.action) == ACTION_DOWN && Masked(up.action) == ACTION_UP
    ensures Run(s, [down, up]).effects == [NoEffect, PickAt(down.x, down.y)]
    ensures !Run(s, [down, up]).final.movementDetected
  {
    var t := Touch(s, down);
    assert [down, up][1..] == [up];
    assert Run(t.next, [up]).effects == [PickAt(down.x, down.y)];
  }

  /**
   * Once movement has been seen, nothing picks until an UP has cleared it:
   * a stream with no UP before its last event picks nothing.
   */
  lemma {:induction false} MovementSuppressesPicks(s: Gesture, events: seq<TouchEvent>)
    requires s.movementDetected
    requires forall i :: 0 <= i < |events| - 1 ==> Masked(events[i].action) != ACTION_UP
    ensures PickCount(Run(s, events).effects) == 0
    decreases |events|
  {
    if |events| > 0 {
      var t := Touch(s, events[0]);
      if !t.effect.Illegal? && Masked(events[0].action) != ACTION_UP {
        MovementSuppressesPicks(t.next, events[1..]);
      }
    }
  }

  /** Down, move, then anything up to the final UP: a drag never picks. */
  lemma {:induction false} DragNeverPicks(s: Gesture, events: seq<TouchEvent>)
    requires |events| >= 2
    requires Masked(events[0].action) == ACTION_DOWN && Masked(events[1].action) == ACTION_MOVE
    requires forall i :: 0 <= i < |events| - 1 ==> Masked(events[i].action) != ACTION_UP
    ensures PickCount(Run(s, events).effects) == 0
  {
    var t0 := Touch(s, events[0]);
    var t1 := Touch(t0.next, events[1]);
    assert events[1..][1..] == events[2..];
    MovementSuppressesPicks(t1.next, events[2..]);
  }

  /** Only UP picks: a stream never picks more often than it has UP events. */
  lemma {:induction false} PicksBoundedByUps(s: Gesture, events: seq<TouchEvent>)
    ensures PickCount(Run(s, events).effects) <= UpCount(events)
    decreases |events|
  {
    if |events| > 0 {
      var t := Touch(s, events[0]);
      if !t.effect.Illegal? {
        PicksBoundedByUps(t.next, events[1..]);
      }
    }
  }

  /**
   * After the second finger lifts, `ignoreOnce` stays armed through any
   * events but a one-pointer move, so the first such move does not drag.
   */
  lemma {:induction false} IgnoreOnceSurvives(s: Gesture, events: seq<TouchEvent>)
    requires s.ignoreOnce
    requires forall i :: 0 <= i < |events| ==>
      !(Masked(events[i].action) == ACTION_MOVE && events[i].pointerCount == 1)
    ensures Run(s, events).final.ignoreOnce
    decreases |events|
  {
    if |events| > 0 {
      var t := Touch(s, events[0]);
      if !t.effect.Illegal? {
        IgnoreOnceSurvives(t.next, events[1..]);
      }
    }
  }

  /** Every zoom coefficient a stream reaches stays in [0.25, 1]. */
  lemma {:induction false} SizeCoefStaysInRange(s: Gesture, events: seq<TouchEvent>)
    requires MIN_SIZE_COEF <= s.sizeCoef <= MAX_SIZE_COEF
    ensures MIN_SIZE_COEF <= Run(s, events).final.sizeCoef <= MAX_SIZE_COEF
    decreases |events|
  {
    if |events| > 0 {
      var t := Touch(s, events[0]);
      if !t.effect.Illegal? {
        SizeCoefStaysInRange(t.next, events[1..]);
      }
    }
  }

  /** Two-finger moves, each with the fingers closer together than at the move before. */
  predicate Pinching(last: real, events: seq<TouchEvent>)
    decreases |events|
  {
    |events| == 0 ||
    (Masked(events[0].action) == ACTION_MOVE && events[0].pointerCount == 2 && events[0].distance < last
     && Pinching(events[0].distance, events[1..]))
  }

  /** Two-finger moves, each with the fingers at least as far apart as at the move before. */
  predicate Spreading(last: real, events: seq<TouchEvent>)
    decreases |events|
  {
    |events| == 0 ||
    (Masked(events[0].action) == ACTION_MOVE && events[0].pointerCount == 2 && events[0].distance >= last
     && Spreading(events[0].distance, events[1..]))
  }

  /** `n` pinch steps raise the coefficient by 0.03 each, up to 1 (the view zooms out). */
  lemma {:induction false} PinchingZoomsOut(s: Gesture, events: seq<TouchEvent>)
    requires MIN_SIZE_COEF <= s.sizeCoef <= MAX_SIZE_COEF
    requires Pinching(s.lastTouchDistance, events)
    ensures Run(s, events).final.sizeCoef == Min(MAX_SIZE_COEF, s.sizeCoef + ZOOM_STEP * |events| as real)
    decreases |events|
  {
    if |events| > 0 {
      var t := Touch(s, events[0]);
      PinchingZoomsOut(t.next, events[1..]);
    }
  }

  /** `n` spread steps lower the coefficient by 0.03 each, down to 0.25 (the view zooms in). */
  lemma {:induction false} SpreadingZoomsIn(s: Gesture, events: seq<TouchEvent>)
    requires MIN_SIZE_COEF <= s.sizeCoef <= MAX_SIZE_COEF
    requires Spreading(s.lastTouchDistance, events)
    ensures Run(s, events).final.sizeCoef == Max(MIN_SIZE_COEF, s.sizeCoef - ZOOM_STEP * |events| as real)
    decreases |events|
  {
    if |events| > 0 {
      var t := Touch(s, events[0]);
      SpreadingZoomsIn(t.next, events[1..]);
    }
  }
}
