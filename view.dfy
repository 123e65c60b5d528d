/**
 * The touch view: the gesture fields it updates on every touch event, and
 * what each event does to the renderer it owns. The transition itself is the
 * pure `Gestures.Touch`; `OnTouchEvent` is the source's switch written out
 * step by step and proved to agree with it.
 */
module View {
  import opened JavaMath
  import opened Camera
  import opened Picking
  import opened Gestures
  import opened Rendering

  /**
   * What a touch event produces besides the state change: nothing, a pick
   * (a marker for the overlay and a text for the status line), or the
   * `IllegalStateException` thrown for an unknown action.
   */
  datatype Response = NoResponse | Picked(result: PickResult) | Thrown(action: bv32)

  class TouchView {
    var touchX: real
    var touchY: real
    var lastTouchDistance: real
    var touchDir: real
    var sizeCoef: real
    var ignoreOnce: bool
    var movementDetected: bool
    const renderer: Renderer

    /** A valid renderer, and a zoom coefficient in [0.25, 1]. */
    ghost predicate Valid()
      reads this, renderer, renderer.eye, renderer.look, renderer.up
    {
      renderer.Valid() && MIN_SIZE_COEF <= sizeCoef <= MAX_SIZE_COEF
    }

    function State(): Gesture
      reads this
    {
      Gesture(touchX, touchY, lastTouchDistance, touchDir, sizeCoef, ignoreOnce, movementDetected)
    }

    /** What a pick reads from the renderer: the two angles, the viewport and the two inverse matrices. */
    function SceneOf(): Scene
      reads this, renderer
    {
      Scene(renderer.xAngle, renderer.yAngle, renderer.viewportWidth, renderer.viewportHeight,
            renderer.inverseProjection, renderer.inverseView)
    }

    /** The field initialisers, and a new renderer of its own. */
    constructor ()
      ensures Valid()
      ensures fresh(renderer)
      ensures State() == INITIAL
      ensures renderer.OrbitState() == OrbitControl.Orbit(-70.0, -16.0, 0.0, 0.0)
    {
      touchX, touchY := 0.0, 0.0;
      lastTouchDistance, touchDir := 0.0, 0.0;
      sizeCoef := 1.0;
      ignoreOnce, movementDetected := false, false;
      renderer := new Renderer();
    }

    /**
     * `onTouchEvent`. The gesture fields follow `Touch`; a drag sets the
     * renderer's velocities, a zoom recomputes its projection at the new
     * coefficient, a tap picks from the stored touch position against the
     * renderer's current angles and matrices, and an unknown action throws
     * with nothing changed. The globe's angles are never written here.
     */
    method OnTouchEvent(ev: TouchEvent, m: MathLib, lib: MatrixLib) returns (response: Response)
      requires Valid()
      // Only a tap's pick and a pinch divide by the viewport size.
      requires Masked(ev.action) == ACTION_UP && !movementDetected ==>
        renderer.viewportWidth != 0 && renderer.viewportHeight != 0
      requires Masked(ev.action) == ACTION_MOVE && ev.pointerCount == 2 ==> renderer.viewportHeight != 0
      modifies this, renderer
      ensures Valid()
      ensures renderer.xAngle == old(renderer.xAngle) && renderer.yAngle == old(renderer.yAngle)
      ensures renderer.viewportWidth == old(renderer.viewportWidth)
      ensures renderer.viewportHeight == old(renderer.viewportHeight)
      ensures State() == Touch(old(State()), ev).next
      ensures var e := Touch(old(State()), ev).effect;
        && (e.Drag? ==> renderer.xMovement == e.xMovement && renderer.yMovement == e.yMovement)
        && (!e.Drag? ==> renderer.xMovement == old(renderer.xMovement) && renderer.yMovement == old(renderer.yMovement))
        && (e.Zoom? ==>
              renderer.projection == lib.frustum(FrustumFor(renderer.viewportWidth, renderer.viewportHeight, e.scale))
              && renderer.inverseProjection == lib.invert(renderer.projection))
        && (!e.Zoom? ==>
              renderer.projection == old(renderer.projection) && renderer.inverseProjection == old(renderer.inverseProjection))
        && (response.Picked? <==> e.PickAt?)
        && (e.PickAt? ==> response.result == Pick(e.x, e.y, old(SceneOf()), m))
        && (response.Thrown? <==> e.Illegal?)
        && (response.Thrown? ==> response.action == ev.action)
      ensures renderer.view == old(renderer.view) && renderer.inverseView == old(renderer.inverseView)
    {
      var points := ev.pointerCount;
      var code := Masked(ev.action);
      response := NoResponse;
      if code == ACTION_DOWN {
        touchX := ev.x;
        touchY := ev.y;
      } else if code == ACTION_POINTER_DOWN {
        movementDetected := true;
        lastTouchDistance := ev.distance;
      } else if code == ACTION_MOVE {
        movementDetected := true;
        if points == 1 {
          DragMove(ev);
        } else if points == 2 {
          PinchMove(ev, lib);
        }
      } else if code == ACTION_POINTER_UP {
        ignoreOnce := true;
      } else if code == ACTION_UP {
        if !movementDetected {
          response := Picked(Pick(touchX, touchY, SceneOf(), m));
        }
        movementDetected := false;
      } else {
        response := Thrown(ev.action);
      }
    }

    /**
     * A one-pointer move: the first move after a second finger lifts only
     * clears `ignoreOnce`; any other sets the renderer's velocities from the
     * finger's displacement scaled by the zoom coefficient. Either way the
     * new position is recorded.
     */
    method DragMove(ev: TouchEvent)
      modifies this`ignoreOnce, this`touchX, this`touchY, renderer`xMovement, renderer`yMovement
      ensures !ignoreOnce && touchX == ev.x && touchY == ev.y
      ensures old(ignoreOnce) ==>
        renderer.xMovement == old(renderer.xMovement) && renderer.yMovement == old(renderer.yMovement)
      ensures !old(ignoreOnce) ==>
        renderer.xMovement == (old(touchX) - ev.x) / DRAG_DIVISOR * sizeCoef &&
        renderer.yMovement == (old(touchY) - ev.y) / DRAG_DIVISOR * sizeCoef
    {
      if ignoreOnce {
        ignoreOnce := false;
      } else {
        renderer.xMovement := (touchX - ev.x) / DRAG_DIVISOR * sizeCoef;
        renderer.yMovement := (touchY - ev.y) / DRAG_DIVISOR * sizeCoef;
      }
      touchX := ev.x;
      touchY := ev.y;
    }

    /**
     * A two-pointer move: step the zoom coefficient by 0.03, up when the
     * fingers closed and down otherwise, clamped to [0.25, 1]; recompute the
     * projection at the new coefficient; record the distance and position.
     */
    method PinchMove(ev: TouchEvent, lib: MatrixLib)
      requires renderer.viewportHeight != 0
      modifies this`touchDir, this`sizeCoef, this`lastTouchDistance, this`touchX, this`touchY
      modifies renderer`projection, renderer`inverseProjection
      ensures touchDir == (if ev.distance < old(lastTouchDistance) then 1.0 else -1.0)
      ensures sizeCoef == ZoomStep(old(sizeCoef), touchDir)
      ensures MIN_SIZE_COEF <= sizeCoef <= MAX_SIZE_COEF
      ensures lastTouchDistance == ev.distance && touchX == ev.x && touchY == ev.y
      ensures renderer.projection == lib.frustum(FrustumFor(renderer.viewportWidth, renderer.viewportHeight, sizeCoef))
      ensures renderer.inverseProjection == lib.invert(renderer.projection)
    {
      var touchDistance := ev.distance;
      if touchDistance < lastTouchDistance {
        touchDir := 1.0;
      } else if touchDistance >= lastTouchDistance {
        touchDir := -1.0;
      }
      sizeCoef := Max(MIN_SIZE_COEF, Min(MAX_SIZE_COEF, sizeCoef + ZOOM_STEP * touchDir));
      renderer.CalculateProjection(renderer.viewportWidth, renderer.viewportHeight, sizeCoef, lib);
      lastTouchDistance := touchDistance;
      touchX := ev.x;
      touchY := ev.y;
    }
  }
}
