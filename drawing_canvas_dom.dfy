/**
 * The plain-DOM `DrawingCanvas` of src/modules/DrawingCanvas/index.ts: the
 * stroke fields and their handlers. Building the DOM elements and setting the
 * line style are left out; the 2D context is reduced to whether
 * `getContext('2d')` returned one, and its calls are appended to `log`.
 */
module DrawingCanvasDom {
  import MovingAverage
  import IntervalInput
  import opened Wrappers
  import opened StrokeMachine

  class DrawingCanvas {
    /** Whether `getContext('2d')` gave a context; fixed by the constructor. */
    const hasContext: bool
    var lastDrawPosition: Point
    var tempDrawXPositions: seq<real>
    var tempDrawYPositions: seq<real>
    var movingAverageInterval: int
    /** The mousemove, mouseleave and mouseup listeners are attached. */
    var drawing: bool
    var log: seq<CanvasOp>

    /** The stroke fields as a value. */
    function State(): StrokeMachine.State
      reads this
    {
      StrokeMachine.State(lastDrawPosition, tempDrawXPositions, tempDrawYPositions,
                          movingAverageInterval, drawing, log)
    }

    ghost predicate Valid()
      reads this
    {
      Inv(State())
    }

    /** Field initialisers; `contextAvailable` is what `getContext('2d')` answered. */
    constructor (contextAvailable: bool)
      ensures hasContext == contextAvailable
      ensures State() == Initial() && Valid()
    {
      hasContext := contextAvailable;
      lastDrawPosition := Point(0.0, 0.0);
      tempDrawXPositions := [];
      tempDrawYPositions := [];
      movingAverageInterval := 0;
      drawing := false;
      log := [];
    }

    method SetMovingAverageInterval(target: Option<IntervalInput.Target>)
      requires Valid()
      modifies this
      ensures Valid()
      ensures State() == SetInterval(old(State()), target)
    {
      movingAverageInterval := IntervalInput.NextInterval(movingAverageInterval, target);
    }

    /** Listens to mousedown, attached only when there is a context. */
    method PreDrawHandler(x: real, y: real)
      requires Valid()
      modifies this
      ensures Valid()
      ensures State() == Press(old(State()), hasContext, Point(x, y))
    {
      if !hasContext {
        return;
      }
      lastDrawPosition := Point(x, y);
      log := log + [BeginPath];
      drawing := true;
    }

    /** Listens to mousemove, attached only while drawing. */
    method DrawingHandler(x: real, y: real)
      requires Valid() && drawing
      modifies this
      ensures Valid()
      ensures State() == Move(old(State()), hasContext, Point(x, y))
    {
      var drawingPosition := Point(x, y);
      if hasContext {
        log := log + [MoveTo(lastDrawPosition.x, lastDrawPosition.y)];
      }
      var movingAverageX := MovingAverage.Compute(tempDrawXPositions, drawingPosition.x, movingAverageInterval);
      var movingAverageY := MovingAverage.Compute(tempDrawYPositions, drawingPosition.y, movingAverageInterval);
      if hasContext {
        log := log + [LineTo(movingAverageX.averageValue, movingAverageY.averageValue)];
      }
      tempDrawXPositions := movingAverageX.movedArray;
      tempDrawYPositions := movingAverageY.movedArray;
      if hasContext {
        log := log + [StrokePath];
      }
      lastDrawPosition := Point(movingAverageX.averageValue, movingAverageY.averageValue);
    }

    /** Listens to mouseleave and mouseup, attached only while drawing. */
    method PostDrawHandler()
      requires Valid() && drawing
      modifies this
      ensures Valid()
      ensures State() == Release(old(State()), hasContext)
    {
      tempDrawXPositions := [];
      tempDrawYPositions := [];
      drawing := false;
      if hasContext {
        log := log + [ClosePath];
      }
    }

    /**
     * An event reaching the canvas: mousedown is listened to only when there is
     * a context, move/leave/up only while drawing, input on the interval field always.
     */
    method HandleEvent(e: Event)
      requires Valid()
      modifies this
      ensures Valid()
      ensures State() == Dispatch(old(State()), hasContext, e)
    {
      match e {
        case MouseDown(p) =>
          if hasContext {
            PreDrawHandler(p.x, p.y);
          }
        case MouseMove(p) =>
          if drawing {
            DrawingHandler(p.x, p.y);
          }
        case MouseUp =>
          if drawing {
            PostDrawHandler();
          }
        case MouseLeave =>
          if drawing {
            PostDrawHandler();
          }
        case Input(target) =>
          SetMovingAverageInterval(target);
      }
    }
  }
}
