/**
 * `DrawingCore` of the React variant, src/modules/DrawingCanvas/index.tsx: the
 * same stroke handlers as the plain-DOM canvas, plus `clearCanvas` and
 * getter/setter pairs over its private fields. The function component around
 * it and the line-style setter are left out.
 */
module DrawingCanvasReact {
  import MovingAverage
  import IntervalInput
  import opened Wrappers
  import opened StrokeMachine

  /** A `<canvas>` element: its size and whether `getContext('2d')` can give a context. */
  datatype CanvasElement = CanvasElement(width: nat, height: nat, supports2d: bool)

  /** The 2D context of a canvas element. */
  datatype Context2D = Context2D(canvas: CanvasElement)

  /** `_tempDrawPositions`: the x and y histories held in one object. */
  datatype TempDrawPositions = TempDrawPositions(x: seq<real>, y: seq<real>)

  /** `element.getContext('2d')`. */
  function GetContext(element: CanvasElement): Option<Context2D>
  {
    if element.supports2d then Some(Context2D(element)) else None
  }

  class DrawingCore {
    var canvasElement: Option<CanvasElement>
    var canvasContext: Option<Context2D>
    var lastDrawPosition: Point
    var tempDrawPositions: TempDrawPositions
    var movingAverageInterval: int
    /** The mousemove, mouseleave and mouseup listeners are attached. */
    var drawing: bool
    var log: seq<CanvasOp>

    /** The stroke fields as a value. */
    function State(): StrokeMachine.State
      reads this
    {
      StrokeMachine.State(lastDrawPosition, tempDrawPositions.x, tempDrawPositions.y,
                          movingAverageInterval, drawing, log)
    }

    function HasContext(): bool
      reads this
    {
      canvasContext.Some?
    }

    function GetCanvasElement(): Option<CanvasElement> reads this { canvasElement }

    function GetCanvasContext(): Option<Context2D> reads this { canvasContext }

    function GetLastDrawPosition(): Point reads this { lastDrawPosition }

    function GetTempDrawPositions(): TempDrawPositions reads this { tempDrawPositions }

    function GetMovingAverageInterval(): int reads this { movingAverageInterval }

    /** Field initialisers: no element, no context, and the initial stroke state. */
    constructor ()
      ensures canvasElement == None && canvasContext == None
      ensures State() == Initial()
    {
      canvasElement := None;
      canvasContext := None;
      lastDrawPosition := Point(0.0, 0.0);
      tempDrawPositions := TempDrawPositions([], []);
      movingAverageInterval := 0;
      drawing := false;
      log := [];
    }

    method PreDrawHandler(x: real, y: real)
      modifies this
      ensures canvasElement == old(canvasElement) && canvasContext == old(canvasContext)
      ensures State() == Press(old(State()), HasContext(), Point(x, y))
    {
      if canvasContext.None? {
        return;
      }
      lastDrawPosition := Point(x, y);
      log := log + [BeginPath];
      drawing := true;
    }

    /**
     * The source reads `averagedValue`, a property `MovingAverage` does not
     * define (its getter is `averageValue`), so the line it draws goes to
     * undefined coordinates. The intended `averageValue` is used here.
     */
    method DrawingHandler(x: real, y: real)
      modifies this
      ensures canvasElement == old(canvasElement) && canvasContext == old(canvasContext)
      ensures State() == Move(old(State()), HasContext(), Point(x, y))
    {
      ghost var s := State();
      var drawingPosition := Point(x, y);
      if canvasContext.Some? {
        log := log + [MoveTo(lastDrawPosition.x, lastDrawPosition.y)];
      }
      var movingAverageX := MovingAverage.Compute(tempDrawPositions.x, drawingPosition.x, movingAverageInterval);
      var movingAverageY := MovingAverage.Compute(tempDrawPositions.y, drawingPosition.y, movingAverageInterval);
      ghost var drawn := [MoveTo(s.lastDrawPosition.x, s.lastDrawPosition.y),
                          LineTo(movingAverageX.averageValue, movingAverageY.averageValue), StrokePath];
      if canvasContext.Some? {
        log := log + [LineTo(movingAverageX.averageValue, movingAverageY.averageValue)];
        log := log + [StrokePath];
        assert log == s.log + drawn;
      }
      assert log == s.log + Emit(HasContext(), drawn);
      tempDrawPositions := TempDrawPositions(movingAverageX.movedArray, movingAverageY.movedArray);
      lastDrawPosition := Point(movingAverageX.averageValue, movingAverageY.averageValue);
    }

    method PostDrawHandler()
      modifies this
      ensures canvasElement == old(canvasElement) && canvasContext == old(canvasContext)
      ensures State() == Release(old(State()), HasContext())
    {
      tempDrawPositions := TempDrawPositions([], []);
      drawing := false;
      if canvasContext.Some? {
        log := log + [ClosePath];
      }
    }

    method SetMovingAverageInterval(target: Option<IntervalInput.Target>)
      modifies this
      ensures canvasElement == old(canvasElement) && canvasContext == old(canvasContext)
      ensures State() == SetInterval(old(State()), target)
    {
      movingAverageInterval := IntervalInput.NextInterval(movingAverageInterval, target);
    }

    /** Clears the whole canvas; the size is 0 by 0 when there is no element. */
    method ClearCanvas()
      modifies this
      ensures canvasElement == old(canvasElement) && canvasContext == old(canvasContext)
      ensures var width := if canvasElement.Some? then canvasElement.value.width else 0;
              var height := if canvasElement.Some? then canvasElement.value.height else 0;
              State() == Clear(old(State()), HasContext(), width as real, height as real)
    {
      var width := if canvasElement.Some? then canvasElement.value.width else 0;
      var height := if canvasElement.Some? then canvasElement.value.height else 0;
      if canvasContext.Some? {
        log := log + [ClearRect(0.0, 0.0, width as real, height as real)];
      }
    }

    /** Setting `canvasElement` also takes its context; setting null keeps the previous context. */
    method SetCanvasElement(element: Option<CanvasElement>)
      modifies this
      ensures GetCanvasElement() == element
      ensures GetCanvasContext() == if element.None? then old(canvasContext) else GetContext(element.value)
      ensures State() == old(State())
    {
      canvasElement := element;
      if canvasElement.None? {
        return;
      }
      canvasContext := GetContext(canvasElement.value);
    }

    method SetLastDrawPosition(position: Point)
      modifies this
      ensures GetLastDrawPosition() == position
      ensures State() == old(State()).(lastDrawPosition := position)
      ensures canvasElement == old(canvasElement) && canvasContext == old(canvasContext)
    {
      lastDrawPosition := position;
    }

    method SetTempDrawPositions(positions: TempDrawPositions)
      modifies this
      ensures GetTempDrawPositions() == positions
      ensures State() == old(State()).(xs := positions.x, ys := positions.y)
      ensures canvasElement == old(canvasElement) && canvasContext == old(canvasContext)
    {
      tempDrawPositions := positions;
    }

    method SetMovingAverageIntervalValue(interval: int)
      modifies this
      ensures GetMovingAverageInterval() == interval
      ensures State() == old(State()).(interval := interval)
      ensures canvasElement == old(canvasElement) && canvasContext == old(canvasContext)
    {
      movingAverageInterval := interval;
    }

    /**
     * An event reaching the component: mousedown always calls `preDrawHandler`
     * (which checks the context itself), move/leave/up only while drawing,
     * input on the interval field always.
     */
    method HandleEvent(e: Event)
      modifies this
      ensures canvasElement == old(canvasElement) && canvasContext == old(canvasContext)
      ensures State() == Dispatch(old(State()), HasContext(), e)
      ensures Inv(old(State())) ==> Inv(State())
    {
      if Inv(State()) {
        DispatchKeepsInv(State(), HasContext(), e);
      }
      match e {
        case MouseDown(p) =>
          PreDrawHandler(p.x, p.y);
        case MouseMove(p) =>
          if drawing {
            DrawingHandler(p.x, p.y);
          }
        case MouseUp =>
          if drawing {
            PostDrawHandler();
          }
        case MouseLeave =>
          if drawing {
            PostDrawHandler();
          }
        case Input(target) =>
          SetMovingAverageInterval(target);
      }
    }
  }
}
