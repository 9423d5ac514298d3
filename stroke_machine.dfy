/**
 * The stroke state of the drawing canvas as a value, and each handler as a
 * function from the old state to the new one. Both canvas versions
 * (src/modules/DrawingCanvas/index.ts and src/modules/DrawingCanvas/index.tsx)
 * update the same fields in the same way; their classes are proved against
 * these functions, and the properties of a stroke are proved here.
 *
 * Idle and Drawing are not a field in the source: Drawing is "the mousemove,
 * mouseleave and mouseup listeners are attached". Adding a listener that is
 * already attached does nothing (the DOM Standard's "add an event listener",
 * section 2.7), so one boolean records it. The canvas is the log of the 2D
 * context calls the handlers make.
 */
module StrokeMachine {
  import MovingAverage
  import IntervalInput
  import opened Wrappers

  /** A cursor position (`offsetX`, `offsetY`) or a smoothed point. */
  datatype Point = Point(x: real, y: real)

  /** One call on the canvas 2D context. */
  datatype CanvasOp =
    | BeginPath
    | MoveTo(x: real, y: real)
    | LineTo(x: real, y: real)
    | StrokePath
    | ClosePath
    | ClearRect(x: real, y: real, w: real, h: real)

  datatype State = State(
    lastDrawPosition: Point,
    xs: seq<real>,          // the trailing history of x positions
    ys: seq<real>,          // the trailing history of y positions
    interval: int,          // the moving-average interval
    drawing: bool,          // the move, leave and up listeners are attached
    log: seq<CanvasOp>)     // every context call made so far

  /** The events that reach the handlers: mouse events on the canvas (mouseup on the window) and input on the interval field. */
  datatype Event =
    | MouseDown(p: Point)
    | MouseMove(p: Point)
    | MouseUp
    | MouseLeave
    | Input(target: Option<IntervalInput.Target>)

  /** The field initialisers: last position (0, 0), empty histories, interval 0, no listener, nothing drawn. */
  function Initial(): State
  {
    State(Point(0.0, 0.0), [], [], 0, false, [])
  }

  /** Calls made through `this._canvasContext?.` happen only when there is a context. */
  function Emit(context: bool, ops: seq<CanvasOp>): seq<CanvasOp>
  {
    if context then ops else []
  }

  /**
   * The press handler: without a context nothing happens; with one it enters
   * Drawing at the raw position and leaves histories and interval alone.
   */
  function Press(s: State, context: bool, p: Point): (r: State)
    ensures !context ==> r == s
    ensures r.xs == s.xs && r.ys == s.ys && r.interval == s.interval
    ensures Inv(s) ==> Inv(r)
    ensures s.log <= r.log
  {
    if !context then s
    else s.(lastDrawPosition := p, drawing := true, log := s.log + [BeginPath])
  }

  /**
   * The move handler: a segment from the last point to the smoothed one, both
   * axes advanced under one interval, so histories of equal length stay equal.
   */
  function Move(s: State, context: bool, p: Point): (r: State)
    ensures |r.xs| == MovingAverage.Capacity(|s.xs|, s.interval)
    ensures |r.ys| == MovingAverage.Capacity(|s.ys|, s.interval)
    ensures r.drawing == s.drawing && r.interval == s.interval
    ensures s.log <= r.log
  {
    var averageX := MovingAverage.Compute(s.xs, p.x, s.interval);
    var averageY := MovingAverage.Compute(s.ys, p.y, s.interval);
    var smoothed := Point(averageX.averageValue, averageY.averageValue);
    s.(lastDrawPosition := smoothed,
       xs := averageX.movedArray,
       ys := averageY.movedArray,
       log := s.log + Emit(context, [MoveTo(s.lastDrawPosition.x, s.lastDrawPosition.y),
                                     LineTo(smoothed.x, smoothed.y), StrokePath]))
  }

  /** The release/leave handler: always ends in a valid Idle state, keeping last position and interval. */
  function Release(s: State, context: bool): (r: State)
    ensures Inv(r) && !r.drawing
    ensures r.lastDrawPosition == s.lastDrawPosition && r.interval == s.interval
    ensures s.log <= r.log
  {
    s.(xs := [], ys := [], drawing := false, log := s.log + Emit(context, [ClosePath]))
  }

  /** The interval field's input handler: only the interval can change. */
  function SetInterval(s: State, target: Option<IntervalInput.Target>): (r: State)
    ensures r.(interval := s.interval) == s
    ensures (target.Some? && target.value.InputElement?) ==> r.interval >= 0
    ensures Inv(s) ==> Inv(r)
  {
    s.(interval := IntervalInput.NextInterval(s.interval, target))
  }

  /** Clearing the canvas over `width` by `height`: one more call in the log, no stroke state touched. */
  function Clear(s: State, context: bool, width: real, height: real): (r: State)
    ensures r.(log := s.log) == s
    ensures s.log <= r.log && |r.log| == |s.log| + (if context then 1 else 0)
  {
    s.(log := s.log + Emit(context, [ClearRect(0.0, 0.0, width, height)]))
  }

  /**
   * Event delivery: move, leave and up reach their handler only while the
   * listeners are attached, so while Idle they change nothing.
   */
  function Dispatch(s: State, context: bool, e: Event): (r: State)
    ensures Inv(s) ==> Inv(r)
    ensures !s.drawing && (e.MouseMove? || e.MouseUp? || e.MouseLeave?) ==> r == s
    ensures s.log <= r.log
  {
    match e
    case MouseDown(p) => Press(s, context, p)
    case MouseMove(p) => if s.drawing then Move(s, context, p) else s
    case MouseUp => if s.drawing then Release(s, context) else s
    case MouseLeave => if s.drawing then Release(s, context) else s
    case Input(target) => SetInterval(s, target)
  }

  /** A sequence of events delivered in order: the invariant holds throughout and the log only grows. */
  function Run(s: State, context: bool, events: seq<Event>): (r: State)
    ensures Inv(s) ==> Inv(r)
    ensures s.log <= r.log
    decreases |events|
  {
    if events == [] then s else Run(Dispatch(s, context, events[0]), context, events[1..])
  }

  /** Running `a` then `b` is running `a + b`. */
  lemma {:induction false} RunAppend(s: State, context: bool, a: seq<Event>, b: seq<Event>)
    ensures Run(s, context, a + b) == Run(Run(s, context, a), context, b)
    decreases |a|
  {
    if a == [] {
      assert a + b == b;
    } else {
      assert (a + b)[0] == a[0];
      assert (a + b)[1..] == a[1..] + b;
      RunAppend(Dispatch(s, context, a[0]), context, a[1..], b);
    }
  }

  /** Running one event is dispatching it. */
  lemma RunOne(s: State, context: bool, e: Event)
    ensures Run(s, context, [e]) == Dispatch(s, context, e)
  {
    assert [e][1..] == [];
  }

  /** Running one more event is dispatching it after the rest. */
  lemma RunSnoc(s: State, context: bool, a: seq<Event>, e: Event)
    ensures Run(s, context, a + [e]) == Dispatch(Run(s, context, a), context, e)
  {
    RunAppend(s, context, a, [e]);
    RunOne(Run(s, context, a), context, e);
  }

  /** Histories advance in lockstep, and while Idle they are empty. */
  ghost predicate Inv(s: State)
  {
    |s.xs| == |s.ys| && (!s.drawing ==> s.xs == [] && s.ys == [])
  }

  lemma InitialState()
    ensures Inv(Initial()) && !Initial().drawing && Initial().log == []
    ensures Initial().lastDrawPosition == Point(0.0, 0.0) && Initial().interval == 0
  {
  }

  /** A press sets the last point to the raw press position and begins a path, leaving histories and interval alone. */
  lemma PressKeepsHistories(s: State, p: Point)
    ensures var r := Press(s, true, p);
            r.drawing && r.lastDrawPosition == p && r.log == s.log + [BeginPath]
            && r.xs == s.xs && r.ys == s.ys && r.interval == s.interval
    ensures Press(s, false, p) == s
  {
  }

  /** A move keeps both histories the same length, at most `max(interval, 1)`, each ending in the raw position. */
  lemma MoveKeepsLockstep(s: State, context: bool, p: Point)
    requires |s.xs| == |s.ys|
    ensures var r := Move(s, context, p);
            |r.xs| == |r.ys| <= MovingAverage.Max(s.interval, 1)
            && r.xs[|r.xs| - 1] == p.x && r.ys[|r.ys| - 1] == p.y
            && r.drawing == s.drawing && r.interval == s.interval
  {
    MovingAverage.WindowBounded(s.xs, p.x, s.interval);
  }

  /** A move from empty histories lands on the raw cursor position. */
  lemma FirstMoveIsRaw(s: State, context: bool, p: Point)
    requires s.xs == [] && s.ys == []
    ensures Move(s, context, p).lastDrawPosition == p
    ensures Move(s, context, p).xs == [p.x] && Move(s, context, p).ys == [p.y]
  {
    assert MovingAverage.Reduce([p.x]) == p.x;
    assert MovingAverage.Reduce([p.y]) == p.y;
  }

  /** The first move of every stroke that starts from Idle draws to the raw cursor position. */
  lemma FirstMoveOfStrokeIsRaw(s: State, q: Point, p: Point)
    requires Inv(s) && !s.drawing
    ensures Dispatch(Dispatch(s, true, MouseDown(q)), true, MouseMove(p)).lastDrawPosition == p
  {
    FirstMoveIsRaw(Press(s, true, q), true, p);
  }

  /** A move with a context logs a segment from the last point to the new last point. */
  lemma MoveLogsSegment(s: State, p: Point)
    ensures var r := Move(s, true, p);
            r.log == s.log + [MoveTo(s.lastDrawPosition.x, s.lastDrawPosition.y),
                              LineTo(r.lastDrawPosition.x, r.lastDrawPosition.y), StrokePath]
  {
  }

  /** Two consecutive moves draw connected segments: the second starts where the first ended. */
  lemma SegmentsConnect(s: State, p: Point, q: Point)
    ensures var m1 := Move(s, true, p);
            var m2 := Move(m1, true, q);
            |m1.log| >= 2 && m1.log[|m1.log| - 2] == LineTo(m1.lastDrawPosition.x, m1.lastDrawPosition.y)
            && m2.log[|m1.log|] == MoveTo(m1.lastDrawPosition.x, m1.lastDrawPosition.y)
            && m2.log == m1.log + [m2.log[|m1.log|], LineTo(m2.lastDrawPosition.x, m2.lastDrawPosition.y), StrokePath]
  {
    var m1 := Move(s, true, p);
    MoveLogsSegment(s, p);
    MoveLogsSegment(m1, q);
  }

  /** Release empties both histories and goes Idle, keeping last position and interval. */
  lemma ReleaseResets(s: State, context: bool)
    ensures var r := Release(s, context);
            r.xs == [] && r.ys == [] && !r.drawing
            && r.lastDrawPosition == s.lastDrawPosition && r.interval == s.interval
            && r.log == s.log + Emit(context, [ClosePath])
  {
  }

  /** Calling the release handler twice leaves the stroke state as once (only a second ClosePath is logged). */
  lemma ReleaseHandlerIdempotent(s: State, context: bool)
    ensures var once := Release(s, context);
            var twice := Release(once, context);
            twice.(log := once.log) == once
  {
  }

  /** A second mouseup or mouseleave is not delivered at all: ending twice is ending once. */
  lemma EndIdempotent(s: State, context: bool, e: Event)
    requires e == MouseUp || e == MouseLeave
    ensures Dispatch(Dispatch(s, context, e), context, e) == Dispatch(s, context, e)
  {
  }

  /** Clearing changes nothing but the log. */
  lemma ClearKeepsStroke(s: State, context: bool, width: real, height: real)
    ensures Clear(s, context, width, height).(log := s.log) == s
  {
  }

  /** Every event keeps the invariant. */
  lemma DispatchKeepsInv(s: State, context: bool, e: Event)
    requires Inv(s)
    ensures Inv(Dispatch(s, context, e))
  {
    if e.MouseMove? && s.drawing {
      MoveKeepsLockstep(s, context, e.p);
    }
  }

  /** Any run of events from a valid state keeps the invariant. */
  lemma {:induction false} RunKeepsInv(s: State, context: bool, events: seq<Event>)
    requires Inv(s)
    ensures Inv(Run(s, context, events))
    decreases |events|
  {
    if events != [] {
      DispatchKeepsInv(s, context, events[0]);
      RunKeepsInv(Dispatch(s, context, events[0]), context, events[1..]);
    }
  }

  /** Without a 2D context no stroke ever starts: nothing is drawn and nothing but the interval changes. */
  lemma {:induction false} NoContextNeverDraws(s: State, events: seq<Event>)
    requires !s.drawing
    ensures Run(s, false, events).(interval := s.interval) == s
    decreases |events|
  {
    if events != [] {
      var next := Dispatch(s, false, events[0]);
      assert next.(interval := s.interval) == s;
      NoContextNeverDraws(next, events[1..]);
    }
  }

  /** Two moves from empty histories under an interval of 2 or more end at the midpoint whichever comes first. */
  lemma TwoMovesEndAtMidpoint(s: State, context: bool, p: Point, q: Point)
    requires s.xs == [] && s.ys == [] && s.interval >= 2
    ensures Move(Move(s, context, p), context, q).lastDrawPosition
         == Point((p.x + q.x) / 2.0, (p.y + q.y) / 2.0)
         == Move(Move(s, context, q), context, p).lastDrawPosition
  {
    FirstMoveIsRaw(s, context, p);
    FirstMoveIsRaw(s, context, q);
    MovingAverage.SecondSampleGivesMidpoint(p.x, q.x, s.interval);
    MovingAverage.SecondSampleGivesMidpoint(p.y, q.y, s.interval);
    MovingAverage.SecondSampleGivesMidpoint(q.x, p.x, s.interval);
    MovingAverage.SecondSampleGivesMidpoint(q.y, p.y, s.interval);
  }

  /** The scenario's state after the press at (0, y) and the interval input "2". */
  lemma ScenarioStart(y: real)
    ensures Dispatch(Initial(), true, MouseDown(Point(0.0, y))) == Press(Initial(), true, Point(0.0, y))
    ensures Dispatch(Press(Initial(), true, Point(0.0, y)), true, Input(Some(IntervalInput.InputElement("2"))))
         == State(Point(0.0, y), [], [], 2, true, [BeginPath])
  {
    IntervalInput.DecimalSetsInterval(0, 2);
    assert IntervalInput.Decimal(2) == "2";
  }

  /** Scenario step: the first move of the stroke, to (2, y), is drawn unsmoothed. */
  lemma ScenarioFirstMove(y: real)
    ensures Dispatch(State(Point(0.0, y), [], [], 2, true, [BeginPath]), true, MouseMove(Point(2.0, y)))
         == State(Point(2.0, y), [2.0], [y], 2, true,
                  [BeginPath, MoveTo(0.0, y), LineTo(2.0, y), StrokePath])
  {
    var s := State(Point(0.0, y), [], [], 2, true, [BeginPath]);
    FirstMoveIsRaw(s, true, Point(2.0, y));
    MoveLogsSegment(s, Point(2.0, y));
  }

  /** Scenario step: the second move, to (4, y), averages 2 and 4. */
  lemma ScenarioSecondMove(y: real, log: seq<CanvasOp>)
    ensures Dispatch(State(Point(2.0, y), [2.0], [y], 2, true, log), true, MouseMove(Point(4.0, y)))
         == State(Point(3.0, y), [2.0, 4.0], [y, y], 2, true,
                  log + [MoveTo(2.0, y), LineTo(3.0, y), StrokePath])
  {
    var s := State(Point(2.0, y), [2.0], [y], 2, true, log);
    MovingAverage.SecondSampleGivesMidpoint(2.0, 4.0, 2);
    MovingAverage.SecondSampleGivesMidpoint(y, y, 2);
    MoveLogsSegment(s, Point(4.0, y));
  }

  /** Scenario step: the third move, to (10, y), drops 2 from the full window and averages 4 and 10. */
  lemma ScenarioThirdMove(y: real, log: seq<CanvasOp>)
    ensures Dispatch(State(Point(3.0, y), [2.0, 4.0], [y, y], 2, true, log), true, MouseMove(Point(10.0, y)))
         == State(Point(7.0, y), [4.0, 10.0], [y, y], 2, true,
                  log + [MoveTo(3.0, y), LineTo(7.0, y), StrokePath])
  {
    var s := State(Point(3.0, y), [2.0, 4.0], [y, y], 2, true, log);
    MovingAverage.FullDropsOldest([2.0, 4.0], 10.0, 2);
    MovingAverage.FullDropsOldest([y, y], y, 2);
    assert [2.0, 4.0][1..] + [10.0] == [4.0, 10.0];
    assert [y, y][1..] + [y] == [y, y];
    assert MovingAverage.Reduce([4.0, 10.0]) == 14.0 by { assert [4.0, 10.0][..1] == [4.0]; }
    assert MovingAverage.Reduce([y, y]) == y + y by { assert [y, y][..1] == [y]; }
    MoveLogsSegment(s, Point(10.0, y));
  }

  /** Five events in a row whose single dispatches are known, chained with `RunSnoc`. */
  lemma RunFive(s: State, context: bool, events: seq<Event>, s1: State, s2: State, s3: State, s4: State, s5: State)
    requires |events| == 5
    requires Dispatch(s, context, events[0]) == s1 && Dispatch(s1, context, events[1]) == s2
    requires Dispatch(s2, context, events[2]) == s3 && Dispatch(s3, context, events[3]) == s4
    requires Dispatch(s4, context, events[4]) == s5
    ensures Run(s, context, events) == s5
  {
    RunOne(s, context, events[0]);
    assert Run(s, context, events[..1]) == s1 by { assert events[..1] == [events[0]]; }
    RunSnoc(s, context, events[..1], events[1]);
    assert events[..1] + [events[1]] == events[..2];
    RunSnoc(s, context, events[..2], events[2]);
    assert events[..2] + [events[2]] == events[..3];
    RunSnoc(s, context, events[..3], events[3]);
    assert events[..3] + [events[3]] == events[..4];
    RunSnoc(s, context, events[..4], events[4]);
    assert events[..4] + [events[4]] == events;
  }

  /** Press at height y, interval 2, then moves to x = 2, 4, 10: the smoothed x positions drawn are 2, 3 and 7. */
  lemma SmoothingScenario(y: real)
    ensures Run(Initial(), true,
                [MouseDown(Point(0.0, y)), Input(Some(IntervalInput.InputElement("2"))),
                 MouseMove(Point(2.0, y)), MouseMove(Point(4.0, y)), MouseMove(Point(10.0, y))]).log
         == [BeginPath,
             MoveTo(0.0, y), LineTo(2.0, y), StrokePath,
             MoveTo(2.0, y), LineTo(3.0, y), StrokePath,
             MoveTo(3.0, y), LineTo(7.0, y), StrokePath]
  {
    var events := [MouseDown(Point(0.0, y)), Input(Some(IntervalInput.InputElement("2"))),
                   MouseMove(Point(2.0, y)), MouseMove(Point(4.0, y)), MouseMove(Point(10.0, y))];
    var s1 := Press(Initial(), true, Point(0.0, y));
    var s2 := State(Point(0.0, y), [], [], 2, true, [BeginPath]);
    var log3 := [BeginPath, MoveTo(0.0, y), LineTo(2.0, y), StrokePath];
    var s3 := State(Point(2.0, y), [2.0], [y], 2, true, log3);
    var log4 := log3 + [MoveTo(2.0, y), LineTo(3.0, y), StrokePath];
    var s4 := State(Point(3.0, y), [2.0, 4.0], [y, y], 2, true, log4);
    var s5 := State(Point(7.0, y), [4.0, 10.0], [y, y], 2, true, log4 + [MoveTo(3.0, y), LineTo(7.0, y), StrokePath]);
    ScenarioStart(y);
    ScenarioFirstMove(y);
    ScenarioSecondMove(y, log3);
    ScenarioThirdMove(y, log4);
    RunFive(Initial(), true, events, s1, s2, s3, s4, s5);
    ScenarioLog(y);
  }

  /** The scenario's three segments, logged one after another. */
  lemma ScenarioLog(y: real)
    ensures [BeginPath, MoveTo(0.0, y), LineTo(2.0, y), StrokePath]
            + [MoveTo(2.0, y), LineTo(3.0, y), StrokePath]
            + [MoveTo(3.0, y), LineTo(7.0, y), StrokePath]
         == [BeginPath,
             MoveTo(0.0, y), LineTo(2.0, y), StrokePath,
             MoveTo(2.0, y), LineTo(3.0, y), StrokePath,
             MoveTo(3.0, y), LineTo(7.0, y), StrokePath]
  {
  }
}
