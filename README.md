# Drawing-tool trajectory smoother in Dafny

This project models the core of a browser freehand drawing tool. The tool smooths the cursor's path with a trailing moving average. The model covers two parts:

- `MovingAverage`: the window computation. Given the x or y history of the current stroke, a new sample and an interval, it returns the new history (`movedArray`) and its mean (`averageValue`). It is modelled as a pure function over `seq<real>`.
- The stroke controller. Both canvas versions have one: the plain-DOM `DrawingCanvas` (the version the app builds) and the React `DrawingCore`. A press starts a path at the raw cursor position. Each move draws a segment from the last point to the smoothed point and advances both histories. A release or leave empties the histories and closes the path. An input event on the interval field sets the interval.

Files:

- `wrappers.dfy`: the `Option` type.
- `moving_average.dfy`: module `MovingAverage`, with the window, the left-fold sum (`reduce` with no initial value), the mean, and their properties.
- `interval_input.dfy`: module `IntervalInput`. It models `parseInt` in radix 10 and the rule that turns the parsed value into an interval. Both canvas versions use it.
- `stroke_machine.dfy`: module `StrokeMachine`. The stroke fields are one `State` value, and each handler is a function from the old state to the new one. The canvas is a log of 2D-context calls (`BeginPath`, `MoveTo`, `LineTo`, `StrokePath`, `ClosePath`, `ClearRect`). Idle versus Drawing is the `drawing` flag. The source has no such field: Drawing means "the move, leave and up listeners are attached". Adding a listener that is already attached has no effect (the DOM Standard's "add an event listener", section 2.7), so one boolean records it. The stroke properties are proved here.
- `drawing_canvas_dom.dfy`: class `DrawingCanvas` (from `index.ts`). It has mutable fields and `modifies` methods, and each method is proved equal to its `StrokeMachine` function. `HandleEvent` models which listener receives an event, and it preserves the invariant `Valid()`. The histories always have equal length, and they are empty while Idle.
- `drawing_core.dfy`: class `DrawingCore` (from `index.tsx`). Its handlers are proved against the same functions. It also has `ClearCanvas` and the getter/setter pairs. `getContext('2d')` is modelled by a flag on the canvas element.

Behaviour of the code worth noting:

- Interval 0 keeps no history. Once the history is not empty, the slice index becomes `n + 1`, so the window is only the new sample (`NoSmoothingWithoutInterval`, `ZeroIntervalExample`).
- A press leaves the histories as they are, and only release or leave empties them. While Idle the histories are already empty (`Inv`), so every stroke starts from empty histories (`FirstMoveOfStrokeIsRaw`). A second press while Drawing keeps the current histories (`PressKeepsHistories`).
- Release keeps the last draw position (`ReleaseResets`).
- An input event whose target is not an `<input>` keeps the current interval. Text that parses to NaN or to a negative number sets it to 0 (`IntervalInput.NextInterval`).
- Two moves from empty histories under interval 2 end at the same point in either order (`TwoMovesEndAtMidpoint`). Order only matters for the point drawn in between.

The React variant reads `movingAverageX.averagedValue` (src/modules/DrawingCanvas/index.tsx lines 70 and 78). The class only defines `averageValue`, so the source draws to undefined coordinates. `DrawingCore.DrawingHandler` uses the intended `averageValue`, and a comment on it records the mismatch.

## Model

| member | source | states |
|---|---|---|
| MovingAverage.SliceIndex | src/lib/utilities/MovingAverage.ts:13-32 | The slice index is never negative, and it lies past the end of the history exactly when the interval is 0 or less (for an empty history and interval 0 it stays at its default 1). |
| MovingAverage.MovedArray | src/lib/utilities/MovingAverage.ts:34 | `movedArray` has exactly `min(n + 1, max(limit, 1))` elements, and its last element is the new value. |
| MovingAverage.Compute | src/lib/utilities/MovingAverage.ts:27-38 | The window's length is `min(n + 1, max(limit, 1))` and it ends with the new value. `averageValue` lies between the window's smallest and largest sample. `limit` defaults to 7. |
| MovingAverage.MovedArrayIsTrailingWindow | src/lib/utilities/MovingAverage.ts:28-34 | `movedArray` equals the last `min(n + 1, max(limit, 1))` elements of `array ++ [newValue]`. Everything before the new value is a contiguous suffix of the history, in its original order. |
| MovingAverage.FillingKeepsEverything | src/lib/utilities/MovingAverage.ts:30-34 | If `array.length < limit`, then `movedArray == array ++ [newValue]`. |
| MovingAverage.FullDropsOldest | src/lib/utilities/MovingAverage.ts:13-34 | If `array.length == limit >= 1`, exactly the oldest sample is dropped and the length stays `limit`. |
| MovingAverage.OverfullKeepsLast | src/lib/utilities/MovingAverage.ts:28-34 | If `array.length > limit >= 1`, the window is the last `limit - 1` samples plus the new value, so it has exactly `limit` elements. |
| MovingAverage.NoSmoothingWithoutInterval | src/lib/utilities/MovingAverage.ts:13-36 | If `limit <= 0`, the result is `([newValue], newValue)` for any history. |
| MovingAverage.WindowBounded | src/lib/utilities/MovingAverage.ts:27-34 | The window holds between 1 and `max(limit, 1)` samples, and never more than `n + 1`. |
| MovingAverage.DefaultWindowIsSeven | src/lib/utilities/MovingAverage.ts:27-34 | With `limit` omitted, the window is `min(n + 1, 7)` long. A long history keeps its last 6 samples plus the new one. |
| MovingAverage.SecondSampleGivesMidpoint | src/lib/utilities/MovingAverage.ts:30-36 | A one-sample history under an interval of 2 or more gives the window `[h, v]` and the average `(h + v) / 2`. |
| MovingAverage.ReduceIsSum | src/lib/utilities/MovingAverage.ts:36 | `reduce` with no initial value, folding from the left from the first sample, equals the sum of the samples (`Sum`, folded from the right). |
| MovingAverage.MeanIsAverage | src/lib/utilities/MovingAverage.ts:36 | The average times the number of samples is their sum. |
| MovingAverage.SumBounds | src/lib/utilities/MovingAverage.ts:36 | If every sample lies in `[lo, hi]`, the sum lies between `n * lo` and `n * hi`. |
| MovingAverage.ReduceBounds | src/lib/utilities/MovingAverage.ts:36 | If every sample lies in `[lo, hi]`, the `reduce` sum lies between `n * lo` and `n * hi`. |
| MovingAverage.MeanBounds | src/lib/utilities/MovingAverage.ts:36 | The mean of samples that all lie in `[lo, hi]` also lies in `[lo, hi]`. |
| MovingAverage.MeanBetweenExtremes | src/lib/utilities/MovingAverage.ts:34-36 | The sum-over-length of a non-empty window lies between its minimum and its maximum. |
| MovingAverage.FullWindowExample | src/lib/utilities/MovingAverage.ts:27-36 | `[1..7]`, 8, limit 7 gives the window `[2..8]` and the average 5. |
| MovingAverage.ZeroIntervalExample | src/lib/utilities/MovingAverage.ts:28-34 | `[10]`, 20, limit 0 gives `([20], 20)`. The history does not grow. |
| IntervalInput.ParseInt | src/modules/DrawingCanvas/index.ts:79 | A number is returned only when the text contains a digit. A negative result means the text after the leading white space starts with `-`. |
| IntervalInput.ParseSigned | src/modules/DrawingCanvas/index.ts:79 | After the white space: a number only when the text contains a digit, and a negative one only when it starts with `-`. |
| IntervalInput.NextInterval | src/modules/DrawingCanvas/index.ts:72-87 | An event whose target is not an input keeps the current interval. An input target always gives an interval of 0 or more. |
| IntervalInput.TrimStartIsSuffix | src/modules/DrawingCanvas/index.ts:79 | `parseInt`'s trimming removes exactly a leading run of white space. |
| IntervalInput.TrimStartSkips | src/modules/DrawingCanvas/index.ts:79 | White space followed by a character that is not white space: trimming removes exactly the white space. |
| IntervalInput.SignedDigitsInterval | src/modules/DrawingCanvas/index.ts:79-86 | For any text made of white space, an optional `+` or `-`, a non-empty run of digits and a tail that does not start with a digit, `parseInt` gives the signed value of the digits. The interval becomes that value, or 0 when the sign is `-`. |
| IntervalInput.SignedDigitsValue | src/modules/DrawingCanvas/index.ts:79 | An optional sign, digits and a tail that does not start with a digit parse to the signed value of the digits. |
| IntervalInput.DigitPrefixIsLongest | src/modules/DrawingCanvas/index.ts:79 | The digits read form a prefix, and the character after it is not a digit. |
| IntervalInput.ParseDecimalPrefix | src/modules/DrawingCanvas/index.ts:79 | `parseInt` reads back a number's decimal text, and stops at the first non-digit that follows. |
| IntervalInput.ParseNegativeDecimalPrefix | src/modules/DrawingCanvas/index.ts:79 | A leading `-` negates the number read. |
| IntervalInput.DecimalSetsInterval | src/modules/DrawingCanvas/index.ts:79-86 | Exactly the decimal text of `n >= 0` (no space, sign or tail) sets the interval to `n`, whatever it was before. Texts with those parts are covered by `SignedDigitsInterval`. |
| IntervalInput.NegativeResetsInterval | src/modules/DrawingCanvas/index.ts:81-84 | Exactly `-` followed by the decimal text of `n` sets the interval to 0, rather than keeping the previous value. Texts with space or a tail are covered by `SignedDigitsInterval`. |
| IntervalInput.IntervalTextExamples | src/modules/DrawingCanvas/index.ts:79-86 | `" +07"` sets the interval to 7, and `"-5px"` sets it to 0. |
| IntervalInput.NoDigitsResetsInterval | src/modules/DrawingCanvas/index.ts:79-84 | Text with no digit after the white space and sign parses as NaN and sets the interval to 0. |
| StrokeMachine.Press | src/modules/DrawingCanvas/index.ts:89-104 | Without a context the state is unchanged. With one, the histories and the interval stay as they are, the invariant is kept and the log only grows. |
| StrokeMachine.Move | src/modules/DrawingCanvas/index.ts:106-124 | Each history's new length is the window capacity `min(n + 1, max(interval, 1))`. The Drawing flag and the interval are kept, and the log only grows. |
| StrokeMachine.Release | src/modules/DrawingCanvas/index.ts:126-135 | The result is always Idle with empty histories, whatever the state before. It keeps the last position and the interval, and the log only grows. |
| StrokeMachine.SetInterval | src/modules/DrawingCanvas/index.ts:72-87 | Only the interval can change. An input target gives an interval of 0 or more, and the invariant is kept. |
| StrokeMachine.Clear | src/modules/DrawingCanvas/index.tsx:175-177 | Only the log changes. It gains exactly one call with a context and none without. |
| StrokeMachine.Dispatch | src/modules/DrawingCanvas/index.ts:89-135 | Every event keeps the invariant and only grows the log. While Idle, move, up and leave change nothing, because their listeners are not attached. |
| StrokeMachine.Run | src/modules/DrawingCanvas/index.ts:89-135 | Any sequence of events keeps the invariant and only grows the log. |
| StrokeMachine.RunAppend | src/modules/DrawingCanvas/index.ts:89-135 | Running `a` and then `b` from the state `a` left gives the same state as running `a ++ b`. |
| StrokeMachine.InitialState | src/modules/DrawingCanvas/index.ts:62-70 | The initial state: last position (0,0), empty histories, interval 0, Idle, nothing drawn. It satisfies the invariant. |
| StrokeMachine.PressKeepsHistories | src/modules/DrawingCanvas/index.ts:89-104 | A press with a context sets last to the raw point, logs `BeginPath` and enters Drawing. It leaves the histories and the interval untouched. Without a context it changes nothing. |
| StrokeMachine.MoveKeepsLockstep | src/modules/DrawingCanvas/index.ts:114-119 | A move leaves both histories with equal length, at most `max(interval, 1)`. Each history ends with the raw coordinate. |
| StrokeMachine.FirstMoveIsRaw | src/modules/DrawingCanvas/index.ts:112-123 | A move from empty histories lands exactly on the raw cursor position. |
| StrokeMachine.FirstMoveOfStrokeIsRaw | src/modules/DrawingCanvas/index.ts:89-135 | From any valid Idle state, a press followed by a move draws to the raw move position. |
| StrokeMachine.MoveLogsSegment | src/modules/DrawingCanvas/index.ts:112-123 | A move logs `MoveTo(previous last)`, then `LineTo(new last)`, then `Stroke`, and nothing else. |
| StrokeMachine.SegmentsConnect | src/modules/DrawingCanvas/index.ts:112-123 | After two moves, the second segment's `MoveTo` is the point of the first segment's `LineTo`. Consecutive segments always connect. |
| StrokeMachine.ReleaseResets | src/modules/DrawingCanvas/index.ts:126-135 | Release empties both histories, goes Idle and logs `ClosePath`. It keeps the last position and the interval. |
| StrokeMachine.ReleaseHandlerIdempotent | src/modules/DrawingCanvas/index.ts:126-135 | Running the release handler twice leaves the same stroke state as running it once. |
| StrokeMachine.EndIdempotent | src/modules/DrawingCanvas/index.ts:126-135 | A second mouseup or mouseleave is not delivered, because the listeners are detached. Ending twice equals ending once, log included. |
| StrokeMachine.ClearKeepsStroke | src/modules/DrawingCanvas/index.tsx:175-177 | Clearing changes nothing but the canvas log. |
| StrokeMachine.DispatchKeepsInv | src/modules/DrawingCanvas/index.ts:89-135 | Every event keeps the histories in lockstep, and keeps them empty while Idle. |
| StrokeMachine.RunKeepsInv | src/modules/DrawingCanvas/index.ts:89-135 | Any sequence of events keeps the invariant. |
| StrokeMachine.NoContextNeverDraws | src/modules/DrawingCanvas/index.ts:158-171 | Without a 2D context, no sequence of events starts a stroke or draws anything. Only the interval can change. |
| StrokeMachine.TwoMovesEndAtMidpoint | src/modules/DrawingCanvas/index.ts:106-124 | Two moves from empty histories, under an interval of 2 or more, end at the midpoint of the two positions in either order. |
| StrokeMachine.SmoothingScenario | src/modules/DrawingCanvas/index.ts:72-124 | At any height `y`: press at (0, y), interval "2", then moves to x = 2, 4, 10. The smoothed points drawn are x = 2, 3 and 7, all at height `y`. |
| DrawingCanvasDom.DrawingCanvas.constructor | src/modules/DrawingCanvas/index.ts:62-70 | The fields start in the initial state, and the context flag is what `getContext('2d')` gave. |
| DrawingCanvasDom.DrawingCanvas.SetMovingAverageInterval | src/modules/DrawingCanvas/index.ts:72-87 | The new state is `SetInterval` of the old one, and `Valid()` is kept. |
| DrawingCanvasDom.DrawingCanvas.PreDrawHandler | src/modules/DrawingCanvas/index.ts:89-104 | The new state is `Press` of the old one, and `Valid()` is kept. |
| DrawingCanvasDom.DrawingCanvas.DrawingHandler | src/modules/DrawingCanvas/index.ts:106-124 | Called only while Drawing, since the listener is attached only then. The new state is `Move` of the old one, and `Valid()` is kept. |
| DrawingCanvasDom.DrawingCanvas.PostDrawHandler | src/modules/DrawingCanvas/index.ts:126-135 | Called only while Drawing. The new state is `Release` of the old one, and `Valid()` is kept. |
| DrawingCanvasDom.DrawingCanvas.HandleEvent | src/modules/DrawingCanvas/index.ts:89-135 | Routes each event as the listeners do: mousedown only with a context, move/leave/up only while Drawing. Keeps `Valid()`. |
| DrawingCanvasReact.DrawingCore.constructor | src/modules/DrawingCanvas/index.tsx:36-40 | No element, no context, and the initial stroke state. |
| DrawingCanvasReact.DrawingCore.PreDrawHandler | src/modules/DrawingCanvas/index.tsx:42-57 | `Press` of the old state. A no-op without a context. |
| DrawingCanvasReact.DrawingCore.DrawingHandler | src/modules/DrawingCanvas/index.tsx:59-79 | `Move` of the old state, using the intended `averageValue`. |
| DrawingCanvasReact.DrawingCore.PostDrawHandler | src/modules/DrawingCanvas/index.tsx:81-92 | `Release` of the old state. |
| DrawingCanvasReact.DrawingCore.SetMovingAverageInterval | src/modules/DrawingCanvas/index.tsx:94-109 | `SetInterval` of the old state. |
| DrawingCanvasReact.DrawingCore.ClearCanvas | src/modules/DrawingCanvas/index.tsx:175-177 | Logs `ClearRect(0, 0, w, h)` when there is a context, where `w` by `h` is the element's size (0 by 0 without an element). No stroke state changes. |
| DrawingCanvasReact.DrawingCore.SetCanvasElement | src/modules/DrawingCanvas/index.tsx:111-127 | The getter returns the new element. The context becomes the element's `getContext('2d')`. Setting null keeps the previous context. |
| DrawingCanvasReact.DrawingCore.SetLastDrawPosition | src/modules/DrawingCanvas/index.tsx:129-135 | The getter returns what was set, and nothing else changes. |
| DrawingCanvasReact.DrawingCore.SetTempDrawPositions | src/modules/DrawingCanvas/index.tsx:137-143 | The getter returns what was set, and nothing else changes. |
| DrawingCanvasReact.DrawingCore.SetMovingAverageIntervalValue | src/modules/DrawingCanvas/index.tsx:145-151 | The getter returns what was set, and nothing else changes. |
| DrawingCanvasReact.DrawingCore.HandleEvent | src/modules/DrawingCanvas/index.tsx:42-92 | `Dispatch` of the old state. mousedown always calls the handler, which checks the context itself. Keeps the invariant when it held before. |

## Left out

- Rendering, line style (the `lineStyle` setters), DOM element construction, the text field and button parts, the React function component and its hooks: these only forward to the browser. The canvas is a log of the context calls the core makes.
- Floating point: sums and means are over `real`, without IEEE-754 rounding.
- `parseInt` beyond a decimal prefix: the `0x` prefix (radix 16), `Infinity` for very long digit strings, precision loss above 2^53, white space outside the ASCII set plus NBSP, LS, PS and BOM. `-0` parses as 0, which behaves the same as an interval.
- `MovingAverage` with a fractional or NaN `limit`: the interval is always an integer here.
- DrawingCanvasReact.DrawingCore.SetMovingAverageIntervalValue: takes an integer, whereas the source setter accepts any number (fractions, NaN).
- Event dispatch itself: listener lists, window versus canvas targets, and the React `onMouseDown` binding are reduced to `HandleEvent` and the `drawing` flag. In `DrawingCore`, the move and leave listeners attach to whichever element is current, and that element can be null or replaced mid-stroke. The model ignores this.
- `getContext('2d')` is a flag on the canvas element. Element identity and changes to its size after it is set are not modelled.
- In `index.ts`, without a context the interval field is never added to the page, so it receives no input in practice. `HandleEvent` still accepts `Input` events.
- DrawingCanvasReact.DrawingCore.DrawingHandler: does not model the `averagedValue` property-name bug (undefined coordinates). It uses `averageValue`.
- `DrawingCore` has no class invariant, because its `tempDrawPostions` setter can install histories of unequal length. `HandleEvent` preserves the invariant only when it already holds.
- The commented-out `getMovingAverage` at the top of `MovingAverage.ts` is dead code.
