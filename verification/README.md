# Freehand drawing canvas: gesture and midpoint-smoothing model

A model of the drawing page in `main.js`: a canvas that turns mouse and touch
motion into ink. The page keeps five variables — `drawing`, the last raw
sample (`lastX`, `lastY`) and the last smoothed anchor (`lastMidX`,
`lastMidY`) — and seven event listeners update them:

- mousedown, and touchstart with at least one touch, start a gesture at the
  pressed point: both remembered points become that point;
- mousemove, and touchmove with at least one touch, while a gesture is in
  progress, stroke one quadratic curve from the old anchor, bent towards the
  old sample, to the midpoint of the old sample and the new point, and then
  advance both remembered points;
- mouseup, mouseleave and touchend end the gesture.

Each event position is translated from viewport to canvas coordinates by
subtracting the canvas' bounding rectangle's `left` and `top`
(`getCanvasCoords`).

The project has four modules:

- `Geometry` (geometry.dfy): points, the bounding rectangle, the stroked
  segment, `getCanvasCoords` and the midpoint, as functions with lemmas.
- `Gesture` (gesture.dfy): the gesture memory as a value and every listener as
  a pure transition `Step`, with one lemma per kind of event.
- `Trace` (trace.dfy): events delivered one after another (`Replay`) and what
  holds across them: consecutive segments of a gesture join up, the first one
  starts at the pressed point, moves after a gesture has ended are inert, and a
  press forgets everything before it.
- `Handlers` (handlers.dfy): the page's five variables as the fields of a
  class, `GestureTracker`, with one method per listener. Each method states its
  new fields and the segment it strokes, and ties both to `Gesture.Step`, so
  the lemmas of `Trace` carry over to a sequence of these calls step by step.

Canvas drawing calls are not performed: a move returns the segment it would
stroke (`Option<Segment>`), and `Replay` lists, event by event, the segment
each one stroked. The bounding rectangle and the list of active touches are
inputs of each event. Coordinates are exact reals.

## Model

| member | source | states |
|---|---|---|
| `Geometry.CanvasCoords` | main.js:8-13 | the canvas point, placed back into the viewport at the rectangle's `left`/`top`, is exactly the event's client position |
| `Geometry.CanvasCoordsRoundTrip` | main.js:8-13 | translating a canvas point into the viewport and back gives the same point |
| `Geometry.Midpoint` | main.js:31-32 | the anchor lies as far from the new sample as from the old one, on each axis |
| `Geometry.MidpointUnique` | main.js:31-32 | a point equidistant from both samples on both axes is the midpoint, whichever sample comes first |
| `Gesture.Press` | main.js:18-23 | a press leaves the page drawing, and the next move from it strokes from the pressed point, bent towards it, to the midpoint of the pressed point and the new one |
| `Gesture.Move` | main.js:29-40 | strokes exactly when drawing; outside a gesture changes nothing; inside one the segment starts at the old anchor, bends to the old sample, and the new memory is the new point with the segment's end as anchor, centred between old sample and new point |
| `Gesture.Release` | main.js:43-48 | clears `drawing` (also main.js:82-84), keeps both points, and every move afterwards is inert |
| `Gesture.Step` | main.js:16-84 | the seven listeners as one transition: an event strokes exactly when it is a drawable move during a gesture; presses give `Press`, drawable moves give `Move`, end events give `Release`; `StepPress`, `StepTouchStartWithoutTouches`, `StepDrawingMove`, `StepInertMove` and `StepEnd` fix it case by case |
| `Gesture.StepPress` | main.js:17-23 | a mousedown, or a touchstart with a touch (main.js:51-59), sets `drawing` and puts both points at the pressed point whatever the memory held, and strokes nothing |
| `Gesture.StepTouchStartWithoutTouches` | main.js:51-52 | a touchstart with no touches changes nothing and strokes nothing |
| `Gesture.StepDrawingMove` | main.js:28-40 | a drawable move during a gesture strokes exactly the segment old anchor → control old sample → midpoint of old sample and new point; then `last` is the new point and `lastMid` the segment's end |
| `Gesture.StepInertMove` | main.js:65-66 | a move while not drawing (also main.js:29), or a touchmove without touches, strokes nothing and changes nothing |
| `Gesture.StepEnd` | main.js:43-48 | mouseup, mouseleave and touchend (main.js:82-84) clear `drawing`, keep both points and stroke nothing |
| `Gesture.StepQuiet` | main.js:28-48 | an event that neither presses nor strokes keeps both points; the page stays drawing exactly when it was and the event does not end the gesture |
| `Gesture.StepSegmentChains` | main.js:31-40 | any stroked segment comes from a drawable move during a gesture, starts at the old anchor, bends to the old sample, and its end is the new anchor |
| `Trace.Replay` | main.js:16-84 | delivering a sequence of events yields one stroke-or-nothing per event |
| `Trace.ReplayAt` | main.js:16-84 | each event is handled by its listener on exactly the memory the earlier events left |
| `Trace.QuietStretch` | main.js:28-48 | a stretch of events that neither press nor stroke keeps both remembered points |
| `Trace.Continuity` | main.js:31-40 | within a gesture, a segment starts exactly where the previous stroked segment ended |
| `Trace.FirstSegmentStartsAtPress` | main.js:17-35 | the first segment after a press starts at, and bends towards, the pressed point |
| `Trace.IdleIsInert` | main.js:28-29 | while not drawing, events other than presses stroke nothing and leave the memory untouched |
| `Trace.MovesAfterEndAreInert` | main.js:43-48 | after up, leave or touch end, nothing is stroked before the next press and the memory stays as the ending event left it |
| `Trace.GestureStrokesEveryMove` | main.js:17-41 | from a press through an unbroken run of drawable moves, the page keeps drawing and every move strokes a segment |
| `Trace.SameMemorySameFuture` | main.js:16-84 | the listeners depend on nothing but the memory and the event: equal memories give equal futures |
| `Trace.PressForgetsThePast` | main.js:17-23 | from a press on, what is stroked and the final memory do not depend on the memory before the press |
| `Trace.PressThenTwoMoves` | main.js:17-41 | from any memory, a press and two drawable moves stroke nothing, then (pressed point → bent to it → midpoint with the first move), then (that midpoint → bent to the first move → midpoint of the two moves) |
| `Trace.HorizontalStroke` | main.js:17-41 | a press at (0,0) and moves to (10,0) and (20,0) stroke (0,0)→(0,0)→(5,0) and then (5,0)→(10,0)→(15,0) |
| `Handlers.GestureTracker.constructor` | main.js:4-6 | the page loads not drawing, with both points at the origin |
| `Handlers.GestureTracker.OnMouseDown` | main.js:17-26 | sets `drawing` and all four coordinates to the pressed canvas point, as `Gesture.Step` does |
| `Handlers.GestureTracker.OnMouseMove` | main.js:28-41 | not drawing: strokes nothing and changes nothing; drawing: returns the smoothed segment and advances both points, as `Gesture.Step` does |
| `Handlers.GestureTracker.OnMouseUp` | main.js:43-45 | clears `drawing` and keeps the four coordinates |
| `Handlers.GestureTracker.OnMouseLeave` | main.js:46-48 | clears `drawing` and keeps the four coordinates |
| `Handlers.GestureTracker.OnTouchStart` | main.js:51-63 | with no touches changes nothing; otherwise starts the gesture at the first touch |
| `Handlers.GestureTracker.OnTouchMove` | main.js:65-80 | not drawing or no touches: strokes nothing and changes nothing; otherwise strokes towards the first touch and advances both points |
| `Handlers.GestureTracker.Stroke` | main.js:30-40 | the move body shared with main.js:69-79: the returned segment and the new fields are exactly those of `Gesture.Move` on the old fields |
| `Handlers.GestureTracker.OnTouchEnd` | main.js:82-84 | clears `drawing` and keeps the four coordinates, whether or not other touches remain |

## Left out

- Canvas drawing (`beginPath`, `moveTo`, `quadraticCurveTo`, `stroke` at main.js:24-25, 33-36, 60-61, 72-75): raster output; a move returns the segment it would stroke instead. The `beginPath`/`moveTo` of a press draws nothing and has no counterpart.
- Looking up the canvas and its context, and registering the listeners (main.js:2-3 and each `addEventListener`): browser plumbing.
- `getBoundingClientRect` (main.js:9): the rectangle is an input of each event; only its `left` and `top` are used.
- `e.preventDefault()` (main.js:67): it suppresses the browser's default touch handling (scrolling, zooming) and has no effect on the gesture variables.
- `resizeCanvas` and its resize listener (main.js:86-91): window-size I/O with no logic.
- Floating-point numbers: coordinates are exact reals, so the midpoint has no rounding.
- Brush size, eraser, disc stamping and undo/redo history: not present in `main.js`.
