/** The gesture state of the drawing page and what each event listener does
    to it, as pure transitions. */
module Gesture {
  import opened Geometry

  datatype Option<T> = None | Some(value: T)

  /** The page's gesture memory: whether a gesture is in progress, the last
      raw sample (`lastX`, `lastY`) and the last smoothed anchor
      (`lastMidX`, `lastMidY`). */
  datatype State = State(drawing: bool, last: Point, lastMid: Point)

  /** The memory when the page has loaded: not drawing, both points at the origin. */
  const Initial := State(false, Point(0.0, 0.0), Point(0.0, 0.0))

  /** The seven events the canvas listens to. Each event that carries a
      position also carries the canvas' bounding rectangle at that moment,
      since the handlers read it afresh every time. A touch event carries its
      list of active touches. */
  datatype Event =
    | MouseDown(at: ClientPoint, rect: Rect)
    | MouseMove(at: ClientPoint, rect: Rect)
    | MouseUp
    | MouseLeave
    | TouchStart(touches: seq<ClientPoint>, rect: Rect)
    | TouchMove(touches: seq<ClientPoint>, rect: Rect)
    | TouchEnd

  /** What one event does: the new memory and the curve segment it strokes, if any. */
  datatype Outcome = Outcome(state: State, segment: Option<Segment>)

  /** Pointer-down at canvas point `p`: start a gesture anchored at `p`, so
      that the next move strokes from `p`, bent towards `p`. */
  function Press(p: Point): (r: State)
    ensures r.drawing
    ensures forall q :: Move(r, q).segment == Some(Segment(p, p, Midpoint(p, q)))
  {
    State(true, p, p)
  }

  /** A move to canvas point `p`: outside a gesture nothing happens; inside one,
      the curve from the old anchor, bent by the old sample, to the midpoint of
      the old sample and `p` is stroked, and both points advance. */
  function Move(s: State, p: Point): (o: Outcome)
    ensures o.segment.Some? <==> s.drawing
    ensures !s.drawing ==> o.state == s
    ensures s.drawing ==> && o.segment.value.start == s.lastMid
                          && o.segment.value.control == s.last
                          && o.state == State(true, p, o.segment.value.end)
                          && o.state.lastMid.x - s.last.x == p.x - o.state.lastMid.x
                          && o.state.lastMid.y - s.last.y == p.y - o.state.lastMid.y
  {
    if !s.drawing then Outcome(s, None)
    else
      var mid := Midpoint(s.last, p);
      Outcome(s.(last := p, lastMid := mid), Some(Segment(s.lastMid, s.last, mid)))
  }

  /** Pointer-up, leaving the canvas or the end of a touch: the gesture is over. */
  function Release(s: State): (r: State)
    ensures !r.drawing && r.last == s.last && r.lastMid == s.lastMid
    ensures forall q :: Move(r, q) == Outcome(r, None)
  {
    s.(drawing := false)
  }

  /** The listener of each event, applied to the memory `s`: an event strokes
      exactly when it is a drawable move during a gesture, and a press puts
      the memory in the same state whatever it held. */
  function Step(s: State, e: Event): (o: Outcome)
    ensures o.segment.Some? <==> s.drawing && MovedTo(e).Some?
    ensures PressedAt(e).Some? ==> o.state == Press(PressedAt(e).value)
    ensures MovedTo(e).Some? ==> o == Move(s, MovedTo(e).value)
    ensures Ends(e) ==> o.state == Release(s)
  {
    match e
    case MouseDown(c, rect) => Outcome(Press(CanvasCoords(c, rect)), None)
    case MouseMove(c, rect) => Move(s, CanvasCoords(c, rect))
    case MouseUp => Outcome(Release(s), None)
    case MouseLeave => Outcome(Release(s), None)
    case TouchStart(ts, rect) =>
      if |ts| > 0 then Outcome(Press(CanvasCoords(ts[0], rect)), None)
      else Outcome(s, None)
    case TouchMove(ts, rect) =>
      if !s.drawing || |ts| == 0 then Outcome(s, None)
      else Move(s, CanvasCoords(ts[0], rect))
    case TouchEnd => Outcome(Release(s), None)
  }

  /** The canvas point an event presses at, if it starts a gesture: a mouse
      press, or a touch start with at least one touch (its first one). */
  function PressedAt(e: Event): Option<Point>
  {
    match e
    case MouseDown(c, rect) => Some(CanvasCoords(c, rect))
    case TouchStart(ts, rect) => if |ts| > 0 then Some(CanvasCoords(ts[0], rect)) else None
    case _ => None
  }

  /** The canvas point an event moves to, if it is a move the page can draw
      with: a mouse move, or a touch move with at least one touch. */
  function MovedTo(e: Event): Option<Point>
  {
    match e
    case MouseMove(c, rect) => Some(CanvasCoords(c, rect))
    case TouchMove(ts, rect) => if |ts| > 0 then Some(CanvasCoords(ts[0], rect)) else None
    case _ => None
  }

  /** The events that end a gesture. */
  predicate Ends(e: Event)
  {
    e.MouseUp? || e.MouseLeave? || e.TouchEnd?
  }

  /** A press starts a gesture at the pressed point, whatever the memory held. */
  lemma StepPress(s: State, e: Event)
    requires PressedAt(e).Some?
    ensures Step(s, e) == Outcome(State(true, PressedAt(e).value, PressedAt(e).value), None)
  {
  }

  /** A touch start without touches changes nothing. */
  lemma StepTouchStartWithoutTouches(s: State, rect: Rect)
    ensures Step(s, TouchStart([], rect)) == Outcome(s, None)
  {
  }

  /** A move during a gesture strokes exactly one segment, from the old anchor
      through the old sample to the midpoint of the old sample and the new
      point; afterwards the sample is the new point and the anchor is where the
      segment ended. */
  lemma StepDrawingMove(s: State, e: Event)
    requires s.drawing && MovedTo(e).Some?
    ensures var p := MovedTo(e).value;
      var o := Step(s, e);
      && o.segment == Some(Segment(s.lastMid, s.last, Midpoint(s.last, p)))
      && o.state == State(true, p, o.segment.value.end)
  {
  }

  /** A move outside a gesture, or a touch move without touches, strokes
      nothing and changes nothing. */
  lemma StepInertMove(s: State, e: Event)
    requires e.MouseMove? || e.TouchMove?
    requires !s.drawing || MovedTo(e).None?
    ensures Step(s, e) == Outcome(s, None)
  {
  }

  /** Up, leave and touch end only clear `drawing`. */
  lemma StepEnd(s: State, e: Event)
    requires Ends(e)
    ensures Step(s, e) == Outcome(s.(drawing := false), None)
  {
  }

  /** An event that neither presses nor strokes leaves both remembered points
      as they were, and leaves the page drawing only if it was and the event
      does not end the gesture. */
  lemma StepQuiet(s: State, e: Event)
    requires PressedAt(e).None? && Step(s, e).segment.None?
    ensures Step(s, e).state.last == s.last && Step(s, e).state.lastMid == s.lastMid
    ensures Step(s, e).state.drawing == (s.drawing && !Ends(e))
  {
  }

  /** Every stroked segment starts at the anchor and bends towards the sample
      remembered before the event, and the new anchor is where it ends. */
  lemma StepSegmentChains(s: State, e: Event)
    requires Step(s, e).segment.Some?
    ensures var o := Step(s, e);
      && s.drawing && MovedTo(e).Some?
      && o.segment.value.start == s.lastMid && o.segment.value.control == s.last
      && o.state.lastMid == o.segment.value.end && o.state.last == MovedTo(e).value
      && o.state.drawing
  {
  }
}
