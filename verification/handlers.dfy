/** The page's event listeners over its module-level gesture variables. */
module Handlers {
  import opened Geometry
  import opened Gesture

  /** The five variables the listeners share and update in place. */
  class GestureTracker {
    var drawing: bool
    var lastX: real
    var lastY: real
    var lastMidX: real
    var lastMidY: real

    /** The variables read as a gesture memory. */
    function Memory(): State
      reads this
    {
      State(drawing, Point(lastX, lastY), Point(lastMidX, lastMidY))
    }

    /** The page loads not drawing, with both points at the origin. */
    constructor ()
      ensures Memory() == Initial
    {
      drawing := false;
      lastX, lastY := 0.0, 0.0;
      lastMidX, lastMidY := 0.0, 0.0;
    }

    /** Starts a gesture at the canvas point under the mouse. */
    method OnMouseDown(e: ClientPoint, rect: Rect)
      modifies this
      ensures var p := CanvasCoords(e, rect);
        drawing && lastX == lastMidX == p.x && lastY == lastMidY == p.y
      ensures Memory() == Step(old(Memory()), MouseDown(e, rect)).state
    {
      drawing := true;
      var p := CanvasCoords(e, rect);
      lastX := p.x;
      lastY := p.y;
      lastMidX := p.x;
      lastMidY := p.y;
    }

    /** Strokes the next smoothed segment of the gesture, if one is in progress. */
    method OnMouseMove(e: ClientPoint, rect: Rect) returns (seg: Option<Segment>)
      modifies this
      ensures !old(drawing) ==> seg == None && unchanged(this)
      ensures old(drawing) ==> var p := CanvasCoords(e, rect);
        && seg == Some(Segment(Point(old(lastMidX), old(lastMidY)), Point(old(lastX), old(lastY)), Midpoint(Point(old(lastX), old(lastY)), p)))
        && drawing && lastX == p.x && lastY == p.y
        && lastMidX == seg.value.end.x && lastMidY == seg.value.end.y
      ensures Outcome(Memory(), seg) == Step(old(Memory()), MouseMove(e, rect))
    {
      if !drawing {
        return None;
      }
      var p := CanvasCoords(e, rect);
      seg := Stroke(p);
    }

    /** Ends the gesture when the button is released. */
    method OnMouseUp()
      modifies this
      ensures !drawing && lastX == old(lastX) && lastY == old(lastY)
      ensures lastMidX == old(lastMidX) && lastMidY == old(lastMidY)
      ensures Memory() == Step(old(Memory()), MouseUp).state
    {
      drawing := false;
    }

    /** Ends the gesture when the pointer leaves the canvas. */
    method OnMouseLeave()
      modifies this
      ensures !drawing && lastX == old(lastX) && lastY == old(lastY)
      ensures lastMidX == old(lastMidX) && lastMidY == old(lastMidY)
      ensures Memory() == Step(old(Memory()), MouseLeave).state
    {
      drawing := false;
    }

    /** Starts a gesture at the first touch; without touches does nothing. */
    method OnTouchStart(touches: seq<ClientPoint>, rect: Rect)
      modifies this
      ensures |touches| == 0 ==> unchanged(this)
      ensures |touches| > 0 ==> var p := CanvasCoords(touches[0], rect);
        drawing && lastX == lastMidX == p.x && lastY == lastMidY == p.y
      ensures Memory() == Step(old(Memory()), TouchStart(touches, rect)).state
    {
      if |touches| > 0 {
        drawing := true;
        var p := CanvasCoords(touches[0], rect);
        lastX := p.x;
        lastY := p.y;
        lastMidX := p.x;
        lastMidY := p.y;
      }
    }

    /** Strokes the next smoothed segment towards the first touch, if a gesture
        is in progress and there is a touch. */
    method OnTouchMove(touches: seq<ClientPoint>, rect: Rect) returns (seg: Option<Segment>)
      modifies this
      ensures (!old(drawing) || |touches| == 0) ==> seg == None && unchanged(this)
      ensures old(drawing) && |touches| > 0 ==> var p := CanvasCoords(touches[0], rect);
        && seg == Some(Segment(Point(old(lastMidX), old(lastMidY)), Point(old(lastX), old(lastY)), Midpoint(Point(old(lastX), old(lastY)), p)))
        && drawing && lastX == p.x && lastY == p.y
        && lastMidX == seg.value.end.x && lastMidY == seg.value.end.y
      ensures Outcome(Memory(), seg) == Step(old(Memory()), TouchMove(touches, rect))
    {
      if !drawing || |touches| == 0 {
        return None;
      }
      var p := CanvasCoords(touches[0], rect);
      seg := Stroke(p);
    }

    /** Ends the gesture when the touch is lifted. */
    method OnTouchEnd()
      modifies this
      ensures !drawing && lastX == old(lastX) && lastY == old(lastY)
      ensures lastMidX == old(lastMidX) && lastMidY == old(lastMidY)
      ensures Memory() == Step(old(Memory()), TouchEnd).state
    {
      drawing := false;
    }

    /** The body the two move listeners share: the curve from the anchor, bent
        by the last sample, to the midpoint of the last sample and `p`; then
        both points advance. */
    method Stroke(p: Point) returns (seg: Option<Segment>)
      requires drawing
      modifies this
      ensures Outcome(Memory(), seg) == Move(old(Memory()), p)
    {
      var midX := (lastX + p.x) / 2.0;
      var midY := (lastY + p.y) / 2.0;
      seg := Some(Segment(Point(lastMidX, lastMidY), Point(lastX, lastY), Point(midX, midY)));
      lastX := p.x;
      lastY := p.y;
      lastMidX := midX;
      lastMidY := midY;
    }
  }
}
