/** Coordinates and curve segments of the drawing surface.
    Coordinates are exact reals: the floating-point rounding of the
    browser's numbers is not modelled. */
module Geometry {

  /** A point in canvas coordinates (origin at the canvas' top-left corner). */
  datatype Point = Point(x: real, y: real)

  /** A pointer position as a mouse event or a touch reports it, in viewport
      (client) coordinates. */
  datatype ClientPoint = ClientPoint(clientX: real, clientY: real)

  /** The part of the canvas' bounding client rectangle that the handlers use:
      where the canvas' top-left corner lies in the viewport. */
  datatype Rect = Rect(left: real, top: real)

  /** One quadratic curve drawn by a move: the pen is placed at `start`,
      bends towards `control` and finishes at `end`. */
  datatype Segment = Segment(start: Point, control: Point, end: Point)

  /** Where a canvas point lies in the viewport when the canvas' corner is at
      `rect`: the inverse of CanvasCoords. */
  function ClientOf(p: Point, rect: Rect): ClientPoint
  {
    ClientPoint(p.x + rect.left, p.y + rect.top)
  }

  /** getCanvasCoords: the client position of an event, translated into the
      canvas' own coordinate system. */
  function CanvasCoords(c: ClientPoint, rect: Rect): (p: Point)
    ensures ClientOf(p, rect) == c
  {
    Point(c.clientX - rect.left, c.clientY - rect.top)
  }

  /** Translating a canvas point into the viewport and back gives the point again. */
  lemma CanvasCoordsRoundTrip(p: Point, rect: Rect)
    ensures CanvasCoords(ClientOf(p, rect), rect) == p
  {
  }

  /** The smoothed anchor between two raw samples: the point that lies as far
      from `b` as from `a` along each axis. */
  function Midpoint(a: Point, b: Point): (m: Point)
    ensures m.x - a.x == b.x - m.x && m.y - a.y == b.y - m.y
  {
    Point((a.x + b.x) / 2.0, (a.y + b.y) / 2.0)
  }

  /** Only the midpoint is equally far from both samples along both axes, and
      the order of the two samples does not matter. */
  lemma MidpointUnique(a: Point, b: Point, m: Point)
    requires m.x - a.x == b.x - m.x && m.y - a.y == b.y - m.y
    ensures m == Midpoint(a, b) == Midpoint(b, a)
  {
  }
}
