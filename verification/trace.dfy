/** Sequences of events delivered to the canvas one after the other, and what
    the gesture memory guarantees across them: consecutive segments of one
    gesture join up, a gesture's first segment starts where it was pressed,
    moves outside a gesture draw nothing, and a press forgets everything
    that came before it. */
module Trace {
  import opened Geometry
  import opened Gesture

  /** The memory after a run of events and, event by event, the segment each stroked. */
  datatype Run = Run(final: State, outputs: seq<Option<Segment>>)

  /** Delivers `es` in order, starting from the memory `s`. */
  function Replay(s: State, es: seq<Event>): (r: Run)
    ensures |r.outputs| == |es|
    decreases |es|
  {
    if es == [] then Run(s, [])
    else
      var before := Replay(s, es[..|es| - 1]);
      var o := Step(before.final, es[|es| - 1]);
      Run(o.state, before.outputs + [o.segment])
  }

  /** The memory just before event `k` of `es` is delivered. */
  function After(s: State, es: seq<Event>, k: nat): State
    requires k <= |es|
  {
    Replay(s, es[..k]).final
  }

  /** Delivering a prefix of the events strokes a prefix of the segments. */
  lemma {:induction false} ReplayPrefix(s: State, es: seq<Event>, k: nat)
    requires k <= |es|
    ensures Replay(s, es[..k]).outputs == Replay(s, es).outputs[..k]
    decreases |es|
  {
    if k < |es| {
      var n := |es| - 1;
      ReplayPrefix(s, es[..n], k);
      assert es[..n][..k] == es[..k];
    } else {
      assert es[..k] == es;
    }
  }

  /** Event `k` strokes what its listener strokes from the memory it finds,
      and leaves the memory its listener leaves. */
  lemma {:induction false} ReplayAt(s: State, es: seq<Event>, k: nat)
    requires k < |es|
    ensures Replay(s, es).outputs[k] == Step(After(s, es, k), es[k]).segment
    ensures After(s, es, k + 1) == Step(After(s, es, k), es[k]).state
  {
    ReplayPrefix(s, es, k + 1);
    assert es[..k + 1][..k] == es[..k];
  }

  /** The memory after the last event is where the whole run ends. */
  lemma AfterAll(s: State, es: seq<Event>)
    ensures After(s, es, |es|) == Replay(s, es).final
  {
    assert es[..|es|] == es;
  }

  /** A stretch of events that neither press nor stroke keeps both remembered
      points where they were. */
  lemma {:induction false} QuietStretch(s: State, es: seq<Event>, a: nat, b: nat)
    requires a <= b <= |es|
    requires forall k :: a <= k < b ==> PressedAt(es[k]).None? && Replay(s, es).outputs[k].None?
    ensures After(s, es, b).last == After(s, es, a).last
    ensures After(s, es, b).lastMid == After(s, es, a).lastMid
    decreases b
  {
    if a < b {
      QuietStretch(s, es, a, b - 1);
      ReplayAt(s, es, b - 1);
      StepQuiet(After(s, es, b - 1), es[b - 1]);
    }
  }

  /** Continuity of a stroke: when no press comes between two segments and
      nothing is stroked between them, the later one starts exactly where the
      earlier one ended. */
  lemma Continuity(s: State, es: seq<Event>, i: nat, j: nat)
    requires i < j < |es|
    requires Replay(s, es).outputs[i].Some? && Replay(s, es).outputs[j].Some?
    requires forall k :: i < k < j ==> PressedAt(es[k]).None? && Replay(s, es).outputs[k].None?
    ensures Replay(s, es).outputs[j].value.start == Replay(s, es).outputs[i].value.end
  {
    ReplayAt(s, es, i);
    StepSegmentChains(After(s, es, i), es[i]);
    QuietStretch(s, es, i + 1, j);
    ReplayAt(s, es, j);
    StepSegmentChains(After(s, es, j), es[j]);
  }

  /** The first segment of a gesture starts at the pressed point and bends
      towards it. */
  lemma FirstSegmentStartsAtPress(s: State, es: seq<Event>, d: nat, j: nat)
    requires d < j < |es|
    requires PressedAt(es[d]).Some?
    requires Replay(s, es).outputs[j].Some?
    requires forall k :: d < k < j ==> PressedAt(es[k]).None? && Replay(s, es).outputs[k].None?
    ensures Replay(s, es).outputs[j].value.start == PressedAt(es[d]).value
    ensures Replay(s, es).outputs[j].value.control == PressedAt(es[d]).value
  {
    ReplayAt(s, es, d);
    StepPress(After(s, es, d), es[d]);
    QuietStretch(s, es, d + 1, j);
    ReplayAt(s, es, j);
    StepSegmentChains(After(s, es, j), es[j]);
  }

  /** While no gesture is in progress, events other than presses stroke
      nothing and leave the memory exactly as it was. */
  lemma {:induction false} IdleIsInert(s: State, es: seq<Event>, a: nat, b: nat)
    requires a <= b <= |es|
    requires !After(s, es, a).drawing
    requires forall k :: a <= k < b ==> PressedAt(es[k]).None?
    ensures After(s, es, b) == After(s, es, a)
    ensures forall k :: a <= k < b ==> Replay(s, es).outputs[k].None?
    decreases b
  {
    if a < b {
      IdleIsInert(s, es, a, b - 1);
      ReplayAt(s, es, b - 1);
    }
  }

  /** After up, leave or touch end, every move before the next press is inert:
      it strokes nothing and the memory stays as the ending event left it. */
  lemma MovesAfterEndAreInert(s: State, es: seq<Event>, r: nat, j: nat)
    requires r < j <= |es|
    requires Ends(es[r])
    requires forall k :: r < k < j ==> PressedAt(es[k]).None?
    ensures After(s, es, j) == After(s, es, r).(drawing := false)
    ensures forall k :: r < k < j ==> Replay(s, es).outputs[k].None?
  {
    ReplayAt(s, es, r);
    StepEnd(After(s, es, r), es[r]);
    IdleIsInert(s, es, r + 1, j);
  }

  /** Inside a gesture every drawable move strokes: from a press through an
      unbroken run of moves, the page keeps drawing and each move strokes a
      segment. */
  lemma {:induction false} GestureStrokesEveryMove(s: State, es: seq<Event>, d: nat, j: nat)
    requires d < j <= |es|
    requires PressedAt(es[d]).Some?
    requires forall k :: d < k < j ==> MovedTo(es[k]).Some?
    ensures After(s, es, j).drawing
    ensures forall k :: d < k < j ==> Replay(s, es).outputs[k].Some?
    decreases j
  {
    ReplayAt(s, es, d);
    if d + 1 < j {
      GestureStrokesEveryMove(s, es, d, j - 1);
      ReplayAt(s, es, j - 1);
    }
  }

  /** Two runs that reach the same memory stroke the same segments from then on. */
  lemma {:induction false} SameMemorySameFuture(s1: State, s2: State, es: seq<Event>, a: nat, b: nat)
    requires a <= b <= |es|
    requires After(s1, es, a) == After(s2, es, a)
    ensures After(s1, es, b) == After(s2, es, b)
    ensures forall k :: a <= k < b ==> Replay(s1, es).outputs[k] == Replay(s2, es).outputs[k]
    decreases b
  {
    if a < b {
      SameMemorySameFuture(s1, s2, es, a, b - 1);
      ReplayAt(s1, es, b - 1);
      ReplayAt(s2, es, b - 1);
    }
  }

  /** A press resets the memory: from a press on, what is stroked and where the
      memory ends up do not depend on anything before it. */
  lemma {:induction false} PressForgetsThePast(s1: State, s2: State, es: seq<Event>, d: nat)
    requires d < |es|
    requires PressedAt(es[d]).Some?
    ensures Replay(s1, es).final == Replay(s2, es).final
    ensures Replay(s1, es).outputs[d..] == Replay(s2, es).outputs[d..]
  {
    ReplayAt(s1, es, d);
    ReplayAt(s2, es, d);
    StepPress(After(s1, es, d), es[d]);
    StepPress(After(s2, es, d), es[d]);
    SameMemorySameFuture(s1, s2, es, d + 1, |es|);
    AfterAll(s1, es);
    AfterAll(s2, es);
    var o1, o2 := Replay(s1, es).outputs, Replay(s2, es).outputs;
    assert forall k :: d <= k < |es| ==> o1[k] == o2[k];
    assert o1[d..] == o2[d..];
  }

  /** A press followed by two drawable moves strokes nothing, then the curve
      from the pressed point bent towards it, then the curve from where that
      one ended, bent towards the first move's point. */
  lemma PressThenTwoMoves(s: State, es: seq<Event>)
    requires |es| == 3
    requires PressedAt(es[0]).Some? && MovedTo(es[1]).Some? && MovedTo(es[2]).Some?
    ensures var p0, p1, p2 := PressedAt(es[0]).value, MovedTo(es[1]).value, MovedTo(es[2]).value;
      Replay(s, es).outputs == [
        None,
        Some(Segment(p0, p0, Midpoint(p0, p1))),
        Some(Segment(Midpoint(p0, p1), p1, Midpoint(p1, p2)))]
  {
    var p0, p1, p2 := PressedAt(es[0]).value, MovedTo(es[1]).value, MovedTo(es[2]).value;
    var outputs := Replay(s, es).outputs;
    assert outputs[0] == None && After(s, es, 1) == State(true, p0, p0) by {
      ReplayAt(s, es, 0);
      StepPress(After(s, es, 0), es[0]);
    }
    assert outputs[1] == Some(Segment(p0, p0, Midpoint(p0, p1)))
        && After(s, es, 2) == State(true, p1, Midpoint(p0, p1)) by {
      ReplayAt(s, es, 1);
      StepDrawingMove(State(true, p0, p0), es[1]);
    }
    assert outputs[2] == Some(Segment(Midpoint(p0, p1), p1, Midpoint(p1, p2))) by {
      ReplayAt(s, es, 2);
      StepDrawingMove(State(true, p1, Midpoint(p0, p1)), es[2]);
    }
  }

  /** A press at the canvas' left edge followed by two moves ten pixels apart
      strokes two joined segments along the horizontal line through it. */
  lemma HorizontalStroke(rect: Rect)
    ensures var es := [MouseDown(ClientOf(Point(0.0, 0.0), rect), rect),
                       MouseMove(ClientOf(Point(10.0, 0.0), rect), rect),
                       MouseMove(ClientOf(Point(20.0, 0.0), rect), rect)];
      Replay(Initial, es).outputs == [
        None,
        Some(Segment(Point(0.0, 0.0), Point(0.0, 0.0), Point(5.0, 0.0))),
        Some(Segment(Point(5.0, 0.0), Point(10.0, 0.0), Point(15.0, 0.0)))]
  {
    var es := [MouseDown(ClientOf(Point(0.0, 0.0), rect), rect),
               MouseMove(ClientOf(Point(10.0, 0.0), rect), rect),
               MouseMove(ClientOf(Point(20.0, 0.0), rect), rect)];
    CanvasCoordsRoundTrip(Point(0.0, 0.0), rect);
    CanvasCoordsRoundTrip(Point(10.0, 0.0), rect);
    CanvasCoordsRoundTrip(Point(20.0, 0.0), rect);
    PressThenTwoMoves(Initial, es);
  }
}
