/**
 * The effective-zone logic of one flipper: a bounded buffer of training
 * contours, a growing list of "effective" rectangles learnt from them, and
 * the query that asks whether a contour falls into one of those rectangles.
 */
module Flippers {
  import opened Wrappers
  import opened Vision

  /** Capacity of the training-contour deque (its `maxlen`). */
  const MaxContours: nat := 50
  /** Fewest stored contours from which the analysis is meant to produce areas. */
  const MinContoursToAnalyze: nat := 10
  /** Group threshold handed to the rectangle grouping (a cluster needs more members than this). */
  const GroupThreshold: nat := 6

  function Min(a: int, b: int): int { if a <= b then a else b }

  function Max(a: int, b: int): int { if a >= b then a else b }

  /**
   * A rectangle built from an (x, y, w, h) tuple, with its far corner
   * (x1, y1) precomputed.
   */
  datatype Rectangle = Rectangle(rect: RectTuple, x0: int, y0: int, w: int, h: int, x1: int, y1: int)
  {
    /** The fields agree with the tuple and the far corner is origin plus size. */
    ghost predicate Valid() {
      && x0 == rect.0 && y0 == rect.1 && w == rect.2 && h == rect.3
      && x1 == x0 + w && y1 == y0 + h
    }

    /** Closed-interval overlap on both axes: touching edges count. */
    predicate HasIntersect(other: Rectangle) {
      var dx := Min(x1, other.x1) - Max(x0, other.x0);
      var dy := Min(y1, other.y1) - Max(y0, other.y0);
      dx >= 0 && dy >= 0
    }
  }

  function NewRectangle(rect: RectTuple): (r: Rectangle)
    ensures r.Valid() && r.rect == rect
  {
    Rectangle(rect, rect.0, rect.1, rect.2, rect.3, rect.0 + rect.2, rect.1 + rect.3)
  }

  lemma HasIntersectSymmetric(a: Rectangle, b: Rectangle)
    ensures a.HasIntersect(b) <==> b.HasIntersect(a)
  {
  }

  lemma HasIntersectReflexive(a: Rectangle)
    requires a.Valid() && a.w >= 0 && a.h >= 0
    ensures a.HasIntersect(a)
  {
  }

  /** For rectangles of non-negative size the test is the closed-interval overlap test. */
  lemma HasIntersectIsClosedOverlap(a: Rectangle, b: Rectangle)
    requires a.Valid() && b.Valid()
    requires a.w >= 0 && a.h >= 0 && b.w >= 0 && b.h >= 0
    ensures a.HasIntersect(b) <==> (a.x0 <= b.x1 && b.x0 <= a.x1 && a.y0 <= b.y1 && b.y0 <= a.y1)
  {
  }

  /** Rectangles that share only an edge (dx == 0) intersect. */
  lemma TouchingEdgesIntersect(a: Rectangle, b: Rectangle)
    requires a.Valid() && b.Valid()
    requires a.w >= 0 && a.h >= 0 && b.w >= 0 && b.h >= 0
    requires a.x1 == b.x0 && a.y0 <= b.y1 && b.y0 <= a.y1
    ensures a.HasIntersect(b) && b.HasIntersect(a)
  {
  }

  /** A strictly positive gap on either axis rules an intersection out. */
  lemma GapMeansNoIntersect(a: Rectangle, b: Rectangle)
    requires a.Valid() && b.Valid()
    requires b.x0 > a.x1 || a.x0 > b.x1 || b.y0 > a.y1 || a.y0 > b.y1
    ensures !a.HasIntersect(b) && !b.HasIntersect(a)
  {
  }

  /** A rectangle lying wholly inside another intersects it, in both argument orders. */
  lemma ContainedIntersects(outer: Rectangle, inner: Rectangle)
    requires outer.Valid() && inner.Valid() && inner.w >= 0 && inner.h >= 0
    requires outer.x0 <= inner.x0 && inner.x1 <= outer.x1
    requires outer.y0 <= inner.y0 && inner.y1 <= outer.y1
    ensures outer.HasIntersect(inner) && inner.HasIntersect(outer)
  {
  }

  /** A rectangle with a negative width or height intersects nothing, itself included. */
  lemma NegativeExtentNeverIntersects(a: Rectangle, b: Rectangle)
    requires a.Valid() && (a.w < 0 || a.h < 0)
    ensures !a.HasIntersect(b) && !b.HasIntersect(a)
  {
  }

  /** Appending to a deque with capacity `cap`: when full, the oldest item falls off. */
  function BoundedAppend<T>(buf: seq<T>, x: T, cap: nat): (r: seq<T>)
    requires cap > 0
  {
    var all := buf + [x];
    if |all| <= cap then all else all[|all| - cap..]
  }

  lemma BoundedAppendSpec<T>(buf: seq<T>, x: T, cap: nat)
    requires 0 < cap && |buf| <= cap
    ensures |BoundedAppend(buf, x, cap)| == Min(|buf| + 1, cap)
    ensures |buf| < cap ==> BoundedAppend(buf, x, cap) == buf + [x]
    ensures |buf| == cap ==> BoundedAppend(buf, x, cap) == buf[1..] + [x]
  {
  }

  /** A run of appends, oldest first. */
  function AppendAll<T>(buf: seq<T>, xs: seq<T>, cap: nat): seq<T>
    requires cap > 0
    decreases |xs|
  {
    if xs == [] then buf else BoundedAppend(AppendAll(buf, xs[..|xs| - 1], cap), xs[|xs| - 1], cap)
  }

  /** After any run of appends the deque holds exactly the newest `cap` items, in order. */
  lemma {:induction false} AppendAllKeepsNewest<T>(buf: seq<T>, xs: seq<T>, cap: nat)
    requires 0 < cap && |buf| <= cap
    ensures AppendAll(buf, xs, cap) == (buf + xs)[Max(0, |buf| + |xs| - cap)..]
    decreases |xs|
  {
    if xs != [] {
      var init, x := xs[..|xs| - 1], xs[|xs| - 1];
      AppendAllKeepsNewest(buf, init, cap);
      var prev := AppendAll(buf, init, cap);
      var s := Max(0, |buf| + |init| - cap);
      assert prev == (buf + init)[s..];
      assert buf + xs == (buf + init) + [x];
      assert prev + [x] == (buf + xs)[s..];
    }
  }

  function BoundingRects(contours: seq<Contour>, boundingRect: Contour -> RectTuple): (r: seq<RectTuple>)
    ensures |r| == |contours|
    ensures forall k :: 0 <= k < |r| ==> r[k] == boundingRect(contours[k])
  {
    seq(|contours|, k requires 0 <= k < |contours| => boundingRect(contours[k]))
  }

  function Rectangles(areas: seq<RectTuple>): (r: seq<Rectangle>)
    ensures |r| == |areas|
    ensures forall k :: 0 <= k < |r| ==> r[k].Valid() && r[k].rect == areas[k]
  {
    seq(|areas|, k requires 0 <= k < |areas| => NewRectangle(areas[k]))
  }

  /**
   * The analysis as written: the guard on the number of contours evaluates
   * `[]` and discards it, so the grouping always runs.
   */
  function AnalyzeContoursAsWritten(contours: seq<Contour>, boundingRect: Contour -> RectTuple,
                                    groupRectangles: seq<RectTuple> -> seq<RectTuple>): seq<RectTuple>
  {
    groupRectangles(BoundingRects(contours, boundingRect))
  }

  /** The analysis with the guard returning, as intended: too few contours give no areas. */
  function AnalyzeContours(contours: seq<Contour>, boundingRect: Contour -> RectTuple,
                           groupRectangles: seq<RectTuple> -> seq<RectTuple>): seq<RectTuple>
  {
    if |contours| < MinContoursToAnalyze then [] else AnalyzeContoursAsWritten(contours, boundingRect, groupRectangles)
  }

  /**
   * Seven identical contours, which a grouping with threshold 6 keeps as one
   * cluster: the code as written turns them into an area, although fewer than
   * ten contours were meant to give none.
   */
  lemma AsWrittenAnalyzesTooFewContours()
    ensures var contours: seq<Contour> := seq(7, _ => [Point(0, 0)]);
            var boundingRect := (c: Contour) => (0, 0, 4, 4);
            var groupRectangles := (rs: seq<RectTuple>) => if |rs| > GroupThreshold then [rs[0]] else [];
            && |contours| < MinContoursToAnalyze
            && AnalyzeContoursAsWritten(contours, boundingRect, groupRectangles) == [(0, 0, 4, 4)]
            && AnalyzeContours(contours, boundingRect, groupRectangles) == []
  {
    var contours: seq<Contour> := seq(7, _ => [Point(0, 0)]);
    var boundingRect := (c: Contour) => (0, 0, 4, 4);
    assert |BoundingRects(contours, boundingRect)| == 7;
    assert BoundingRects(contours, boundingRect)[0] == (0, 0, 4, 4);
  }

  /** The intended analysis yields areas only from at least ten contours, and then agrees with the code. */
  lemma AnalyzeNeedsEnoughContours(contours: seq<Contour>, boundingRect: Contour -> RectTuple,
                                   groupRectangles: seq<RectTuple> -> seq<RectTuple>)
    ensures |AnalyzeContours(contours, boundingRect, groupRectangles)| > 0 ==> |contours| >= MinContoursToAnalyze
    ensures |contours| >= MinContoursToAnalyze ==>
              AnalyzeContours(contours, boundingRect, groupRectangles)
              == AnalyzeContoursAsWritten(contours, boundingRect, groupRectangles)
  {
  }

  /** Some stored area intersects the target rectangle. */
  predicate Covers(areas: seq<Rectangle>, target: Rectangle) {
    exists k :: 0 <= k < |areas| && areas[k].HasIntersect(target)
  }

  /** Areas are only ever added, so a target once covered stays covered. */
  lemma CoversMonotone(areas: seq<Rectangle>, more: seq<Rectangle>, target: Rectangle)
    requires Covers(areas, target)
    ensures Covers(areas + more, target)
  {
    var k :| 0 <= k < |areas| && areas[k].HasIntersect(target);
    assert (areas + more)[k] == areas[k];
  }

  class Flipper {
    const name: Option<string>
    var effectiveAreas: seq<Rectangle>
    var contours: seq<Contour>

    ghost predicate Valid()
      reads this
    {
      && |contours| <= MaxContours
      && forall r :: r in effectiveAreas ==> r.Valid()
    }

    constructor (name: Option<string>)
      ensures Valid() && this.name == name
      ensures effectiveAreas == [] && contours == []
      ensures !IsGood()
    {
      this.name := name;
      effectiveAreas := [];
      contours := [];
    }

    /** Trained: at least one effective area is known. */
    predicate IsGood()
      reads this
    {
      |effectiveAreas| > 0
    }

    method AddContour(contour: Contour)
      requires Valid()
      modifies this
      ensures Valid()
      ensures contours == BoundedAppend(old(contours), contour, MaxContours)
      ensures effectiveAreas == old(effectiveAreas)
    {
      contours := BoundedAppend(contours, contour, MaxContours);
    }

    method Train(boundingRect: Contour -> RectTuple, groupRectangles: seq<RectTuple> -> seq<RectTuple>)
      returns (trained: bool)
      requires Valid()
      modifies this
      ensures Valid() && contours == old(contours)
      ensures trained <==> |AnalyzeContours(old(contours), boundingRect, groupRectangles)| > 0
      ensures effectiveAreas == old(effectiveAreas) + Rectangles(AnalyzeContours(old(contours), boundingRect, groupRectangles))
      ensures trained ==> IsGood()
      ensures !trained ==> effectiveAreas == old(effectiveAreas)
      ensures |old(contours)| < MinContoursToAnalyze ==> !trained
      ensures forall t :: old(Covers(effectiveAreas, t)) ==> Covers(effectiveAreas, t)
    {
      var before := effectiveAreas;
      var areas := AnalyzeContours(contours, boundingRect, groupRectangles);
      if |areas| > 0 {
        effectiveAreas := effectiveAreas + Rectangles(areas);
        forall t | Covers(before, t)
          ensures Covers(effectiveAreas, t)
        {
          CoversMonotone(before, Rectangles(areas), t);
        }
        trained := IsGood();
      } else {
        trained := false;
      }
    }

    method Check(contour: Contour, boundingRect: Contour -> RectTuple) returns (hit: bool)
      requires Valid()
      ensures hit <==> IsGood() && Covers(effectiveAreas, NewRectangle(boundingRect(contour)))
    {
      if IsGood() {
        var target := NewRectangle(boundingRect(contour));
        for k := 0 to |effectiveAreas|
          invariant forall j :: 0 <= j < k ==> !effectiveAreas[j].HasIntersect(target)
        {
          if effectiveAreas[k].HasIntersect(target) {
            return true;
          }
        }
      }
      return false;
    }
  }
}
