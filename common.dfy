/** Option and Result, used where the program returns "nothing" or raises. */
module Wrappers {
  datatype Option<T> = None | Some(value: T)

  datatype Result<T, E> = Ok(value: T) | Err(error: E)
}

/**
 * The values exchanged with the vision library: image points, contours,
 * the (x, y, w, h) tuples of bounding rectangles and image moments.
 * The library itself is foreign; the operations that use it take its
 * functions as parameters.
 */
module Vision {
  datatype Point = Point(x: int, y: int)

  /** A closed polygon, as a list of its vertices. */
  type Contour = seq<Point>

  /** The (x, y, w, h) tuple that a bounding-rectangle computation returns. */
  type RectTuple = (int, int, int, int)

  /** The zeroth and first order moments of a contour. */
  datatype Moments = Moments(m00: real, m10: real, m01: real)

  /** Python's `int(x)` on a float: truncation toward zero. */
  function Trunc(x: real): (r: int)
    ensures x >= 0.0 ==> 0 <= r && r as real <= x < r as real + 1.0
    ensures x < 0.0 ==> r <= 0 && r as real - 1.0 < x <= r as real
  {
    if x >= 0.0 then x.Floor else -((-x).Floor)
  }

  lemma TruncOfInt(n: int)
    ensures Trunc(n as real) == n
  {
  }

  lemma TruncMonotone(x: real, y: real)
    requires x <= y
    ensures Trunc(x) <= Trunc(y)
  {
  }
}
