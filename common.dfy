/**
 * Value types shared by the composition engine: optional values, results
 * of operations that can throw, Core Graphics geometry and time ranges.
 * Times and sizes are real numbers (seconds and points).
 */
module Common {

  datatype Option<+T> = None | Some(value: T)

  /** The outcome of an operation that the program runs with `try`. */
  datatype Result<+T, +E> = Success(value: T) | Failure(error: E)

  /** The outcome of a throwing operation that returns nothing. */
  datatype Outcome<+E> = Pass | Fail(error: E)

  function Abs(x: real): (r: real)
    ensures r >= 0.0 && (r == x || r == -x)
  {
    if x < 0.0 then -x else x
  }

  /** CGPoint */
  datatype Point = Point(x: real, y: real)

  /** CGSize: width and height as stored, sign included. */
  datatype Size = Size(width: real, height: real)

  /**
   * CGRect. Its `width` and `height` accessors answer for the standardized
   * rectangle, so they are never negative, while `origin` is read as stored.
   */
  datatype Rect = Rect(origin: Point, size: Size) {
    function Width(): real { Abs(size.width) }
    function Height(): real { Abs(size.height) }
  }

  /** A rectangle at the origin, `CGRect(origin: .zero, size: size)`. */
  function RectAtZero(size: Size): (r: Rect)
    ensures r.origin == Point(0.0, 0.0) && r.size == size
  {
    Rect(Point(0.0, 0.0), size)
  }

  /** CMTimeRange, start and duration in seconds. */
  datatype TimeRange = TimeRange(start: real, duration: real)

  /**
   * The number of leading elements of `xs` that satisfy `ok`: the index of
   * the first element that does not, or `|xs|` when all of them do.
   */
  function OkPrefix<T>(xs: seq<T>, ok: T -> bool): (n: nat)
    ensures n <= |xs|
    ensures forall i :: 0 <= i < n ==> ok(xs[i])
    ensures n < |xs| ==> !ok(xs[n])
  {
    if xs == [] || !ok(xs[0]) then 0 else 1 + OkPrefix(xs[1..], ok)
  }
}
