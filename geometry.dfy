// Points, vectors and rectangles of the game world, with exact real coordinates.
// The source's CGPoint operators (+, -, * scalar, / scalar) act component-wise;
// the vector length (a square root) is never computed here: wherever the source
// measures a length, the caller supplies it and the contract ties it to LengthSq.

module Geometry {

  /** A CGPoint; used both for positions and for direction vectors. */
  datatype Point = Point(x: real, y: real)

  const Zero: Point := Point(0.0, 0.0)

  function Add(a: Point, b: Point): Point { Point(a.x + b.x, a.y + b.y) }

  function Sub(a: Point, b: Point): Point { Point(a.x - b.x, a.y - b.y) }

  function Scale(v: Point, k: real): Point { Point(v.x * k, v.y * k) }

  function Div(v: Point, k: real): Point
    requires k != 0.0
  {
    Point(v.x / k, v.y / k)
  }

  lemma SquarePositive(a: real)
    ensures a * a >= 0.0
    ensures a != 0.0 ==> a * a > 0.0
  {
    if a < 0.0 {
      var b := -a;
      assert a * a == b * b;
    }
  }

  /** The square of the vector's length. */
  function LengthSq(v: Point): (r: real)
    ensures r >= 0.0
  {
    SquarePositive(v.x);
    SquarePositive(v.y);
    v.x * v.x + v.y * v.y
  }

  /** `d` is the (positive) length of `v`: the value the source's length() returns. */
  predicate IsLength(d: real, v: Point)
  {
    d > 0.0 && d * d == LengthSq(v)
  }

  /** A CGRect: origin and size. */
  datatype Rect = Rect(x: real, y: real, width: real, height: real)

  function Min(a: real, b: real): real { if a < b then a else b }

  function Max(a: real, b: real): real { if a > b then a else b }

  // CGRectGetMinX and friends work on the standardised rectangle, so a negative
  // width or height is measured from the other edge.
  function MinX(r: Rect): real { Min(r.x, r.x + r.width) }
  function MaxX(r: Rect): real { Max(r.x, r.x + r.width) }
  function MinY(r: Rect): real { Min(r.y, r.y + r.height) }
  function MaxY(r: Rect): real { Max(r.y, r.y + r.height) }

  predicate Contains(r: Rect, p: Point)
  {
    MinX(r) <= p.x <= MaxX(r) && MinY(r) <= p.y <= MaxY(r)
  }

  /** The clamp of the source's CGFloat helpers: bounds in either order. */
  function Clamp(v: real, bound1: real, bound2: real): (c: real)
    ensures Min(bound1, bound2) <= c <= Max(bound1, bound2)
    ensures Min(bound1, bound2) <= v <= Max(bound1, bound2) ==> c == v
    ensures v < Min(bound1, bound2) ==> c == Min(bound1, bound2)
    ensures v > Max(bound1, bound2) ==> c == Max(bound1, bound2)
  {
    var lo := Min(bound1, bound2);
    var hi := Max(bound1, bound2);
    if v < lo then lo else if v > hi then hi else v
  }

  /** Clamp each coordinate of `p` into `r`, as GameScene.update does for the ship. */
  function ClampInto(p: Point, r: Rect): (q: Point)
    ensures Contains(r, q)
    ensures Contains(r, p) ==> q == p
    ensures MinX(r) <= p.x <= MaxX(r) ==> q.x == p.x
    ensures MinY(r) <= p.y <= MaxY(r) ==> q.y == p.y
  {
    Point(Clamp(p.x, MinX(r), MaxX(r)), Clamp(p.y, MinY(r), MaxY(r)))
  }
}
