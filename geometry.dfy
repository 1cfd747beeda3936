/** Axis-aligned boxes, the only shape the game's collision tests use. */
module Geometry {

  /** A box whose top-left corner is (x, y); y grows downwards, as on the canvas. */
  datatype Rectangle = Rectangle(x: real, y: real, width: real, height: real)
  {
    function Left(): real { x }
    function Right(): real { x + width }
    function Top(): real { y }
    function Bottom(): real { y + height }
  }

  /** `a.overLaps(b)`: the open intervals of the two boxes meet on both axes. */
  predicate OverLaps(a: Rectangle, b: Rectangle)
  {
    b.Left() < a.Right() && a.Left() < b.Right() &&
    b.Top() < a.Bottom() && a.Top() < b.Bottom()
  }

  /** `r.contain(px, py)`: the point lies strictly inside all four edges. */
  predicate Contain(r: Rectangle, px: real, py: real)
  {
    r.Left() < px && r.Right() > px && r.Top() < py && r.Bottom() > py
  }

  /** Every box the game builds has a positive width and height. */
  predicate HasArea(r: Rectangle)
  {
    r.width > 0.0 && r.height > 0.0
  }

  lemma OverLapsSymmetric(a: Rectangle, b: Rectangle)
    ensures OverLaps(a, b) == OverLaps(b, a)
  {
  }

  /** Boxes that only share (part of) an edge do not overlap. */
  lemma TouchingEdgesDoNotOverlap(a: Rectangle, b: Rectangle)
    requires a.Right() == b.Left() || a.Bottom() == b.Top()
    ensures !OverLaps(a, b) && !OverLaps(b, a)
  {
  }

  /** A point on an edge of a box is not contained in it. */
  lemma EdgePointNotContained(r: Rectangle, px: real, py: real)
    requires px == r.Left() || px == r.Right() || py == r.Top() || py == r.Bottom()
    ensures !Contain(r, px, py)
  {
  }

  /** For boxes with area, the interval test agrees with its geometric meaning:
      the two boxes overlap exactly when some point lies strictly inside both. */
  lemma OverLapsIffCommonPoint(a: Rectangle, b: Rectangle)
    requires HasArea(a) && HasArea(b)
    ensures OverLaps(a, b) <==> exists px, py :: Contain(a, px, py) && Contain(b, px, py)
  {
    if OverLaps(a, b) {
      var lo := if a.Left() < b.Left() then b.Left() else a.Left();
      var hi := if a.Right() < b.Right() then a.Right() else b.Right();
      var top := if a.Top() < b.Top() then b.Top() else a.Top();
      var bottom := if a.Bottom() < b.Bottom() then a.Bottom() else b.Bottom();
      var px, py := (lo + hi) / 2.0, (top + bottom) / 2.0;
      assert Contain(a, px, py) && Contain(b, px, py);
    }
  }
}
