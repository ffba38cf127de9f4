/**
 * Hit-testing of a contact point against an element's bounding rectangle
 * (the static helpers `getPointClientRect` and `areRectanglesOverlapping`
 * of the press tracker). Coordinates are reals; IEEE floating point is not
 * modelled.
 */
module Geometry {
  import opened Nullable

  datatype Rect = Rect(top: real, right: real, bottom: real, left: real)

  /** A contact point: pointer events carry `width`/`height`, touches carry `radiusX`/`radiusY`. */
  datatype EventPoint = EventPoint(
    clientX: real, clientY: real,
    width: Option<real>, height: Option<real>,
    radiusX: Option<real>, radiusY: Option<real>)

  predicate WellFormed(r: Rect) {
    r.left <= r.right && r.top <= r.bottom
  }

  /** The point (x, y) lies in `r`, boundary included. */
  predicate Contains(r: Rect, x: real, y: real) {
    r.left <= x <= r.right && r.top <= y <= r.bottom
  }

  /**
   * `size / 2 || radius || 0`: JavaScript's `||` passes over a zero and over
   * the NaN that halving an absent size yields.
   */
  function ContactOffset(size: Option<real>, radius: Option<real>): (r: real)
    ensures r != 0.0 ==> (size.Some? && r == size.value / 2.0) || (radius.Some? && r == radius.value)
    ensures (size.None? || size.value >= 0.0) && (radius.None? || radius.value >= 0.0) ==> r >= 0.0
  {
    if size.Some? && size.value / 2.0 != 0.0 then size.value / 2.0
    else if radius.Some? && radius.value != 0.0 then radius.value
    else 0.0
  }

  predicate NonNegativeExtent(p: EventPoint) {
    && (p.width.None? || p.width.value >= 0.0)
    && (p.height.None? || p.height.value >= 0.0)
    && (p.radiusX.None? || p.radiusX.value >= 0.0)
    && (p.radiusY.None? || p.radiusY.value >= 0.0)
  }

  /** The rectangle a contact covers: centred on the client point, padded by the contact offsets. */
  function GetPointClientRect(p: EventPoint): (r: Rect)
    ensures r.left + r.right == 2.0 * p.clientX
    ensures r.top + r.bottom == 2.0 * p.clientY
    ensures r.right - r.left == 2.0 * ContactOffset(p.width, p.radiusX)
    ensures r.bottom - r.top == 2.0 * ContactOffset(p.height, p.radiusY)
    ensures NonNegativeExtent(p) ==> WellFormed(r)
  {
    var offsetX := ContactOffset(p.width, p.radiusX);
    var offsetY := ContactOffset(p.height, p.radiusY);
    Rect(p.clientY - offsetY, p.clientX + offsetX, p.clientY + offsetY, p.clientX - offsetX)
  }

  /** Separating-axis test with inclusive boundaries. */
  function AreRectanglesOverlapping(a: Rect, b: Rect): (r: bool)
    ensures r ==> a.left <= b.right && b.left <= a.right
    ensures r ==> a.top <= b.bottom && b.top <= a.bottom
  {
    if a.left > b.right || b.left > a.right then false
    else if a.top > b.bottom || b.top > a.bottom then false
    else true
  }

  /** Whether a contact is over an element whose bounding rectangle is `target`. */
  function IsOverTarget(p: EventPoint, target: Rect): bool {
    AreRectanglesOverlapping(target, GetPointClientRect(p))
  }

  lemma OverlapIsSymmetric(a: Rect, b: Rect)
    ensures AreRectanglesOverlapping(a, b) == AreRectanglesOverlapping(b, a)
  {
  }

  /** Rectangles that only share an edge (or a corner) overlap. */
  lemma SharedEdgeOverlaps(a: Rect, b: Rect)
    requires WellFormed(a) && WellFormed(b)
    requires a.right == b.left
    requires a.top <= b.bottom && b.top <= a.bottom
    ensures AreRectanglesOverlapping(a, b)
  {
  }

  /** A positive gap along either axis separates. */
  lemma GapSeparates(a: Rect, b: Rect, gap: real)
    requires gap > 0.0
    requires b.left == a.right + gap || b.top == a.bottom + gap
           || a.left == b.right + gap || a.top == b.bottom + gap
    ensures !AreRectanglesOverlapping(a, b)
  {
  }

  /**
   * The test agrees with its meaning for well-formed rectangles: they overlap
   * exactly when some point lies in both.
   */
  lemma OverlapMeansCommonPoint(a: Rect, b: Rect)
    requires WellFormed(a) && WellFormed(b)
    ensures AreRectanglesOverlapping(a, b) <==> exists x: real, y: real :: Contains(a, x, y) && Contains(b, x, y)
  {
    if AreRectanglesOverlapping(a, b) {
      var x := if a.left < b.left then b.left else a.left;
      var y := if a.top < b.top then b.top else a.top;
      assert Contains(a, x, y) && Contains(b, x, y);
    } else {
      forall x: real, y: real | Contains(a, x, y)
        ensures !Contains(b, x, y)
      {
      }
    }
  }

  /** A zero-size contact on the boundary of the target is over it; one unit outside any edge is not. */
  lemma PointOnBoundaryIsOver(target: Rect, x: real, y: real)
    requires WellFormed(target)
    ensures var p := EventPoint(x, y, None, None, None, None);
      (Contains(target, x, y) <==> IsOverTarget(p, target))
  {
  }

  /** The offset prefers half the size, then the radius, then zero. */
  lemma OffsetFallback(size: real, radius: real)
    ensures size != 0.0 ==> ContactOffset(Some(size), Some(radius)) == size / 2.0
    ensures ContactOffset(None, Some(radius)) == radius
    ensures ContactOffset(Some(0.0), Some(radius)) == radius
    ensures ContactOffset(None, None) == 0.0
  {
  }
}
