/**
  The overfill geometry of the HMD overfilling simulation: for a per-eye
  viewport of half-width `tan(fov/2)` at depth z = 1 and an orientation error
  between the predicted and the actual head pose, the quad that must be
  rendered so that the actual viewport stays covered (the min-overfill quad),
  its bounding box, the smallest square around that box (the overfill rect),
  and the extra area the square costs against the nominal viewport.

  Everything is over the reals; the half-width is an input.
 */
module OverfillingSimulation {
  import opened UnityMath

  /** Four corners, each a ray direction from the eye, in the editor's order. */
  datatype Quad = Quad(leftTop: Vector3, rightTop: Vector3, rightBottom: Vector3, leftBottom: Vector3)

  /** An axis-aligned box in the xy plane, named as the editor names its sides. */
  datatype Bounds = Bounds(left: real, top: real, right: real, bottom: real)

  /** The result of one pass of the pipeline. */
  datatype Overfill = Overfill(
    viewport: Quad,
    minOverfillQuad: Quad,
    bounds: Bounds,
    overfillRect: Quad,
    overhead: real)

  /** Why the pipeline has no quad to offer. */
  datatype OverfillError =
    /** A viewport corner rotated by the orientation error has z = 0, so it cannot be projected back to z = 1. */
    | DegenerateOrientation

  datatype Result<T> = Ok(value: T) | Err(error: OverfillError)

  // ---------------------------------------------------------------------------
  // Shapes

  function Corners(q: Quad): seq<Vector3> {
    [q.leftTop, q.rightTop, q.rightBottom, q.leftBottom]
  }

  /** All four corners lie on the projection plane z = 1. */
  predicate AtUnitDepth(q: Quad) {
    q.leftTop.z == 1.0 && q.rightTop.z == 1.0 && q.rightBottom.z == 1.0 && q.leftBottom.z == 1.0
  }

  /** The left corners share x, the right corners share x, the top corners share y, the bottom corners share y. */
  predicate AxisAligned(q: Quad) {
    && q.leftTop.x == q.leftBottom.x && q.rightTop.x == q.rightBottom.x
    && q.leftTop.y == q.rightTop.y && q.leftBottom.y == q.rightBottom.y
  }

  function Width(q: Quad): real {
    q.rightTop.x - q.leftTop.x
  }

  function Height(q: Quad): real {
    q.leftTop.y - q.leftBottom.y
  }

  function Area(q: Quad): real {
    Width(q) * Height(q)
  }

  predicate Inside(v: Vector3, b: Bounds) {
    b.left <= v.x <= b.right && b.bottom <= v.y <= b.top
  }

  /** `outer` contains `inner`: no side of `inner` is cropped. */
  predicate Encloses(outer: Bounds, inner: Bounds) {
    outer.left <= inner.left && inner.right <= outer.right && outer.bottom <= inner.bottom && inner.top <= outer.top
  }

  // ---------------------------------------------------------------------------
  // 1. The nominal viewport

  /**
    The HMD viewport: the frustum cross-section at depth 1, a square of side
    2 * halfWidth centred on the forward axis.
   */
  function HmdViewport(halfWidth: real): (r: Quad)
    ensures AtUnitDepth(r) && AxisAligned(r)
    ensures Width(r) == Height(r) == 2.0 * halfWidth
    ensures r.leftTop.x + r.rightTop.x == 0.0 && r.leftTop.y + r.leftBottom.y == 0.0
  {
    Quad(
      Vector3(-halfWidth, halfWidth, 1.0),
      Vector3(halfWidth, halfWidth, 1.0),
      Vector3(halfWidth, -halfWidth, 1.0),
      Vector3(-halfWidth, -halfWidth, 1.0))
  }

  /** The viewport's box is [-halfWidth, halfWidth] on both axes. */
  lemma ViewportBounds(halfWidth: real)
    requires halfWidth >= 0.0
    ensures BoundsOf(HmdViewport(halfWidth)) == Bounds(-halfWidth, halfWidth, halfWidth, -halfWidth)
  {
    var q := HmdViewport(halfWidth);
    assert Corners(q)[0] == q.leftTop && Corners(q)[2] == q.rightBottom;
    BoundsUnique(q, Bounds(-halfWidth, halfWidth, halfWidth, -halfWidth));
  }

  // ---------------------------------------------------------------------------
  // 2. The min-overfill quad

  /**
    `v` is where the line through the origin and `predictError * direction`
    meets the plane z = 1: v has depth 1 and is collinear with the rotated
    direction (on the opposite half-line when the rotated depth is negative).
   */
  predicate OnRotatedLine(v: Vector3, predictError: Quaternion, direction: Vector3) {
    var r := Rotate(predictError, direction);
    v.z == 1.0 && v.x * r.z == r.x && v.y * r.z == r.y
  }

  /**
    `vertexOfMinOverfillQuad`: the direction scaled by the reciprocal of its
    rotated depth, then rotated. Defined only when the rotated depth is not 0.
   */
  function MinOverfillVertex(predictError: Quaternion, direction: Vector3): (v: Vector3)
    requires Rotate(predictError, direction).z != 0.0
    ensures OnRotatedLine(v, predictError, direction)
  {
    var depth := Rotate(predictError, direction).z;
    var v := Rotate(predictError, Scale(1.0 / depth, direction));
    RotateScale(predictError, 1.0 / depth, direction);
    ReciprocalScale(depth, Rotate(predictError, direction));
    v
  }

  /** Scaling a vector by the reciprocal of its depth puts it on the plane z = 1, on the same line through the origin. */
  lemma ReciprocalScale(depth: real, r: Vector3)
    requires depth == r.z && depth != 0.0
    ensures var v := Scale(1.0 / depth, r); v.z == 1.0 && v.x * depth == r.x && v.y * depth == r.y
  {
    var k := 1.0 / depth;
    assert k * depth == 1.0;
    assert (k * r.x) * depth == r.x * (k * depth);
    assert (k * r.y) * depth == r.y * (k * depth);
  }

  /** A point on the rotated line at depth 1 is unique, so OnRotatedLine pins the vertex down. */
  lemma OnRotatedLineUnique(u: Vector3, v: Vector3, predictError: Quaternion, direction: Vector3)
    requires Rotate(predictError, direction).z != 0.0
    requires OnRotatedLine(u, predictError, direction) && OnRotatedLine(v, predictError, direction)
    ensures u == v
  {
    var d := Rotate(predictError, direction).z;
    Cancel(u.x, v.x, d);
    Cancel(u.y, v.y, d);
  }

  lemma Cancel(a: real, b: real, d: real)
    requires d != 0.0 && a * d == b * d
    ensures a == b
  {
    assert (a - b) * d == 0.0;
  }

  /** With no orientation error a direction already at depth 1 is its own vertex. */
  lemma IdentityVertex(direction: Vector3)
    requires direction.z == 1.0
    ensures Rotate(Identity, direction).z != 0.0
    ensures MinOverfillVertex(Identity, direction) == direction
  {
    RotateIdentity(direction);
    OnRotatedLineUnique(MinOverfillVertex(Identity, direction), direction, Identity, direction);
  }

  /** Every corner of the viewport keeps a non-zero depth after rotation. */
  predicate Projectable(predictError: Quaternion, viewport: Quad) {
    && Rotate(predictError, viewport.leftTop).z != 0.0
    && Rotate(predictError, viewport.rightTop).z != 0.0
    && Rotate(predictError, viewport.rightBottom).z != 0.0
    && Rotate(predictError, viewport.leftBottom).z != 0.0
  }

  /**
    A pure roll, a turn about the forward axis only, keeps every corner's
    depth at 1, so the viewport can always be projected back.
   */
  lemma RollIsProjectable(predictError: Quaternion, halfWidth: real)
    requires predictError.x == 0.0 && predictError.y == 0.0
    ensures Projectable(predictError, HmdViewport(halfWidth))
  {
    var q := HmdViewport(halfWidth);
    RotateKeepsAxis(predictError, q.leftTop);
    RotateKeepsAxis(predictError, q.rightTop);
    RotateKeepsAxis(predictError, q.rightBottom);
    RotateKeepsAxis(predictError, q.leftBottom);
  }

  /** The min-overfill quad: each viewport corner sent to its vertex. */
  function MinOverfillQuad(predictError: Quaternion, viewport: Quad): (r: Quad)
    requires Projectable(predictError, viewport)
    ensures AtUnitDepth(r)
    ensures OnRotatedLine(r.leftTop, predictError, viewport.leftTop)
    ensures OnRotatedLine(r.rightTop, predictError, viewport.rightTop)
    ensures OnRotatedLine(r.rightBottom, predictError, viewport.rightBottom)
    ensures OnRotatedLine(r.leftBottom, predictError, viewport.leftBottom)
  {
    Quad(
      MinOverfillVertex(predictError, viewport.leftTop),
      MinOverfillVertex(predictError, viewport.rightTop),
      MinOverfillVertex(predictError, viewport.rightBottom),
      MinOverfillVertex(predictError, viewport.leftBottom))
  }

  /** With no orientation error the min-overfill quad is the viewport itself. */
  lemma IdentityMinOverfill(halfWidth: real)
    ensures Projectable(Identity, HmdViewport(halfWidth))
    ensures MinOverfillQuad(Identity, HmdViewport(halfWidth)) == HmdViewport(halfWidth)
  {
    var q := HmdViewport(halfWidth);
    IdentityVertex(q.leftTop);
    IdentityVertex(q.rightTop);
    IdentityVertex(q.rightBottom);
    IdentityVertex(q.leftBottom);
  }

  // ---------------------------------------------------------------------------
  // 3. The bounding box

  function Xs(q: Quad): seq<real> {
    [q.leftTop.x, q.rightTop.x, q.rightBottom.x, q.leftBottom.x]
  }

  function Ys(q: Quad): seq<real> {
    [q.leftTop.y, q.rightTop.y, q.rightBottom.y, q.leftBottom.y]
  }

  /** Each side of `b` passes through some corner of `q`. */
  predicate Attained(q: Quad, b: Bounds) {
    && (exists i :: 0 <= i < 4 && Corners(q)[i].x == b.left)
    && (exists i :: 0 <= i < 4 && Corners(q)[i].x == b.right)
    && (exists i :: 0 <= i < 4 && Corners(q)[i].y == b.top)
    && (exists i :: 0 <= i < 4 && Corners(q)[i].y == b.bottom)
  }

  /** left/right are the least and greatest corner x, bottom/top the least and greatest corner y. */
  function BoundsOf(q: Quad): (b: Bounds)
    ensures forall i :: 0 <= i < 4 ==> Inside(Corners(q)[i], b)
    ensures Attained(q, b)
  {
    var b := Bounds(MinOf(Xs(q)), MaxOf(Ys(q)), MaxOf(Xs(q)), MinOf(Ys(q)));
    assert forall i :: 0 <= i < 4 ==> Xs(q)[i] == Corners(q)[i].x && Ys(q)[i] == Corners(q)[i].y;
    b
  }

  /** The box that contains every corner and touches one on each side is BoundsOf. */
  lemma BoundsUnique(q: Quad, b: Bounds)
    requires forall i :: 0 <= i < 4 ==> Inside(Corners(q)[i], b)
    requires Attained(q, b)
    ensures b == BoundsOf(q)
  {
    var c := BoundsOf(q);
    var i0 :| 0 <= i0 < 4 && Corners(q)[i0].x == b.left;
    var i1 :| 0 <= i1 < 4 && Corners(q)[i1].x == b.right;
    var i2 :| 0 <= i2 < 4 && Corners(q)[i2].y == b.top;
    var i3 :| 0 <= i3 < 4 && Corners(q)[i3].y == b.bottom;
    var j0 :| 0 <= j0 < 4 && Corners(q)[j0].x == c.left;
    var j1 :| 0 <= j1 < 4 && Corners(q)[j1].x == c.right;
    var j2 :| 0 <= j2 < 4 && Corners(q)[j2].y == c.top;
    var j3 :| 0 <= j3 < 4 && Corners(q)[j3].y == c.bottom;
    assert Inside(Corners(q)[i0], c) && Inside(Corners(q)[j0], b);
    assert Inside(Corners(q)[i1], c) && Inside(Corners(q)[j1], b);
    assert Inside(Corners(q)[i2], c) && Inside(Corners(q)[j2], b);
    assert Inside(Corners(q)[i3], c) && Inside(Corners(q)[j3], b);
  }

  /** The box depends only on the corners, not on which slot of the quad holds which. */
  lemma BoundsPermutationInvariant(p: Quad, q: Quad)
    requires multiset(Corners(p)) == multiset(Corners(q))
    ensures BoundsOf(p) == BoundsOf(q)
  {
    var b := BoundsOf(q);
    forall i | 0 <= i < 4 ensures Inside(Corners(p)[i], b) {
      assert Corners(p)[i] in multiset(Corners(q));
      var j :| 0 <= j < 4 && Corners(q)[j] == Corners(p)[i];
    }
    var j0 :| 0 <= j0 < 4 && Corners(q)[j0].x == b.left;
    var j1 :| 0 <= j1 < 4 && Corners(q)[j1].x == b.right;
    var j2 :| 0 <= j2 < 4 && Corners(q)[j2].y == b.top;
    var j3 :| 0 <= j3 < 4 && Corners(q)[j3].y == b.bottom;
    InOther(q, p, j0);
    InOther(q, p, j1);
    InOther(q, p, j2);
    InOther(q, p, j3);
    BoundsUnique(p, b);
  }

  /** A corner of q is a corner of any quad with the same corners. */
  lemma InOther(q: Quad, p: Quad, j: int)
    requires multiset(Corners(p)) == multiset(Corners(q))
    requires 0 <= j < 4
    ensures exists i :: 0 <= i < 4 && Corners(p)[i] == Corners(q)[j]
  {
    assert Corners(q)[j] in multiset(Corners(p));
  }

  // ---------------------------------------------------------------------------
  // 4. The overfill rect

  function HalfDiff(b: Bounds): (d: real)
    ensures d >= 0.0
  {
    Abs((b.right - b.left) - (b.top - b.bottom)) / 2.0
  }

  /** The box at depth 1 with `d` added above and below. */
  function WidenVertically(b: Bounds, d: real): Quad {
    Quad(
      Vector3(b.left, b.top + d, 1.0),
      Vector3(b.right, b.top + d, 1.0),
      Vector3(b.right, b.bottom - d, 1.0),
      Vector3(b.left, b.bottom - d, 1.0))
  }

  /** The box at depth 1 with `d` added left and right. */
  function WidenHorizontally(b: Bounds, d: real): Quad {
    Quad(
      Vector3(b.left - d, b.top, 1.0),
      Vector3(b.right + d, b.top, 1.0),
      Vector3(b.right + d, b.bottom, 1.0),
      Vector3(b.left - d, b.bottom, 1.0))
  }

  /**
    The overfill rect: the box squared by widening its shorter side by
    halfDiff on both ends. The result is a square of side max(width, height)
    at depth 1, centred on the box, that crops none of it; the longer side is
    kept exactly.
   */
  function OverfillRect(b: Bounds): (r: Quad)
    ensures AtUnitDepth(r) && AxisAligned(r)
    ensures Width(r) == Height(r) == Max(b.right - b.left, b.top - b.bottom)
    ensures r.leftTop.x + r.rightTop.x == b.left + b.right
    ensures r.leftTop.y + r.leftBottom.y == b.top + b.bottom
    ensures r.leftTop.x <= b.left && b.right <= r.rightTop.x
    ensures r.leftBottom.y <= b.bottom && b.top <= r.leftTop.y
    ensures b.right - b.left > b.top - b.bottom ==> r.leftTop.x == b.left && r.rightTop.x == b.right
    ensures b.right - b.left <= b.top - b.bottom ==> r.leftTop.y == b.top && r.leftBottom.y == b.bottom
  {
    var width := b.right - b.left;
    var height := b.top - b.bottom;
    if width > height then WidenVertically(b, HalfDiff(b)) else WidenHorizontally(b, HalfDiff(b))
  }

  /** A square box needs no widening, and the two branches agree. */
  lemma OverfillRectTie(b: Bounds)
    requires b.right - b.left == b.top - b.bottom
    ensures HalfDiff(b) == 0.0
    ensures WidenVertically(b, HalfDiff(b)) == WidenHorizontally(b, HalfDiff(b))
  {
  }

  /** For a proper box, the overfill rect's own box is a square enclosing it. */
  lemma OverfillRectBounds(b: Bounds)
    requires b.left <= b.right && b.bottom <= b.top
    ensures var rb := BoundsOf(OverfillRect(b));
      && rb.right - rb.left == rb.top - rb.bottom == Max(b.right - b.left, b.top - b.bottom)
      && Encloses(rb, b)
  {
    var r := OverfillRect(b);
    var rb := Bounds(r.leftTop.x, r.leftTop.y, r.rightTop.x, r.leftBottom.y);
    assert Corners(r)[0] == r.leftTop && Corners(r)[1] == r.rightTop;
    assert Corners(r)[2] == r.rightBottom && Corners(r)[3] == r.leftBottom;
    BoundsUnique(r, rb);
  }

  // ---------------------------------------------------------------------------
  // 5. The overhead

  /** `Mathf.Pow(x, 2)`: never negative. */
  function Squared(x: real): (s: real)
    ensures s >= 0.0
  {
    SquaredNonNegative(x);
    x * x
  }

  /** `overhead` is the fraction of the viewport's area that `rect` adds to it. */
  predicate ExtraArea(halfWidth: real, overhead: real, rect: Quad) {
    (overhead + 1.0) * Area(HmdViewport(halfWidth)) == Area(rect)
  }

  /**
    The overhead: the square's area over the viewport's area, less one.
    The viewport's side 2 * halfWidth must not be 0.
   */
  function Overhead(halfWidth: real, b: Bounds): (o: real)
    requires halfWidth != 0.0
    ensures o >= -1.0
    ensures ExtraArea(halfWidth, o, OverfillRect(b))
  {
    var side := Max(b.right - b.left, b.top - b.bottom);
    SquaredPositive(2.0 * halfWidth);
    var o := Squared(side) / Squared(2.0 * halfWidth) - 1.0;
    OverheadIsAreaRatio(Squared(side), Squared(2.0 * halfWidth));
    o
  }

  lemma OverheadIsAreaRatio(rect: real, viewport: real)
    requires viewport > 0.0 && rect >= 0.0
    ensures rect / viewport >= 0.0
    ensures (rect / viewport) * viewport == rect
  {
  }

  lemma SquaredNonNegative(x: real)
    ensures x * x >= 0.0
  {
    if x < 0.0 { assert x * x == (-x) * (-x); }
  }

  lemma SquaredPositive(x: real)
    requires x != 0.0
    ensures Squared(x) > 0.0
  {
    if x > 0.0 {
      SquaredMonotonic(0.0, x);
    } else {
      SquaredMonotonic(0.0, -x);
      assert Squared(-x) == Squared(x);
    }
  }

  /** Squaring is strictly increasing on the non-negative reals. */
  lemma SquaredMonotonic(a: real, c: real)
    requires 0.0 <= a < c
    ensures Squared(a) < Squared(c)
  {
    var d := c - a;
    assert c * c == (a + d) * (a + d) == a * a + 2.0 * a * d + d * d;
    assert a * d >= 0.0;
    assert d * d > 0.0;
  }

  lemma SquaredInjective(a: real, c: real)
    requires a >= 0.0 && c >= 0.0 && Squared(a) == Squared(c)
    ensures a == c
  {
    if a < c { SquaredMonotonic(a, c); }
    if c < a { SquaredMonotonic(c, a); }
  }

  lemma RatioIsOne(n: real, d: real)
    requires d > 0.0
    ensures n / d == 1.0 <==> n == d
  {
    if n / d == 1.0 {
      assert n == (n / d) * d;
    }
  }

  lemma RatioAtLeastOne(n: real, d: real)
    requires d > 0.0 && n >= d
    ensures n / d >= 1.0
  {
    var k := n / d;
    assert k * d == n;
  }

  /** No overhead exactly when the square's side is the viewport's side. */
  lemma OverheadZeroIff(halfWidth: real, b: Bounds)
    requires halfWidth > 0.0
    requires Max(b.right - b.left, b.top - b.bottom) >= 0.0
    ensures Overhead(halfWidth, b) == 0.0 <==> Max(b.right - b.left, b.top - b.bottom) == 2.0 * halfWidth
  {
    var side := Max(b.right - b.left, b.top - b.bottom);
    var full := 2.0 * halfWidth;
    SquaredPositive(full);
    RatioIsOne(Squared(side), Squared(full));
    if Squared(side) == Squared(full) {
      SquaredInjective(side, full);
    }
  }

  /** A box that encloses the viewport's costs no less than the viewport. */
  lemma OverheadNonNegative(halfWidth: real, b: Bounds)
    requires halfWidth > 0.0
    requires Encloses(b, Bounds(-halfWidth, halfWidth, halfWidth, -halfWidth))
    ensures Overhead(halfWidth, b) >= 0.0
  {
    var side := Max(b.right - b.left, b.top - b.bottom);
    var full := 2.0 * halfWidth;
    SquaredPositive(full);
    if side > full {
      SquaredMonotonic(full, side);
    }
    RatioAtLeastOne(Squared(side), Squared(full));
  }

  // ---------------------------------------------------------------------------
  // The pipeline

  /** The viewport of a result is the square of side 2 * halfWidth at depth 1, centred on the forward axis. */
  predicate ViewportSound(halfWidth: real, viewport: Quad) {
    && AtUnitDepth(viewport) && AxisAligned(viewport)
    && Width(viewport) == Height(viewport) == 2.0 * halfWidth
    && viewport.leftTop.x + viewport.rightTop.x == 0.0 && viewport.leftTop.y + viewport.leftBottom.y == 0.0
  }

  /** Each min-overfill corner is where the line through the origin and its rotated viewport corner meets z = 1. */
  predicate MinOverfillSound(predictError: Quaternion, viewport: Quad, quad: Quad) {
    && AtUnitDepth(quad)
    && OnRotatedLine(quad.leftTop, predictError, viewport.leftTop)
    && OnRotatedLine(quad.rightTop, predictError, viewport.rightTop)
    && OnRotatedLine(quad.rightBottom, predictError, viewport.rightBottom)
    && OnRotatedLine(quad.leftBottom, predictError, viewport.leftBottom)
  }

  /** The box holds every corner of the quad and touches one on each side. */
  predicate BoundsSound(quad: Quad, b: Bounds) {
    && (forall i :: 0 <= i < 4 ==> Inside(Corners(quad)[i], b))
    && Attained(quad, b)
  }

  /**
    The rect is a square at depth 1 of side max(width, height), centred on
    the box, that crops nothing of it.
   */
  predicate RectSound(b: Bounds, rect: Quad) {
    && AtUnitDepth(rect) && AxisAligned(rect)
    && Width(rect) == Height(rect) == Max(b.right - b.left, b.top - b.bottom)
    && rect.leftTop.x + rect.rightTop.x == b.left + b.right
    && rect.leftTop.y + rect.leftBottom.y == b.top + b.bottom
    && rect.leftTop.x <= b.left && b.right <= rect.rightTop.x
    && rect.leftBottom.y <= b.bottom && b.top <= rect.leftTop.y
  }

  /** What the pipeline promises of a result; the overhead is the rect's extra area over the viewport's. */
  predicate Sound(halfWidth: real, predictError: Quaternion, o: Overfill) {
    && ViewportSound(halfWidth, o.viewport)
    && MinOverfillSound(predictError, o.viewport, o.minOverfillQuad)
    && BoundsSound(o.minOverfillQuad, o.bounds)
    && RectSound(o.bounds, o.overfillRect)
    && ExtraArea(halfWidth, o.overhead, o.overfillRect)
  }

  /**
    One pass of the editor's scene hook: viewport, min-overfill quad, its box,
    the overfill rect and the overhead. A viewport corner whose rotated depth
    is 0 has no vertex and yields DegenerateOrientation.
   */
  function Simulate(halfWidth: real, predictError: Quaternion): (r: Result<Overfill>)
    requires halfWidth > 0.0
    ensures r.Err? <==> !Projectable(predictError, HmdViewport(halfWidth))
    ensures r.Ok? ==> Sound(halfWidth, predictError, r.value)
  {
    var viewport := HmdViewport(halfWidth);
    if !Projectable(predictError, viewport) then Err(DegenerateOrientation)
    else
      var minOverfillQuad := MinOverfillQuad(predictError, viewport);
      var bounds := BoundsOf(minOverfillQuad);
      var o := Overfill(viewport, minOverfillQuad, bounds, OverfillRect(bounds), Overhead(halfWidth, bounds));
      Ok(o)
  }

  /**
    Sound leaves no freedom: two results that both satisfy it for the same
    inputs are equal, so Simulate's contract determines its result.
   */
  lemma SoundUnique(halfWidth: real, predictError: Quaternion, o1: Overfill, o2: Overfill)
    requires halfWidth > 0.0
    requires Sound(halfWidth, predictError, o1) && Sound(halfWidth, predictError, o2)
    requires Projectable(predictError, HmdViewport(halfWidth))
    ensures o1 == o2
  {
    ViewportSoundUnique(halfWidth, o1.viewport);
    ViewportSoundUnique(halfWidth, o2.viewport);
    var v := o1.viewport;
    OnRotatedLineUnique(o1.minOverfillQuad.leftTop, o2.minOverfillQuad.leftTop, predictError, v.leftTop);
    OnRotatedLineUnique(o1.minOverfillQuad.rightTop, o2.minOverfillQuad.rightTop, predictError, v.rightTop);
    OnRotatedLineUnique(o1.minOverfillQuad.rightBottom, o2.minOverfillQuad.rightBottom, predictError, v.rightBottom);
    OnRotatedLineUnique(o1.minOverfillQuad.leftBottom, o2.minOverfillQuad.leftBottom, predictError, v.leftBottom);
    BoundsUnique(o1.minOverfillQuad, o1.bounds);
    BoundsUnique(o2.minOverfillQuad, o2.bounds);
    RectSoundUnique(o1.bounds, o1.overfillRect, o2.overfillRect);
    ExtraAreaUnique(halfWidth, o1.overhead, o2.overhead, o1.overfillRect);
  }

  lemma ViewportSoundUnique(halfWidth: real, viewport: Quad)
    requires ViewportSound(halfWidth, viewport)
    ensures viewport == HmdViewport(halfWidth)
  {
  }

  /** The side, the centre and the depth fix every corner of the rect. */
  lemma RectSoundUnique(b: Bounds, r1: Quad, r2: Quad)
    requires RectSound(b, r1) && RectSound(b, r2)
    ensures r1 == r2
  {
  }

  /** The extra area fixes the overhead, since the viewport's area is not 0. */
  lemma ExtraAreaUnique(halfWidth: real, o1: real, o2: real, rect: Quad)
    requires halfWidth != 0.0
    requires ExtraArea(halfWidth, o1, rect) && ExtraArea(halfWidth, o2, rect)
    ensures o1 == o2
  {
    var full := 2.0 * halfWidth;
    SquaredPositive(full);
    assert Area(HmdViewport(halfWidth)) == Squared(full);
    Cancel(o1 + 1.0, o2 + 1.0, Squared(full));
  }

  /** A pure roll never makes the pass fail. */
  lemma SimulateRoll(halfWidth: real, predictError: Quaternion)
    requires halfWidth > 0.0
    requires predictError.x == 0.0 && predictError.y == 0.0
    ensures Simulate(halfWidth, predictError).Ok?
  {
    RollIsProjectable(predictError, halfWidth);
  }

  /** With no orientation error nothing is overfilled: every quad is the viewport and the overhead is 0. */
  lemma SimulateIdentity(halfWidth: real)
    requires halfWidth > 0.0
    ensures Simulate(halfWidth, Identity).Ok?
    ensures var o := Simulate(halfWidth, Identity).value;
      && o.minOverfillQuad == o.viewport
      && o.overfillRect == o.viewport
      && o.overhead == 0.0
  {
    var viewport := HmdViewport(halfWidth);
    var b := Bounds(-halfWidth, halfWidth, halfWidth, -halfWidth);
    IdentityMinOverfill(halfWidth);
    ViewportBounds(halfWidth);
    OverheadZeroIff(halfWidth, b);
    assert OverfillRect(b) == viewport;
    assert Simulate(halfWidth, Identity) == Ok(Overfill(viewport, viewport, b, viewport, Overhead(halfWidth, b)));
  }
}
