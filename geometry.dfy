/** Axis-aligned pixel rectangles and their intersection-over-union, as the
    generator's `_iou` computes it. Boxes are (x, y, w, h) with (x, y) the
    top-left corner; IoU is an exact rational (Dafny's `real`). */
module Geometry {

  datatype Box = Box(x: int, y: int, w: int, h: int)

  function Max(a: int, b: int): int { if a >= b then a else b }
  function Min(a: int, b: int): int { if a <= b then a else b }

  function Area(b: Box): int { b.w * b.h }

  /** Width and height of the overlap, clamped at 0 like `max(0, xb - xa)`. */
  function OverlapWidth(a: Box, b: Box): int {
    Max(0, Min(a.x + a.w, b.x + b.w) - Max(a.x, b.x))
  }

  function OverlapHeight(a: Box, b: Box): int {
    Max(0, Min(a.y + a.h, b.y + b.h) - Max(a.y, b.y))
  }

  function Intersection(a: Box, b: Box): int {
    OverlapWidth(a, b) * OverlapHeight(a, b)
  }

  /** Sum of the areas minus the intersection. */
  function Union(a: Box, b: Box): int {
    Area(a) + Area(b) - Intersection(a, b)
  }

  /** Intersection over union; 0 when the union is not positive. */
  function Iou(a: Box, b: Box): real {
    if Union(a, b) > 0 then Intersection(a, b) as real / Union(a, b) as real else 0.0
  }

  /** The boxes share no interior point: one lies wholly to one side of the other
      (touching edges included). */
  predicate Separated(a: Box, b: Box) {
    a.x + a.w <= b.x || b.x + b.w <= a.x || a.y + a.h <= b.y || b.y + b.h <= a.y
  }

  predicate NonNegativeSize(b: Box) { b.w >= 0 && b.h >= 0 }

  lemma IouSymmetric(a: Box, b: Box)
    ensures Iou(a, b) == Iou(b, a)
  {
    assert OverlapWidth(a, b) == OverlapWidth(b, a);
    assert OverlapHeight(a, b) == OverlapHeight(b, a);
  }

  /** Disjoint or merely touching boxes do not overlap at all. */
  lemma IouOfSeparated(a: Box, b: Box)
    requires Separated(a, b)
    ensures Intersection(a, b) == 0 && Iou(a, b) == 0.0
  {
    assert OverlapWidth(a, b) == 0 || OverlapHeight(a, b) == 0;
  }

  lemma IouOfEmptyUnion(a: Box, b: Box)
    requires Union(a, b) <= 0
    ensures Iou(a, b) == 0.0
  {
  }

  /** A box with positive area overlaps itself completely. */
  lemma IouSelf(a: Box)
    requires a.w > 0 && a.h > 0
    ensures Iou(a, a) == 1.0
  {
    assert OverlapWidth(a, a) == a.w && OverlapHeight(a, a) == a.h;
    var area := Area(a);
    assert Intersection(a, a) == area;
    assert area > 0 by { PositiveProduct(a.w, a.h); }
    assert Union(a, a) == area;
    assert area as real / area as real == 1.0;
  }

  lemma PositiveProduct(m: int, n: int)
    requires m > 0 && n > 0
    ensures m * n > 0
  {
  }

  lemma MonotoneProduct(a: int, b: int, c: int, d: int)
    requires 0 <= a <= c && 0 <= b <= d
    ensures a * b <= c * d
  {
    assert a * b <= c * b;
    assert c * b <= c * d;
  }

  /** The overlap is never larger than either box. */
  lemma IntersectionBounds(a: Box, b: Box)
    requires NonNegativeSize(a) && NonNegativeSize(b)
    ensures 0 <= Intersection(a, b) <= Area(a)
    ensures Intersection(a, b) <= Area(b)
  {
    var iw, ih := OverlapWidth(a, b), OverlapHeight(a, b);
    assert 0 <= iw <= a.w && iw <= b.w;
    assert 0 <= ih <= a.h && ih <= b.h;
    MonotoneProduct(iw, ih, a.w, a.h);
    MonotoneProduct(iw, ih, b.w, b.h);
  }

  /** For boxes of non-negative size the IoU is a ratio in [0, 1]. */
  lemma IouInUnitInterval(a: Box, b: Box)
    requires NonNegativeSize(a) && NonNegativeSize(b)
    ensures 0.0 <= Iou(a, b) <= 1.0
  {
    IntersectionBounds(a, b);
    var i, u := Intersection(a, b), Union(a, b);
    assert i <= u;
    if u > 0 {
      RatioAtMostOne(i as real, u as real);
    }
  }

  lemma RatioAtMostOne(i: real, u: real)
    requires 0.0 <= i <= u && u > 0.0
    ensures 0.0 <= i / u <= 1.0
  {
    assert i / u * u == i;
  }

  /** The division-free form of the overlap test: for a positive union,
      IoU <= t exactly when intersection <= t * union. */
  lemma IouAtMost(a: Box, b: Box, t: real)
    ensures Iou(a, b) <= t <==>
      (if Union(a, b) > 0 then Intersection(a, b) as real <= t * Union(a, b) as real else 0.0 <= t)
  {
    RatioTest(Iou(a, b), Intersection(a, b), Union(a, b), t);
  }

  /** The same test for any ratio that is 0 unless its denominator is positive. */
  lemma RatioTest(ratio: real, i: int, u: int, t: real)
    requires ratio == if u > 0 then i as real / u as real else 0.0
    ensures ratio <= t <==> (if u > 0 then i as real <= t * u as real else 0.0 <= t)
  {
    if u > 0 {
      RatioAtMost(i as real, u as real, t);
    }
  }

  lemma RatioAtMost(i: real, u: real, t: real)
    requires u > 0.0
    ensures i / u <= t <==> i <= t * u
  {
    assert i / u * u == i;
    if i / u <= t {
      assert i / u * u <= t * u;
    }
    if i <= t * u {
      assert i / u <= t * u / u;
    }
  }
}
