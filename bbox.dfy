/**
 * Axis-aligned bounding boxes (src/BBox.h): the box/box overlap test and
 * the slab test of a ray against a box.
 */
module BBoxes {
  import opened Geometry

  datatype BBox = BBox(min: Vec3, max: Vec3)

  /** `BBox()`: both corners at the origin. */
  const DefaultBBox: BBox := BBox(Zero, Zero)

  /** A box whose min corner is componentwise at most its max corner. */
  predicate WellFormed(b: BBox) {
    LessEq(b.min, b.max)
  }

  /** The point lies in the closed box. */
  predicate Contains(b: BBox, p: Vec3) {
    LessEq(b.min, p) && LessEq(p, b.max)
  }

  /**
   * `intersect(first, second)`: closed intervals overlap on every axis.
   * For well-formed boxes that is the case exactly when the corner made of
   * the larger minimum on each axis lies in both boxes.
   */
  predicate Intersect(first: BBox, second: BBox): (r: bool)
    ensures WellFormed(first) && WellFormed(second) ==>
              (r <==> Contains(first, MaxV(first.min, second.min)) && Contains(second, MaxV(first.min, second.min)))
  {
    && first.min.x <= second.max.x && first.max.x >= second.min.x
    && first.min.y <= second.max.y && first.max.y >= second.min.y
    && first.min.z <= second.max.z && first.max.z >= second.min.z
  }

  lemma IntersectSymmetric(a: BBox, b: BBox)
    ensures Intersect(a, b) == Intersect(b, a)
  {
  }

  lemma IntersectReflexive(a: BBox)
    requires WellFormed(a)
    ensures Intersect(a, a)
  {
  }

  /** Touching faces count as overlap: the comparisons are not strict. */
  lemma TouchingFacesIntersect(a: BBox, b: BBox)
    requires WellFormed(a) && WellFormed(b)
    requires a.max.x == b.min.x
    requires a.min.y <= b.max.y && a.max.y >= b.min.y
    requires a.min.z <= b.max.z && a.max.z >= b.min.z
    ensures Intersect(a, b)
  {
  }

  /** A gap on any one axis rules out overlap. */
  lemma SeparatedDoNotIntersect(a: BBox, b: BBox)
    requires a.max.x < b.min.x || a.max.y < b.min.y || a.max.z < b.min.z
             || b.max.x < a.min.x || b.max.y < a.min.y || b.max.z < a.min.z
    ensures !Intersect(a, b)
  {
  }

  /** The default box is an ordinary degenerate box at the origin. */
  lemma DefaultBBoxIntersects(b: BBox)
    ensures Intersect(DefaultBBox, b) <==> Contains(b, Zero)
  {
  }

  /**
   * The overlap test agrees with its geometric meaning: two well-formed
   * boxes pass it exactly when they share a point.
   */
  lemma IntersectIffCommonPoint(a: BBox, b: BBox)
    requires WellFormed(a) && WellFormed(b)
    ensures Intersect(a, b) <==> exists p :: Contains(a, p) && Contains(b, p)
  {
    if Intersect(a, b) {
      var p := MaxV(a.min, b.min);
      assert Contains(a, p) && Contains(b, p);
    }
  }

  /** One axis of the slab test: the entry and exit distances, in order. */
  function Slab(lo: real, hi: real, s: real, inv: real): (real, real) {
    var dist1 := (lo - s) * inv;
    var dist2 := (hi - s) * inv;
    (Min(dist1, dist2), Max(dist1, dist2))
  }

  /** The largest entry distance and the smallest exit distance over the three axes. */
  function SlabBounds(bbox: BBox, raySrc: Vec3, rayDirInverse: Vec3): (real, real) {
    var sx := Slab(bbox.min.x, bbox.max.x, raySrc.x, rayDirInverse.x);
    var sy := Slab(bbox.min.y, bbox.max.y, raySrc.y, rayDirInverse.y);
    var sz := Slab(bbox.min.z, bbox.max.z, raySrc.z, rayDirInverse.z);
    (Max(sx.0, Max(sy.0, sz.0)), Min(sx.1, Min(sy.1, sz.1)))
  }

  /**
   * `intersect(bbox, ray_src, ray_dir_inverse)`: the slab test. It decides
   * whether the whole LINE through `raySrc` meets the box: there is no
   * `tmax >= 0` check, so parameters t < 0 (behind the origin of the ray)
   * count as hits too.
   */
  predicate IntersectRay(bbox: BBox, raySrc: Vec3, rayDirInverse: Vec3): (r: bool)
    ensures WellFormed(bbox) && rayDirInverse.x != 0.0 && rayDirInverse.y != 0.0 && rayDirInverse.z != 0.0 ==>
              (r <==> exists t :: Contains(bbox, PointAt(raySrc, rayDirInverse, t)))
  {
    var (tmin, tmax) := SlabBounds(bbox, raySrc, rayDirInverse);
    SlabsMeetIffLineMeetsBox(bbox, raySrc, rayDirInverse);
    tmax >= tmin
  }

  /** The point `src + t * dir` of the line, with `dir` given by its inverse. */
  function PointAt(raySrc: Vec3, rayDirInverse: Vec3, t: real): Vec3
    requires rayDirInverse.x != 0.0 && rayDirInverse.y != 0.0 && rayDirInverse.z != 0.0
  {
    Vec3(raySrc.x + t / rayDirInverse.x, raySrc.y + t / rayDirInverse.y, raySrc.z + t / rayDirInverse.z)
  }

  lemma MulMonotone(a: real, b: real, c: real)
    requires c > 0.0
    ensures a <= b <==> a * c <= b * c
  {
    assert (b - a) * c == b * c - a * c;
  }

  /** `MulMonotone` with the two products named. */
  lemma ScaledLessEq(a: real, b: real, c: real, x: real, y: real)
    requires c > 0.0 && x == a * c && y == b * c
    ensures a <= b <==> x <= y
  {
    MulMonotone(a, b, c);
  }

  /** On one axis: the line is inside the slab exactly for t between the two slab distances. */
  lemma AxisSlab(lo: real, hi: real, s: real, inv: real, t: real)
    requires lo <= hi && inv != 0.0
    ensures lo <= s + t / inv <= hi <==> Slab(lo, hi, s, inv).0 <= t <= Slab(lo, hi, s, inv).1
  {
    var u := t / inv;
    var d1, d2 := (lo - s) * inv, (hi - s) * inv;
    assert t == u * inv;
    if inv > 0.0 {
      ScaledLessEq(lo - s, u, inv, d1, t);
      ScaledLessEq(u, hi - s, inv, t, d2);
      ScaledLessEq(lo - s, hi - s, inv, d1, d2);
      assert Slab(lo, hi, s, inv) == (d1, d2);
    } else {
      var c := -inv;
      assert -d1 == (lo - s) * c && -d2 == (hi - s) * c && -t == u * c;
      ScaledLessEq(lo - s, u, c, -d1, -t);
      ScaledLessEq(u, hi - s, c, -t, -d2);
      ScaledLessEq(lo - s, hi - s, c, -d1, -d2);
      assert Slab(lo, hi, s, inv) == (d2, d1);
    }
  }

  /**
   * The three slabs have a common parameter exactly when the line through
   * `raySrc` meets the box.
   */
  lemma SlabsMeetIffLineMeetsBox(bbox: BBox, raySrc: Vec3, rayDirInverse: Vec3)
    ensures WellFormed(bbox) && rayDirInverse.x != 0.0 && rayDirInverse.y != 0.0 && rayDirInverse.z != 0.0 ==>
              (SlabBounds(bbox, raySrc, rayDirInverse).1 >= SlabBounds(bbox, raySrc, rayDirInverse).0
               <==> exists t :: Contains(bbox, PointAt(raySrc, rayDirInverse, t)))
  {
    if WellFormed(bbox) && rayDirInverse.x != 0.0 && rayDirInverse.y != 0.0 && rayDirInverse.z != 0.0 {
      var (tmin, tmax) := SlabBounds(bbox, raySrc, rayDirInverse);
      if tmax >= tmin {
        AxisSlab(bbox.min.x, bbox.max.x, raySrc.x, rayDirInverse.x, tmin);
        AxisSlab(bbox.min.y, bbox.max.y, raySrc.y, rayDirInverse.y, tmin);
        AxisSlab(bbox.min.z, bbox.max.z, raySrc.z, rayDirInverse.z, tmin);
        assert Contains(bbox, PointAt(raySrc, rayDirInverse, tmin));
      }
      forall t | Contains(bbox, PointAt(raySrc, rayDirInverse, t))
        ensures tmax >= tmin
      {
        AxisSlab(bbox.min.x, bbox.max.x, raySrc.x, rayDirInverse.x, t);
        AxisSlab(bbox.min.y, bbox.max.y, raySrc.y, rayDirInverse.y, t);
        AxisSlab(bbox.min.z, bbox.max.z, raySrc.z, rayDirInverse.z, t);
      }
    }
  }

  /** One axis of RayFromInsideHits: the slab distances straddle zero. */
  lemma InsideSlab(lo: real, hi: real, s: real, inv: real)
    requires lo <= s <= hi
    ensures Slab(lo, hi, s, inv).0 <= 0.0 <= Slab(lo, hi, s, inv).1
  {
    var d1, d2 := (lo - s) * inv, (hi - s) * inv;
    if inv > 0.0 {
      ScaledLessEq(lo - s, 0.0, inv, d1, 0.0);
      ScaledLessEq(0.0, hi - s, inv, 0.0, d2);
    } else if inv < 0.0 {
      var c := -inv;
      assert -d1 == (lo - s) * c && -d2 == (hi - s) * c;
      ScaledLessEq(lo - s, 0.0, c, -d1, 0.0);
      ScaledLessEq(0.0, hi - s, c, 0.0, -d2);
    }
  }

  /** A ray starting inside the box always hits it: tmin <= 0 <= tmax. */
  lemma RayFromInsideHits(bbox: BBox, raySrc: Vec3, rayDirInverse: Vec3)
    requires Contains(bbox, raySrc)
    ensures IntersectRay(bbox, raySrc, rayDirInverse)
  {
    InsideSlab(bbox.min.x, bbox.max.x, raySrc.x, rayDirInverse.x);
    InsideSlab(bbox.min.y, bbox.max.y, raySrc.y, rayDirInverse.y);
    InsideSlab(bbox.min.z, bbox.max.z, raySrc.z, rayDirInverse.z);
  }

  /** One axis of IntersectRayIgnoresDirectionSign: negating `inv` swaps and negates the distances. */
  lemma SlabNegated(lo: real, hi: real, s: real, inv: real)
    ensures Slab(lo, hi, s, -inv) == (-Slab(lo, hi, s, inv).1, -Slab(lo, hi, s, inv).0)
  {
    assert (lo - s) * -inv == -((lo - s) * inv);
    assert (hi - s) * -inv == -((hi - s) * inv);
  }

  /**
   * Reversing the ray's direction does not change the answer: the test
   * cannot tell a box ahead of the ray from one behind it.
   */
  lemma IntersectRayIgnoresDirectionSign(bbox: BBox, raySrc: Vec3, rayDirInverse: Vec3)
    ensures IntersectRay(bbox, raySrc, Neg(rayDirInverse)) == IntersectRay(bbox, raySrc, rayDirInverse)
  {
    SlabNegated(bbox.min.x, bbox.max.x, raySrc.x, rayDirInverse.x);
    SlabNegated(bbox.min.y, bbox.max.y, raySrc.y, rayDirInverse.y);
    SlabNegated(bbox.min.z, bbox.max.z, raySrc.z, rayDirInverse.z);
  }

  /**
   * A box that the line meets only behind the origin of the ray (t < 0)
   * is still reported as hit, although the ray itself misses it.
   */
  lemma BoxBehindRayHits(bbox: BBox, raySrc: Vec3, rayDirInverse: Vec3)
    requires WellFormed(bbox) && rayDirInverse.x != 0.0 && rayDirInverse.y != 0.0 && rayDirInverse.z != 0.0
    requires exists t :: Contains(bbox, PointAt(raySrc, rayDirInverse, t))
    requires forall t :: Contains(bbox, PointAt(raySrc, rayDirInverse, t)) ==> t < 0.0
    ensures IntersectRay(bbox, raySrc, rayDirInverse)
    ensures !exists t :: t >= 0.0 && Contains(bbox, PointAt(raySrc, rayDirInverse, t))
  {
  }

  /** Such boxes exist: the unit cube at (-2, -2, -2) lies behind a ray from the origin along +x, +y, +z. */
  lemma BoxBehindRayExample()
    ensures var bbox, inv := BBox(Vec3(-2.0, -2.0, -2.0), Vec3(-1.0, -1.0, -1.0)), Vec3(1.0, 1.0, 1.0);
            && WellFormed(bbox)
            && Contains(bbox, PointAt(Zero, inv, -1.5))
            && (forall t :: Contains(bbox, PointAt(Zero, inv, t)) ==> t < 0.0)
  {
  }

  /** Swapping which plane of a slab is "min" does not change the ray test. */
  lemma IntersectRaySlabOrderIrrelevant(bbox: BBox, raySrc: Vec3, rayDirInverse: Vec3)
    ensures IntersectRay(BBox(Vec3(bbox.max.x, bbox.min.y, bbox.min.z), Vec3(bbox.min.x, bbox.max.y, bbox.max.z)), raySrc, rayDirInverse)
            == IntersectRay(bbox, raySrc, rayDirInverse)
    ensures IntersectRay(BBox(Vec3(bbox.min.x, bbox.max.y, bbox.min.z), Vec3(bbox.max.x, bbox.min.y, bbox.max.z)), raySrc, rayDirInverse)
            == IntersectRay(bbox, raySrc, rayDirInverse)
    ensures IntersectRay(BBox(Vec3(bbox.min.x, bbox.min.y, bbox.max.z), Vec3(bbox.max.x, bbox.max.y, bbox.min.z)), raySrc, rayDirInverse)
            == IntersectRay(bbox, raySrc, rayDirInverse)
  {
    assert Slab(bbox.max.x, bbox.min.x, raySrc.x, rayDirInverse.x) == Slab(bbox.min.x, bbox.max.x, raySrc.x, rayDirInverse.x);
    assert Slab(bbox.max.y, bbox.min.y, raySrc.y, rayDirInverse.y) == Slab(bbox.min.y, bbox.max.y, raySrc.y, rayDirInverse.y);
    assert Slab(bbox.max.z, bbox.min.z, raySrc.z, rayDirInverse.z) == Slab(bbox.min.z, bbox.max.z, raySrc.z, rayDirInverse.z);
  }
}
