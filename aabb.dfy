/** Axis-aligned bounding boxes (src/math/aabb.py). */
module Aabb {
  import opened Vec

  datatype Box = Box(minpt: Vec3, maxpt: Vec3)

  function Min(a: real, b: real): real { if a <= b then a else b }
  function Max(a: real, b: real): real { if a >= b then a else b }

  /** Each minimum corner component is at most the maximum one. */
  predicate Ordered(b: Box)
  {
    b.minpt.x <= b.maxpt.x && b.minpt.y <= b.maxpt.y && b.minpt.z <= b.maxpt.z
  }

  /** `outer` encloses `inner`, corner by corner. */
  predicate Encloses(outer: Box, inner: Box)
  {
    outer.minpt.x <= inner.minpt.x && outer.minpt.y <= inner.minpt.y && outer.minpt.z <= inner.minpt.z &&
    inner.maxpt.x <= outer.maxpt.x && inner.maxpt.y <= outer.maxpt.y && inner.maxpt.z <= outer.maxpt.z
  }

  /** The point `p` lies in the closed box. */
  predicate InBox(b: Box, p: Vec3)
  {
    b.minpt.x <= p.x <= b.maxpt.x && b.minpt.y <= p.y <= b.maxpt.y && b.minpt.z <= p.z <= b.maxpt.z
  }

  /** `maxpt - minpt`: the size of the box along each axis. */
  function Extent(b: Box): Vec3 { Sub(b.maxpt, b.minpt) }

  /** `Vec(0.5,0.5,0.5) * (maxpt + minpt)`. */
  function Center(b: Box): Vec3 { Mul(Vec3(0.5, 0.5, 0.5), Add(b.maxpt, b.minpt)) }

  /** `a.union(b)`: the smallest box enclosing both. */
  function Union(a: Box, b: Box): (u: Box)
    ensures Encloses(u, a) && Encloses(u, b)
    ensures forall c :: Encloses(c, a) && Encloses(c, b) ==> Encloses(c, u)
  {
    Box(Vec3(Min(a.minpt.x, b.minpt.x), Min(a.minpt.y, b.minpt.y), Min(a.minpt.z, b.minpt.z)),
        Vec3(Max(a.maxpt.x, b.maxpt.x), Max(a.maxpt.y, b.maxpt.y), Max(a.maxpt.z, b.maxpt.z)))
  }

  lemma UnionCommutative(a: Box, b: Box)
    ensures Union(a, b) == Union(b, a)
  {
  }

  lemma UnionIdempotent(a: Box)
    ensures Union(a, a) == a
  {
  }

  lemma UnionAssociative(a: Box, b: Box, c: Box)
    ensures Union(Union(a, b), c) == Union(a, Union(b, c))
  {
  }

  lemma UnionOrdered(a: Box, b: Box)
    requires Ordered(a) && Ordered(b)
    ensures Ordered(Union(a, b))
  {
  }

  /** `b.translate(p)`: both corners moved by `p`. */
  function Translate(b: Box, p: Vec3): (t: Box)
    ensures Extent(t) == Extent(b)
    ensures Center(t) == Add(Center(b), p)
    ensures Ordered(b) ==> Ordered(t)
    ensures forall q :: InBox(b, q) <==> InBox(t, Add(q, p))
  {
    Box(Add(b.minpt, p), Add(b.maxpt, p))
  }

  /** The rescaled image of one corner: `Vec(s,s,s) * (corner - center) + center`. */
  function ScaleCorner(corner: Vec3, center: Vec3, s: real): Vec3
  {
    Add(Mul(Vec3(s, s, s), Sub(corner, center)), center)
  }

  /** `b.scale(s)`: grow or shrink the box about its center. */
  function ScaleBox(b: Box, s: real): (r: Box)
    ensures Center(r) == Center(b)
    ensures Extent(r) == Scale(Extent(b), s)
  {
    var c := Center(b);
    var r := Box(ScaleCorner(b.minpt, c, s), ScaleCorner(b.maxpt, c, s));
    ScaleAxis(b.minpt.x, b.maxpt.x, s);
    ScaleAxis(b.minpt.y, b.maxpt.y, s);
    ScaleAxis(b.minpt.z, b.maxpt.z, s);
    r
  }

  /** One axis of `ScaleBox`, with center `c = 0.5 * (hi + lo)`. */
  lemma ScaleAxis(lo: real, hi: real, s: real)
    ensures var c := 0.5 * (hi + lo);
            var lo', hi' := s * (lo - c) + c, s * (hi - c) + c;
            0.5 * (hi' + lo') == c && hi' - lo' == (hi - lo) * s
  {
  }

  lemma ScaleOne(b: Box)
    ensures ScaleBox(b, 1.0) == b
  {
  }

  lemma ScaleOrdered(b: Box, s: real)
    requires Ordered(b) && s >= 0.0
    ensures Ordered(ScaleBox(b, s))
  {
    var e := Extent(ScaleBox(b, s));
    MulNonNegative(b.maxpt.x - b.minpt.x, s);
    MulNonNegative(b.maxpt.y - b.minpt.y, s);
    MulNonNegative(b.maxpt.z - b.minpt.z, s);
    assert e.x >= 0.0 && e.y >= 0.0 && e.z >= 0.0;
  }

  /** `b.max_dim()`: the largest extent. */
  function MaxDim(b: Box): (m: real)
    ensures var e := Extent(b); m >= e.x && m >= e.y && m >= e.z
    ensures var e := Extent(b); m == e.x || m == e.y || m == e.z
  {
    var e := Extent(b);
    Max(e.x, Max(e.y, e.z))
  }

  /** What axis `i` adds to `dmin`: the squared gap below the minimum plus the
      squared gap above the maximum. The two tests are independent, as in the
      source, so an inverted box can contribute both. */
  function AxisGap(b: Box, c: Vec3, i: nat): real
    requires i < 3
  {
    Gap(At(c, i), At(b.minpt, i), At(b.maxpt, i))
  }

  /** The contribution of coordinate `v` against the interval [lo, hi]. */
  function Gap(v: real, lo: real, hi: real): real
  {
    (if v < lo then (v - lo) * (v - lo) else 0.0) + (if v > hi then (v - hi) * (v - hi) else 0.0)
  }

  /** `dmin` after the first `n` iterations of the loop. */
  function GapUpTo(b: Box, c: Vec3, n: nat): real
    requires n <= 3
  {
    if n == 0 then 0.0 else GapUpTo(b, c, n - 1) + AxisGap(b, c, n - 1)
  }

  /** The squared distance from `c` to the box, accumulated by `intersects`. */
  function SqDistOutside(b: Box, c: Vec3): real
  {
    GapUpTo(b, c, 3)
  }

  lemma SqDistSum(b: Box, c: Vec3)
    ensures SqDistOutside(b, c) == AxisGap(b, c, 0) + AxisGap(b, c, 1) + AxisGap(b, c, 2)
  {
    assert GapUpTo(b, c, 1) == AxisGap(b, c, 0);
    assert GapUpTo(b, c, 2) == AxisGap(b, c, 0) + AxisGap(b, c, 1);
  }

  lemma SqDistInside(b: Box, c: Vec3)
    requires InBox(b, c)
    ensures SqDistOutside(b, c) == 0.0
  {
    SqDistSum(b, c);
  }

  /** The nearest point of the box to `c`. */
  function Clamp(b: Box, c: Vec3): Vec3
  {
    Vec3(Max(b.minpt.x, Min(c.x, b.maxpt.x)), Max(b.minpt.y, Min(c.y, b.maxpt.y)), Max(b.minpt.z, Min(c.z, b.maxpt.z)))
  }

  lemma SquareMonotone(a: real, b: real)
    requires 0.0 <= a <= b
    ensures a * a <= b * b
  {
    MulNonNegative(b - a, b + a);
    assert (b - a) * (b + a) == b * b - a * a;
  }

  lemma SquareNonNegative(a: real)
    ensures a * a >= 0.0
  {
    if a < 0.0 {
      MulNonNegative(-a, -a);
    } else {
      MulNonNegative(a, a);
    }
  }

  /** On one axis, no coordinate inside [lo, hi] is closer to `v` than the gap says. */
  lemma GapBelow(v: real, lo: real, hi: real, p: real)
    requires lo <= p <= hi
    ensures Gap(v, lo, hi) <= (v - p) * (v - p)
  {
    SquareNonNegative(v - p);
    if v < lo {
      SquareMonotone(lo - v, p - v);
      assert (lo - v) * (lo - v) == (v - lo) * (v - lo);
      assert (p - v) * (p - v) == (v - p) * (v - p);
    } else if v > hi {
      SquareMonotone(v - hi, v - p);
    }
  }

  /** On one axis of a non-inverted interval, the gap is the squared distance
      to the clamped coordinate. */
  lemma GapAtClamp(v: real, lo: real, hi: real, d: real)
    requires lo <= hi && d == v - Max(lo, Min(v, hi))
    ensures lo <= Max(lo, Min(v, hi)) <= hi
    ensures Gap(v, lo, hi) == d * d
  {
  }

  /** No point of the box is closer to `c` than the accumulated value says. */
  lemma SqDistOutsideBelow(b: Box, c: Vec3, p: Vec3)
    requires InBox(b, p)
    ensures SqDistOutside(b, c) <= SqLength(Sub(c, p))
  {
    GapBelow(c.x, b.minpt.x, b.maxpt.x, p.x);
    GapBelow(c.y, b.minpt.y, b.maxpt.y, p.y);
    GapBelow(c.z, b.minpt.z, b.maxpt.z, p.z);
    SqDistSum(b, c);
  }

  /** The clamped point of an ordered box lies in it and attains the
      accumulated value. */
  lemma SqDistOutsideAttained(b: Box, c: Vec3)
    requires Ordered(b)
    ensures InBox(b, Clamp(b, c))
    ensures SqDistOutside(b, c) == SqLength(Sub(c, Clamp(b, c)))
  {
    var d := Sub(c, Clamp(b, c));
    GapAtClamp(c.x, b.minpt.x, b.maxpt.x, d.x);
    GapAtClamp(c.y, b.minpt.y, b.maxpt.y, d.y);
    GapAtClamp(c.z, b.minpt.z, b.maxpt.z, d.z);
    SqDistSum(b, c);
  }

  /** `intersects` exactly as written: the accumulated squared distance is
      compared with the radius itself. */
  method IntersectsAsWritten(b: Box, center: Vec3, radius: real) returns (hit: bool)
    ensures hit <==> SqDistOutside(b, center) <= radius
  {
    var dmin := 0.0;
    for i := 0 to 3
      invariant dmin == GapUpTo(b, center, i)
    {
      var v, lo, hi := At(center, i), At(b.minpt, i), At(b.maxpt, i);
      if v < lo {
        dmin := dmin + (v - lo) * (v - lo);
      }
      if v > hi {
        dmin := dmin + (v - hi) * (v - hi);
      }
    }
    hit := dmin <= radius;
  }

  /** A sphere of radius 3 centred 2 units from the unit box overlaps it, but
      the comparison as written rejects it (squared distance 4 > 3). */
  lemma AsWrittenMissesOverlap()
    ensures var b := Box(Zero, Vec3(1.0, 1.0, 1.0));
            var c := Vec3(3.0, 0.0, 0.0);
            InBox(b, Vec3(1.0, 0.0, 0.0)) && SqLength(Sub(c, Vec3(1.0, 0.0, 0.0))) <= 3.0 * 3.0 &&
            !(SqDistOutside(b, c) <= 3.0)
  {
  }

  /** The evidently intended sphere test: squared distance against the
      squared radius. */
  function SphereIntersects(b: Box, center: Vec3, radius: real): (hit: bool)
    requires Ordered(b)
    ensures hit ==> InBox(b, Clamp(b, center)) && SqLength(Sub(center, Clamp(b, center))) <= radius * radius
    ensures !hit ==> forall p :: InBox(b, p) ==> SqLength(Sub(center, p)) > radius * radius
  {
    var h := SqDistOutside(b, center) <= radius * radius;
    SqDistOutsideAttained(b, center);
    if !h then
      NoPointWithin(b, center, radius);
      h
    else h
  }

  lemma NoPointWithin(b: Box, center: Vec3, radius: real)
    requires Ordered(b) && SqDistOutside(b, center) > radius * radius
    ensures forall p :: InBox(b, p) ==> SqLength(Sub(center, p)) > radius * radius
  {
    forall p | InBox(b, p)
      ensures SqLength(Sub(center, p)) > radius * radius
    {
      SqDistOutsideBelow(b, center, p);
    }
  }
}
