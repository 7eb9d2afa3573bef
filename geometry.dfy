/** Points, axis-aligned boxes and the small numeric helpers the simulation step uses. */
module Geometry {

  datatype Vec3 = Vec3(x: real, y: real, z: real)

  const Zero := Vec3(0.0, 0.0, 0.0)

  /** Full box extents of a body: width (x), height (y), depth (z). */
  datatype Size = Size(w: real, h: real, d: real)

  /** An axis-aligned box given by its two corners. */
  datatype Box = Box(min: Vec3, max: Vec3)

  function Min(a: real, b: real): (r: real)
    ensures r <= a && r <= b && (r == a || r == b)
  {
    if a <= b then a else b
  }

  function Max(a: real, b: real): (r: real)
    ensures r >= a && r >= b && (r == a || r == b)
  {
    if a >= b then a else b
  }

  function Abs(a: real): (r: real)
    ensures r >= 0.0 && (r == a || r == -a)
  {
    if a >= 0.0 then a else -a
  }

  /** Math.max(a, Math.min(b, x)): a wins when the band is empty. */
  function Clamp(x: real, a: real, b: real): (r: real)
    ensures r >= a
    ensures a <= b ==> r <= b
    ensures a <= x <= b ==> r == x
    ensures x < a || b < a ==> r == a
    ensures a <= b && x > b ==> r == b
  {
    Max(a, Min(b, x))
  }

  lemma ClampIdempotent(x: real, a: real, b: real)
    requires a <= b
    ensures Clamp(Clamp(x, a, b), a, b) == Clamp(x, a, b)
  {
  }

  ghost predicate WellFormed(b: Box) {
    b.min.x <= b.max.x && b.min.y <= b.max.y && b.min.z <= b.max.z
  }

  predicate NonNegative(s: Size) {
    s.w >= 0.0 && s.h >= 0.0 && s.d >= 0.0
  }

  /** The box of a body centred at p with extents s. */
  function MeshAABB(p: Vec3, s: Size): (b: Box)
    ensures (b.min.x + b.max.x) / 2.0 == p.x
    ensures (b.min.y + b.max.y) / 2.0 == p.y
    ensures (b.min.z + b.max.z) / 2.0 == p.z
    ensures b.max.x - b.min.x == s.w && b.max.y - b.min.y == s.h && b.max.z - b.min.z == s.d
    ensures NonNegative(s) ==> WellFormed(b)
  {
    Box(Vec3(p.x - s.w / 2.0, p.y - s.h / 2.0, p.z - s.d / 2.0),
        Vec3(p.x + s.w / 2.0, p.y + s.h / 2.0, p.z + s.d / 2.0))
  }

  /** Closed-interval overlap on all three axes. */
  predicate Intersects(a: Box, b: Box) {
    (a.min.x <= b.max.x && a.max.x >= b.min.x) &&
    (a.min.y <= b.max.y && a.max.y >= b.min.y) &&
    (a.min.z <= b.max.z && a.max.z >= b.min.z)
  }

  ghost predicate Inside(p: Vec3, b: Box) {
    b.min.x <= p.x <= b.max.x && b.min.y <= p.y <= b.max.y && b.min.z <= p.z <= b.max.z
  }

  /** For well-formed boxes the test is exactly "the closed boxes share a point". */
  lemma IntersectsIffCommonPoint(a: Box, b: Box)
    requires WellFormed(a) && WellFormed(b)
    ensures Intersects(a, b) <==> exists p :: Inside(p, a) && Inside(p, b)
  {
    if Intersects(a, b) {
      var p := Vec3(Max(a.min.x, b.min.x), Max(a.min.y, b.min.y), Max(a.min.z, b.min.z));
      assert Inside(p, a) && Inside(p, b);
    }
  }

  lemma IntersectsSymmetric(a: Box, b: Box)
    ensures Intersects(a, b) == Intersects(b, a)
  {
  }

  /** Boxes that only share a face still count as intersecting. */
  lemma TouchingFacesIntersect(a: Box, b: Box)
    requires WellFormed(a) && WellFormed(b)
    requires a.max.x == b.min.x
    requires a.min.y <= b.max.y && a.max.y >= b.min.y
    requires a.min.z <= b.max.z && a.max.z >= b.min.z
    ensures Intersects(a, b)
    ensures !exists p :: Inside(p, a) && Inside(p, b) && a.min.x < p.x < a.max.x
  {
  }
}
