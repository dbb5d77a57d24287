/** Projection of a point onto a route segment and the linear transform
    between world coordinates and the mini-map's UI coordinates
    (src/shared/MapUtilsSimple.ts). */
module MapUtils {
  import opened Vectors

  /** Luau's `math.clamp` for `lo <= hi`. */
  function Clamp(x: real, lo: real, hi: real): (r: real)
    requires lo <= hi
    ensures lo <= r <= hi
    ensures lo <= x <= hi ==> r == x
    ensures x < lo ==> r == lo
    ensures x > hi ==> r == hi
  {
    if x < lo then lo else if x > hi then hi else x
  }

  datatype Projection = Projection(point: Vec3, t: real)

  /** The point of segment [a, b] at fraction `t`. */
  function PointAt(a: Vec3, b: Vec3, t: real): Vec3 {
    Add(a, Scale(Sub(b, a), t))
  }

  /** `MapUtilsSimple.projectOntoSegment`. The source divides by `ab·ab`
      without a guard; that squared length is non-zero exactly when the
      segment's ends differ, and it is what the division needs. */
  function ProjectOntoSegment(a: Vec3, b: Vec3, p: Vec3): (r: Projection)
    requires Dot(Sub(b, a), Sub(b, a)) != 0.0
    ensures 0.0 <= r.t <= 1.0
    ensures r.point == PointAt(a, b, r.t)
  {
    var ab := Sub(b, a);
    var ap := Sub(p, a);
    var t := Clamp(Dot(ap, ab) / Dot(ab, ab), 0.0, 1.0);
    Projection(Add(a, Scale(ab, t)), t)
  }

  /** A point that already lies on the segment projects onto itself, at its
      own fraction. */
  lemma {:induction false} ProjectionOfPointOnSegment(a: Vec3, b: Vec3, s: real)
    requires Dot(Sub(b, a), Sub(b, a)) != 0.0
    requires 0.0 <= s <= 1.0
    ensures ProjectOntoSegment(a, b, PointAt(a, b, s)).t == s
    ensures ProjectOntoSegment(a, b, PointAt(a, b, s)).point == PointAt(a, b, s)
  {
    var ab := Sub(b, a);
    var p := PointAt(a, b, s);
    assert Sub(p, a) == Scale(ab, s);
    assert Dot(Scale(ab, s), ab) == s * Dot(ab, ab);
    assert (s * Dot(ab, ab)) / Dot(ab, ab) == s;
  }

  /** The part of a squared distance along a segment that depends on the
      fraction `s`: `n*s*s - 2*d*s`. */
  function Quadratic(n: real, d: real, s: real): real {
    s * s * n - 2.0 * s * d
  }

  /** The squared distance from `p` to the point of [a, b] at fraction `s`,
      as a quadratic in `s`. */
  lemma SqDistAlong(a: Vec3, b: Vec3, p: Vec3, s: real)
    ensures SqDist(p, PointAt(a, b, s))
      == Dot(Sub(p, a), Sub(p, a)) + Quadratic(Dot(Sub(b, a), Sub(b, a)), Dot(Sub(p, a), Sub(b, a)), s)
  {
    var ab := Sub(b, a);
    var ap := Sub(p, a);
    assert Sub(p, PointAt(a, b, s)) == Sub(ap, Scale(ab, s));
    assert (ap.x - ab.x * s) * (ap.x - ab.x * s) == ap.x * ap.x - 2.0 * s * ap.x * ab.x + s * s * ab.x * ab.x;
    assert (ap.y - ab.y * s) * (ap.y - ab.y * s) == ap.y * ap.y - 2.0 * s * ap.y * ab.y + s * s * ab.y * ab.y;
    assert (ap.z - ab.z * s) * (ap.z - ab.z * s) == ap.z * ap.z - 2.0 * s * ap.z * ab.z + s * s * ab.z * ab.z;
  }

  /** On [0, 1] the quadratic `n*x*x - 2*d*x` (with `n > 0`) is least at its
      vertex `d/n` clamped into [0, 1]. */
  lemma {:induction false} ClampedVertexIsLeast(n: real, d: real, s: real)
    requires n > 0.0
    requires 0.0 <= s <= 1.0
    ensures Quadratic(n, d, Clamp(d / n, 0.0, 1.0)) <= Quadratic(n, d, s)
  {
    var u := d / n;
    if 0.0 <= u <= 1.0 {
      VertexInside(n, d, u, s);
    } else if u < 0.0 {
      VertexBelow(n, d, u, s);
    } else {
      VertexAbove(n, d, u, s);
    }
  }

  lemma VertexInside(n: real, d: real, u: real, s: real)
    requires n > 0.0 && u == d / n
    ensures u * u * n - 2.0 * u * d <= s * s * n - 2.0 * s * d
  {
    assert d == u * n;
    assert (s * s * n - 2.0 * s * d) - (u * u * n - 2.0 * u * d) == n * ((s - u) * (s - u));
    assert (s - u) * (s - u) >= 0.0;
  }

  lemma VertexBelow(n: real, d: real, u: real, s: real)
    requires n > 0.0 && u == d / n && u < 0.0 && 0.0 <= s
    ensures 0.0 * 0.0 * n - 2.0 * 0.0 * d <= s * s * n - 2.0 * s * d
  {
    assert d == u * n;
    assert s * s * n - 2.0 * s * d == (s * n) * (s - 2.0 * u);
    assert s * n >= 0.0;
  }

  lemma VertexAbove(n: real, d: real, u: real, s: real)
    requires n > 0.0 && u == d / n && u > 1.0 && s <= 1.0
    ensures 1.0 * 1.0 * n - 2.0 * 1.0 * d <= s * s * n - 2.0 * s * d
  {
    assert d == u * n;
    assert (s * s * n - 2.0 * s * d) - (n - 2.0 * d) == ((1.0 - s) * n) * (2.0 * u - 1.0 - s);
    var x, y := (1.0 - s) * n, 2.0 * u - 1.0 - s;
    assert x >= 0.0 && y > 0.0;
    assert x * y >= 0.0;
  }

  /** What `projectOntoSegment` is for: the point it returns is the point of
      the segment nearest to `p` (no point of [a, b] is strictly closer). */
  lemma {:induction false} ProjectionIsNearest(a: Vec3, b: Vec3, p: Vec3, s: real)
    requires Dot(Sub(b, a), Sub(b, a)) != 0.0
    requires 0.0 <= s <= 1.0
    ensures SqDist(p, ProjectOntoSegment(a, b, p).point) <= SqDist(p, PointAt(a, b, s))
  {
    var ab := Sub(b, a);
    var n := Dot(ab, ab);
    assert n > 0.0 by {
      assert ab.x * ab.x >= 0.0 && ab.y * ab.y >= 0.0 && ab.z * ab.z >= 0.0;
    }
    var d := Dot(Sub(p, a), ab);
    var r := ProjectOntoSegment(a, b, p);
    assert r.t == Clamp(d / n, 0.0, 1.0);
    SqDistAlong(a, b, p, s);
    SqDistAlong(a, b, p, r.t);
    ClampedVertexIsLeast(n, d, s);
  }

  datatype MapBounds = MapBounds(minX: real, maxX: real, minY: real, maxY: real, minZ: real, maxZ: real)

  /** `MapCoordinateTransformer`: fixed bounds and UI size, set once by its
      constructor. */
  datatype CoordinateTransformer = CoordinateTransformer(bounds: MapBounds, uiWidth: real, uiHeight: real) {

    /** The world extent along x and z is not empty (`worldToUI` divides by it). */
    predicate WorldNonDegenerate() {
      bounds.maxX != bounds.minX && bounds.maxZ != bounds.minZ
    }

    /** The UI size is not zero (`uiToWorld` divides by it). */
    predicate UiNonDegenerate() {
      uiWidth != 0.0 && uiHeight != 0.0
    }

    function WorldToUI(c: Vec3): (r: Vec2)
      requires WorldNonDegenerate()
    {
      var normalizedX := (c.x - bounds.minX) / (bounds.maxX - bounds.minX);
      var normalizedZ := (c.z - bounds.minZ) / (bounds.maxZ - bounds.minZ);
      Vec2(normalizedX * uiWidth, normalizedZ * uiHeight)
    }

    function UiToWorld(u: Vec2): (r: Vec3)
      requires UiNonDegenerate()
      ensures r.y == 0.5
    {
      var normalizedX := u.x / uiWidth;
      var normalizedZ := u.y / uiHeight;
      Vec3(bounds.minX + normalizedX * (bounds.maxX - bounds.minX),
           0.5,
           bounds.minZ + normalizedZ * (bounds.maxZ - bounds.minZ))
    }
  }

  lemma ScaleRoundTrip(v: real, lo: real, hi: real, size: real)
    requires hi != lo && size != 0.0
    ensures lo + (((v - lo) / (hi - lo)) * size / size) * (hi - lo) == v
  {
    var n := (v - lo) / (hi - lo);
    assert n * size / size == n;
    assert n * (hi - lo) == v - lo;
  }

  /** Mapping a world coordinate to the mini-map and back recovers x and z;
      the height always comes back as 0.5. */
  lemma UiToWorldInvertsWorldToUI(tr: CoordinateTransformer, c: Vec3)
    requires tr.WorldNonDegenerate() && tr.UiNonDegenerate()
    ensures tr.UiToWorld(tr.WorldToUI(c)) == Vec3(c.x, 0.5, c.z)
  {
    ScaleRoundTrip(c.x, tr.bounds.minX, tr.bounds.maxX, tr.uiWidth);
    ScaleRoundTrip(c.z, tr.bounds.minZ, tr.bounds.maxZ, tr.uiHeight);
  }

  /** The world bounds' corners land on the UI rectangle's corners. */
  lemma WorldToUICorners(tr: CoordinateTransformer, y: real)
    requires tr.WorldNonDegenerate()
    ensures tr.WorldToUI(Vec3(tr.bounds.minX, y, tr.bounds.minZ)) == Vec2(0.0, 0.0)
    ensures tr.WorldToUI(Vec3(tr.bounds.maxX, y, tr.bounds.maxZ)) == Vec2(tr.uiWidth, tr.uiHeight)
  {
  }
}
