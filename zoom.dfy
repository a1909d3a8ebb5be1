/**
 * Zoom selection of the main map: for a line or polygon the caller's zoom is
 * replaced by `max(0, min(19, floor(log2(min(width / lonSpan, height / latSpan)))))`
 * over the bounding box of all vertices; a point keeps the caller's zoom.
 */
module Zoom {
  import opened Geometry
  import opened Projection

  datatype Box = Box(minLon: real, maxLon: real, minLat: real, maxLat: real)

  /** The bounding box of a non-empty vertex list: `Math.min`/`Math.max` over it. */
  function Bounds(vs: seq<Coord>): (b: Box)
    requires |vs| > 0
    ensures forall i :: 0 <= i < |vs| ==> b.minLon <= vs[i].lon <= b.maxLon && b.minLat <= vs[i].lat <= b.maxLat
    ensures exists i :: 0 <= i < |vs| && vs[i].lon == b.minLon
    ensures exists i :: 0 <= i < |vs| && vs[i].lon == b.maxLon
    ensures exists i :: 0 <= i < |vs| && vs[i].lat == b.minLat
    ensures exists i :: 0 <= i < |vs| && vs[i].lat == b.maxLat
  {
    if |vs| == 1 then
      Box(vs[0].lon, vs[0].lon, vs[0].lat, vs[0].lat)
    else
      var init := vs[..|vs| - 1];
      var b := Bounds(init);
      var c := vs[|vs| - 1];
      assert forall i :: 0 <= i < |init| ==> init[i] == vs[i];
      Box(Min(b.minLon, c.lon), Max(b.maxLon, c.lon), Min(b.minLat, c.lat), Max(b.maxLat, c.lat))
  }

  /** The centre of the box, the point the main map is centred on. */
  function Center(b: Box): Coord
  {
    Coord((b.minLon + b.maxLon) / 2.0, (b.minLat + b.maxLat) / 2.0)
  }

  const MaxZoom: nat := 19

  /** A quotient `size / span`; a zero span gives JavaScript's `Infinity`. */
  datatype Ratio = Finite(q: real) | Unbounded

  function SpanRatio(size: nat, span: real): Ratio
    requires span >= 0.0
  {
    if span == 0.0 then Unbounded else Finite(size as real / span)
  }

  /** `Math.min`, with `Infinity` above every number. */
  function MinRatio(a: Ratio, b: Ratio): Ratio
  {
    match (a, b)
    case (Unbounded, _) => b
    case (_, Unbounded) => a
    case (Finite(x), Finite(y)) => Finite(Min(x, y))
  }

  predicate RatioLe(a: Ratio, b: Ratio)
  {
    b.Unbounded? || (a.Finite? && a.q <= b.q)
  }

  /** Counts down from `k` to the first zoom whose power of two fits under `q`. */
  function ZoomSearch(q: real, k: nat): (z: nat)
    ensures z <= k
    ensures z == 0 || Pow2(z) as real <= q
    ensures z == k || q < Pow2(z + 1) as real
    decreases k
  {
    if k == 0 || Pow2(k) as real <= q then k else ZoomSearch(q, k - 1)
  }

  /**
   * `Math.max(0, Math.min(19, Math.floor(Math.log2(q))))`: the floor of the
   * binary logarithm is the `n` with `2^n <= q < 2^(n + 1)`, clamped to [0, 19].
   */
  function ClampedLog2(q: real): (z: nat)
    ensures z <= MaxZoom
    ensures z == 0 || Pow2(z) as real <= q
    ensures z == MaxZoom || q < Pow2(z + 1) as real
  {
    ZoomSearch(q, MaxZoom)
  }

  /** The two bounds of ClampedLog2 determine it: it is the clamped floor of log2. */
  lemma ClampedLog2Unique(q: real, z: nat)
    requires z <= MaxZoom
    requires z == 0 || Pow2(z) as real <= q
    requires z == MaxZoom || q < Pow2(z + 1) as real
    ensures z == ClampedLog2(q)
  {
    ZoomSearchUnique(q, MaxZoom, z);
  }

  lemma ZoomSearchUnique(q: real, k: nat, z: nat)
    requires z <= k
    requires z == 0 || Pow2(z) as real <= q
    requires z == k || q < Pow2(z + 1) as real
    ensures z == ZoomSearch(q, k)
  {
    var r := ZoomSearch(q, k);
    if z < r {
      Pow2Monotone(z + 1, r);
    } else if r < z {
      Pow2Monotone(r + 1, z);
    }
  }

  /** A larger ratio never gives a smaller zoom. */
  lemma ClampedLog2Monotone(q1: real, q2: real)
    requires q1 <= q2
    ensures ClampedLog2(q1) <= ClampedLog2(q2)
  {
    var z1, z2 := ClampedLog2(q1), ClampedLog2(q2);
    if z1 > z2 {
      Pow2Monotone(z2 + 1, z1);
    }
  }

  /** The zoom of a ratio; `log2(Infinity)` is clamped to 19. */
  function ZoomOfRatio(r: Ratio): nat
  {
    match r
    case Unbounded => MaxZoom
    case Finite(q) => ClampedLog2(q)
  }

  lemma ZoomOfRatioMonotone(a: Ratio, b: Ratio)
    requires RatioLe(a, b)
    ensures ZoomOfRatio(a) <= ZoomOfRatio(b)
  {
    if b.Finite? {
      ClampedLog2Monotone(a.q, b.q);
    }
  }

  predicate Proper(b: Box)
  {
    b.minLon <= b.maxLon && b.minLat <= b.maxLat
  }

  /** The zoom that fits the box into a `width` by `height` canvas. */
  function FitZoom(width: Dim, height: Dim, b: Box): (z: nat)
    requires Proper(b)
    ensures z <= MaxZoom
  {
    ZoomOfRatio(BoxRatio(width, height, b))
  }

  /** `Math.min(width / lonSpan, height / latSpan)` */
  function BoxRatio(width: Dim, height: Dim, b: Box): Ratio
    requires Proper(b)
  {
    MinRatio(SpanRatio(width, b.maxLon - b.minLon), SpanRatio(height, b.maxLat - b.minLat))
  }

  lemma DivAntitone(size: real, s1: real, s2: real)
    requires size >= 0.0 && 0.0 < s1 <= s2
    ensures size / s2 <= size / s1
  {
    var a, b := size / s1, size / s2;
    assert a * s1 == size && b * s2 == size;
    assert b * s1 <= b * s2;
  }

  /** A wider span gives a smaller (or equal) quotient; a zero span is the largest. */
  lemma SpanRatioAntitone(size: nat, s1: real, s2: real)
    requires 0.0 <= s1 <= s2
    ensures RatioLe(SpanRatio(size, s2), SpanRatio(size, s1))
  {
    if s1 > 0.0 {
      DivAntitone(size as real, s1, s2);
    }
  }

  lemma MinRatioMonotone(a1: Ratio, a2: Ratio, b1: Ratio, b2: Ratio)
    requires RatioLe(a1, a2) && RatioLe(b1, b2)
    ensures RatioLe(MinRatio(a1, b1), MinRatio(a2, b2))
  {
  }

  /** Growing either span of the box never increases the ratio. */
  lemma BoxRatioAntitone(width: Dim, height: Dim, small: Box, large: Box)
    requires Proper(small) && Proper(large)
    requires small.maxLon - small.minLon <= large.maxLon - large.minLon
    requires small.maxLat - small.minLat <= large.maxLat - large.minLat
    ensures RatioLe(BoxRatio(width, height, large), BoxRatio(width, height, small))
  {
    SpanRatioAntitone(width, small.maxLon - small.minLon, large.maxLon - large.minLon);
    SpanRatioAntitone(height, small.maxLat - small.minLat, large.maxLat - large.minLat);
    MinRatioMonotone(SpanRatio(width, large.maxLon - large.minLon), SpanRatio(width, small.maxLon - small.minLon),
                     SpanRatio(height, large.maxLat - large.minLat), SpanRatio(height, small.maxLat - small.minLat));
  }

  /** Growing either span of the box never increases the zoom. */
  lemma FitZoomAntitone(width: Dim, height: Dim, small: Box, large: Box)
    requires Proper(small) && Proper(large)
    requires small.maxLon - small.minLon <= large.maxLon - large.minLon
    requires small.maxLat - small.minLat <= large.maxLat - large.minLat
    ensures FitZoom(width, height, large) <= FitZoom(width, height, small)
  {
    BoxRatioAntitone(width, height, small, large);
    ZoomOfRatioMonotone(BoxRatio(width, height, large), BoxRatio(width, height, small));
  }

  lemma BoundsProper(vs: seq<Coord>)
    requires |vs| > 0
    ensures Proper(Bounds(vs))
  {
    assert Bounds(vs).minLon <= vs[0].lon <= Bounds(vs).maxLon;
  }

  /** Identical vertices span nothing, so the zoom is the maximum. */
  lemma IdenticalVerticesMaxZoom(width: Dim, height: Dim, vs: seq<Coord>)
    requires |vs| > 0
    requires forall i :: 0 <= i < |vs| ==> vs[i] == vs[0]
    ensures Proper(Bounds(vs))
    ensures FitZoom(width, height, Bounds(vs)) == MaxZoom
  {
    BoundsProper(vs);
    var b := Bounds(vs);
    var i :| 0 <= i < |vs| && vs[i].lon == b.minLon;
    var j :| 0 <= j < |vs| && vs[j].lon == b.maxLon;
    var k :| 0 <= k < |vs| && vs[k].lat == b.minLat;
    var l :| 0 <= l < |vs| && vs[l].lat == b.maxLat;
    assert vs[i] == vs[j] == vs[k] == vs[l] == vs[0];
  }

  /**
   * The zoom `generateMap` draws at: the caller's for a point, the fitted one
   * for a line or polygon.
   */
  function MapZoom(g: Geometry, requested: nat, width: Dim, height: Dim): (z: nat)
    requires WellFormed(g)
    ensures g.Point? ==> z == requested
    ensures !g.Point? ==> z <= MaxZoom
  {
    if g.Point? then requested
    else
      WellFormedHasVertices(g);
      BoundsProper(Vertices(g));
      FitZoom(width, height, Bounds(Vertices(g)))
  }
}
