/**
 * The parsed geometry that the static-map renderer draws: the tagged union
 * `Point | LineString | Polygon` that the WKT parser hands over, with
 * coordinates as exact `(lon, lat)` reals.
 */
module Geometry {

  datatype Coord = Coord(lon: real, lat: real)

  /** A canvas width or height in pixels; a zero-sized canvas is not drawn. */
  type Dim = n: nat | n > 0 witness 1

  datatype Geometry =
    | Point(at: Coord)
    | LineString(coords: seq<Coord>)
    | Polygon(rings: seq<seq<Coord>>)

  function Abs(x: real): real
  {
    if x < 0.0 then -x else x
  }

  function Min(x: real, y: real): real
  {
    if x <= y then x else y
  }

  function Max(x: real, y: real): real
  {
    if x >= y then x else y
  }

  lemma NonNegativeProduct(a: real, b: real)
    requires 0.0 <= a && 0.0 <= b
    ensures 0.0 <= a * b
  {
  }

  /** A longitude on the map: inside [-180, 180]. */
  predicate InRange(c: Coord)
  {
    -180.0 <= c.lon <= 180.0
  }

  predicate AllInRange(s: seq<Coord>)
  {
    forall i :: 0 <= i < |s| ==> InRange(s[i])
  }

  /** One level of `Array.prototype.flat`: the rings of a polygon laid end to end. */
  function Concat<T>(ss: seq<seq<T>>): seq<T>
  {
    if ss == [] then [] else Concat(ss[..|ss| - 1]) + ss[|ss| - 1]
  }

  lemma {:induction false} ConcatMember<T>(ss: seq<seq<T>>, x: T)
    ensures x in Concat(ss) <==> exists k :: 0 <= k < |ss| && x in ss[k]
  {
    if ss != [] {
      var init := ss[..|ss| - 1];
      ConcatMember(init, x);
      if x in Concat(init) {
        var k :| 0 <= k < |init| && x in init[k];
        assert ss[k] == init[k];
      }
      if exists k :: 0 <= k < |ss| && x in ss[k] {
        var k :| 0 <= k < |ss| && x in ss[k];
        if k < |ss| - 1 {
          assert init[k] == ss[k];
        }
      }
    }
  }

  /**
   * The vertices the bounding box is taken over: every ring's vertices for a
   * polygon, the coordinates of a line, the single coordinate of a point.
   */
  function Vertices(g: Geometry): (vs: seq<Coord>)
    ensures g.Point? ==> vs == [g.at]
    ensures g.LineString? ==> vs == g.coords
    ensures g.Polygon? ==> forall c :: c in vs <==> exists k :: 0 <= k < |g.rings| && c in g.rings[k]
  {
    match g
    case Point(at) => [at]
    case LineString(coords) => coords
    case Polygon(rings) =>
      assert forall c :: c in Concat(rings) <==> exists k :: 0 <= k < |rings| && c in rings[k] by {
        forall c ensures c in Concat(rings) <==> exists k :: 0 <= k < |rings| && c in rings[k] {
          ConcatMember(rings, c);
        }
      }
      Concat(rings)
  }

  /**
   * What the drawing code can handle: a line with at least one coordinate and
   * a polygon with at least one ring, every ring non-empty (the first vertex of
   * a path is always read).
   */
  predicate WellFormed(g: Geometry)
  {
    match g
    case Point(_) => true
    case LineString(coords) => |coords| > 0
    case Polygon(rings) => |rings| > 0 && forall k :: 0 <= k < |rings| ==> |rings[k]| > 0
  }

  lemma WellFormedHasVertices(g: Geometry)
    requires WellFormed(g)
    ensures |Vertices(g)| > 0
  {
    if g.Polygon? {
      assert g.rings[0][0] in g.rings[0];
      assert g.rings[0][0] in Vertices(g);
    }
  }
}
