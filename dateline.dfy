/**
 * Antimeridian handling of the main map: the crossing test, the latitude at
 * which an edge meets the dateline, and the splitting of polygon rings into a
 * western and an eastern part.  Line strings are split in `LineSplit`.
 */
module Dateline {
  import opened Geometry

  /** An edge whose longitudes differ by more than 180 degrees crosses the dateline. */
  predicate Crosses(a: Coord, b: Coord)
  {
    Abs(a.lon - b.lon) > 180.0
  }

  predicate GoingWest(a: Coord, b: Coord)
  {
    a.lon > 0.0 && b.lon < 0.0
  }

  predicate GoingEast(a: Coord, b: Coord)
  {
    a.lon < 0.0 && b.lon > 0.0
  }

  /** On the map every crossing edge has a direction, and only one. */
  lemma CrossingIsDirected(a: Coord, b: Coord)
    requires InRange(a) && InRange(b) && Crosses(a, b)
    ensures GoingWest(a, b) != GoingEast(a, b)
  {
  }

  /** The path has a crossing edge between consecutive vertices (no closing edge). */
  predicate HasCrossing(path: seq<Coord>)
  {
    exists i :: 0 <= i < |path| - 1 && Crosses(path[i], path[i + 1])
  }

  /** The scan of consecutive pairs that stops at the first crossing. */
  method CrossesDateline(path: seq<Coord>) returns (crosses: bool)
    ensures crosses <==> HasCrossing(path)
  {
    crosses := false;
    var i := 0;
    while i < |path| - 1
      invariant 0 <= i && (i == 0 || i < |path|)
      invariant !crosses
      invariant forall j :: 0 <= j < i ==> !Crosses(path[j], path[j + 1])
      decreases |path| - i
    {
      if Abs(path[i].lon - path[i + 1].lon) > 180.0 {
        crosses := true;
        break;
      }
      i := i + 1;
    }
  }

  /** The interpolation parameter the code computes, `(180 - |lon_a|) / |lon_a - lon_b|`. */
  function RatioAsWritten(a: Coord, b: Coord): real
    requires Crosses(a, b)
  {
    (180.0 - Abs(a.lon)) / Abs(a.lon - b.lon)
  }

  /** The latitude the code assigns to the crossing point; both splitters insert it. */
  function LatAsWritten(a: Coord, b: Coord): real
    requires Crosses(a, b)
  {
    a.lat + RatioAsWritten(a, b) * (b.lat - a.lat)
  }

  lemma RatioAsWrittenBounds(a: Coord, b: Coord)
    requires InRange(a) && Crosses(a, b)
    ensures 0.0 <= RatioAsWritten(a, b) < 1.0
  {
    var n, d := 180.0 - Abs(a.lon), Abs(a.lon - b.lon);
    var r := n / d;
    assert r * d == n;
  }

  /** A convex combination of two values lies between them. */
  lemma Interpolated(x: real, y: real, t: real)
    requires 0.0 <= t <= 1.0
    ensures Min(x, y) <= x + t * (y - x) <= Max(x, y)
  {
    var d := if x <= y then y - x else x - y;
    NonNegativeProduct(t, d);
    NonNegativeProduct(1.0 - t, d);
    assert t * d + (1.0 - t) * d == d;
    if x <= y {
      assert t * (y - x) == t * d;
    } else {
      assert t * (y - x) == -(t * d);
    }
  }

  lemma LatAsWrittenBetween(a: Coord, b: Coord)
    requires InRange(a) && Crosses(a, b)
    ensures Min(a.lat, b.lat) <= LatAsWritten(a, b) <= Max(a.lat, b.lat)
  {
    RatioAsWrittenBounds(a, b);
    Interpolated(a.lat, b.lat, RatioAsWritten(a, b));
  }

  /**
   * The longitude distance the edge covers across the dateline,
   * `360 - |lon_a - lon_b|`.
   */
  function WrappedSpan(a: Coord, b: Coord): real
  {
    360.0 - Abs(a.lon - b.lon)
  }

  /** The share of the wrapped edge from `a` to the dateline. */
  function DatelineFraction(a: Coord, b: Coord): real
    requires Crosses(a, b)
  {
    if WrappedSpan(a, b) <= 0.0 then 0.0 else (180.0 - Abs(a.lon)) / WrappedSpan(a, b)
  }

  /**
   * The latitude at which the edge really meets the dateline: the crossing
   * point the code evidently intends, which `LatAsWritten` misses.
   */
  function LatAtDateline(a: Coord, b: Coord): real
    requires Crosses(a, b)
  {
    a.lat + DatelineFraction(a, b) * (b.lat - a.lat)
  }

  /**
   * Walking from `a` towards `b` the short way round (through +180 when going
   * west, through -180 when going east), the fraction reaches the dateline.
   */
  lemma FractionReachesDateline(a: Coord, b: Coord)
    requires InRange(a) && InRange(b) && Crosses(a, b)
    ensures 0.0 <= DatelineFraction(a, b) <= 1.0
    ensures GoingWest(a, b) ==> a.lon + DatelineFraction(a, b) * (b.lon + 360.0 - a.lon) == 180.0
    ensures GoingEast(a, b) ==> a.lon + DatelineFraction(a, b) * (b.lon - 360.0 - a.lon) == -180.0
  {
    var g := WrappedSpan(a, b);
    var n := 180.0 - Abs(a.lon);
    if g > 0.0 {
      var t := n / g;
      assert t * g == n;
      QuotientInUnit(n, g);
    }
  }

  /** A share of a positive whole that is at most the whole lies in [0, 1]. */
  lemma QuotientInUnit(n: real, g: real)
    requires 0.0 <= n <= g && g > 0.0
    ensures 0.0 <= n / g <= 1.0
  {
    var t := n / g;
    assert g * t == n;
    assert g * (1.0 - t) == g - n;
    PositiveFactor(g, t);
    PositiveFactor(g, 1.0 - t);
  }

  /** A product with a positive factor keeps the sign of the other factor. */
  lemma PositiveFactor(a: real, b: real)
    requires a > 0.0 && a * b >= 0.0
    ensures b >= 0.0
  {
  }

  lemma LatAtDatelineBetween(a: Coord, b: Coord)
    requires InRange(a) && InRange(b) && Crosses(a, b)
    ensures Min(a.lat, b.lat) <= LatAtDateline(a, b) <= Max(a.lat, b.lat)
  {
    FractionReachesDateline(a, b);
    Interpolated(a.lat, b.lat, DatelineFraction(a, b));
  }

  /**
   * The code's crossing point is off the edge: from (170, 0) to (-170, 10) the
   * edge meets the dateline halfway, at latitude 5, but the code puts it at 5/17.
   */
  lemma LatAsWrittenMisplaced()
    ensures LatAsWritten(Coord(170.0, 0.0), Coord(-170.0, 10.0)) == 5.0 / 17.0
    ensures LatAtDateline(Coord(170.0, 0.0), Coord(-170.0, 10.0)) == 5.0
    ensures 170.0 + RatioAsWritten(Coord(170.0, 0.0), Coord(-170.0, 10.0)) * (-170.0 + 360.0 - 170.0) != 180.0
  {
    assert RatioAsWritten(Coord(170.0, 0.0), Coord(-170.0, 10.0)) == 10.0 / 340.0;
    assert DatelineFraction(Coord(170.0, 0.0), Coord(-170.0, 10.0)) == 0.5;
  }

  /** A vertex of a split path: one of the input, or one inserted on the dateline. */
  datatype Vertex = Original(c: Coord) | Boundary(c: Coord)

  /** The points the canvas path goes through. */
  function Coords(vs: seq<Vertex>): (cs: seq<Coord>)
    ensures |cs| == |vs|
    ensures forall i :: 0 <= i < |vs| ==> cs[i] == vs[i].c
  {
    if vs == [] then [] else Coords(vs[..|vs| - 1]) + [vs[|vs| - 1].c]
  }

  /** The input vertices of a split path, in order. */
  function Originals(vs: seq<Vertex>): seq<Coord>
  {
    if vs == [] then []
    else Originals(vs[..|vs| - 1]) + (if vs[|vs| - 1].Original? then [vs[|vs| - 1].c] else [])
  }

  /** The latitudes of the inserted dateline vertices, in order. */
  function BoundaryLats(vs: seq<Vertex>): seq<real>
  {
    if vs == [] then []
    else BoundaryLats(vs[..|vs| - 1]) + (if vs[|vs| - 1].Boundary? then [vs[|vs| - 1].c.lat] else [])
  }

  lemma {:induction false} SplitAppend(u: seq<Vertex>, w: seq<Vertex>)
    ensures Originals(u + w) == Originals(u) + Originals(w)
    ensures BoundaryLats(u + w) == BoundaryLats(u) + BoundaryLats(w)
    decreases |w|
  {
    if w != [] {
      var w' := w[..|w| - 1];
      assert (u + w)[..|u + w| - 1] == u + w';
      SplitAppend(u, w');
    } else {
      assert u + w == u;
    }
  }

  /** The western test `lon < 0` and its complement keep the input in order. */
  function Western(cs: seq<Coord>): seq<Coord>
  {
    if cs == [] then [] else Western(cs[..|cs| - 1]) + (if cs[|cs| - 1].lon < 0.0 then [cs[|cs| - 1]] else [])
  }

  function Eastern(cs: seq<Coord>): seq<Coord>
  {
    if cs == [] then [] else Eastern(cs[..|cs| - 1]) + (if cs[|cs| - 1].lon >= 0.0 then [cs[|cs| - 1]] else [])
  }

  /** The cyclic successor `ring[(i + 1) % ring.length]`. */
  function Next(ring: seq<Coord>, i: nat): Coord
    requires i < |ring|
  {
    ring[(i + 1) % |ring|]
  }

  /** Ring edge `i` (the closing edge included) gets dateline vertices. */
  predicate RingSplitsAt(ring: seq<Coord>, i: nat)
    requires i < |ring|
  {
    Crosses(ring[i], Next(ring, i)) && (GoingWest(ring[i], Next(ring, i)) || GoingEast(ring[i], Next(ring, i)))
  }

  /** What iteration `i` of the split loop adds to the western part. */
  function WestAt(ring: seq<Coord>, i: nat): seq<Vertex>
    requires i < |ring|
  {
    (if ring[i].lon < 0.0 then [Original(ring[i])] else []) +
    (if RingSplitsAt(ring, i) then [Boundary(Coord(-180.0, LatAsWritten(ring[i], Next(ring, i))))] else [])
  }

  /** What iteration `i` of the split loop adds to the eastern part. */
  function EastAt(ring: seq<Coord>, i: nat): seq<Vertex>
    requires i < |ring|
  {
    (if ring[i].lon >= 0.0 then [Original(ring[i])] else []) +
    (if RingSplitsAt(ring, i) then [Boundary(Coord(180.0, LatAsWritten(ring[i], Next(ring, i))))] else [])
  }

  function WestUpTo(ring: seq<Coord>, k: nat): seq<Vertex>
    requires k <= |ring|
  {
    if k == 0 then [] else WestUpTo(ring, k - 1) + WestAt(ring, k - 1)
  }

  function EastUpTo(ring: seq<Coord>, k: nat): seq<Vertex>
    requires k <= |ring|
  {
    if k == 0 then [] else EastUpTo(ring, k - 1) + EastAt(ring, k - 1)
  }

  /** The latitudes of the dateline crossings of the first `k` ring edges. */
  function CrossingLats(ring: seq<Coord>, k: nat): seq<real>
    requires k <= |ring|
  {
    if k == 0 then []
    else CrossingLats(ring, k - 1) + (if RingSplitsAt(ring, k - 1) then [LatAsWritten(ring[k - 1], Next(ring, k - 1))] else [])
  }

  /** The loop that distributes a crossing ring over a western and an eastern part. */
  method SplitRing(ring: seq<Coord>) returns (west: seq<Vertex>, east: seq<Vertex>)
    ensures west == WestUpTo(ring, |ring|)
    ensures east == EastUpTo(ring, |ring|)
  {
    west, east := [], [];
    var i := 0;
    while i < |ring|
      invariant 0 <= i <= |ring|
      invariant west == WestUpTo(ring, i) && east == EastUpTo(ring, i)
    {
      var current := ring[i];
      var next := ring[(i + 1) % |ring|];
      ghost var w0, e0 := west, east;
      if current.lon < 0.0 {
        west := west + [Original(current)];
      } else {
        east := east + [Original(current)];
      }
      var lonDiff := Abs(current.lon - next.lon);
      if lonDiff > 180.0 {
        var goingWest := current.lon > 0.0 && next.lon < 0.0;
        var goingEast := current.lon < 0.0 && next.lon > 0.0;
        var lat := LatAsWritten(current, next);
        if goingWest {
          east := east + [Boundary(Coord(180.0, lat))];
          west := west + [Boundary(Coord(-180.0, lat))];
        } else if goingEast {
          west := west + [Boundary(Coord(-180.0, lat))];
          east := east + [Boundary(Coord(180.0, lat))];
        }
      }
      assert west == w0 + WestAt(ring, i);
      assert east == e0 + EastAt(ring, i);
      i := i + 1;
    }
  }

  /** Removing the dateline vertices from the western part leaves the western input vertices. */
  lemma {:induction false} WestKeepsWestern(ring: seq<Coord>, k: nat)
    requires k <= |ring|
    ensures Originals(WestUpTo(ring, k)) == Western(ring[..k])
    ensures BoundaryLats(WestUpTo(ring, k)) == CrossingLats(ring, k)
  {
    if k > 0 {
      WestKeepsWestern(ring, k - 1);
      SplitAppend(WestUpTo(ring, k - 1), WestAt(ring, k - 1));
      assert ring[..k][..k - 1] == ring[..k - 1];
      var o := if ring[k - 1].lon < 0.0 then [Original(ring[k - 1])] else [];
      var b := if RingSplitsAt(ring, k - 1) then [Boundary(Coord(-180.0, LatAsWritten(ring[k - 1], Next(ring, k - 1))))] else [];
      SplitAppend(o, b);
    }
  }

  /** Removing the dateline vertices from the eastern part leaves the eastern input vertices. */
  lemma {:induction false} EastKeepsEastern(ring: seq<Coord>, k: nat)
    requires k <= |ring|
    ensures Originals(EastUpTo(ring, k)) == Eastern(ring[..k])
    ensures BoundaryLats(EastUpTo(ring, k)) == CrossingLats(ring, k)
  {
    if k > 0 {
      EastKeepsEastern(ring, k - 1);
      SplitAppend(EastUpTo(ring, k - 1), EastAt(ring, k - 1));
      assert ring[..k][..k - 1] == ring[..k - 1];
      var o := if ring[k - 1].lon >= 0.0 then [Original(ring[k - 1])] else [];
      var b := if RingSplitsAt(ring, k - 1) then [Boundary(Coord(180.0, LatAsWritten(ring[k - 1], Next(ring, k - 1))))] else [];
      SplitAppend(o, b);
    }
  }

  /** Every input vertex goes to exactly one part, and each crossing adds one vertex to each. */
  lemma {:induction false} SplitRingSizes(ring: seq<Coord>, k: nat)
    requires k <= |ring|
    ensures |WestUpTo(ring, k)| + |EastUpTo(ring, k)| == k + 2 * |CrossingLats(ring, k)|
  {
    if k > 0 {
      SplitRingSizes(ring, k - 1);
    }
  }

  /** Western and eastern input vertices together are the whole ring, as a multiset. */
  lemma {:induction false} WesternEasternPartition(cs: seq<Coord>)
    ensures multiset(Western(cs)) + multiset(Eastern(cs)) == multiset(cs)
  {
    if cs != [] {
      var init, last := cs[..|cs| - 1], cs[|cs| - 1];
      WesternEasternPartition(init);
      assert cs == init + [last];
      assert multiset(cs) == multiset(init) + multiset{last};
      if last.lon < 0.0 {
        assert Western(cs) == Western(init) + [last];
        assert Eastern(cs) == Eastern(init);
      } else {
        assert Western(cs) == Western(init);
        assert Eastern(cs) == Eastern(init) + [last];
      }
    }
  }

  /** No edge of the closed path, the closing edge included, crosses the dateline. */
  predicate ClosedSafe(cs: seq<Coord>)
  {
    forall i {:trigger Next(cs, i)} :: 0 <= i < |cs| ==> !Crosses(cs[i], Next(cs, i))
  }

  /** Points within a 180-degree band never form a crossing edge. */
  lemma BandSafe(cs: seq<Coord>, lo: real)
    requires forall i :: 0 <= i < |cs| ==> lo <= cs[i].lon <= lo + 180.0
    ensures ClosedSafe(cs)
  {
    forall i | 0 <= i < |cs|
      ensures !Crosses(cs[i], Next(cs, i))
    {
      var j := (i + 1) % |cs|;
      assert lo <= cs[j].lon <= lo + 180.0;
    }
  }

  lemma {:induction false} WestLongitudes(ring: seq<Coord>, k: nat)
    requires k <= |ring| && AllInRange(ring)
    ensures forall v :: v in WestUpTo(ring, k) ==> -180.0 <= v.c.lon < 0.0
    ensures forall v :: v in WestUpTo(ring, k) && v.Boundary? ==> v.c.lon == -180.0
  {
    if k > 0 {
      WestLongitudes(ring, k - 1);
    }
  }

  lemma {:induction false} EastLongitudes(ring: seq<Coord>, k: nat)
    requires k <= |ring| && AllInRange(ring)
    ensures forall v :: v in EastUpTo(ring, k) ==> 0.0 <= v.c.lon <= 180.0
    ensures forall v :: v in EastUpTo(ring, k) && v.Boundary? ==> v.c.lon == 180.0
  {
    if k > 0 {
      EastLongitudes(ring, k - 1);
    }
  }

  lemma PartInBand(vs: seq<Vertex>, lo: real)
    requires forall v :: v in vs ==> lo <= v.c.lon <= lo + 180.0
    ensures ClosedSafe(Coords(vs))
  {
    var cs := Coords(vs);
    forall i | 0 <= i < |cs|
      ensures lo <= cs[i].lon <= lo + 180.0
    {
      assert vs[i] in vs;
    }
    BandSafe(cs, lo);
  }

  /** On the map, neither drawn part of a split ring crosses the dateline any more. */
  lemma SplitRingSafe(ring: seq<Coord>)
    requires AllInRange(ring)
    ensures ClosedSafe(Coords(WestUpTo(ring, |ring|)))
    ensures ClosedSafe(Coords(EastUpTo(ring, |ring|)))
  {
    WestLongitudes(ring, |ring|);
    EastLongitudes(ring, |ring|);
    PartInBand(WestUpTo(ring, |ring|), -180.0);
    PartInBand(EastUpTo(ring, |ring|), 0.0);
  }
}
