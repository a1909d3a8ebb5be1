/**
 * The renderer as a whole: what `generateMap` draws (zoom, tiles, tile
 * placements, geometry shapes), what `generateWorldView` draws, and the
 * result of `generateStaticMap`.  Shapes are kept in map coordinates; the
 * canvas position of a coordinate is given by `MainPixel` / `WorldPixel`.
 */
module StaticMap {
  import opened Wrappers
  import opened Geometry
  import opened Projection
  import opened Zoom
  import opened TileGrid
  import opened Dateline
  import opened LineSplit
  import opened WorldView

  /** One drawing call on the canvas. */
  datatype Shape =
    | Marker(at: Coord)        // the filled circle of radius 8 drawn for a point
    | Area(path: seq<Coord>)   // a closed, filled and stroked path
    | Stroke(path: seq<Coord>) // an open stroked path

  /** The areas drawn for one ring: split in two if it crosses, else the ring itself. */
  function RingShapes(ring: seq<Coord>): seq<Shape>
  {
    if HasCrossing(ring) then
      var west, east := WestUpTo(ring, |ring|), EastUpTo(ring, |ring|);
      (if |west| > 0 then [Area(Coords(west))] else []) + (if |east| > 0 then [Area(Coords(east))] else [])
    else
      [Area(ring)]
  }

  lemma RingShapesCrossing(ring: seq<Coord>)
    requires HasCrossing(ring)
    ensures var west, east := WestUpTo(ring, |ring|), EastUpTo(ring, |ring|);
            RingShapes(ring) == (if |west| > 0 then [Area(Coords(west))] else []) + (if |east| > 0 then [Area(Coords(east))] else [])
  {
  }

  function PolygonShapes(rings: seq<seq<Coord>>): seq<Shape>
  {
    if rings == [] then [] else PolygonShapes(rings[..|rings| - 1]) + RingShapes(rings[|rings| - 1])
  }

  function Strokes(segs: seq<seq<Vertex>>): (ss: seq<Shape>)
    ensures |ss| == |segs|
    ensures forall i :: 0 <= i < |segs| ==> ss[i] == Stroke(Coords(segs[i]))
  {
    if segs == [] then [] else Strokes(segs[..|segs| - 1]) + [Stroke(Coords(segs[|segs| - 1]))]
  }

  /** The strokes drawn for a line: its segments if it crosses, else the line itself. */
  function LineShapes(cs: seq<Coord>): seq<Shape>
  {
    if HasCrossing(cs) then Strokes(LineSegments(cs)) else [Stroke(cs)]
  }

  /** Everything drawn for the geometry, in drawing order. */
  function Shapes(g: Geometry): seq<Shape>
  {
    match g
    case Point(at) => [Marker(at)]
    case LineString(coords) => LineShapes(coords)
    case Polygon(rings) => PolygonShapes(rings)
  }

  /** One ring of a polygon: the crossing scan, then the split or the ring as it is. */
  method DrawRing(ring: seq<Coord>) returns (drawn: seq<Shape>)
    ensures drawn == RingShapes(ring)
  {
    var crosses := CrossesDateline(ring);
    if crosses {
      var west, east := SplitRing(ring);
      var westArea: seq<Shape> := if |west| > 0 then [Area(Coords(west))] else [];
      var eastArea: seq<Shape> := if |east| > 0 then [Area(Coords(east))] else [];
      RingShapesCrossing(ring);
      drawn := westArea + eastArea;
    } else {
      drawn := [Area(ring)];
    }
  }

  method DrawPolygon(rings: seq<seq<Coord>>) returns (shapes: seq<Shape>)
    ensures shapes == PolygonShapes(rings)
  {
    shapes := [];
    var k := 0;
    while k < |rings|
      invariant 0 <= k <= |rings|
      invariant shapes == PolygonShapes(rings[..k])
    {
      var drawn := DrawRing(rings[k]);
      assert rings[..k + 1][..k] == rings[..k];
      shapes := shapes + drawn;
      k := k + 1;
    }
    assert rings[..|rings|] == rings;
  }

  method DrawLine(coords: seq<Coord>) returns (shapes: seq<Shape>)
    ensures shapes == LineShapes(coords)
  {
    var crosses := CrossesDateline(coords);
    if crosses {
      var segments := SplitLine(coords);
      shapes := [];
      var j := 0;
      while j < |segments|
        invariant 0 <= j <= |segments|
        invariant shapes == Strokes(segments[..j])
      {
        assert segments[..j + 1][..j] == segments[..j];
        shapes := shapes + [Stroke(Coords(segments[j]))];
        j := j + 1;
      }
      assert segments[..|segments|] == segments;
    } else {
      shapes := [Stroke(coords)];
    }
  }

  /** The drawing branch of `generateMap` and `generateWorldView`. */
  method DrawGeometry(g: Geometry) returns (shapes: seq<Shape>)
    ensures shapes == Shapes(g)
  {
    match g {
      case Point(at) =>
        shapes := [Marker(at)];
      case LineString(coords) =>
        shapes := DrawLine(coords);
      case Polygon(rings) =>
        shapes := DrawPolygon(rings);
    }
  }

  /** The path of a shape has no consecutive pair across the dateline. */
  predicate ShapeSafe(s: Shape)
  {
    s.Marker? || !HasCrossing(s.path)
  }

  lemma PathSafeCoords(vs: seq<Vertex>)
    requires PathSafe(vs)
    ensures !HasCrossing(Coords(vs))
  {
  }

  lemma ClosedSafeOpen(cs: seq<Coord>)
    requires ClosedSafe(cs)
    ensures !HasCrossing(cs)
  {
    forall i | 0 <= i < |cs| - 1
      ensures !Crosses(cs[i], cs[i + 1])
    {
      assert (i + 1) % |cs| == i + 1;
      assert Next(cs, i) == cs[i + 1];
    }
  }

  lemma RingShapesSafe(ring: seq<Coord>)
    requires AllInRange(ring)
    ensures forall s :: s in RingShapes(ring) ==> ShapeSafe(s)
  {
    if HasCrossing(ring) {
      SplitRingSafe(ring);
      ClosedSafeOpen(Coords(WestUpTo(ring, |ring|)));
      ClosedSafeOpen(Coords(EastUpTo(ring, |ring|)));
    }
  }

  lemma {:induction false} PolygonShapesSafe(rings: seq<seq<Coord>>)
    requires forall k :: 0 <= k < |rings| ==> AllInRange(rings[k])
    ensures forall s :: s in PolygonShapes(rings) ==> ShapeSafe(s)
  {
    if rings != [] {
      PolygonShapesSafe(rings[..|rings| - 1]);
      RingShapesSafe(rings[|rings| - 1]);
    }
  }

  lemma LineShapesSafe(cs: seq<Coord>)
    requires AllInRange(cs)
    ensures forall s :: s in LineShapes(cs) ==> ShapeSafe(s)
  {
    if HasCrossing(cs) {
      var segs := LineSegments(cs);
      LineSegmentsSafe(cs);
      forall s | s in Strokes(segs)
        ensures ShapeSafe(s)
      {
        var i :| 0 <= i < |segs| && Strokes(segs)[i] == s;
        PathSafeCoords(segs[i]);
      }
    }
  }

  /** With every longitude on the map, no drawn path jumps across the dateline. */
  lemma ShapesSafe(g: Geometry)
    requires AllInRange(Vertices(g))
    ensures forall s :: s in Shapes(g) ==> ShapeSafe(s)
  {
    match g {
      case Point(_) =>
      case LineString(coords) =>
        LineShapesSafe(coords);
      case Polygon(rings) =>
        forall k | 0 <= k < |rings|
          ensures AllInRange(rings[k])
        {
          forall i | 0 <= i < |rings[k]|
            ensures InRange(rings[k][i])
          {
            assert rings[k][i] in rings[k];
            assert rings[k][i] in Vertices(g);
          }
        }
        PolygonShapesSafe(rings);
    }
  }

  lemma {:induction false} PartsNonEmpty(ring: seq<Coord>, k: nat, i: nat)
    requires i < k <= |ring| && RingSplitsAt(ring, i)
    ensures |WestUpTo(ring, k)| > 0 && |EastUpTo(ring, k)| > 0
  {
    if i < k - 1 {
      PartsNonEmpty(ring, k - 1, i);
    }
  }

  /** On the map, a crossing ring is always drawn as exactly two areas. */
  lemma CrossingRingTwoAreas(ring: seq<Coord>)
    requires AllInRange(ring) && HasCrossing(ring)
    ensures |RingShapes(ring)| == 2
  {
    var i :| 0 <= i < |ring| - 1 && Crosses(ring[i], ring[i + 1]);
    assert (i + 1) % |ring| == i + 1;
    assert Next(ring, i) == ring[i + 1];
    CrossingIsDirected(ring[i], ring[i + 1]);
    PartsNonEmpty(ring, |ring|, i);
  }

  /** A line is drawn as one stroke per crossing plus one. */
  lemma LineStrokeCount(cs: seq<Coord>)
    requires |cs| > 0
    ensures |LineShapes(cs)| == LineCrossings(cs, |cs|) + 1
  {
    if HasCrossing(cs) {
      LineSegmentCount(cs);
    } else {
      NoCrossingCount(cs, |cs|);
    }
  }

  lemma {:induction false} NoCrossingCount(cs: seq<Coord>, k: nat)
    requires k <= |cs| && !HasCrossing(cs)
    ensures LineCrossings(cs, k) == 0
  {
    if k > 0 {
      NoCrossingCount(cs, k - 1);
      assert !LineSplitsAt(cs, k - 1) by {
        if k < |cs| {
          assert !Crosses(cs[k - 1], cs[k]);
        }
      }
    }
  }

  /** A canvas position. */
  datatype Pixel = Pixel(x: real, y: real)

  /** A fetched tile and the canvas position of its top-left corner. */
  datatype Placed = Placed(tile: Tile, dx: real, dy: real)

  /** What `generateMap` draws. */
  datatype MainMap = MainMap(
    zoom: nat,
    center: Coord,
    centerPixel: Pixel,
    tiles: seq<Tile>,
    placed: seq<Placed>,
    shapes: seq<Shape>)

  /** A polygon none of whose rings crosses is drawn ring by ring, each as one area of exactly its vertices. */
  lemma {:induction false} UncrossedPolygon(rings: seq<seq<Coord>>)
    requires forall k :: 0 <= k < |rings| ==> !HasCrossing(rings[k])
    ensures |PolygonShapes(rings)| == |rings|
    ensures forall k :: 0 <= k < |rings| ==> PolygonShapes(rings)[k] == Area(rings[k])
  {
    if rings != [] {
      UncrossedPolygon(rings[..|rings| - 1]);
    }
  }

  /** A line that does not cross is drawn as one stroke of exactly its vertices, and so is its split. */
  lemma UncrossedLine(cs: seq<Coord>)
    requires |cs| > 0 && !HasCrossing(cs)
    ensures LineShapes(cs) == [Stroke(cs)]
    ensures Strokes(LineSegments(cs)) == [Stroke(cs)]
  {
    NoCrossingOneSegment(cs);
  }

  /** `x * tileSize - centerPixelX + width / 2`, and the same for y. */
  function PlaceTile(t: Tile, center: Pixel, width: nat, height: nat, tileSize: nat): Placed
  {
    Placed(t, Offset(TileOrigin(t.x, tileSize), center.x, width), Offset(TileOrigin(t.y, tileSize), center.y, height))
  }

  /** The `forEach` over fetched tiles: failed fetches draw nothing. */
  function PlaceTiles(ts: seq<Tile>, fetched: Tile -> bool, center: Pixel, width: nat, height: nat, tileSize: nat): seq<Placed>
  {
    if ts == [] then []
    else
      var last := ts[|ts| - 1];
      PlaceTiles(ts[..|ts| - 1], fetched, center, width, height, tileSize) +
      (if fetched(last) then [PlaceTile(last, center, width, height, tileSize)] else [])
  }

  function MainMapOf(g: Geometry, width: Dim, height: Dim, zoom: nat, tileSize: nat,
                     merc: real -> real, fetched: Tile -> bool): MainMap
    requires WellFormed(g) && tileSize > 0
  {
    WellFormedHasVertices(g);
    MainMapAt(g, MapZoom(g, zoom, width, height), Center(Bounds(Vertices(g))), width, height, tileSize, merc, fetched)
  }

  /** The main map once its zoom and centre are known. */
  function MainMapAt(g: Geometry, z: nat, center: Coord, width: nat, height: nat, tileSize: nat,
                     merc: real -> real, fetched: Tile -> bool): MainMap
    requires tileSize > 0
  {
    var tiles := RequestedTiles(z, center, width, height, tileSize, merc);
    var cp := CenterPixel(z, center, tileSize, merc);
    MainMap(z, center, cp, tiles, PlaceTiles(tiles, fetched, cp, width, height, tileSize), Shapes(g))
  }

  /** The square of tiles around the centre tile, as far out as half the canvas reaches. */
  function RequestedTiles(z: nat, center: Coord, width: nat, height: nat, tileSize: nat, merc: real -> real): seq<Tile>
    requires tileSize > 0
  {
    var cx, cy := Lon2Tile(center.lon, z), Lat2Tile(merc, center.lat, z);
    var hw, hh := HalfTiles(width, tileSize), HalfTiles(height, tileSize);
    Grid(z, cx - hw, cx + hw, cy - hh, cy + hh)
  }

  /** The global pixel of the centre, which the canvas middle is aligned with. */
  function CenterPixel(z: nat, center: Coord, tileSize: nat, merc: real -> real): Pixel
  {
    Pixel(Lon2Pixel(center.lon, z, tileSize), Lat2Pixel(merc, center.lat, z, tileSize))
  }

  /** `project`: the canvas position of a coordinate on the main map. */
  function MainPixel(m: MainMap, merc: real -> real, width: nat, height: nat, tileSize: nat, c: Coord): Pixel
  {
    Pixel(Offset(Lon2Pixel(c.lon, m.zoom, tileSize), m.centerPixel.x, width),
          Offset(Lat2Pixel(merc, c.lat, m.zoom, tileSize), m.centerPixel.y, height))
  }

  /** The zoom reassignment at the start of `generateMap`. */
  method ChooseZoom(g: Geometry, zoom: nat, width: Dim, height: Dim) returns (z: nat)
    requires WellFormed(g)
    ensures z == MapZoom(g, zoom, width, height)
  {
    z := zoom;
    if g.Polygon? || g.LineString? {
      WellFormedHasVertices(g);
      BoundsProper(Vertices(g));
      z := FitZoom(width, height, Bounds(Vertices(g)));
    }
  }

  /** The `forEach` that draws each fetched tile at its offset. */
  method PlaceFetched(tiles: seq<Tile>, fetched: Tile -> bool, cp: Pixel, width: nat, height: nat, tileSize: nat)
    returns (placed: seq<Placed>)
    ensures placed == PlaceTiles(tiles, fetched, cp, width, height, tileSize)
  {
    placed := [];
    var i := 0;
    while i < |tiles|
      invariant 0 <= i <= |tiles|
      invariant placed == PlaceTiles(tiles[..i], fetched, cp, width, height, tileSize)
    {
      assert tiles[..i + 1][..i] == tiles[..i];
      if fetched(tiles[i]) {
        placed := placed + [PlaceTile(tiles[i], cp, width, height, tileSize)];
      }
      i := i + 1;
    }
    assert tiles[..|tiles|] == tiles;
  }

  /**
   * `generateMap` after parsing: the zoom is replaced for lines and polygons,
   * then the map is rendered around the centre of the bounding box.
   */
  method GenerateMap(g: Geometry, width: Dim, height: Dim, zoom: nat, tileSize: nat,
                     merc: real -> real, fetched: Tile -> bool) returns (m: MainMap)
    requires WellFormed(g) && tileSize > 0
    ensures m == MainMapOf(g, width, height, zoom, tileSize, merc, fetched)
  {
    var z := ChooseZoom(g, zoom, width, height);
    WellFormedHasVertices(g);
    var center := Center(Bounds(Vertices(g)));
    m := RenderAt(g, z, center, width, height, tileSize, merc, fetched);
  }

  /** The tile square around the centre is requested, fetched tiles are placed and the geometry drawn. */
  method RenderAt(g: Geometry, z: nat, center: Coord, width: nat, height: nat, tileSize: nat,
                  merc: real -> real, fetched: Tile -> bool) returns (m: MainMap)
    requires tileSize > 0
    ensures m == MainMapAt(g, z, center, width, height, tileSize, merc, fetched)
  {
    var centerTileX := Lon2Tile(center.lon, z);
    var centerTileY := Lat2Tile(merc, center.lat, z);
    var halfWidthInTiles := HalfTiles(width, tileSize);
    var halfHeightInTiles := HalfTiles(height, tileSize);
    var tiles := RequestTiles(z, centerTileX - halfWidthInTiles, centerTileX + halfWidthInTiles,
                              centerTileY - halfHeightInTiles, centerTileY + halfHeightInTiles);
    assert tiles == RequestedTiles(z, center, width, height, tileSize, merc);
    var cp := Pixel(Lon2Pixel(center.lon, z, tileSize), Lat2Pixel(merc, center.lat, z, tileSize));
    assert cp == CenterPixel(z, center, tileSize, merc);
    var placed := PlaceFetched(tiles, fetched, cp, width, height, tileSize);
    var shapes := DrawGeometry(g);
    m := MainMap(z, center, cp, tiles, placed, shapes);
  }

  /** Exactly the fetched requested tiles are placed, in request order. */
  lemma {:induction false} PlaceTilesFilter(ts: seq<Tile>, fetched: Tile -> bool, center: Pixel, width: nat, height: nat, tileSize: nat)
    ensures forall p :: p in PlaceTiles(ts, fetched, center, width, height, tileSize) <==>
              p.tile in ts && fetched(p.tile) && p == PlaceTile(p.tile, center, width, height, tileSize)
  {
    if ts != [] {
      PlaceTilesFilter(ts[..|ts| - 1], fetched, center, width, height, tileSize);
      assert ts == ts[..|ts| - 1] + [ts[|ts| - 1]];
    }
  }

  /** The centre of the bounding box is drawn in the middle of the canvas. */
  lemma CenterDrawnAtMiddle(g: Geometry, width: Dim, height: Dim, zoom: nat, tileSize: nat,
                            merc: real -> real, fetched: Tile -> bool)
    requires WellFormed(g) && tileSize > 0
    ensures var m := MainMapOf(g, width, height, zoom, tileSize, merc, fetched);
            MainPixel(m, merc, width, height, tileSize, m.center) == Pixel(width as real / 2.0, height as real / 2.0)
  {
  }

  /** A point is drawn at the middle of the canvas at the caller's zoom. */
  lemma PointAtMiddle(at: Coord, width: Dim, height: Dim, zoom: nat, tileSize: nat,
                      merc: real -> real, fetched: Tile -> bool)
    requires tileSize > 0
    ensures var m := MainMapOf(Point(at), width, height, zoom, tileSize, merc, fetched);
            m.zoom == zoom && m.shapes == [Marker(at)] &&
            MainPixel(m, merc, width, height, tileSize, at) == Pixel(width as real / 2.0, height as real / 2.0)
  {
    var m := MainMapOf(Point(at), width, height, zoom, tileSize, merc, fetched);
    assert Bounds([at]) == Box(at.lon, at.lon, at.lat, at.lat);
    assert m.center == at;
  }

  /**
   * A placed tile is drawn over every coordinate that lies in it: the
   * projected coordinate falls in the `tileSize` square at `(dx, dy)`.
   */
  lemma PlacedTileUnderItsCoords(m: MainMap, merc: real -> real, width: nat, height: nat, tileSize: nat, p: Placed, c: Coord)
    requires tileSize > 0
    requires p == PlaceTile(p.tile, m.centerPixel, width, height, tileSize)
    requires p.tile == Tile(Lon2Tile(c.lon, m.zoom), Lat2Tile(merc, c.lat, m.zoom))
    ensures var q := MainPixel(m, merc, width, height, tileSize, c);
            p.dx <= q.x < p.dx + tileSize as real && p.dy <= q.y < p.dy + tileSize as real
  {
    ProjectedInsideTile(LonFraction(c.lon), m.centerPixel.x, m.zoom, tileSize, width);
    ProjectedInsideTile(merc(c.lat), m.centerPixel.y, m.zoom, tileSize, height);
  }

  /**
   * The requested square spans the canvas: its first column and row start at
   * or before the canvas edge and its last end at or after the opposite edge.
   */
  lemma TilesSpanCanvas(g: Geometry, z: nat, center: Coord, width: nat, height: nat, tileSize: nat,
                        merc: real -> real, fetched: Tile -> bool)
    requires tileSize > 0
    ensures var m := MainMapAt(g, z, center, width, height, tileSize, merc, fetched);
            var cx, cy := Lon2Tile(center.lon, z), Lat2Tile(merc, center.lat, z);
            var hw, hh := HalfTiles(width, tileSize), HalfTiles(height, tileSize);
            Offset(TileOrigin(cx - hw, tileSize), m.centerPixel.x, width) <= 0.0 &&
            Offset(TileOrigin(cx + hw, tileSize), m.centerPixel.x, width) + tileSize as real >= width as real &&
            Offset(TileOrigin(cy - hh, tileSize), m.centerPixel.y, height) <= 0.0 &&
            Offset(TileOrigin(cy + hh, tileSize), m.centerPixel.y, height) + tileSize as real >= height as real
  {
    MainCenterPixel(g, z, center, width, height, tileSize, merc, fetched);
    TilesCoverCanvas(LonFraction(center.lon), z, tileSize, width);
    TilesCoverCanvas(merc(center.lat), z, tileSize, height);
  }

  /** Above zoom 0 the tile holding the centre is among the requested tiles. */
  lemma CenterTileRequested(z: nat, center: Coord, width: nat, height: nat, tileSize: nat, merc: real -> real)
    requires tileSize > 0 && z != 0
    ensures Tile(Lon2Tile(center.lon, z), Lat2Tile(merc, center.lat, z)) in
            RequestedTiles(z, center, width, height, tileSize, merc)
  {
    var cx, cy := Lon2Tile(center.lon, z), Lat2Tile(merc, center.lat, z);
    var hw, hh := HalfTiles(width, tileSize), HalfTiles(height, tileSize);
    assert RequestedTiles(z, center, width, height, tileSize, merc) == Grid(z, cx - hw, cx + hw, cy - hh, cy + hh);
    CenterInGrid(z, cx, cy, hw, hh);
  }

  lemma MainCenterPixel(g: Geometry, z: nat, center: Coord, width: nat, height: nat, tileSize: nat,
                        merc: real -> real, fetched: Tile -> bool)
    requires tileSize > 0
    ensures MainMapAt(g, z, center, width, height, tileSize, merc, fetched).centerPixel ==
            Pixel(Lon2Pixel(center.lon, z, tileSize), Lat2Pixel(merc, center.lat, z, tileSize))
  {
  }

  lemma MainTiles(g: Geometry, z: nat, center: Coord, width: nat, height: nat, tileSize: nat,
                  merc: real -> real, fetched: Tile -> bool)
    requires tileSize > 0
    ensures var cx, cy := Lon2Tile(center.lon, z), Lat2Tile(merc, center.lat, z);
            var hw, hh := HalfTiles(width, tileSize), HalfTiles(height, tileSize);
            MainMapAt(g, z, center, width, height, tileSize, merc, fetched).tiles == Grid(z, cx - hw, cx + hw, cy - hh, cy + hh)
  {
  }

  /** At zoom 0 a centre on the map lies in the world tile. */
  lemma ZoomZeroCenterTile(center: Coord, merc: real -> real)
    requires -180.0 <= center.lon < 180.0 && 0.0 <= merc(center.lat) < 1.0
    ensures Lon2Tile(center.lon, 0) == 0 && Lat2Tile(merc, center.lat, 0) == 0
  {
    Lon2TileInGrid(center.lon, 0);
    TileAtZoomZero(merc(center.lat));
  }

  /** At zoom 0 a centre on the map requests exactly the single world tile. */
  lemma ZoomZeroWorldTile(g: Geometry, center: Coord, width: nat, height: nat, tileSize: nat,
                          merc: real -> real, fetched: Tile -> bool)
    requires tileSize > 0
    requires -180.0 <= center.lon < 180.0 && 0.0 <= merc(center.lat) < 1.0
    ensures MainMapAt(g, 0, center, width, height, tileSize, merc, fetched).tiles == [Tile(0, 0)]
  {
    ZoomZeroRequested(center, width, height, tileSize, merc);
    assert MainMapAt(g, 0, center, width, height, tileSize, merc, fetched).tiles ==
           RequestedTiles(0, center, width, height, tileSize, merc);
  }

  lemma ZoomZeroRequested(center: Coord, width: nat, height: nat, tileSize: nat, merc: real -> real)
    requires tileSize > 0
    requires -180.0 <= center.lon < 180.0 && 0.0 <= merc(center.lat) < 1.0
    ensures RequestedTiles(0, center, width, height, tileSize, merc) == [Tile(0, 0)]
  {
    ZoomZeroCenterTile(center, merc);
    var hw, hh := HalfTiles(width, tileSize), HalfTiles(height, tileSize);
    assert RequestedTiles(0, center, width, height, tileSize, merc) == Grid(0, 0 - hw, 0 + hw, 0 - hh, 0 + hh);
    ZoomZeroAround(hw, hh);
  }

  /** The zoom-0 grid around tile (0, 0) is that tile alone. */
  lemma ZoomZeroAround(hw: int, hh: int)
    requires hw >= 0 && hh >= 0
    ensures Grid(0, 0 - hw, 0 + hw, 0 - hh, 0 + hh) == [Tile(0, 0)]
  {
    ZoomZeroGrid(0 - hw, 0 + hw, 0 - hh, 0 + hh);
  }

  /** The fetch of the single world tile: its pixel size, or a failure. */
  datatype TileImage = TileImage(width: nat, height: nat)

  /** What `generateWorldView` draws. */
  datatype WorldMap =
    | WorldFailed                         // the "Error loading world map" message
    | WorldDrawn(fit: Fit, shapes: seq<Shape>)

  function WorldMapOf(g: Geometry, width: nat, height: nat, image: Option<TileImage>): WorldMap
    requires image.Some? ==> image.value.width > 0 && image.value.height > 0
  {
    match image
    case None => WorldFailed
    case Some(img) => WorldDrawn(FitWorld(width, height, img.width, img.height), Shapes(g))
  }

  /** `project` of the world view. */
  function WorldPixel(f: Fit, merc: real -> real, c: Coord): Pixel
  {
    Pixel(WorldX(f, c.lon), WorldY(merc, f, c.lat))
  }

  /** The result of `generateStaticMap`: both images, or the main one alone. */
  datatype StaticMap =
    | WithWorld(main: MainMap, world: WorldMap)
    | MainOnly(main: MainMap)

  function GenerateStaticMap(g: Geometry, width: Dim, height: Dim, zoom: nat, tileSize: nat, withWorld: bool,
                             merc: real -> real, fetched: Tile -> bool, worldTile: Option<TileImage>): (r: StaticMap)
    requires WellFormed(g) && tileSize > 0
    requires worldTile.Some? ==> worldTile.value.width > 0 && worldTile.value.height > 0
    ensures r.WithWorld? <==> withWorld
    ensures r.main.zoom == MapZoom(g, zoom, width, height)
  {
    var main := MainMapOf(g, width, height, zoom, tileSize, merc, fetched);
    if withWorld then WithWorld(main, WorldMapOf(g, width, height, worldTile)) else MainOnly(main)
  }

  /** Both images show the same geometry: the world view draws the main map's shapes. */
  lemma BothViewsSameShapes(g: Geometry, width: Dim, height: Dim, zoom: nat, tileSize: nat,
                            merc: real -> real, fetched: Tile -> bool, worldTile: Option<TileImage>)
    requires WellFormed(g) && tileSize > 0
    requires worldTile.Some? ==> worldTile.value.width > 0 && worldTile.value.height > 0
    ensures var r := GenerateStaticMap(g, width, height, zoom, tileSize, true, merc, fetched, worldTile);
            r.WithWorld? && (r.world.WorldDrawn? <==> worldTile.Some?) &&
            (r.world.WorldDrawn? ==> r.world.shapes == r.main.shapes)
  {
  }
}
