/**
 * The tiles `generateMap` requests and where it draws them: a square of
 * tiles around the centre tile, column by column, and each tile placed so
 * that the centre pixel lands in the middle of the canvas.
 */
module TileGrid {
  import opened Projection

  datatype Tile = Tile(x: int, y: int)

  /** At zoom 0 only the single world tile (0, 0) is requested. */
  predicate Requested(zoom: nat, x: int, y: int)
  {
    zoom != 0 || (x == 0 && y == 0)
  }

  /** The requested tiles of column `x`, rows `y0` to `y1` inclusive, in order. */
  function Column(zoom: nat, x: int, y0: int, y1: int): seq<Tile>
    decreases y1 - y0
  {
    if y1 < y0 then []
    else Column(zoom, x, y0, y1 - 1) + (if Requested(zoom, x, y1) then [Tile(x, y1)] else [])
  }

  /** The requested tiles of columns `x0` to `x1`, each column top to bottom. */
  function Grid(zoom: nat, x0: int, x1: int, y0: int, y1: int): seq<Tile>
    decreases x1 - x0
  {
    if x1 < x0 then []
    else Grid(zoom, x0, x1 - 1, y0, y1) + Column(zoom, x1, y0, y1)
  }

  predicate InRect(t: Tile, x0: int, x1: int, y0: int, y1: int)
  {
    x0 <= t.x <= x1 && y0 <= t.y <= y1
  }

  /** Column-major order: by column, then by row. */
  predicate Before(a: Tile, b: Tile)
  {
    a.x < b.x || (a.x == b.x && a.y < b.y)
  }

  predicate StrictlyOrdered(ts: seq<Tile>)
  {
    forall i, j :: 0 <= i < j < |ts| ==> Before(ts[i], ts[j])
  }

  /** The two nested `for` loops with the zoom-0 `continue`. */
  method RequestTiles(zoom: nat, x0: int, x1: int, y0: int, y1: int) returns (tiles: seq<Tile>)
    ensures tiles == Grid(zoom, x0, x1, y0, y1)
  {
    tiles := [];
    var x := x0;
    while x <= x1
      invariant x0 <= x && (x <= x1 + 1 || x == x0)
      invariant tiles == Grid(zoom, x0, x - 1, y0, y1)
      decreases x1 - x
    {
      var column: seq<Tile> := [];
      var y := y0;
      while y <= y1
        invariant y0 <= y && (y <= y1 + 1 || y == y0)
        invariant column == Column(zoom, x, y0, y - 1)
        decreases y1 - y
      {
        if zoom == 0 && (x < 0 || x > 0 || y < 0 || y > 0) {
          y := y + 1;
          continue;
        }
        column := column + [Tile(x, y)];
        y := y + 1;
      }
      tiles := tiles + column;
      x := x + 1;
    }
  }

  lemma {:induction false} ColumnMember(zoom: nat, x: int, y0: int, y1: int, t: Tile)
    ensures t in Column(zoom, x, y0, y1) <==> InRect(t, x, x, y0, y1) && Requested(zoom, t.x, t.y)
    decreases y1 - y0
  {
    if y1 >= y0 {
      ColumnMember(zoom, x, y0, y1 - 1, t);
    }
  }

  /** A tile is requested exactly when it lies in the rectangle and passes the zoom-0 filter. */
  lemma {:induction false} GridMember(zoom: nat, x0: int, x1: int, y0: int, y1: int, t: Tile)
    ensures t in Grid(zoom, x0, x1, y0, y1) <==> InRect(t, x0, x1, y0, y1) && Requested(zoom, t.x, t.y)
    decreases x1 - x0
  {
    if x1 >= x0 {
      GridMember(zoom, x0, x1 - 1, y0, y1, t);
      ColumnMember(zoom, x1, y0, y1, t);
    }
  }

  /** Above zoom 0 the square around a tile holds that tile. */
  lemma CenterInGrid(zoom: nat, cx: int, cy: int, hw: int, hh: int)
    requires zoom != 0 && hw >= 0 && hh >= 0
    ensures Tile(cx, cy) in Grid(zoom, cx - hw, cx + hw, cy - hh, cy + hh)
  {
    GridMember(zoom, cx - hw, cx + hw, cy - hh, cy + hh, Tile(cx, cy));
  }

  lemma {:induction false} ColumnOrdered(zoom: nat, x: int, y0: int, y1: int)
    ensures StrictlyOrdered(Column(zoom, x, y0, y1))
    ensures forall t :: t in Column(zoom, x, y0, y1) ==> t.x == x && y0 <= t.y <= y1
    decreases y1 - y0
  {
    if y1 >= y0 {
      ColumnOrdered(zoom, x, y0, y1 - 1);
    }
  }

  /** The request order is column-major and so has no tile twice. */
  lemma {:induction false} GridOrdered(zoom: nat, x0: int, x1: int, y0: int, y1: int)
    ensures StrictlyOrdered(Grid(zoom, x0, x1, y0, y1))
    decreases x1 - x0
  {
    if x1 >= x0 {
      var g := Grid(zoom, x0, x1 - 1, y0, y1);
      var c := Column(zoom, x1, y0, y1);
      GridOrdered(zoom, x0, x1 - 1, y0, y1);
      ColumnOrdered(zoom, x1, y0, y1);
      forall t | t in g
        ensures t.x < x1
      {
        GridMember(zoom, x0, x1 - 1, y0, y1, t);
      }
      assert forall i :: 0 <= i < |g| ==> g[i] in g;
      assert forall j :: 0 <= j < |c| ==> c[j] in c;
    }
  }

  lemma {:induction false} ColumnLength(zoom: nat, x: int, y0: int, y1: int)
    requires zoom != 0 && y0 <= y1 + 1
    ensures |Column(zoom, x, y0, y1)| == y1 - y0 + 1
    decreases y1 - y0
  {
    if y1 >= y0 {
      ColumnLength(zoom, x, y0, y1 - 1);
    }
  }

  /** Above zoom 0 nothing is filtered: the whole rectangle is requested. */
  lemma {:induction false} GridLength(zoom: nat, x0: int, x1: int, y0: int, y1: int)
    requires zoom != 0 && x0 <= x1 + 1 && y0 <= y1 + 1
    ensures |Grid(zoom, x0, x1, y0, y1)| == (x1 - x0 + 1) * (y1 - y0 + 1)
    decreases x1 - x0
  {
    if x1 >= x0 {
      GridLength(zoom, x0, x1 - 1, y0, y1);
      ColumnLength(zoom, x1, y0, y1);
      assert (x1 - x0 + 1) * (y1 - y0 + 1) == (x1 - 1 - x0 + 1) * (y1 - y0 + 1) + (y1 - y0 + 1);
    }
  }

  lemma FirstTwoOrdered(ts: seq<Tile>)
    requires StrictlyOrdered(ts) && |ts| > 1
    ensures Before(ts[0], ts[1])
  {
  }

  /** At zoom 0 at most the world tile is requested, and it is when the rectangle holds it. */
  lemma ZoomZeroGrid(x0: int, x1: int, y0: int, y1: int)
    ensures Grid(0, x0, x1, y0, y1) == if InRect(Tile(0, 0), x0, x1, y0, y1) then [Tile(0, 0)] else []
  {
    var g := Grid(0, x0, x1, y0, y1);
    GridOrdered(0, x0, x1, y0, y1);
    forall i | 0 <= i < |g|
      ensures g[i] == Tile(0, 0)
    {
      GridMember(0, x0, x1, y0, y1, g[i]);
    }
    if |g| > 1 {
      FirstTwoOrdered(g);
      assert false;
    }
    GridMember(0, x0, x1, y0, y1, Tile(0, 0));
    if |g| == 1 {
      assert g == [Tile(0, 0)] && Tile(0, 0) in g;
    } else {
      assert g == [];
    }
  }

  /** `Math.ceil((size / 2) / tileSize)`: tiles needed on each side of the centre tile. */
  function HalfTiles(size: nat, tileSize: nat): (h: int)
    requires tileSize > 0
    ensures h >= 0
    ensures TileOrigin(h, tileSize) >= size as real / 2.0
    ensures h == 0 || TileOrigin(h - 1, tileSize) < size as real / 2.0
  {
    var q := (size as real / 2.0) / tileSize as real;
    var h := Ceil(q);
    TimesMonotone(q, h as real, tileSize);
    TimesIsProduct(q, tileSize);
    if h > 0 then TimesStrict((h - 1) as real, q, tileSize); h else h
  }

  /**
   * The canvas coordinate at which the tile starting at global pixel `origin`
   * is drawn, `origin - centerPixel + size / 2`; the same shift projects a
   * geometry vertex.
   */
  function Offset(origin: real, center: real, size: nat): real
  {
    origin - center + size as real / 2.0
  }

  /** The tile holding a map fraction is drawn over the pixel that fraction projects to. */
  lemma ProjectedInsideTile(g: real, center: real, zoom: nat, tileSize: nat, size: nat)
    requires tileSize > 0
    ensures Offset(TileOrigin(TileOf(g, zoom), tileSize), center, size) <= Offset(PixelOf(g, zoom, tileSize), center, size)
    ensures Offset(PixelOf(g, zoom, tileSize), center, size) < Offset(TileOrigin(TileOf(g, zoom), tileSize), center, size) + tileSize as real
  {
    PixelInsideTile(g, zoom, tileSize);
  }

  /** The centre of the geometry projects to the centre of the canvas. */
  lemma CenterAtMiddle(center: real, size: nat)
    ensures Offset(center, center, size) == size as real / 2.0
  {
  }

  lemma TileOriginShift(k: int, h: int, tileSize: nat)
    ensures TileOrigin(k + h, tileSize) == TileOrigin(k, tileSize) + TileOrigin(h, tileSize)
  {
    TimesAdd(k as real, h as real, tileSize);
  }

  /**
   * The requested square covers the canvas along one axis: the first tile
   * starts at or before 0 and the last ends at or after `size`.
   */
  lemma TilesCoverCanvas(f: real, zoom: nat, tileSize: nat, size: nat)
    requires tileSize > 0
    ensures var c := TileOf(f, zoom);
            var h := HalfTiles(size, tileSize);
            var center := PixelOf(f, zoom, tileSize);
            Offset(TileOrigin(c - h, tileSize), center, size) <= 0.0 &&
            Offset(TileOrigin(c + h, tileSize), center, size) + tileSize as real >= size as real
  {
    var c := TileOf(f, zoom);
    var h := HalfTiles(size, tileSize);
    PixelInsideTile(f, zoom, tileSize);
    TileOriginShift(c - h, h, tileSize);
    TileOriginShift(c, h, tileSize);
  }
}
