/**
 * The slippy-map (Web-Mercator) projection: longitude and latitude to tile
 * index and to global pixel at a zoom level. The latitude term
 * `(1 - ln(tan(phi) + sec(phi)) / pi) / 2` is transcendental; it is passed in as
 * the function `merc`, the fraction of the map height at which a latitude lies.
 */
module Projection {

  function Pow2(n: nat): (r: nat)
    ensures r >= 1
  {
    if n == 0 then 1 else 2 * Pow2(n - 1)
  }

  lemma {:induction false} Pow2Monotone(m: nat, n: nat)
    requires m <= n
    ensures Pow2(m) <= Pow2(n)
  {
    if m < n {
      Pow2Monotone(m, n - 1);
    }
  }

  /**
   * `x * n` for a natural multiplier (a tile count or a tile size), written as
   * repeated addition so that every fact about it is linear.
   */
  function Times(x: real, n: nat): real
  {
    if n == 0 then 0.0 else Times(x, n - 1) + x
  }

  lemma {:induction false} TimesIsProduct(x: real, n: nat)
    ensures Times(x, n) == x * n as real
  {
    if n > 0 {
      TimesIsProduct(x, n - 1);
      assert x * n as real == x * (n - 1) as real + x;
    }
  }

  lemma {:induction false} TimesMonotone(x: real, y: real, n: nat)
    requires x <= y
    ensures Times(x, n) <= Times(y, n)
  {
    if n > 0 {
      TimesMonotone(x, y, n - 1);
    }
  }

  lemma {:induction false} TimesStrict(x: real, y: real, n: nat)
    requires x < y && n > 0
    ensures Times(x, n) < Times(y, n)
  {
    if n > 1 {
      TimesStrict(x, y, n - 1);
    } else {
      assert Times(x, 0) == 0.0 && Times(y, 0) == 0.0;
      assert Times(x, 1) == x && Times(y, 1) == y;
    }
  }

  lemma {:induction false} TimesAdd(x: real, y: real, n: nat)
    ensures Times(x + y, n) == Times(x, n) + Times(y, n)
  {
    if n > 0 {
      TimesAdd(x, y, n - 1);
    }
  }

  lemma {:induction false} TimesConst(c: real, n: nat)
    requires c == 0.0 || c == 1.0
    ensures Times(c, n) == c * n as real
  {
    if n > 0 {
      TimesConst(c, n - 1);
    }
  }

  /** `Math.ceil` on exact reals. */
  function Ceil(x: real): (r: int)
    ensures r as real - 1.0 < x <= r as real
  {
    -((-x).Floor)
  }

  /** Where a longitude lies across the map: 0 at -180, 1 at +180. */
  function LonFraction(lon: real): real
  {
    (lon + 180.0) / 360.0
  }

  /** A map fraction scaled to tile units, `f * 2^zoom`. */
  function InTiles(f: real, zoom: nat): real
  {
    Times(f, Pow2(zoom))
  }

  /** The tile index of a map fraction: `Math.floor(f * 2^zoom)`. */
  function TileOf(f: real, zoom: nat): int
  {
    InTiles(f, zoom).Floor
  }

  /** The global pixel of a map fraction: `f * 2^zoom * tileSize`. */
  function PixelOf(f: real, zoom: nat, tileSize: nat): real
  {
    Times(InTiles(f, zoom), tileSize)
  }

  /** The global pixel at which tile `k` begins: `k * tileSize`. */
  function TileOrigin(k: int, tileSize: nat): real
  {
    Times(k as real, tileSize)
  }

  /** lon2tile */
  function Lon2Tile(lon: real, zoom: nat): int
  {
    TileOf(LonFraction(lon), zoom)
  }

  /** lon2pixel */
  function Lon2Pixel(lon: real, zoom: nat, tileSize: nat): real
  {
    PixelOf(LonFraction(lon), zoom, tileSize)
  }

  /** lat2tile, over the abstract Mercator term. */
  function Lat2Tile(merc: real -> real, lat: real, zoom: nat): int
  {
    TileOf(merc(lat), zoom)
  }

  /** lat2pixel, over the abstract Mercator term. */
  function Lat2Pixel(merc: real -> real, lat: real, zoom: nat, tileSize: nat): real
  {
    PixelOf(merc(lat), zoom, tileSize)
  }

  /**
   * The pixel of a map fraction lies inside the tile of that fraction: the
   * tile starts at or before it and the next tile starts after it.
   */
  lemma PixelInsideTile(f: real, zoom: nat, tileSize: nat)
    requires tileSize > 0
    ensures TileOrigin(TileOf(f, zoom), tileSize) <= PixelOf(f, zoom, tileSize)
    ensures PixelOf(f, zoom, tileSize) < TileOrigin(TileOf(f, zoom), tileSize) + tileSize as real
  {
    var a := InTiles(f, zoom);
    var k := TileOf(f, zoom) as real;
    assert k <= a < k + 1.0;
    TimesMonotone(k, a, tileSize);
    TimesStrict(a, k + 1.0, tileSize);
    TimesAdd(k, 1.0, tileSize);
    TimesConst(1.0, tileSize);
  }

  /**
   * The pixel-to-tile round trip: the only tile whose span holds the pixel of
   * a fraction is the tile of that fraction.
   */
  lemma PixelToTile(f: real, zoom: nat, tileSize: nat, k: int)
    requires tileSize > 0
    requires TileOrigin(k, tileSize) <= PixelOf(f, zoom, tileSize) < TileOrigin(k, tileSize) + tileSize as real
    ensures k == TileOf(f, zoom)
  {
    PixelInsideTile(f, zoom, tileSize);
    var t := TileOf(f, zoom);
    TimesConst(1.0, tileSize);
    if k < t {
      TimesMonotone(k as real + 1.0, t as real, tileSize);
      TimesAdd(k as real, 1.0, tileSize);
    } else if k > t {
      TimesMonotone(t as real + 1.0, k as real, tileSize);
      TimesAdd(t as real, 1.0, tileSize);
    }
  }

  /** Longitudes west of the antimeridian fall on one of the 2^zoom tile columns. */
  lemma Lon2TileInGrid(lon: real, zoom: nat)
    requires -180.0 <= lon < 180.0
    ensures 0 <= Lon2Tile(lon, zoom) < Pow2(zoom)
  {
    var f := LonFraction(lon);
    assert 0.0 <= f < 1.0;
    TimesMonotone(0.0, f, Pow2(zoom));
    TimesStrict(f, 1.0, Pow2(zoom));
    TimesConst(0.0, Pow2(zoom));
    TimesConst(1.0, Pow2(zoom));
  }

  /** The antimeridian itself maps one column past the last: nothing clamps it. */
  lemma Lon2TileAtAntimeridian(zoom: nat)
    ensures Lon2Tile(180.0, zoom) == Pow2(zoom)
  {
    assert LonFraction(180.0) == 1.0;
    TimesConst(1.0, Pow2(zoom));
  }

  /** Across [-180, 180] the longitude pixel runs over the whole map width. */
  lemma Lon2PixelInMap(lon: real, zoom: nat, tileSize: nat)
    requires -180.0 <= lon <= 180.0
    ensures 0.0 <= Lon2Pixel(lon, zoom, tileSize) <= TileOrigin(Pow2(zoom), tileSize)
  {
    var f := LonFraction(lon);
    var n := Pow2(zoom);
    assert 0.0 <= f <= 1.0;
    TimesMonotone(0.0, f, n);
    TimesMonotone(f, 1.0, n);
    TimesConst(0.0, n);
    TimesConst(1.0, n);
    TimesMonotone(0.0, InTiles(f, zoom), tileSize);
    TimesMonotone(InTiles(f, zoom), n as real, tileSize);
    TimesConst(0.0, tileSize);
  }

  /** Further east is never further left, in pixels and in tiles. */
  lemma LonMonotone(lon1: real, lon2: real, zoom: nat, tileSize: nat)
    requires lon1 <= lon2
    ensures Lon2Pixel(lon1, zoom, tileSize) <= Lon2Pixel(lon2, zoom, tileSize)
    ensures Lon2Tile(lon1, zoom) <= Lon2Tile(lon2, zoom)
  {
    TimesMonotone(LonFraction(lon1), LonFraction(lon2), Pow2(zoom));
    TimesMonotone(InTiles(LonFraction(lon1), zoom), InTiles(LonFraction(lon2), zoom), tileSize);
  }

  /**
   * The longitude pixel is affine: moving `d` degrees east moves the pixel by
   * the pixel of the fraction `d / 360`.
   */
  lemma Lon2PixelShift(lon: real, d: real, zoom: nat, tileSize: nat)
    ensures Lon2Pixel(lon + d, zoom, tileSize) == Lon2Pixel(lon, zoom, tileSize) + PixelOf(d / 360.0, zoom, tileSize)
  {
    assert LonFraction(lon + d) == LonFraction(lon) + d / 360.0;
    TimesAdd(LonFraction(lon), d / 360.0, Pow2(zoom));
    TimesAdd(InTiles(LonFraction(lon), zoom), InTiles(d / 360.0, zoom), tileSize);
  }

  /** At zoom 0 the whole map is the single tile 0. */
  lemma TileAtZoomZero(f: real)
    requires 0.0 <= f < 1.0
    ensures TileOf(f, 0) == 0
  {
    assert Times(f, 1) == Times(f, 0) + f;
  }
}
