/**
 * The world view: the single zoom-0 tile scaled to the largest rectangle of
 * the tile's aspect ratio that fits the canvas, centred, with the geometry
 * projected into that rectangle.
 */
module WorldView {
  import opened Geometry
  import opened Projection

  /** Where the world tile is drawn: its size and its top-left corner. */
  datatype Fit = Fit(drawWidth: real, drawHeight: real, offsetX: real, offsetY: real)

  function Aspect(imageWidth: nat, imageHeight: nat): real
    requires imageWidth > 0 && imageHeight > 0
  {
    imageWidth as real / imageHeight as real
  }

  /**
   * `width / height > aspectRatio` under JavaScript division: a zero height
   * gives `Infinity` (greater) for a positive width and `NaN` (not greater)
   * for a zero width.
   */
  predicate WiderThan(width: nat, height: nat, aspect: real)
  {
    if height == 0 then width > 0 else width as real / height as real > aspect
  }

  lemma WiderMeansShort(width: nat, height: nat, aspect: real)
    requires aspect > 0.0
    ensures WiderThan(width, height, aspect) <==> height as real * aspect < width as real
  {
    if height > 0 {
      var q := width as real / height as real;
      assert q * height as real == width as real;
      if q > aspect {
        assert height as real * aspect < height as real * q;
      } else {
        assert height as real * aspect >= height as real * q;
      }
    }
  }

  /** The letterbox or pillarbox fit of the world tile into the canvas. */
  function FitWorld(width: nat, height: nat, imageWidth: nat, imageHeight: nat): (f: Fit)
    requires imageWidth > 0 && imageHeight > 0
    ensures 0.0 <= f.drawWidth <= width as real && 0.0 <= f.drawHeight <= height as real
    ensures f.drawWidth == f.drawHeight * Aspect(imageWidth, imageHeight)
    ensures f.drawWidth == width as real || f.drawHeight == height as real
    ensures 2.0 * f.offsetX + f.drawWidth == width as real
    ensures 2.0 * f.offsetY + f.drawHeight == height as real
    ensures f.offsetX == 0.0 || f.offsetY == 0.0
  {
    var aspect := Aspect(imageWidth, imageHeight);
    WiderMeansShort(width, height, aspect);
    if WiderThan(width, height, aspect) then
      var drawWidth := height as real * aspect;
      Fit(drawWidth, height as real, (width as real - drawWidth) / 2.0, 0.0)
    else
      var drawHeight := width as real / aspect;
      DivAtMost(width as real, aspect, height as real);
      Fit(width as real, drawHeight, 0.0, (height as real - drawHeight) / 2.0)
  }

  /** No larger rectangle of the tile's aspect ratio fits the canvas. */
  lemma FitIsLargest(width: nat, height: nat, imageWidth: nat, imageHeight: nat, w: real, h: real)
    requires imageWidth > 0 && imageHeight > 0
    requires 0.0 <= w <= width as real && 0.0 <= h <= height as real
    requires w == h * Aspect(imageWidth, imageHeight)
    ensures h <= FitWorld(width, height, imageWidth, imageHeight).drawHeight
    ensures w <= FitWorld(width, height, imageWidth, imageHeight).drawWidth
  {
    var f := FitWorld(width, height, imageWidth, imageHeight);
    var a := Aspect(imageWidth, imageHeight);
    if f.drawHeight == height as real {
      MulMonotone(h, f.drawHeight, a);
    } else {
      MulCancel(h, f.drawHeight, a);
    }
  }

  lemma DivAtMost(w: real, a: real, h: real)
    requires a > 0.0 && w <= h * a
    ensures w / a <= h
  {
  }

  lemma MulCancel(x: real, y: real, a: real)
    requires a > 0.0 && x * a <= y * a
    ensures x <= y
  {
  }

  lemma MulMonotone(x: real, y: real, a: real)
    requires a >= 0.0 && x <= y
    ensures x * a <= y * a
  {
    assert (y - x) * a >= 0.0;
  }

  /** A square tile on a square canvas fills it exactly. */
  lemma SquareFillsSquare(size: nat, tile: nat)
    requires tile > 0
    ensures FitWorld(size, size, tile, tile) == Fit(size as real, size as real, 0.0, 0.0)
  {
  }

  /** `((lon + 180) / 360) * drawWidth + offsetX` */
  function WorldX(f: Fit, lon: real): real
  {
    LonFraction(lon) * f.drawWidth + f.offsetX
  }

  /** The Mercator fraction scaled into the drawn tile. */
  function WorldY(merc: real -> real, f: Fit, lat: real): real
  {
    merc(lat) * f.drawHeight + f.offsetY
  }

  /** A fraction in [0, 1] of a non-negative size lies between 0 and that size. */
  lemma ScaledInside(t: real, size: real)
    requires 0.0 <= t <= 1.0 && size >= 0.0
    ensures 0.0 <= t * size <= size
  {
    NonNegativeProduct(t, size);
    NonNegativeProduct(1.0 - t, size);
    assert (1.0 - t) * size == size - t * size;
  }

  lemma ScaledMonotone(t1: real, t2: real, size: real)
    requires t1 <= t2 && size >= 0.0
    ensures t1 * size <= t2 * size
  {
    NonNegativeProduct(t2 - t1, size);
    assert (t2 - t1) * size == t2 * size - t1 * size;
  }

  /** The drawn image lies on the canvas, centred on both axes. */
  predicate Centred(f: Fit, width: nat, height: nat)
  {
    0.0 <= f.drawWidth <= width as real && 2.0 * f.offsetX + f.drawWidth == width as real &&
    0.0 <= f.drawHeight <= height as real && 2.0 * f.offsetY + f.drawHeight == height as real
  }

  lemma FitWorldCentred(width: nat, height: nat, imageWidth: nat, imageHeight: nat)
    requires imageWidth > 0 && imageHeight > 0
    ensures Centred(FitWorld(width, height, imageWidth, imageHeight), width, height)
  {
  }

  /** Every longitude of the map is drawn inside the world tile, hence on the canvas. */
  lemma WorldXInside(f: Fit, width: nat, height: nat, lon: real)
    requires Centred(f, width, height)
    requires -180.0 <= lon <= 180.0
    ensures f.offsetX <= WorldX(f, lon) <= f.offsetX + f.drawWidth
    ensures 0.0 <= WorldX(f, lon) <= width as real
  {
    var t := LonFraction(lon);
    var p := t * f.drawWidth;
    ScaledInside(t, f.drawWidth);
    assert 0.0 <= p <= f.drawWidth;
    assert WorldX(f, lon) == p + f.offsetX;
  }

  /** East of is right of. */
  lemma WorldXMonotone(f: Fit, lon1: real, lon2: real)
    requires lon1 <= lon2 && f.drawWidth >= 0.0
    ensures WorldX(f, lon1) <= WorldX(f, lon2)
  {
    ScaledMonotone(LonFraction(lon1), LonFraction(lon2), f.drawWidth);
  }

  /** A latitude whose Mercator fraction is on the tile is drawn inside the tile. */
  lemma WorldYInside(merc: real -> real, f: Fit, width: nat, height: nat, lat: real)
    requires Centred(f, width, height)
    requires 0.0 <= merc(lat) <= 1.0
    ensures f.offsetY <= WorldY(merc, f, lat) <= f.offsetY + f.drawHeight
    ensures 0.0 <= WorldY(merc, f, lat) <= height as real
  {
    var t := merc(lat);
    var p := t * f.drawHeight;
    ScaledInside(t, f.drawHeight);
    assert 0.0 <= p <= f.drawHeight;
    assert WorldY(merc, f, lat) == p + f.offsetY;
  }
}
