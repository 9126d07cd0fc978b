/**
 * The parts of the browser's 2-D canvas that the identify handler uses:
 * a raster whose size can be reset, `fillRect`, `clearRect` and the
 * unscaled and scaled forms of `drawImage`.
 *
 * A canvas is a class over an `array2<Pixel>`: index `[x, y]`, with
 * `Length0` the width and `Length1` the height.
 */
module Canvas2D {

  /** One 8-bit colour channel. */
  newtype Channel = c: int | 0 <= c < 256

  datatype Pixel = Pixel(r: Channel, g: Channel, b: Channel, a: Channel)

  /** What a freshly sized or cleared canvas holds: transparent black. */
  const Transparent := Pixel(0, 0, 0, 0)

  /** True when column `x` and row `y` fall in the rectangle at (rx, ry) of size w by h. */
  predicate InRect(x: int, y: int, rx: int, ry: int, w: int, h: int)
  {
    rx <= x < rx + w && ry <= y < ry + h
  }

  /** The source column or row that a destination column or row of a scaled draw samples. */
  function ScaledIndex(d: nat, srcSize: nat, dstSize: nat): (s: nat)
    requires d < dstSize
    ensures s < srcSize || srcSize == 0
  {
    ScaledIndexBound(d, srcSize, dstSize);
    d * srcSize / dstSize
  }

  lemma ScaledIndexBound(d: nat, srcSize: nat, dstSize: nat)
    requires d < dstSize
    ensures d * srcSize / dstSize < srcSize || srcSize == 0
  {
    if srcSize > 0 {
      assert d * srcSize < dstSize * srcSize;
    }
  }

  class Canvas {
    var data: array2<Pixel>

    function Width(): nat
      reads this
    {
      data.Length0
    }

    function Height(): nat
      reads this
    {
      data.Length1
    }

    /** A new canvas element given its width and height: transparent black. */
    constructor (w: nat, h: nat)
      ensures Width() == w && Height() == h && fresh(data)
      ensures forall x, y :: 0 <= x < w && 0 <= y < h ==> data[x, y] == Transparent
    {
      data := new Pixel[w, h]((_, _) => Transparent);
    }

    /**
     * Assigning `width` and `height`: the bitmap is replaced by a transparent
     * one of the new size, even when the size does not change.
     */
    method SetSize(w: nat, h: nat)
      modifies this
      ensures Width() == w && Height() == h && fresh(data)
      ensures forall x, y :: 0 <= x < w && 0 <= y < h ==> data[x, y] == Transparent
    {
      data := new Pixel[w, h]((_, _) => Transparent);
    }

    /** `fillRect(rx, ry, w, h)` with a solid colour, clipped to the canvas. */
    method FillRect(rx: int, ry: int, w: nat, h: nat, color: Pixel)
      modifies data
      ensures forall x, y :: 0 <= x < Width() && 0 <= y < Height() ==>
        data[x, y] == if InRect(x, y, rx, ry, w, h) then color else old(data[x, y])
    {
      var x := 0;
      while x < data.Length0
        invariant 0 <= x <= data.Length0
        invariant forall i, j :: 0 <= i < x && 0 <= j < data.Length1 ==>
          data[i, j] == if InRect(i, j, rx, ry, w, h) then color else old(data[i, j])
        invariant forall i, j :: x <= i < data.Length0 && 0 <= j < data.Length1 ==>
          data[i, j] == old(data[i, j])
      {
        var y := 0;
        while y < data.Length1
          invariant 0 <= y <= data.Length1
          invariant forall i, j :: 0 <= i < x && 0 <= j < data.Length1 ==>
            data[i, j] == if InRect(i, j, rx, ry, w, h) then color else old(data[i, j])
          invariant forall j :: 0 <= j < y ==>
            data[x, j] == if InRect(x, j, rx, ry, w, h) then color else old(data[x, j])
          invariant forall i, j :: x <= i < data.Length0 && 0 <= j < data.Length1 && (i > x || j >= y) ==>
            data[i, j] == old(data[i, j])
        {
          if InRect(x, y, rx, ry, w, h) {
            data[x, y] := color;
          }
          y := y + 1;
        }
        x := x + 1;
      }
    }

    /** `clearRect(rx, ry, w, h)`: the rectangle becomes transparent black. */
    method ClearRect(rx: int, ry: int, w: nat, h: nat)
      modifies data
      ensures forall x, y :: 0 <= x < Width() && 0 <= y < Height() ==>
        data[x, y] == if InRect(x, y, rx, ry, w, h) then Transparent else old(data[x, y])
    {
      FillRect(rx, ry, w, h, Transparent);
    }

    /**
     * `drawImage(src, sx, sy, w, h, dx, dy, w, h)`, the unscaled form: the
     * w by h rectangle of `src` at (sx, sy) is copied to (dx, dy). A
     * destination pixel changes only when it lies in the destination
     * rectangle and its source pixel lies inside `src`.
     */
    method DrawImage(src: Canvas, sx: int, sy: int, w: nat, h: nat, dx: int, dy: int)
      requires src.data != data
      modifies data
      ensures forall x, y :: 0 <= x < Width() && 0 <= y < Height() ==>
        data[x, y] ==
          if InRect(x, y, dx, dy, w, h) && InRect(sx + x - dx, sy + y - dy, 0, 0, src.Width(), src.Height())
          then src.data[sx + x - dx, sy + y - dy]
          else old(data[x, y])
    {
      var x := 0;
      while x < data.Length0
        invariant 0 <= x <= data.Length0
        invariant forall i, j :: 0 <= i < x && 0 <= j < data.Length1 ==>
          data[i, j] ==
            if InRect(i, j, dx, dy, w, h) && InRect(sx + i - dx, sy + j - dy, 0, 0, src.Width(), src.Height())
            then src.data[sx + i - dx, sy + j - dy]
            else old(data[i, j])
        invariant forall i, j :: x <= i < data.Length0 && 0 <= j < data.Length1 ==>
          data[i, j] == old(data[i, j])
      {
        var y := 0;
        while y < data.Length1
          invariant 0 <= y <= data.Length1
          invariant forall i, j :: 0 <= i < x && 0 <= j < data.Length1 ==>
            data[i, j] ==
              if InRect(i, j, dx, dy, w, h) && InRect(sx + i - dx, sy + j - dy, 0, 0, src.Width(), src.Height())
              then src.data[sx + i - dx, sy + j - dy]
              else old(data[i, j])
          invariant forall j :: 0 <= j < y ==>
            data[x, j] ==
              if InRect(x, j, dx, dy, w, h) && InRect(sx + x - dx, sy + j - dy, 0, 0, src.Width(), src.Height())
              then src.data[sx + x - dx, sy + j - dy]
              else old(data[x, j])
          invariant forall i, j :: x <= i < data.Length0 && 0 <= j < data.Length1 && (i > x || j >= y) ==>
            data[i, j] == old(data[i, j])
        {
          if InRect(x, y, dx, dy, w, h) && InRect(sx + x - dx, sy + y - dy, 0, 0, src.data.Length0, src.data.Length1) {
            data[x, y] := src.data[sx + x - dx, sy + y - dy];
          }
          y := y + 1;
        }
        x := x + 1;
      }
    }

    /**
     * `drawImage(src, 0, 0, w, h)`, the scaled form: the whole of `src` is
     * stretched over the w by h rectangle at the origin. Browsers
     * interpolate; this model samples the nearest source pixel.
     */
    method DrawImageScaled(src: Canvas, w: nat, h: nat)
      requires src.data != data
      requires src.Width() > 0 && src.Height() > 0
      modifies data
      ensures forall x, y :: 0 <= x < Width() && 0 <= y < Height() ==>
        data[x, y] ==
          if x < w && y < h
          then src.data[ScaledIndex(x, src.Width(), w), ScaledIndex(y, src.Height(), h)]
          else old(data[x, y])
    {
      var x := 0;
      while x < data.Length0
        invariant 0 <= x <= data.Length0
        invariant forall i, j :: 0 <= i < x && 0 <= j < data.Length1 ==>
          data[i, j] ==
            if i < w && j < h
            then src.data[ScaledIndex(i, src.Width(), w), ScaledIndex(j, src.Height(), h)]
            else old(data[i, j])
        invariant forall i, j :: x <= i < data.Length0 && 0 <= j < data.Length1 ==>
          data[i, j] == old(data[i, j])
      {
        var y := 0;
        while y < data.Length1
          invariant 0 <= y <= data.Length1
          invariant forall i, j :: 0 <= i < x && 0 <= j < data.Length1 ==>
            data[i, j] ==
              if i < w && j < h
              then src.data[ScaledIndex(i, src.Width(), w), ScaledIndex(j, src.Height(), h)]
              else old(data[i, j])
          invariant forall j :: 0 <= j < y ==>
            data[x, j] ==
              if x < w && j < h
              then src.data[ScaledIndex(x, src.Width(), w), ScaledIndex(j, src.Height(), h)]
              else old(data[x, j])
          invariant forall i, j :: x <= i < data.Length0 && 0 <= j < data.Length1 && (i > x || j >= y) ==>
            data[i, j] == old(data[i, j])
        {
          if x < w && y < h {
            data[x, y] := src.data[ScaledIndex(x, src.data.Length0, w), ScaledIndex(y, src.data.Length1, h)];
          }
          y := y + 1;
        }
        x := x + 1;
      }
    }
  }
}
