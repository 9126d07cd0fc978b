/**
 * The geometry of the normalised face region: the selected box grown by a
 * fixed margin, clipped to the image, and the centred padding that squares
 * the crop.
 */
module Region {
  import opened FaceSelection

  /** The margin added to every side of the selected box, in pixels. */
  const PixelExpansionAllSides: int := 10

  /** The crop rectangle: columns x1 up to x2 and rows y1 up to y2, ends excluded. */
  datatype CropRegion = CropRegion(x1: int, y1: int, x2: int, y2: int)
  {
    function CropWidth(): int { x2 - x1 }
    function CropHeight(): int { y2 - y1 }
  }

  /** The padded square: its side and where the crop's top-left corner goes in it. */
  datatype Padding = Padding(maxSide: int, padLeft: int, padTop: int)

  function Max(a: int, b: int): int { if a >= b then a else b }
  function Min(a: int, b: int): int { if a <= b then a else b }

  /** The box lies entirely inside an image of the given size. */
  predicate InsideImage(b: Box, imageWidth: int, imageHeight: int)
  {
    0 <= b.x && 0 <= b.y && b.x + b.width <= imageWidth && b.y + b.height <= imageHeight
  }

  /** Coordinate p is in the half-open interval from lo to hi. */
  predicate InSpan(p: int, lo: int, hi: int)
  {
    lo <= p < hi
  }

  /**
   * The box expanded by the margin on every side and clipped to
   * [0, imageWidth] by [0, imageHeight].
   */
  function ExpandAndClip(imageWidth: int, imageHeight: int, b: Box): (r: CropRegion)
    ensures 0 <= r.x1 && 0 <= r.y1 && r.x2 <= imageWidth && r.y2 <= imageHeight
    ensures b.x - PixelExpansionAllSides <= r.x1 && r.x2 <= b.x + b.width + PixelExpansionAllSides
    ensures b.y - PixelExpansionAllSides <= r.y1 && r.y2 <= b.y + b.height + PixelExpansionAllSides
    ensures InsideImage(b, imageWidth, imageHeight) ==>
      && r.x1 <= b.x && b.x + b.width <= r.x2
      && r.y1 <= b.y && b.y + b.height <= r.y2
      && b.width <= r.CropWidth() <= b.width + 2 * PixelExpansionAllSides
      && b.height <= r.CropHeight() <= b.height + 2 * PixelExpansionAllSides
  {
    CropRegion(
      Max(0, b.x - PixelExpansionAllSides),
      Max(0, b.y - PixelExpansionAllSides),
      Min(imageWidth, b.x + b.width + PixelExpansionAllSides),
      Min(imageHeight, b.y + b.height + PixelExpansionAllSides))
  }

  /**
   * The crop is exactly the intersection of the image with the expanded
   * box: a column (row) is in the crop if and only if it is in both.
   */
  lemma CropIsIntersection(imageWidth: int, imageHeight: int, b: Box, px: int, py: int)
    ensures var r := ExpandAndClip(imageWidth, imageHeight, b);
      && (InSpan(px, r.x1, r.x2) <==>
            InSpan(px, 0, imageWidth)
            && InSpan(px, b.x - PixelExpansionAllSides, b.x + b.width + PixelExpansionAllSides))
      && (InSpan(py, r.y1, r.y2) <==>
            InSpan(py, 0, imageHeight)
            && InSpan(py, b.y - PixelExpansionAllSides, b.y + b.height + PixelExpansionAllSides))
  {
  }

  /**
   * The padding that squares a crop: the side is the longer crop side, and
   * the shorter side is centred with floor division, so an odd surplus
   * leaves the extra pixel at the bottom or right.
   */
  function SquarePadding(cropWidth: int, cropHeight: int): (p: Padding)
    ensures p.maxSide >= cropWidth && p.maxSide >= cropHeight
    ensures p.maxSide == cropWidth || p.maxSide == cropHeight
    ensures 0 <= p.padLeft && p.padLeft + cropWidth <= p.maxSide
    ensures 0 <= p.padTop && p.padTop + cropHeight <= p.maxSide
    ensures 2 * p.padLeft <= p.maxSide - cropWidth <= 2 * p.padLeft + 1
    ensures 2 * p.padTop <= p.maxSide - cropHeight <= 2 * p.padTop + 1
    ensures p.padLeft == 0 || p.padTop == 0
    ensures cropWidth == cropHeight ==> p.padLeft == 0 && p.padTop == 0
  {
    var maxSide := Max(cropWidth, cropHeight);
    // The numerators are never negative, so Dafny's division is the floor.
    Padding(maxSide, (maxSide - cropWidth) / 2, (maxSide - cropHeight) / 2)
  }

  /** The margin on the right (bottom) is the left (top) margin or one more. */
  lemma PaddingIsCentred(cropWidth: int, cropHeight: int)
    ensures var p := SquarePadding(cropWidth, cropHeight);
      var right := p.maxSide - p.padLeft - cropWidth;
      var bottom := p.maxSide - p.padTop - cropHeight;
      (right == p.padLeft || right == p.padLeft + 1) && (bottom == p.padTop || bottom == p.padTop + 1)
  {
  }

  /**
   * The worked example: a 100 by 150 box at (100, 100) in a 500 by 400
   * image gives the region (90, 90)-(210, 260), a 120 by 170 crop, a
   * 170-pixel square and 25 pixels of padding on the left.
   */
  lemma WorkedExample()
    ensures ExpandAndClip(500, 400, Box(100, 100, 100, 150)) == CropRegion(90, 90, 210, 260)
    ensures ExpandAndClip(500, 400, Box(100, 100, 100, 150)).CropWidth() == 120
    ensures ExpandAndClip(500, 400, Box(100, 100, 100, 150)).CropHeight() == 170
    ensures SquarePadding(120, 170) == Padding(170, 25, 0)
  {
  }
}
