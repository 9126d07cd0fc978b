/**
 * The identify-button handler of the browser client: select a face among
 * the detections, crop it with a margin, pad it to a square of padding
 * colour, rescale it to the canonical size, and render the server's
 * answer with the reference links for the predicted shape.
 *
 * The detector's output is an input sequence of boxes; the previewed
 * photo is a canvas whose size is the image's natural size.
 */
module Identify {
  import opened Wrappers
  import opened Canvas2D
  import opened FaceSelection
  import opened Region
  import opened Protocol

  /** Side of the square image sent for classification. */
  const TargetImageSize: nat := 224

  /** The fill style `rgb(0, 0, 0)`: opaque black. */
  const PaddingColor := Pixel(0, 0, 0, 255)

  /** Why a run stops before anything is sent. */
  datatype RunError =
    | FaceNotFound(reason: SelectionError)
      // A crop with no pixels: drawing the zero-sized intermediate canvas
      // throws, and the handler's catch reports a processing error.
    | DegenerateCrop

  /** The region is a non-empty rectangle inside an image of the given size. */
  predicate ValidCrop(c: CropRegion, imageWidth: int, imageHeight: int)
  {
    0 <= c.x1 && 0 <= c.y1 && c.x2 <= imageWidth && c.y2 <= imageHeight
    && c.CropWidth() > 0 && c.CropHeight() > 0
  }

  /**
   * The pixel at (x, y) of the padded square for crop `c` of `image`: the
   * crop's pixel where the crop was placed, the padding colour elsewhere.
   */
  function PaddedPixel(image: Canvas, c: CropRegion, x: int, y: int): Pixel
    reads image, image.data
    requires ValidCrop(c, image.Width(), image.Height())
  {
    var p := SquarePadding(c.CropWidth(), c.CropHeight());
    if InRect(x, y, p.padLeft, p.padTop, c.CropWidth(), c.CropHeight())
    then image.data[c.x1 + x - p.padLeft, c.y1 + y - p.padTop]
    else PaddingColor
  }

  /** The pixel at (x, y) of the final image: the padded square sampled at the target size. */
  function NormalizedPixel(image: Canvas, c: CropRegion, x: nat, y: nat): Pixel
    reads image, image.data
    requires ValidCrop(c, image.Width(), image.Height())
    requires x < TargetImageSize && y < TargetImageSize
  {
    var side := SquarePadding(c.CropWidth(), c.CropHeight()).maxSide;
    PaddedPixel(image, c, ScaledIndex(x, side, TargetImageSize), ScaledIndex(y, side, TargetImageSize))
  }

  /**
   * Copying the crop rectangle of the photo onto a new canvas of the
   * crop's size.
   */
  method CropImage(image: Canvas, c: CropRegion) returns (crop: Canvas)
    requires ValidCrop(c, image.Width(), image.Height())
    ensures fresh(crop) && fresh(crop.data)
    ensures crop.Width() == c.CropWidth() && crop.Height() == c.CropHeight()
    ensures forall x, y :: 0 <= x < crop.Width() && 0 <= y < crop.Height() ==>
      crop.data[x, y] == image.data[c.x1 + x, c.y1 + y]
  {
    crop := new Canvas(c.CropWidth(), c.CropHeight());
    crop.DrawImage(image, c.x1, c.y1, c.CropWidth(), c.CropHeight(), 0, 0);
  }

  /**
   * Sizing the processed canvas to the padded square, filling it with the
   * padding colour and drawing the crop at (padLeft, padTop).
   */
  method PadToSquare(crop: Canvas, processed: Canvas) returns (p: Padding)
    requires crop != processed
    modifies processed
    ensures p == SquarePadding(crop.Width(), crop.Height())
    ensures processed.Width() == p.maxSide && processed.Height() == p.maxSide && fresh(processed.data)
    ensures forall x, y :: 0 <= x < p.maxSide && 0 <= y < p.maxSide ==>
      processed.data[x, y] ==
        if InRect(x, y, p.padLeft, p.padTop, crop.Width(), crop.Height())
        then crop.data[x - p.padLeft, y - p.padTop]
        else PaddingColor
  {
    p := SquarePadding(crop.Width(), crop.Height());
    processed.SetSize(p.maxSide, p.maxSide);
    processed.FillRect(0, 0, p.maxSide, p.maxSide, PaddingColor);
    processed.DrawImage(crop, 0, 0, crop.Width(), crop.Height(), p.padLeft, p.padTop);
  }

  /**
   * Drawing the padded square, scaled, onto a new canvas of the target
   * size, then clearing the processed canvas, resizing it to the target
   * size and copying the scaled image back onto it.
   */
  method Rescale(processed: Canvas)
    requires processed.Width() > 0 && processed.Height() > 0
    modifies processed, processed.data
    ensures processed.Width() == TargetImageSize && processed.Height() == TargetImageSize
    ensures fresh(processed.data)
    ensures forall x, y :: 0 <= x < TargetImageSize && 0 <= y < TargetImageSize ==>
      processed.data[x, y] ==
        old(processed.data[ScaledIndex(x, processed.Width(), TargetImageSize),
                           ScaledIndex(y, processed.Height(), TargetImageSize)])
  {
    var finalCanvas := new Canvas(TargetImageSize, TargetImageSize);
    finalCanvas.DrawImageScaled(processed, TargetImageSize, TargetImageSize);
    processed.ClearRect(0, 0, processed.Width(), processed.Height());
    processed.SetSize(TargetImageSize, TargetImageSize);
    processed.DrawImage(finalCanvas, 0, 0, TargetImageSize, TargetImageSize, 0, 0);
  }

  /**
   * The normalisation of one crop region: crop, pad to a square, rescale.
   * The processed canvas ends as the canonical square holding the padded
   * crop sampled at the target size.
   */
  method NormalizeRegion(image: Canvas, processed: Canvas, c: CropRegion)
    requires image != processed && image.data != processed.data
    requires ValidCrop(c, image.Width(), image.Height())
    modifies processed, processed.data
    ensures processed.Width() == TargetImageSize && processed.Height() == TargetImageSize
    ensures forall x, y :: 0 <= x < TargetImageSize && 0 <= y < TargetImageSize ==>
      processed.data[x, y] == NormalizedPixel(image, c, x, y)
  {
    var crop := CropImage(image, c);
    var p := PadToSquare(crop, processed);
    assert forall x, y :: 0 <= x < p.maxSide && 0 <= y < p.maxSide ==>
      processed.data[x, y] == PaddedPixel(image, c, x, y);
    Rescale(processed);
  }

  /**
   * One run of the handler up to the image it sends: on success the
   * processed canvas is the canonical square holding the normalised face,
   * and the result is the crop region of the selected box.
   */
  method Normalize(image: Canvas, processed: Canvas, detections: seq<Box>) returns (r: Result<CropRegion, RunError>)
    requires image != processed && image.data != processed.data
    modifies processed, processed.data
    ensures r == Failure(FaceNotFound(NoFaceDetected)) <==> |detections| == 0
    ensures r == Failure(FaceNotFound(NoFaceWithSufficientSize)) <==>
      |detections| > 0 && forall j :: 0 <= j < |detections| ==> !Qualifies(detections[j])
    ensures r.Failure? ==> unchanged(processed) && unchanged(processed.data)
    ensures r == Failure(DegenerateCrop) ==>
      exists i :: IsBestAt(detections, i) &&
        var c := ExpandAndClip(image.Width(), image.Height(), detections[i]);
        c.CropWidth() <= 0 || c.CropHeight() <= 0
    ensures r.Success? ==>
      && (exists i :: IsBestAt(detections, i) && r.value == ExpandAndClip(image.Width(), image.Height(), detections[i]))
      && ValidCrop(r.value, image.Width(), image.Height())
      && processed.Width() == TargetImageSize && processed.Height() == TargetImageSize
      && forall x, y :: 0 <= x < TargetImageSize && 0 <= y < TargetImageSize ==>
           processed.data[x, y] == NormalizedPixel(image, r.value, x, y)
  {
    var selected := SelectBestFace(detections);
    if selected.Failure? {
      return Failure(FaceNotFound(selected.error));
    }
    var c := ExpandAndClip(image.Width(), image.Height(), selected.value);
    if c.CropWidth() <= 0 || c.CropHeight() <= 0 {
      return Failure(DegenerateCrop);
    }
    NormalizeRegion(image, processed, c);
    r := Success(c);
  }

  /** The reference links shown for a facial shape. */
  datatype Links = Links(female: string, male: string)

  const HairstyleLinks: map<string, Links> := map[
    "Heart" := Links(
      "https://www.newbeauty.com/haircuts-for-heart-shaped-faces/",
      "https://therighthairstyles.com/hairstyles-for-heart-shaped-face-male/"),
    "Oblong" := Links(
      "https://www.byrdie.com/the-most-flattering-hairstyles-for-the-oblong-face-shape-345773",
      "https://therighthairstyles.com/haircuts-for-oblong-faces-men/"),
    "Oval" := Links(
      "https://therighthairstyles.com/hairstyles-for-oval-face/",
      "https://menhairstylist.com/mens-hairstyles-for-oval-faces/"),
    "Round" := Links(
      "https://www.byrdie.com/hairstyles-for-round-faces-the-most-flattering-cuts-346413",
      "https://therighthairstyles.com/haircuts-for-round-faces-men/"),
    "Square" := Links(
      "https://www.byrdie.com/the-best-haircuts-for-square-face-shapes-345768",
      "https://therighthairstyles.com/men-square-face-haircuts/")
  ]

  /**
   * The members every plain object inherits from `Object.prototype`. The
   * link table is an object literal, so looking one of these names up
   * finds a function (or, for `__proto__`, the prototype object) rather
   * than nothing; neither has a `female` or `male` property.
   */
  const InheritedNames: set<string> := {
    "constructor", "hasOwnProperty", "isPrototypeOf", "propertyIsEnumerable",
    "toLocaleString", "toString", "valueOf", "__proto__",
    "__defineGetter__", "__defineSetter__", "__lookupGetter__", "__lookupSetter__"
  }

  /** How a missing property reads inside a template literal. */
  const UndefinedText := "undefined"

  /** What the result box shows. */
  datatype View =
    | ErrorText(text: string)
    | ShapeView(
        facialShape: string,
        confidence: string,
        femaleRecommendation: string,
        femaleLink: string,
        femaleImages: seq<string>,
        maleRecommendation: string,
        maleLink: string,
        maleImages: seq<string>)
      // A TypeError from dereferencing the missing link entry, reported by
      // the catch block as a processing error.
    | ProcessingFailed

  /**
   * Rendering the server's answer. An error message is shown only when it
   * is a non-empty string (an empty one is falsy); otherwise the link
   * entry of the shape is dereferenced. An own entry gives its links; an
   * inherited member gives links that read "undefined"; a shape with
   * neither makes the dereference fail.
   */
  function Render(resp: Response): (v: View)
    ensures v.ErrorText? <==> resp.ErrorReply? && resp.error != ""
    ensures v.ErrorText? ==> v.text == "Error: " + resp.error
    ensures v.ShapeView? <==>
      resp.ShapeReply? && (resp.facialShape in HairstyleLinks || resp.facialShape in InheritedNames)
    ensures v.ShapeView? ==>
      && v.facialShape == resp.facialShape
      && v.confidence == resp.confidence
      && v.femaleRecommendation == resp.femaleRecommendation
      && v.maleRecommendation == resp.maleRecommendation
      && v.femaleImages == resp.femaleImages
      && v.maleImages == resp.maleImages
    ensures v.ShapeView? && resp.facialShape in HairstyleLinks ==>
      v.femaleLink == HairstyleLinks[resp.facialShape].female &&
      v.maleLink == HairstyleLinks[resp.facialShape].male
    ensures v.ShapeView? && resp.facialShape !in HairstyleLinks ==>
      v.femaleLink == UndefinedText && v.maleLink == UndefinedText
  {
    match resp
    case ErrorReply(e) =>
      if e != "" then ErrorText("Error: " + e) else ProcessingFailed
    case ShapeReply(shape, confidence, female, male, femaleImages, maleImages) =>
      if shape in HairstyleLinks then
        var links := HairstyleLinks[shape];
        ShapeView(shape, confidence, female, links.female, femaleImages, male, links.male, maleImages)
      else if shape in InheritedNames then
        ShapeView(shape, confidence, female, UndefinedText, femaleImages, male, UndefinedText, maleImages)
      else
        ProcessingFailed
  }

  /** An error answer with message "model failure" is shown verbatim and carries no links. */
  lemma RenderModelFailure()
    ensures Render(ErrorReply("model failure")) == ErrorText("Error: model failure")
  {
  }

  /** An "Oval" answer is shown with the Oval links of the table. */
  lemma RenderOval(confidence: string, female: string, male: string, fi: seq<string>, mi: seq<string>)
    ensures var v := Render(ShapeReply("Oval", confidence, female, male, fi, mi));
      v.ShapeView? &&
      v.femaleLink == "https://therighthairstyles.com/hairstyles-for-oval-face/" &&
      v.maleLink == "https://menhairstylist.com/mens-hairstyles-for-oval-faces/"
  {
  }

  /** A "toString" answer finds the inherited method: both links read "undefined". */
  lemma RenderInheritedName(confidence: string, female: string, male: string, fi: seq<string>, mi: seq<string>)
    ensures var v := Render(ShapeReply("toString", confidence, female, male, fi, mi));
      v.ShapeView? && v.femaleLink == "undefined" && v.maleLink == "undefined"
  {
  }

  /** An answer naming neither a table entry nor an inherited member fails in processing. */
  lemma RenderUnknownShape(confidence: string, female: string, male: string, fi: seq<string>, mi: seq<string>)
    ensures Render(ShapeReply("Diamond", confidence, female, male, fi, mi)) == ProcessingFailed
  {
  }
}
