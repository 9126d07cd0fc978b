# Hairstyle recommender: face normalisation and prediction reply, in Dafny

This project models the deterministic core of a facial-shape hairstyle
recommender and proves properties of that model.

On the browser side, the identify-button handler takes the face detector's
boxes. It picks the largest box whose sides are both at least 50 pixels, or
stops with "No face detected" or "No face with sufficient size". It grows the
box by 10 pixels on every side and clips it to the image. It copies that
region onto a canvas, pads it to a square of opaque black with centred
floor-division padding, and rescales the square to 224 by 224. Later it
renders the server's answer together with the reference links for the
predicted shape.

On the server side, the `/predict` route takes the base64 text after the last
comma of the data URL. It maps the predicted class index to its label, looks
up that label's recommendation texts, and lists at most five sample images per
gender from a folder listing.

Modules, one per file:

- `Wrappers` (wrappers.dfy): `Option` and `Result`.
- `Canvas2D` (canvas.dfy): a `Canvas` class over an `array2<Pixel>`. It
  models setting the canvas size (a fresh transparent bitmap), and
  `fillRect`, `clearRect` and the unscaled and scaled forms of `drawImage`,
  each as a loop over the raster.
- `FaceSelection` (face_selection.dfy): the running-maximum selection loop.
- `Region` (region.dfy): margin expansion, clipping and square padding, as
  pure functions.
- `Identify` (identify.dfy): the handler's normalisation steps (crop, pad,
  rescale), the whole run up to the image sent, the link table and the
  rendering of the answer.
- `Protocol` (protocol.dfy): the JSON reply the server sends and the browser
  reads.
- `PyStrings` (py_strings.dfy): Python's `lower`, `startswith`, `endswith` and
  `split`.
- `Server` (server.dfy): the label list, the recommendation table,
  `get_sample_images`, payload extraction and the `/predict` reply.
- `Agreement` (agreement.dfy): the client's link table agrees with the
  server's label list.

Inputs the model takes as parameters instead of computing them:

- The face detector's output is a sequence of integer boxes.
- The previewed photo is a `Canvas` whose size is the photo's natural size.
- The file system is a map from folder path to directory listing. A folder
  exists exactly when its path is a key.
- Base64 decoding, image preprocessing, the classifier and `argmax` are one
  function. It maps the payload text to a predicted index with its formatted
  confidence, or to the message of the exception they raise.

Two behaviours the code leaves implicit, and how the model settles them:

- The code has no explicit guard for a crop without pixels. When the crop has
  a side of length zero, drawing the empty intermediate canvas throws, and the
  generic `catch` (static/main.js:228-232) reports a processing error. The
  model stops with `DegenerateCrop` when either crop side is not positive.
- There is no explicit "unknown facial shape" handling. The link table is a
  plain object literal, so the lookup `hairstyleLinks[result.facial_shape]`
  also finds the members every object inherits from `Object.prototype`
  (`toString`, `constructor`, `__proto__` and the rest). For such a name
  `links` is a function or an object without `female` or `male`, and both
  links render as the text "undefined"; `Render` returns a `ShapeView` with
  those links. A shape that is neither a table key nor an inherited member,
  or an error reply whose message is the empty string (which is falsy),
  reaches `links.female` while `links` is undefined. That raises a
  TypeError, which the `catch` reports, and `Render` returns
  `ProcessingFailed`. `Agreement.ServerShapeRenders` proves that a shape
  reply from the server always finds its own table entry.

## Model

| member | source | states |
|---|---|---|
| `FaceSelection.SelectBestFace` | static/main.js:127-148 | "No face detected" exactly when the list is empty; "No face with sufficient size" exactly when the list is non-empty and no box has both sides at least 50; otherwise the result is a listed box that passes the filter, has the largest area of all passing boxes, and is strictly larger than every passing box before it (the first of equal maxima wins) |
| `FaceSelection.QualifyingAreaPositive` | static/main.js:134-137 | a box that passes the size filter has positive area, so it always beats the initial maximum of 0 |
| `FaceSelection.BestIsUnique` | static/main.js:134-141 | at most one index meets the selection conditions, so these conditions determine the selected box |
| `Region.ExpandAndClip` | static/main.js:153-159 | the crop corners stay inside [0, imgWidth] by [0, imgHeight] and never reach more than 10 px past the box; for a box inside the image the crop contains the box, with width <= cropWidth <= width + 20 and height <= cropHeight <= height + 20 |
| `Region.CropIsIntersection` | static/main.js:153-156 | a column or row lies in the crop if and only if it lies both in the image and in the box grown by 10 px |
| `Region.SquarePadding` | static/main.js:167-169 | maxSide is the longer crop side; the crop fits at (padLeft, padTop) without overflow; 2*pad <= surplus <= 2*pad + 1 on each axis; at least one pad is 0; both are 0 for a square crop |
| `Region.PaddingIsCentred` | static/main.js:168-169 | the right (bottom) margin equals the left (top) margin or exceeds it by one |
| `Region.WorkedExample` | static/main.js:153-169 | a 500x400 image and the box {100,100,100,150} give (90,90)-(210,260), a 120x170 crop, maxSide 170, padLeft 25 and padTop 0 |
| `Canvas2D.Canvas.constructor` | static/main.js:161-163 | a new canvas has the requested width and height and is transparent black |
| `Canvas2D.Canvas.SetSize` | static/main.js:171-172 | assigning width and height replaces the bitmap with a transparent one of the new size |
| `Canvas2D.Canvas.FillRect` | static/main.js:173-174 | pixels inside the rectangle take the colour and all others keep their value |
| `Canvas2D.Canvas.ClearRect` | static/main.js:182 | pixels inside the rectangle become transparent and all others keep their value |
| `Canvas2D.Canvas.DrawImage` | static/main.js:165 | each destination pixel in the target rectangle whose source pixel exists takes that source pixel; every other pixel is unchanged |
| `Canvas2D.Canvas.DrawImageScaled` | static/main.js:180 | the w by h rectangle at the origin is filled from the whole source stretched over it; pixels outside it are unchanged |
| `Identify.CropImage` | static/main.js:161-165 | the temporary canvas is cropWidth by cropHeight and its pixel (i, j) is the photo's pixel (x1 + i, y1 + j) |
| `Identify.PadToSquare` | static/main.js:167-175 | the processed canvas is maxSide by maxSide; it holds crop pixel (i, j) at (padLeft + i, padTop + j) and the padding colour everywhere else |
| `Identify.Rescale` | static/main.js:177-185 | the processed canvas ends 224 by 224, whatever its previous size, and holds the padded square sampled at that size |
| `Identify.NormalizeRegion` | static/main.js:161-185 | for a non-empty crop inside the image, the processed canvas ends 224x224 and each of its pixels is the padded crop (crop pixels at the pad offset, padding colour elsewhere) sampled at the target size |
| `Identify.Normalize` | static/main.js:125-185 | the two selection failures as in SelectBestFace; a degenerate crop only for the selected box; every failure leaves the processed canvas, its size and its pixels unchanged; on success the crop is that of the best box, lies inside the image, and the processed canvas is 224x224 holding, at every pixel, the padded crop sampled at the target size |
| `Identify.Render` | static/main.js:198-232 | a non-empty error message shows as "Error: " + message with no links; a shape reply naming a table key shows its fields and the entry's female and male links; one naming an inherited `Object.prototype` member shows its fields with both links reading "undefined"; every other reply, including an error with an empty message, fails in processing |
| `Identify.RenderModelFailure` | static/main.js:200-201 | the answer {error: "model failure"} shows "Error: model failure" |
| `Identify.RenderOval` | static/main.js:26-29 | an "Oval" answer shows the Oval female and male links of the table |
| `Identify.RenderInheritedName` | static/main.js:198-216 | a "toString" answer finds the inherited method and shows both links as "undefined" |
| `Identify.RenderUnknownShape` | static/main.js:198-208 | a "Diamond" answer, neither a table key nor an inherited member, fails in processing |
| `Agreement.LabelsHaveLinks` | static/main.js:17-38 | every server label (Heart, Oblong, Oval, Round, Square) has an entry in the link table |
| `Agreement.LinksOnlyForLabels` | server.py:14 | every key of the link table is a server label |
| `Agreement.ServerShapeRenders` | static/main.js:198-216 | a shape reply naming a server label always renders with that label's links; the link lookup never fails |
| `PyStrings.Lower` | server.py:45 | lowering keeps the length and lowers each ASCII capital |
| `PyStrings.Split` | server.py:69 | split yields at least one field; no field contains the separator; exactly one field when the separator does not occur |
| `PyStrings.JoinSplit` | server.py:69 | joining the split fields with the separator gives back the string |
| `PyStrings.LastFieldIsTail` | server.py:69 | the last field has no separator and ends the string; it is the whole string when there is no separator, and otherwise a separator precedes it |
| `Server.Payload` | server.py:69 | the extracted payload is the text after the last comma, or the whole string when it has no comma, and contains no comma |
| `Server.Take` | server.py:52 | slicing to n keeps a prefix: the whole sequence when it has at most n elements, and exactly its first n elements otherwise |
| `Server.MatchingPaths` | server.py:49-51 | filtering a listing yields no more paths than files |
| `Server.MatchingPathsSound` | server.py:49-51 | every collected path is '/static/hairstyles/' + gender + '/' + file for a listed file whose lower-cased name starts with the shape and ends with an image extension |
| `Server.MatchingPathsComplete` | server.py:49-51 | every such listed file has its path collected |
| `Server.MatchingPathsAppend` | server.py:49-51 | the paths of a concatenated listing are the concatenated paths, so listing order is kept |
| `Server.GetSampleImages` | server.py:43-52 | the result is the first five matching paths in listing order; at most 5; empty for a missing folder; every path comes from a matching listed file |
| `Server.LabelsHaveRecommendations` | server.py:20-41 | every label of class_names, lower-cased, is a key of recommendations, so the lookups at server.py:87-88 never raise |
| `Server.Predict` | server.py:60-106 | no 'image' key gives 400 {'error': 'No image data'}; an exception in decoding or classification gives 500 with its message; an index past the labels gives 500 "list index out of range"; otherwise 200 with class_names[i], its recommendation texts and both sample-image lists; every 200 reply names a server label |

## Left out

- Face detection (`faceapi.detectAllFaces`, model loading) is external. Its boxes are an input sequence, with integer coordinates; float rounding of sub-pixel boxes is not modelled.
- `Canvas2D.Canvas.DrawImageScaled`: browsers interpolate when they scale. The model samples the nearest source pixel instead. Only the output size is a faithful claim; the per-pixel claims of `Identify.Rescale`, `Identify.NormalizeRegion` and `Identify.Normalize` describe this stand-in.
- `Canvas2D.Canvas.DrawImage`: copies source pixels. Source-over blending of translucent pixels is not modelled; the copy is exact for opaque pixels or a transparent destination.
- `Canvas2D.Canvas.FillRect`: assigns the colour instead of blending it over the old pixels. This is exact for an opaque colour, and the one fill in the handler (static/main.js:173-174) uses opaque black.
- `Canvas2D.Canvas.DrawImage`, `Canvas2D.Canvas.FillRect`, `Canvas2D.Canvas.ClearRect`: rectangle sizes are non-negative. The canvas rule that normalises negative sizes is not modelled; every call in the handler passes positive sizes.
- `Identify.Normalize`: a crop side below zero is treated like a zero side (`DegenerateCrop`). The browser's coercion of negative canvas sizes is not followed. On that path the source has already resized and filled the processed canvas before the throw; the model stops before touching it.
- JPEG encoding (`toDataURL`), the `fetch` call and JSON transport, the Flask routes and CORS.
- Alerts, DOM visibility toggles, the spinner, `loadModels`, `checkImageStatus`, `handleImageFile` and the `modelsLoaded`/`imageConfirmed` flags. These are UI glue.
- PIL decoding and resizing, numpy normalisation, `model.predict`, `argmax`, and the percentage formatting of the confidence are floats and foreign libraries. They enter `Server.Predict` as the `classify` parameter.
- `Server.Predict`: the case of a request body that is not a JSON object, and `'image'` values that are not strings, are not modelled. The request is a map from key to string.
- `Server.GetSampleImages`: a folder path that exists but is not a directory (where `os.listdir` raises) is not modelled.
- `PyStrings.Lower`: Python's `lower` is Unicode-wide; the model lowers ASCII capitals only. The labels and usual file names are ASCII.
- The debug `print` calls in `predict`.
