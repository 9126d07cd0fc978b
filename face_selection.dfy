/**
 * Choosing the face to normalise among the detector's boxes: the largest
 * box whose width and height both reach the minimum face dimension, the
 * first such box in input order when several share the largest area.
 */
module FaceSelection {
  import opened Wrappers

  /** Smallest width and height, in pixels, of a usable face box. */
  const MinFaceDimension: int := 50

  /** A detector box in source-image pixel coordinates. */
  datatype Box = Box(x: int, y: int, width: int, height: int)

  /** The two ways the selection can end without a face. */
  datatype SelectionError = NoFaceDetected | NoFaceWithSufficientSize

  function Area(b: Box): int
  {
    b.width * b.height
  }

  /** The size filter: both sides at least the minimum face dimension. */
  predicate Qualifies(b: Box)
  {
    b.width >= MinFaceDimension && b.height >= MinFaceDimension
  }

  /**
   * Index i holds the selected face: it qualifies, no qualifying box is
   * larger, and every qualifying box before it is strictly smaller.
   */
  predicate IsBestAt(boxes: seq<Box>, i: int)
  {
    && 0 <= i < |boxes|
    && Qualifies(boxes[i])
    && (forall j :: 0 <= j < |boxes| && Qualifies(boxes[j]) ==> Area(boxes[j]) <= Area(boxes[i]))
    && (forall j :: 0 <= j < i && Qualifies(boxes[j]) ==> Area(boxes[j]) < Area(boxes[i]))
  }

  lemma QualifyingAreaPositive(b: Box)
    requires Qualifies(b)
    ensures Area(b) > 0
  {
    assert b.width * b.height >= MinFaceDimension * b.height;
  }

  /**
   * The running-maximum loop of the identify handler, with its two failure
   * exits: an empty list, and a list in which no box passes the size filter.
   */
  method SelectBestFace(detections: seq<Box>) returns (r: Result<Box, SelectionError>)
    ensures r == Failure(NoFaceDetected) <==> |detections| == 0
    ensures r == Failure(NoFaceWithSufficientSize) <==>
      |detections| > 0 && forall j :: 0 <= j < |detections| ==> !Qualifies(detections[j])
    ensures r.Success? ==> exists i :: IsBestAt(detections, i) && detections[i] == r.value
  {
    if |detections| == 0 {
      return Failure(NoFaceDetected);
    }
    var bestFace: Option<Box> := None;
    var maxArea := 0;
    ghost var bestIndex := 0;
    for k := 0 to |detections|
      invariant bestFace.None? ==> maxArea == 0 && forall j :: 0 <= j < k ==> !Qualifies(detections[j])
      invariant bestFace.Some? ==>
        && 0 <= bestIndex < k
        && detections[bestIndex] == bestFace.value
        && Qualifies(bestFace.value)
        && maxArea == Area(bestFace.value)
        && (forall j :: 0 <= j < k && Qualifies(detections[j]) ==> Area(detections[j]) <= maxArea)
        && (forall j :: 0 <= j < bestIndex && Qualifies(detections[j]) ==> Area(detections[j]) < maxArea)
    {
      var det := detections[k];
      var area := det.width * det.height;
      if Qualifies(det) {
        QualifyingAreaPositive(det);
      }
      if area > maxArea && det.width >= MinFaceDimension && det.height >= MinFaceDimension {
        maxArea := area;
        bestFace := Some(det);
        bestIndex := k;
      }
    }
    if bestFace.None? {
      return Failure(NoFaceWithSufficientSize);
    }
    assert IsBestAt(detections, bestIndex);
    r := Success(bestFace.value);
  }

  /** A caller's view: a lone 40 by 40 box and an empty list fail in their two distinct ways. */
  method SelectionScenarios()
  {
    var tooSmall := SelectBestFace([Box(0, 0, 40, 40)]);
    assert tooSmall == Failure(NoFaceWithSufficientSize);
    var none := SelectBestFace([]);
    assert none == Failure(NoFaceDetected);
  }

  /** The conditions of IsBestAt single out one index: the selection is determined. */
  lemma BestIsUnique(boxes: seq<Box>, i: int, k: int)
    requires IsBestAt(boxes, i) && IsBestAt(boxes, k)
    ensures i == k
  {
  }
}
