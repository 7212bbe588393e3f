/**
 * The detector front end of the guidance screen: choosing the best
 * detection of the wanted class among a request's results, and the guard
 * chain that turns a hand-pose observation into an index-finger point.
 * The Vision requests themselves are inputs.
 */
module VisionTracker {
  import opened Wrappers
  import opened Geometry

  /** A classification label of a recognized object and its confidence. */
  datatype Label = Label(identifier: string, confidence: real)

  /** A recognized-object observation: its normalized box, its labels and its textual description. */
  datatype Detection = Detection(boundingBox: Rect, labels: seq<Label>, description: string)

  const MinimumLabelConfidence: real := 0.3

  /** The label at `(d, l)` names the wanted class with more than the minimum confidence. */
  predicate QualifiesAt(ds: seq<Detection>, target: string, d: int, l: int) {
    0 <= d < |ds| && 0 <= l < |ds[d].labels|
    && ds[d].labels[l].identifier == target && ds[d].labels[l].confidence > MinimumLabelConfidence
  }

  function Confidence(ds: seq<Detection>, d: int, l: int): real
    requires 0 <= d < |ds| && 0 <= l < |ds[d].labels|
  {
    ds[d].labels[l].confidence
  }

  /** `(d, l)` comes before `(d2, l2)` when detections are scanned in order, each label by label. */
  predicate ScannedBefore(d: int, l: int, d2: int, l2: int) {
    d < d2 || (d == d2 && l < l2)
  }

  /**
   * The label at `(d, l)` is the one the scan settles on: it qualifies, no
   * qualifying label is more confident, and every qualifying label scanned
   * before it is strictly less confident.
   */
  ghost predicate IsBest(ds: seq<Detection>, target: string, d: int, l: int) {
    QualifiesAt(ds, target, d, l)
    && (forall d2, l2 :: QualifiesAt(ds, target, d2, l2) ==> Confidence(ds, d2, l2) <= Confidence(ds, d, l))
    && (forall d2, l2 :: QualifiesAt(ds, target, d2, l2) && ScannedBefore(d2, l2, d, l) ==>
          Confidence(ds, d2, l2) < Confidence(ds, d, l))
  }

  ghost predicate AnyQualifies(ds: seq<Detection>, target: string) {
    exists d, l :: QualifiesAt(ds, target, d, l)
  }

  /** At most one label position is the best one, so the selection is determined. */
  lemma BestIsUnique(ds: seq<Detection>, target: string, d: int, l: int, d2: int, l2: int)
    requires IsBest(ds, target, d, l) && IsBest(ds, target, d2, l2)
    ensures d == d2 && l == l2
  {
  }

  /**
   * The nested scan of `processDetections`: a label replaces the current
   * choice when it qualifies and is strictly more confident than every
   * label chosen so far. Returns the position of the chosen label.
   */
  method SelectBest(ds: seq<Detection>, target: string) returns (best: Option<(int, int)>)
    ensures best.None? <==> !AnyQualifies(ds, target)
    ensures best.Some? ==> IsBest(ds, target, best.value.0, best.value.1)
  {
    var maxConfidence := 0.0;
    best := None;
    var d := 0;
    while d < |ds|
      invariant 0 <= d <= |ds|
      invariant best.None? ==> maxConfidence == 0.0
      invariant best.None? ==> forall d2, l2 :: QualifiesAt(ds, target, d2, l2) ==> d2 >= d
      invariant best.Some? ==> best.value.0 < d && QualifiesAt(ds, target, best.value.0, best.value.1)
      invariant best.Some? ==> maxConfidence == Confidence(ds, best.value.0, best.value.1)
      invariant forall d2, l2 :: QualifiesAt(ds, target, d2, l2) && d2 < d ==> Confidence(ds, d2, l2) <= maxConfidence
      invariant best.Some? ==> forall d2, l2 :: QualifiesAt(ds, target, d2, l2) && ScannedBefore(d2, l2, best.value.0, best.value.1) ==>
        Confidence(ds, d2, l2) < maxConfidence
    {
      var labels := ds[d].labels;
      var l := 0;
      while l < |labels|
        invariant 0 <= l <= |labels|
        invariant best.None? ==> maxConfidence == 0.0
        invariant best.None? ==> forall d2, l2 :: QualifiesAt(ds, target, d2, l2) ==> ScannedBefore(d, l - 1, d2, l2)
        invariant best.Some? ==> ScannedBefore(best.value.0, best.value.1, d, l) && QualifiesAt(ds, target, best.value.0, best.value.1)
        invariant best.Some? ==> maxConfidence == Confidence(ds, best.value.0, best.value.1)
        invariant forall d2, l2 :: QualifiesAt(ds, target, d2, l2) && ScannedBefore(d2, l2, d, l) ==> Confidence(ds, d2, l2) <= maxConfidence
        invariant best.Some? ==> forall d2, l2 :: QualifiesAt(ds, target, d2, l2) && ScannedBefore(d2, l2, best.value.0, best.value.1) ==>
          Confidence(ds, d2, l2) < maxConfidence
      {
        var candidate := labels[l];
        if candidate.identifier == target && candidate.confidence > MinimumLabelConfidence && candidate.confidence > maxConfidence {
          maxConfidence := candidate.confidence;
          best := Some((d, l));
        }
        l := l + 1;
      }
      d := d + 1;
    }
  }

  /** A hand keypoint in normalized image coordinates. */
  datatype Keypoint = Keypoint(location: Point, confidence: real)

  /** The keypoints of one hand-pose observation that the guidance reads; a missing one is `None`. */
  datatype HandObservation = HandObservation(
    wrist: Keypoint,
    middleTip: Option<Keypoint>,
    middlePIP: Option<Keypoint>,
    thumbTip: Option<Keypoint>,
    indexTip: Option<Keypoint>)

  /** The index-finger tip (if any), whether a hand was detected, and the hand size in pixels. */
  datatype HandReading = HandReading(indexTip: Option<Point>, handDetected: bool, handSize: real)

  /** The square of `distanceBetween`: the wrist-to-fingertip distance in image pixels. */
  function PixelDistanceSquared(p1: Point, p2: Point, imageWidth: real, imageHeight: real): (r: real)
    ensures r >= 0.0
  {
    var dx := (p2.x - p1.x) * imageWidth;
    var dy := (p2.y - p1.y) * imageHeight;
    assert dx * dx >= 0.0 && dy * dy >= 0.0;
    dx * dx + dy * dy
  }

  /** All keypoints the guard chain needs exist and the thumb and index tips are confident. */
  predicate HandUsable(obs: HandObservation) {
    obs.middleTip.Some? && obs.middlePIP.Some? && obs.thumbTip.Some? && obs.indexTip.Some?
    && obs.thumbTip.value.confidence > MinimumLabelConfidence
    && obs.indexTip.value.confidence > MinimumLabelConfidence
  }

  /**
   * `detectHand` after the pose request has run. `handSize` is the length
   * `distanceBetween` computes for the wrist and the middle-finger tip,
   * given as its non-negative square root.
   */
  function DetectHand(observation: Option<HandObservation>, imageWidth: real, imageHeight: real, handSize: real): (r: HandReading)
    requires observation.Some? && observation.value.middleTip.Some? ==>
      handSize >= 0.0 && handSize * handSize ==
        PixelDistanceSquared(observation.value.wrist.location, observation.value.middleTip.value.location, imageWidth, imageHeight)
    ensures r.handDetected <==> observation.Some? && HandUsable(observation.value)
    ensures r.handDetected ==> r.indexTip == Some(observation.value.indexTip.value.location) && r.handSize == handSize
    ensures !r.handDetected ==> r == HandReading(None, false, 0.0)
  {
    match observation
    case None => HandReading(None, false, 0.0)
    case Some(obs) =>
      if obs.middleTip.None? || obs.middlePIP.None? then HandReading(None, false, 0.0)
      else if obs.thumbTip.None? || obs.indexTip.None? then HandReading(None, false, 0.0)
      else if !(obs.thumbTip.value.confidence > MinimumLabelConfidence && obs.indexTip.value.confidence > MinimumLabelConfidence) then
        HandReading(None, false, 0.0)
      else HandReading(Some(obs.indexTip.value.location), true, handSize)
  }

  /** A confidence of exactly the threshold never yields a hand. */
  lemma ThresholdConfidenceRejected(obs: HandObservation, w: real, h: real, size: real)
    requires obs.thumbTip.Some? && obs.thumbTip.value.confidence == MinimumLabelConfidence
    requires obs.middleTip.Some? ==> size >= 0.0 && size * size == PixelDistanceSquared(obs.wrist.location, obs.middleTip.value.location, w, h)
    ensures !DetectHand(Some(obs), w, h, size).handDetected
  {
  }

  class VisionTrackerProcessor {
    var objectToDetect: string
    var detectedObject: Option<Detection>
    var hasOrientation: bool
    var centerDetectedObservation: Point
    var centerDetectionActive: bool
    var didInitialize: bool

    constructor()
      ensures objectToDetect == "" && detectedObject.None? && hasOrientation
      ensures centerDetectedObservation == Origin && !centerDetectionActive && !didInitialize
    {
      objectToDetect := "";
      detectedObject := None;
      hasOrientation := true;
      centerDetectedObservation := Origin;
      centerDetectionActive := false;
      didInitialize := false;
    }

    /**
     * Completion of a detection request: with no results nothing changes;
     * otherwise the detection holding the best qualifying label is kept, or
     * nothing when no label qualifies.
     */
    method ProcessDetections(results: Option<seq<Detection>>)
      modifies this
      ensures results.None? ==> detectedObject == old(detectedObject)
      ensures results.Some? && !AnyQualifies(results.value, objectToDetect) ==> detectedObject.None?
      ensures results.Some? && AnyQualifies(results.value, objectToDetect) ==>
        exists d, l :: IsBest(results.value, objectToDetect, d, l) && detectedObject == Some(results.value[d])
      ensures objectToDetect == old(objectToDetect) && hasOrientation == old(hasOrientation)
      ensures centerDetectedObservation == old(centerDetectedObservation)
      ensures centerDetectionActive == old(centerDetectionActive) && didInitialize == old(didInitialize)
    {
      if results.Some? {
        var best := SelectBest(results.value, objectToDetect);
        match best
        case None => detectedObject := None;
        case Some((d, l)) => detectedObject := Some(results.value[d]);
      }
    }

    /**
     * Runs detection on a frame. Without a pixel buffer or an orientation
     * the detection is cleared; otherwise the request's results are
     * processed. Returns the detection then held.
     */
    method DetectObject(hasImage: bool, results: Option<seq<Detection>>) returns (detected: Option<Detection>)
      modifies this
      ensures !(hasImage && hasOrientation) ==> detectedObject.None?
      ensures hasImage && hasOrientation && results.None? ==> detectedObject == old(detectedObject)
      ensures hasImage && hasOrientation && results.Some? && !AnyQualifies(results.value, objectToDetect) ==> detectedObject.None?
      ensures hasImage && hasOrientation && results.Some? && AnyQualifies(results.value, objectToDetect) ==>
        exists d, l :: IsBest(results.value, objectToDetect, d, l) && detectedObject == Some(results.value[d])
      ensures detected == detectedObject
      ensures objectToDetect == old(objectToDetect) && hasOrientation == old(hasOrientation)
    {
      if hasImage && hasOrientation {
        ProcessDetections(results);
      } else {
        detectedObject := None;
      }
      detected := detectedObject;
    }

    method CalculateDetectedObservationCenter(rect: Rect)
      modifies this
      ensures centerDetectionActive
      ensures centerDetectedObservation == Point(rect.MidX(), rect.MidY())
      ensures objectToDetect == old(objectToDetect) && detectedObject == old(detectedObject)
      ensures didInitialize == old(didInitialize) && hasOrientation == old(hasOrientation)
    {
      centerDetectionActive := true;
      centerDetectedObservation := Point(rect.MidX(), rect.MidY());
    }

    method Reset()
      modifies this
      ensures !didInitialize && !centerDetectionActive
      ensures objectToDetect == old(objectToDetect) && detectedObject == old(detectedObject)
      ensures centerDetectedObservation == old(centerDetectedObservation) && hasOrientation == old(hasOrientation)
    {
      didInitialize := false;
      centerDetectionActive := false;
    }
  }
}
