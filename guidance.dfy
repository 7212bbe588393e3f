/**
 * The guidance screen: its detection-then-tracking state machine, the
 * per-frame update, the bodies of its detector, hand, stabiliser and
 * bracelet loops, its gestures and its reset. Each loop body is one atomic
 * step; the camera, the detector results and the hand observation are
 * parameters of the step that reads them.
 */
module Guidance {
  import opened Wrappers
  import opened Numeric
  import opened Decimal
  import opened Geometry
  import opened CommonTypes
  import opened VisionTracker
  import TV = TrackingView
  import opened BufferTypes
  import FB = Feedback
  import opened GuidanceRules
  import opened FeatureSelection

  datatype TrackingState = Detection | Tracking | Stopped

  /** The camera frame last delivered by the AR session: its pixel size and the focal length in pixels. */
  datatype Frame = Frame(width: real, height: real, focalLength: real)

  /**
   * What the detector loop knows about the target: the detection it holds,
   * the mirrored box centre in normalized coordinates (zero when nothing is
   * detected), the box size, the class read from the label and the
   * distance estimated from the box.
   */
  datatype TargetReading = TargetReading(
    detectedObject: Option<Detection>,
    isObjectDetected: bool,
    targetPositionModel: Point,
    currentTargetHeight: real,
    currentTargetWidth: real,
    targetClass: Option<GroceryItem>,
    distanceTargetFromDimensions: real)

  const NoTarget: TargetReading := TargetReading(None, false, Origin, 0.0, 0.0, None, 0.0)

  /** What the hand loop knows: the index-tip point, whether a hand is guided, its size and the loop period. */
  datatype HandState = HandState(handPosition: Option<Point>, isHandDetected: bool, handSize: real, callHandInterval: real)

  const CallHandInterval: real := 1.0
  const CallHandIntervalIfDetected: real := 0.2
  const NoHand: HandState := HandState(None, false, 0.0, CallHandInterval)

  /**
   * The virtual anchor and the scene: the anchor's position, the number of
   * nodes under the scene's root and how many of them are target spheres,
   * the anchor's last projection and whether it lies in view, the depth
   * read along its ray, and the stabiliser's memory (last box estimate and
   * largest box seen).
   */
  datatype Anchor = Anchor(
    targetNode: Option<Vec3>,
    sceneNodes: nat,
    spheres: nat,
    targetPositionProjection: Point,
    objectInView: bool,
    distanceTargetFromAnchor: real,
    previousDistance: real,
    maxWidth: real,
    maxHeight: real)

  /** A detection the guidance can use: a box of positive size. */
  predicate Usable(d: Detection) {
    d.boundingBox.size.width > 0.0 && d.boundingBox.size.height > 0.0
  }

  /**
   * `extractClass`: the class named by the description's first label; when
   * no label can be read the class already held is kept.
   */
  function ClassAfter(description: string, previous: Option<GroceryItem>): (r: Option<GroceryItem>)
    ensures ExtractLabel(description).Some? ==> r == Some(GroceryItem(ExtractLabel(description).value))
    ensures ExtractLabel(description).None? ==> r == previous
    ensures previous.Some? ==> r.Some?
  {
    match ExtractLabel(description)
    case Some(firstLabel) => Some(GroceryItem(firstLabel))
    case None => previous
  }

  /**
   * The detector loop reads the class's height right after `extractClass`,
   * through an implicitly unwrapped optional: a class must be known by then.
   */
  predicate Classifiable(d: Detection, previous: Option<GroceryItem>) {
    Usable(d) && (previous.Some? || ExtractLabel(d.description).Some?)
  }

  /**
   * The normalized point the detector loop stores for a box: its centre,
   * mirrored on both axes.
   */
  function ModelPoint(box: Rect): (r: Point)
    ensures r.x + box.MidX() == 1.0 && r.y + box.MidY() == 1.0
  {
    Point(1.0 - (box.origin.x + box.size.width / 2.0), 1.0 - (box.origin.y + box.size.height / 2.0))
  }

  /**
   * A box centred on the image corner (1, 1) gives the zero point, which
   * the rest of the screen reads as "no target".
   */
  lemma CornerBoxLooksLikeNoTarget(w: real, h: real)
    ensures ModelPoint(Rect(Point(1.0 - w / 2.0, 1.0 - h / 2.0), Size(w, h))) == Origin
  {
  }

  /**
   * The double-tap gate: an anchor is placed at the box distance along the
   * ray through the on-screen target when the target point is set, the
   * scene does not yet have three nodes, the camera has a frame, and the
   * anchor reprojects within 10 points of the target on both axes.
   */
  function PlaceAnchor(camera: Camera, targetPoint: Point, depth: real, sceneNodes: nat): (r: Option<Vec3>)
    requires camera.Valid()
    ensures r.Some? <==> (targetPoint != Origin && sceneNodes != 3 && camera.position.Some?
      && AnchorAccepted(camera.project(Calculate3DPosition(camera, targetPoint, depth).value), targetPoint))
    ensures r.Some? ==> RawDistance(camera, camera.position.value, r.value, targetPoint) == depth
  {
    if targetPoint != Origin && sceneNodes != 3 then
      match Calculate3DPosition(camera, targetPoint, depth)
      case None => None
      case Some(p) =>
        if AnchorAccepted(camera.project(p), targetPoint) then
          DistanceOfPlacedPoint(camera, targetPoint, depth);
          Some(p)
        else None
    else None
  }

  /** What `reset` does to the detector loop's reading: the class and the detection flag survive. */
  function ResetTarget(t: TargetReading): (r: TargetReading)
    ensures r.detectedObject.None? && r.targetPositionModel == Origin
    ensures r.currentTargetHeight == 0.0 && r.currentTargetWidth == 0.0 && r.distanceTargetFromDimensions == 0.0
    ensures r.targetClass == t.targetClass && r.isObjectDetected == t.isObjectDetected
  {
    t.(detectedObject := None, targetPositionModel := Origin, currentTargetHeight := 0.0,
       currentTargetWidth := 0.0, distanceTargetFromDimensions := 0.0)
  }

  /** What `reset` does to the hand: the index-tip point and the loop period survive. */
  function ResetHand(h: HandState): (r: HandState)
    ensures !r.isHandDetected && r.handSize == 0.0
    ensures r.handPosition == h.handPosition && r.callHandInterval == h.callHandInterval
  {
    h.(isHandDetected := false, handSize := 0.0)
  }

  /**
   * What `reset` does to the anchor: one target sphere (if any) leaves the
   * scene, but the anchor position and the stabiliser's memory survive.
   */
  function ResetAnchor(a: Anchor): (r: Anchor)
    ensures r.targetPositionProjection == Origin && !r.objectInView && r.distanceTargetFromAnchor == 0.0
    ensures a.spheres > 0 && a.sceneNodes > 0 ==> r.spheres == a.spheres - 1 && r.sceneNodes == a.sceneNodes - 1
    ensures !(a.spheres > 0 && a.sceneNodes > 0) ==> r.spheres == a.spheres && r.sceneNodes == a.sceneNodes
    ensures r.targetNode == a.targetNode && r.previousDistance == a.previousDistance
    ensures r.maxWidth == a.maxWidth && r.maxHeight == a.maxHeight
  {
    var (nodes, spheres) := if a.spheres > 0 && a.sceneNodes > 0 then (a.sceneNodes - 1, a.spheres - 1) else (a.sceneNodes, a.spheres);
    a.(sceneNodes := nodes, spheres := spheres, targetPositionProjection := Origin, objectInView := false,
       distanceTargetFromAnchor := 0.0)
  }

  /** Resetting twice is resetting once, for the reading and the hand. */
  lemma ResetTargetAndHandIdempotent(t: TargetReading, h: HandState)
    ensures ResetTarget(ResetTarget(t)) == ResetTarget(t)
    ensures ResetHand(ResetHand(h)) == ResetHand(h)
  {
  }

  /**
   * For the anchor only while at most one target sphere is in the scene:
   * each reset removes one more sphere.
   */
  lemma ResetAnchorIdempotence(a: Anchor)
    ensures a.spheres <= 1 ==> ResetAnchor(ResetAnchor(a)) == ResetAnchor(a)
    ensures a.spheres >= 2 && a.sceneNodes >= 2 ==> ResetAnchor(ResetAnchor(a)).spheres == a.spheres - 2
  {
  }

  /**
   * The stabiliser's new anchor position, if it moves the anchor: when the
   * decision is to move, the point at the filtered anchor depth along the
   * ray through the scaled model point, kept only if it reprojects within
   * 10 points of that point on either axis.
   */
  function StabilisedPosition(camera: Camera, decision: Correction, current3D: Vec3, projection: Point,
                              scaledModel: Point, previousDistance: real, newDistance: real): (r: Option<Vec3>)
    requires camera.Valid()
    ensures decision == NoCorrection ==> r.None?
    ensures r.Some? ==> camera.position.Some? && CorrectionAccepted(camera.project(r.value), scaledModel)
    ensures r.Some? && decision == MoveToAnchorDepth ==>
      r == Calculate3DPosition(camera, scaledModel, ComputeDistance(camera, current3D, projection, previousDistance).value)
  {
    var newPosition :=
      if decision == MoveToAnchorDepth then
        match ComputeDistance(camera, current3D, projection, previousDistance)
        case Some(distanceAnchor) => Calculate3DPosition(camera, scaledModel, distanceAnchor)
        case None => None
      else if decision == MoveToBoxDepth then Calculate3DPosition(camera, scaledModel, newDistance)
      else None;
    match newPosition
    case Some(p) => if CorrectionAccepted(camera.project(p), scaledModel) then Some(p) else None
    case None => None
  }

  /** A moved anchor is read back along the ray through the scaled model point at the depth it was placed at. */
  lemma StabilisedPositionDepth(camera: Camera, current3D: Vec3, projection: Point,
                                scaledModel: Point, previousDistance: real, newDistance: real)
    requires camera.Valid()
    ensures var r := StabilisedPosition(camera, MoveToAnchorDepth, current3D, projection, scaledModel, previousDistance, newDistance);
      r.Some? ==>
        RawDistance(camera, camera.position.value, r.value, scaledModel)
          == ComputeDistance(camera, current3D, projection, previousDistance).value
  {
    var r := StabilisedPosition(camera, MoveToAnchorDepth, current3D, projection, scaledModel, previousDistance, newDistance);
    if r.Some? {
      DistanceOfPlacedPoint(camera, scaledModel, ComputeDistance(camera, current3D, projection, previousDistance).value);
    }
  }

  /**
   * What the detector loop stores for a usable detection in a frame: the
   * mirrored box centre, the box size, the class named by the label, and
   * the pinhole distance for that class's real height.
   */
  function ReadDetection(d: Detection, focalLength: real, frame: Frame, previous: Option<GroceryItem>): (r: TargetReading)
    requires Classifiable(d, previous) && frame.width > 0.0 && frame.height > 0.0
    ensures r.detectedObject == Some(d) && r.isObjectDetected
    ensures r.targetPositionModel.x + d.boundingBox.MidX() == 1.0 && r.targetPositionModel.y + d.boundingBox.MidY() == 1.0
    ensures r.currentTargetWidth == d.boundingBox.size.width > 0.0 && r.currentTargetHeight == d.boundingBox.size.height > 0.0
    ensures r.targetClass == ClassAfter(d.description, previous) && r.targetClass.Some?
    ensures r.distanceTargetFromDimensions ==
      DetectionDepth(focalLength, r.targetClass.value.Height(), r.currentTargetWidth, r.currentTargetHeight, frame.width, frame.height)
  {
    var box := d.boundingBox;
    var item := ClassAfter(d.description, previous);
    var depth := DetectionDepth(focalLength, item.value.Height(), box.size.width, box.size.height, frame.width, frame.height);
    TargetReading(Some(d), true, ModelPoint(box), box.size.height, box.size.width, item, depth)
  }

  /**
   * `computeAngle` for the reference-minus-target offset `(dx, dy)`, read
   * through the bearing function the frame update is given.
   */
  function Angle(bearing: (real, real) -> real, dx: real, dy: real): real {
    bearing(dx, dy)
  }

  class GuidanceController {
    const config: Configuration
    const feedback: FB.FeedbackProcessor
    const view: TV.TrackingImageView
    const vision: VisionTrackerProcessor
    const objectBuffer: ObjectBuffer
    var trackingState: TrackingState
    var currentFrame: Option<Frame>
    var focalLength: real
    var target: TargetReading
    var hand: HandState
    var anchor: Anchor
    var referencePoint: Point
    var isDistanceShared: bool
    var targetLost: bool
    var playTargetLost: bool
    /** The strings written to the bracelet so far, oldest first. */
    var braceletMessages: seq<string>

    ghost predicate Valid()
      reads this`currentFrame, this`target, this`anchor, vision`detectedObject, view`cvPixelSize
      reads feedback`interBipTime, feedback`pan, feedback`braceletState, objectBuffer`buffer
    {
      PartsValid() && DetectorValid()
    }

    /** Everything `Valid` asks except what it asks of the detector. */
    ghost predicate PartsValid()
      reads this`currentFrame, this`target, this`anchor, view`cvPixelSize
      reads feedback`interBipTime, feedback`pan, feedback`braceletState, objectBuffer`buffer
    {
      feedback.Valid() && objectBuffer.Valid() && CanScale() && StateValid()
    }

    /** The detection the detector holds is usable and its class is known. */
    ghost predicate DetectorValid()
      reads vision`detectedObject, this`target
    {
      vision.detectedObject.Some? ==> Usable(vision.detectedObject.value) && target.targetClass.Some?
    }

    /**
     * The stored frame has a positive size, a stored target point comes with
     * a box of positive size and a class, and every sphere is a scene node.
     */
    ghost predicate StateValid()
      reads this`currentFrame, this`target, this`anchor
    {
      (currentFrame.Some? ==> currentFrame.value.width > 0.0 && currentFrame.value.height > 0.0)
      && (target.targetPositionModel != Origin ==>
            target.currentTargetWidth > 0.0 && target.currentTargetHeight > 0.0 && target.targetClass.Some?)
      && anchor.spheres <= anchor.sceneNodes
    }

    /**
     * The screen has a size in pixels and the camera image is not exactly
     * twice as wide as the screen, so `scale(cornerPoint:)` and
     * `scaleRect` are defined.
     */
    predicate CanScale()
      reads view`cvPixelSize
    {
      view.screenWidthInPixels != 0.0 && view.screenHeightInPixels != 0.0
      && view.cvPixelSize.width != 2.0 * view.screenWidthInPixels
    }

    /** `trackingView.scaleRect`: a normalized box size in view points. */
    function ScaledSize(width: real, height: real): (real, real)
      reads view`cvPixelSize
      requires CanScale()
    {
      TV.ScaleRect(width, height, view.cvPixelSize, view.screenSize, view.screenWidthInPixels, view.screenHeightInPixels)
    }

    /** `trackingView.scale(cornerPoint:)`. */
    function ScaledPoint(p: Point): Point
      reads view`imageAreaRect, view`cvPixelSize
      requires CanScale()
    {
      TV.ScaleDefinedUnlessDoubleWidth(view.cvPixelSize.width, view.screenWidthInPixels);
      TV.Scale(p, view.imageAreaRect.size, view.cvPixelSize.width, view.screenWidthInPixels)
    }

    /**
     * `viewDidLoad` and `initializeModules`: the feedback processor takes the
     * chosen settings and the detector the chosen object; the scene starts
     * with `sceneNodes` nodes and no sphere.
     */
    constructor(config: Configuration, screenSize: Size, screenScale: real, targetLostPlayerLoaded: bool, sceneNodes: nat)
      requires screenSize.width > 0.0 && screenSize.height > 0.0 && screenScale > 0.0
      ensures Valid() && this.config == config
      ensures trackingState == TrackingState.Detection && currentFrame.None?
      ensures feedback.settings == FB.Settings(config.feedbackUsed, config.verticalType, config.verticalSlope,
                                               config.depthSlope, config.oralFeedbackEnabled)
      ensures vision.objectToDetect == config.objectToDetect
      ensures anchor.sceneNodes == sceneNodes && anchor.spheres == 0 && anchor.targetNode.None?
      ensures objectBuffer.maxSize == 10
    {
      var fb := new FB.FeedbackProcessor(targetLostPlayerLoaded);
      fb.settings := FB.Settings(config.feedbackUsed, config.verticalType, config.verticalSlope,
                                 config.depthSlope, config.oralFeedbackEnabled);
      var tv := new TV.TrackingImageView(screenSize, screenScale);
      TV.PixelsPositive(screenSize, screenScale);
      var vp := new VisionTrackerProcessor();
      vp.objectToDetect := config.objectToDetect;
      var ob := new ObjectBuffer(10);
      this.config := config;
      feedback := fb;
      view := tv;
      vision := vp;
      objectBuffer := ob;
      trackingState := TrackingState.Detection;
      currentFrame := None;
      focalLength := 0.0;
      target := NoTarget;
      hand := NoHand;
      anchor := Anchor(None, sceneNodes, 0, Origin, false, 0.0, 0.0, 0.0, 0.0);
      referencePoint := Origin;
      isDistanceShared := false;
      targetLost := false;
      playTargetLost := true;
      braceletMessages := [];
    }

    /** `handleTap`: the distance while tracking; otherwise the direction if a target is shown, else "Keep searching". */
    method HandleTap()
      modifies feedback`effects
      ensures trackingState == Tracking ==>
        feedback.effects == old(feedback.effects) + [FB.Speak(FB.DistanceIndication(feedback.indicationMessage, target.distanceTargetFromDimensions))]
      ensures trackingState != Tracking && view.targetPoint != Origin ==>
        feedback.effects == old(feedback.effects) + (if feedback.settings.oralFeedbackEnabled then [FB.Speak(feedback.indicationMessage)] else [])
      ensures trackingState != Tracking && view.targetPoint == Origin ==>
        feedback.effects == old(feedback.effects) + [FB.Speak("Keep searching")]
    {
      if trackingState == Tracking {
        feedback.IndicateDistanceFromTarget(target.distanceTargetFromDimensions);
      } else if view.targetPoint != Origin {
        feedback.IndicateDirectionOrally();
      } else {
        feedback.PlayIndication("Keep searching");
      }
    }

    /**
     * `handleDoubleTap`: places the anchor sphere when `PlaceAnchor` accepts
     * it; a placement that reprojects too far asks the user to try again.
     */
    method DoubleTap(camera: Camera)
      requires Valid() && camera.Valid()
      modifies this`anchor, feedback`effects
      ensures Valid()
      ensures var p := PlaceAnchor(camera, view.targetPoint, target.distanceTargetFromDimensions, old(anchor.sceneNodes));
        if p.Some? then
          anchor == old(anchor).(targetNode := p, sceneNodes := old(anchor.sceneNodes) + 1, spheres := old(anchor.spheres) + 1)
          && feedback.effects == old(feedback.effects)
        else
          anchor == old(anchor)
          && feedback.effects == old(feedback.effects) +
               (if view.targetPoint != Origin && old(anchor.sceneNodes) != 3 && camera.position.Some?
                then [FB.Speak("Try again - " + view.indicationMessage)] else [])
    {
      var scaledTargetPoint := view.targetPoint;
      if scaledTargetPoint != Origin && anchor.sceneNodes != 3 {
        match Calculate3DPosition(camera, scaledTargetPoint, target.distanceTargetFromDimensions)
        case None =>
        case Some(spherePosition) =>
          if AnchorAccepted(camera.project(spherePosition), scaledTargetPoint) {
            anchor := anchor.(targetNode := Some(spherePosition), sceneNodes := anchor.sceneNodes + 1,
                              spheres := anchor.spheres + 1);
          } else {
            feedback.PlayIndication("Try again - " + view.indicationMessage);
          }
      }
    }

    /**
     * `reset`: back to detection with the per-target state cleared, the
     * feedback, overlay and point buffer reset and one target sphere removed
     * from the scene. The class, the anchor position, the hand point, the
     * hand loop period and the stabiliser's memory are kept.
     */
    method Reset()
      requires Valid()
      modifies this`trackingState, this`target, this`hand, this`anchor, this`referencePoint
      modifies this`isDistanceShared, this`targetLost, this`playTargetLost
      modifies feedback`observation, feedback`interBipTime, feedback`isCentered, feedback`indicationMessage
      modifies feedback`directionMessage, view, objectBuffer
      ensures Valid()
      ensures trackingState == TrackingState.Detection
      ensures target == ResetTarget(old(target)) && hand == ResetHand(old(hand)) && anchor == ResetAnchor(old(anchor))
      ensures referencePoint == Origin && !isDistanceShared && !targetLost && playTargetLost
      ensures feedback.observation == FB.NoObservation && feedback.interBipTime == FB.DefaultInterBipTime
      ensures !feedback.isCentered && feedback.indicationMessage == FB.LookAroundMessage
      ensures view.IsReset() && objectBuffer.buffer == []
    {
      ResetModules();
      ResetState();
    }

    /** The part of `reset` done by the feedback processor, the overlay and the point buffer. */
    method ResetModules()
      requires feedback.Valid() && objectBuffer.Valid()
      modifies feedback`observation, feedback`interBipTime, feedback`isCentered, feedback`indicationMessage
      modifies feedback`directionMessage, view, objectBuffer
      ensures feedback.Valid() && objectBuffer.Valid()
      ensures feedback.observation == FB.NoObservation && feedback.interBipTime == FB.DefaultInterBipTime
      ensures !feedback.isCentered && feedback.indicationMessage == FB.LookAroundMessage
      ensures view.IsReset() && objectBuffer.buffer == []
    {
      feedback.ResetAudio();
      view.ResetTracking();
      objectBuffer.ClearBuffer();
    }

    /** The part of `reset` done on the screen's own state. */
    method ResetState()
      requires StateValid()
      modifies this`trackingState, this`target, this`hand, this`anchor, this`referencePoint
      modifies this`isDistanceShared, this`targetLost, this`playTargetLost
      ensures StateValid()
      ensures trackingState == TrackingState.Detection
      ensures target == ResetTarget(old(target)) && hand == ResetHand(old(hand)) && anchor == ResetAnchor(old(anchor))
      ensures referencePoint == Origin && !isDistanceShared && !targetLost && playTargetLost
    {
      trackingState := TrackingState.Detection;
      target, hand, anchor := ResetTarget(target), ResetHand(hand), ResetAnchor(anchor);
      referencePoint, isDistanceShared, targetLost, playTargetLost := Origin, false, false, true;
    }

    /** `handleLongPress`: announces the reset, then resets. */
    method LongPress()
      requires Valid()
      modifies this`trackingState, this`target, this`hand, this`anchor, this`referencePoint
      modifies this`isDistanceShared, this`targetLost, this`playTargetLost
      modifies feedback`observation, feedback`interBipTime, feedback`isCentered, feedback`indicationMessage
      modifies feedback`directionMessage, feedback`effects, view, objectBuffer
      ensures Valid()
      ensures feedback.effects == old(feedback.effects) + [FB.Speak("Resetting")]
      ensures trackingState == TrackingState.Detection
      ensures target == ResetTarget(old(target)) && hand == ResetHand(old(hand)) && anchor == ResetAnchor(old(anchor))
    {
      feedback.PlayIndication("Resetting");
      Reset();
    }

    /**
     * One pass of the bracelet loop: the message `BraceletMessage` gives for
     * the feedback's bracelet state and beep period, appended to what was
     * sent. The period is converted with `Int(_:)`, which traps beyond the
     * 64-bit range.
     */
    method BraceletTick() returns (message: Option<string>)
      requires Valid()
      requires feedback.interBipTime * 1000.0 <= Int64Max as real
      modifies this`braceletMessages
      ensures message == BraceletMessage(feedback.braceletState, trackingState == Tracking, feedback.interBipTime,
                                         hand.isHandDetected, config.holdingHand)
      ensures message.Some? ==>
        && ParseBraceletMessage(message.value).Some?
        && ParseBraceletMessage(message.value).value.1 >= 100
        && ParseBraceletMessage(message.value).value.0 in Sectors + {"0"}
      ensures braceletMessages == old(braceletMessages) + (if message.Some? then [message.value] else [])
    {
      message := BraceletMessage(feedback.braceletState, trackingState == Tracking, feedback.interBipTime,
                                 hand.isHandDetected, config.holdingHand);
      if message.Some? {
        BraceletMessageDecodes(feedback.braceletState, feedback.interBipTime, hand.isHandDetected, config.holdingHand);
        braceletMessages := braceletMessages + [message.value];
      }
    }

    /**
     * One pass of the hand loop, on the stored frame. A found index tip
     * becomes the reference point (scaled to the view), announced with
     * "Hand" when the loop was at its slow period, and the largest hand size
     * is kept; otherwise the view's centre stays the reference and "Frame"
     * is announced when the loop was at its fast period.
     */
    method HandTrackingStep(observation: Option<HandObservation>, handSize: real)
      requires Valid()
      requires currentFrame.Some? && observation.Some? && observation.value.middleTip.Some? ==>
        handSize >= 0.0 && handSize * handSize ==
          PixelDistanceSquared(observation.value.wrist.location, observation.value.middleTip.value.location,
                               currentFrame.value.width, currentFrame.value.height)
      modifies this`hand, this`referencePoint, feedback`observation, feedback`effects, view`handPoint
      ensures Valid()
      ensures currentFrame.None? ==>
        hand == old(hand) && referencePoint == old(referencePoint) && view.handPoint == old(view.handPoint)
        && feedback.observation == old(feedback.observation) && feedback.effects == old(feedback.effects)
      ensures currentFrame.Some? ==>
        var reading := DetectHand(observation, currentFrame.value.width, currentFrame.value.height, handSize);
        && hand.handPosition == reading.indexTip && hand.handSize == reading.handSize
        && feedback.observation.handDetected == reading.handDetected
        && (reading.indexTip.Some? ==>
              && hand.isHandDetected && hand.callHandInterval == CallHandIntervalIfDetected
              && view.handPoint == reading.indexTip.value
              && referencePoint == ScaledPoint(reading.indexTip.value)
              && feedback.observation == old(feedback.observation).(handDetected := true, handSize := reading.handSize,
                   maxHandSize := Max(old(feedback.observation.maxHandSize), reading.handSize))
              && feedback.effects == old(feedback.effects) +
                   (if old(hand.callHandInterval) == CallHandInterval then [FB.Speak("Hand")] else []))
        && (reading.indexTip.None? ==>
              && !hand.isHandDetected && hand.callHandInterval == CallHandInterval
              && view.handPoint == Origin && referencePoint == old(referencePoint)
              && feedback.observation == old(feedback.observation).(handDetected := false)
              && feedback.effects == old(feedback.effects) +
                   (if old(hand.callHandInterval) == CallHandIntervalIfDetected then [FB.Speak("Frame")] else []))
    {
      if currentFrame.None? {
        return;
      }
      var frame := currentFrame.value;
      var reading := DetectHand(observation, frame.width, frame.height, handSize);
      var detected := reading.handDetected;
      match reading.indexTip
      case Some(tip) =>
        if hand.callHandInterval == CallHandInterval {
          feedback.PlayIndication("Hand");
        }
        view.handPoint := tip;
        var maxHandSize := if reading.handSize > feedback.observation.maxHandSize then reading.handSize
                           else feedback.observation.maxHandSize;
        feedback.observation := feedback.observation.(handDetected := detected, handSize := reading.handSize,
                                                      maxHandSize := maxHandSize);
        hand, referencePoint := HandState(Some(tip), detected, reading.handSize, CallHandIntervalIfDetected), ScaledPoint(tip);
      case None =>
        if hand.callHandInterval == CallHandIntervalIfDetected {
          feedback.PlayIndication("Frame");
        }
        view.handPoint := Origin;
        feedback.observation := feedback.observation.(handDetected := detected);
        hand := HandState(None, false, reading.handSize, CallHandInterval);
    }

    /**
     * One pass of the detector loop, on the stored frame: the detector keeps
     * its best detection of the wanted class, which `RecordDetection` then
     * stores.
     */
    method ObjectTrackingStep(results: Option<seq<Detection>>)
      requires Valid()
      requires results.Some? ==> forall d, l :: QualifiesAt(results.value, vision.objectToDetect, d, l) ==>
        Classifiable(results.value[d], target.targetClass)
      modifies this`target, vision, view`targetWidth, view`targetHeight, view`targetPoint
      modifies feedback`observation, feedback`effects
      ensures Valid()
      ensures currentFrame.None? ==>
        target == old(target) && vision.detectedObject == old(vision.detectedObject)
        && view.targetPoint == old(view.targetPoint) && view.targetWidth == old(view.targetWidth)
        && view.targetHeight == old(view.targetHeight)
        && feedback.observation == old(feedback.observation) && feedback.effects == old(feedback.effects)
      ensures currentFrame.Some? && vision.hasOrientation && results.Some? ==>
        (vision.detectedObject.None? <==> !AnyQualifies(results.value, vision.objectToDetect))
      ensures currentFrame.Some? && vision.hasOrientation && results.None? ==> vision.detectedObject == old(vision.detectedObject)
      ensures vision.detectedObject.Some? ==> Classifiable(vision.detectedObject.value, old(target.targetClass))
      ensures currentFrame.Some? && vision.detectedObject.Some? ==>
        && target == ReadDetection(vision.detectedObject.value, focalLength, currentFrame.value, old(target.targetClass))
        && view.targetPoint == old(view.targetPoint)
        && (view.targetWidth, view.targetHeight) == ScaledSize(target.currentTargetWidth, target.currentTargetHeight)
        && feedback.observation == old(feedback.observation).(targetWidth := view.targetWidth, targetHeight := view.targetHeight)
        && feedback.effects == old(feedback.effects) + (if trackingState == TrackingState.Detection then [FB.Haptic] else [])
      ensures currentFrame.Some? && vision.detectedObject.None? ==>
        && target == old(target).(detectedObject := None, isObjectDetected := false, targetPositionModel := Origin)
        && view.targetPoint == Origin && view.targetWidth == old(view.targetWidth) && view.targetHeight == old(view.targetHeight)
        && feedback.observation == old(feedback.observation) && feedback.effects == old(feedback.effects)
    {
      if currentFrame.None? {
        return;
      }
      var detected := vision.DetectObject(true, results);
      SelectionClassifiable(results, vision.objectToDetect, target.targetClass, detected, old(vision.detectedObject));
      RecordDetection(detected);
    }

    /**
     * Stores what the detector loop holds: a detection gives the mirrored
     * box centre, the box size (also scaled to the view for the feedback),
     * the class and the distance estimated from the box, with a haptic pulse
     * while still detecting; no detection clears the target point.
     */
    method RecordDetection(detected: Option<Detection>)
      requires PartsValid() && currentFrame.Some?
      requires detected.Some? ==> Classifiable(detected.value, target.targetClass)
      requires vision.detectedObject == detected
      modifies this`target, view`targetWidth, view`targetHeight, view`targetPoint
      modifies feedback`observation, feedback`effects
      ensures Valid()
      ensures detected.Some? ==>
        && target == ReadDetection(detected.value, focalLength, currentFrame.value, old(target.targetClass))
        && view.targetPoint == old(view.targetPoint)
        && (view.targetWidth, view.targetHeight) == ScaledSize(target.currentTargetWidth, target.currentTargetHeight)
        && feedback.observation == old(feedback.observation).(targetWidth := view.targetWidth, targetHeight := view.targetHeight)
        && feedback.effects == old(feedback.effects) + (if trackingState == TrackingState.Detection then [FB.Haptic] else [])
      ensures detected.None? ==>
        && target == old(target).(detectedObject := None, isObjectDetected := false, targetPositionModel := Origin)
        && view.targetPoint == Origin && view.targetWidth == old(view.targetWidth) && view.targetHeight == old(view.targetHeight)
        && feedback.observation == old(feedback.observation) && feedback.effects == old(feedback.effects)
    {
      match detected
      case Some(d) =>
        if trackingState == TrackingState.Detection {
          feedback.TriggerHapticFeedback();
        }
        var box := d.boundingBox;
        var scaled := ScaledSize(box.size.width, box.size.height);
        view.targetWidth, view.targetHeight := scaled.0, scaled.1;
        feedback.observation := feedback.observation.(targetWidth := scaled.0, targetHeight := scaled.1);
        target := ReadDetection(d, focalLength, currentFrame.value, target.targetClass);
      case None =>
        view.targetPoint := Origin;
        target := target.(detectedObject := None, isObjectDetected := false, targetPositionModel := Origin);
    }

    /**
     * What `displayFrame` leaves in the feedback for the target point shown
     * and the reference point, from the time between beeps and the bracelet
     * zone it found and the depth it used: the cadence of one update, the
     * zone around the reference in bracelet mode, and the spoken direction
     * for `angle` unless the target is lost.
     */
    ghost predicate Displayed(shown: Point, reference: Point, priorTime: real, priorZone: string, depth: real, angle: real)
      reads this`targetLost, feedback`interBipTime, feedback`braceletState, feedback`directionMessage
      reads feedback`settings, feedback`observation
      requires 0.0 <= angle < 360.0
    {
      && feedback.interBipTime == FB.FloorInterBipTime(FB.RawInterBipTime(priorTime, shown != Origin, depth,
           feedback.settings.depthSlope, feedback.observation.handDetected, feedback.observation.maxHandSize,
           feedback.observation.handSize))
      && (!targetLost && shown != Origin ==> feedback.directionMessage == FB.DirectionPhrase(angle))
      && (shown != Origin && feedback.settings.feedbackUsed == "Bracelet" ==>
            feedback.braceletState == FB.BraceletZone(reference.x - shown.x, reference.y - shown.y,
              feedback.observation.targetWidth / 2.0, feedback.observation.targetHeight / 2.0, priorZone))
    }

    /**
     * The cadence and the bracelet zone are either still `priorTime` and
     * `priorZone`, or what one `updateParameters` for the overlay's target
     * point made of them.
     */
    ghost predicate Primed(priorTime: real, priorZone: string)
      reads this`referencePoint, this`anchor, view`targetPoint, feedback`interBipTime, feedback`braceletState
      reads feedback`settings, feedback`observation
    {
      || (feedback.interBipTime == priorTime && feedback.braceletState == priorZone)
      || (&& feedback.interBipTime == FB.FloorInterBipTime(FB.RawInterBipTime(priorTime, view.targetPoint != Origin,
                anchor.distanceTargetFromAnchor, feedback.settings.depthSlope, feedback.observation.handDetected,
                feedback.observation.maxHandSize, feedback.observation.handSize))
          && (view.targetPoint != Origin && feedback.settings.feedbackUsed == "Bracelet" ==>
                feedback.braceletState == FB.BraceletZone(referencePoint.x - view.targetPoint.x, referencePoint.y - view.targetPoint.y,
                  feedback.observation.targetWidth / 2.0, feedback.observation.targetHeight / 2.0, priorZone)))
    }

    /** The stabiliser works on this frame: a frame, an anchor and a detected target while tracking. */
    predicate Stabilising()
      reads this
    {
      currentFrame.Some? && anchor.targetNode.Some? && target.targetPositionModel != Origin && trackingState == Tracking
    }

    /**
     * One pass of the stabiliser loop. While tracking a stored target with
     * an anchor, the box distance is re-estimated; the anchor moves to
     * `StabilisedPosition` when the drift between the anchor's projection and
     * the detected centre is in the correction range and the box has grown
     * past its largest width and height. The estimate and the running
     * maxima are then stored.
     */
    method CheckPositionStep(camera: Camera)
      requires Valid() && camera.Valid()
      modifies this`anchor
      ensures Valid()
      ensures !old(Stabilising()) ==> anchor == old(anchor)
      ensures old(Stabilising()) ==>
        var newDistance := StabiliserDepth(focalLength, target.targetClass.value.Height(), target.currentTargetWidth,
                                           target.currentTargetHeight, currentFrame.value.width, currentFrame.value.height);
        var scaled := ScaledPoint(target.targetPositionModel);
        var projection := old(anchor.targetPositionProjection);
        var inRange := InCorrectionRange(SquaredLength(Abs(projection.x - scaled.x), Abs(projection.y - scaled.y)),
                                         view.targetWidth, view.targetHeight);
        var decision := CorrectionDecision(inRange, old(anchor.maxWidth) - target.currentTargetWidth,
                                           old(anchor.maxHeight) - target.currentTargetHeight,
                                           Abs(newDistance - old(anchor.previousDistance)));
        var moved := StabilisedPosition(camera, decision, old(anchor.targetNode).value, projection, scaled,
                                        old(anchor.previousDistance), newDistance);
        && anchor.targetNode == (if moved.Some? then moved else old(anchor.targetNode))
        && (anchor.targetNode != old(anchor.targetNode) ==>
              inRange && target.currentTargetWidth > old(anchor.maxWidth) && target.currentTargetHeight > old(anchor.maxHeight))
        && anchor.previousDistance == newDistance
        && anchor.maxWidth == Max(old(anchor.maxWidth), target.currentTargetWidth)
        && anchor.maxHeight == Max(old(anchor.maxHeight), target.currentTargetHeight)
        && anchor == old(anchor).(targetNode := anchor.targetNode, previousDistance := newDistance,
                                  maxWidth := anchor.maxWidth, maxHeight := anchor.maxHeight)
    {
      if currentFrame.None? || anchor.targetNode.None? {
        return;
      }
      if target.targetPositionModel == Origin || trackingState != Tracking {
        return;
      }
      var frame := currentFrame.value;
      var current3DPosition := anchor.targetNode.value;
      var newDistance := StabiliserDepth(focalLength, target.targetClass.value.Height(), target.currentTargetWidth,
                                         target.currentTargetHeight, frame.width, frame.height);
      var heightChange := anchor.maxHeight - target.currentTargetHeight;
      var widthChange := anchor.maxWidth - target.currentTargetWidth;
      var scaled := ScaledPoint(target.targetPositionModel);
      var projection := anchor.targetPositionProjection;
      var distX := Abs(projection.x - scaled.x);
      var distY := Abs(projection.y - scaled.y);
      var depthDiff := Abs(newDistance - anchor.previousDistance);
      var inRange := InCorrectionRange(SquaredLength(distX, distY), view.targetWidth, view.targetHeight);
      var decision := CorrectionDecision(inRange, widthChange, heightChange, depthDiff);
      var moved := StabilisedPosition(camera, decision, current3DPosition, projection, scaled, anchor.previousDistance, newDistance);
      var node := if moved.Some? then moved else anchor.targetNode;
      var maxWidth := if widthChange < 0.0 then target.currentTargetWidth else anchor.maxWidth;
      var maxHeight := if heightChange < 0.0 then target.currentTargetHeight else anchor.maxHeight;
      anchor := anchor.(targetNode := node, previousDistance := newDistance, maxWidth := maxWidth, maxHeight := maxHeight);
    }

    /**
     * `session(_:didUpdate:)`, one camera frame: the frame, its focal length
     * and the device orientation are stored, the view takes the rotated
     * pixel size and, unless a hand is guided, the reference point returns to
     * the middle of the tracking rectangle. While tracking, the distance is
     * announced once; while detecting, a stored target point is shown and
     * promotes the screen to tracking once the anchor is in the scene. Then
     * the frame is displayed, and while tracking the anchor is projected
     * afterwards (that part runs on a work queue). `bearing` is
     * `computeAngle` on the reference-minus-target offset.
     */
    method SessionUpdate(frame: Frame, orientation: bool, camera: Camera, bearing: (real, real) -> real) returns (ghost shown: Point)
      requires Valid() && camera.Valid()
      requires frame.width > 0.0 && frame.height > 0.0 && frame.height != 2.0 * view.screenWidthInPixels
      requires forall dx, dy :: 0.0 <= Angle(bearing, dx, dy) < 360.0
      requires forall dx, dy {:trigger FB.IsBearing(dx, dy, Angle(bearing, dx, dy))} :: FB.IsBearing(dx, dy, Angle(bearing, dx, dy))
      modifies this`currentFrame, this`focalLength, this`referencePoint, this`isDistanceShared, this`trackingState, this`anchor
      modifies vision`hasOrientation, view`cvPixelSize, view`targetPoint, view`indicationMessage
      modifies view`rubberbandingStart, view`rubberbandingVector, feedback`observation, feedback`pitch, feedback`pan
      modifies feedback`braceletState, feedback`interBipTime, feedback`directionMessage, feedback`indicationMessage
      modifies feedback`isCentered, feedback`effects
      ensures currentFrame == Some(frame) && focalLength == frame.focalLength && vision.hasOrientation == orientation
      ensures view.cvPixelSize == Size(frame.height, frame.width)
      ensures feedback.observation.frameWidth == frame.width && feedback.observation.frameHeight == frame.height
      ensures referencePoint == if old(feedback.observation.handDetected) then old(referencePoint)
        else Point(view.trackingRect.Width() / 2.0, view.trackingRect.Height() / 2.0)
      ensures old(trackingState) == Tracking ==>
        && trackingState == Tracking && isDistanceShared
        && (!old(isDistanceShared) ==>
              |old(feedback.effects)| < |feedback.effects|
              && feedback.effects[|old(feedback.effects)|] ==
                 FB.Speak(FB.DistanceIndication(old(feedback.indicationMessage), target.distanceTargetFromDimensions)))
        && (old(anchor.targetNode).Some? ==>
              var projection := camera.project(old(anchor.targetNode).value);
              anchor.targetPositionProjection == projection && view.targetPoint == projection
              && anchor.objectInView == InsideBoundaries(projection, view.trackingRect))
      ensures old(trackingState) == TrackingState.Detection ==>
        && isDistanceShared == old(isDistanceShared)
        && trackingState == (if target.targetPositionModel != Origin && old(anchor.sceneNodes) == 3 then Tracking else TrackingState.Detection)
        && (target.targetPositionModel != Origin ==> view.targetPoint == ScaledPoint(target.targetPositionModel))
      ensures old(trackingState) == Stopped ==>
        trackingState == Stopped && anchor == old(anchor) && isDistanceShared == old(isDistanceShared)
      ensures old(feedback.effects) <= feedback.effects
      ensures Valid()
      ensures shown == if old(trackingState) == Tracking then old(view.targetPoint) else view.targetPoint
      ensures Displayed(shown, referencePoint, old(feedback.interBipTime), old(feedback.braceletState),
                        old(anchor.distanceTargetFromAnchor), Angle(bearing, referencePoint.x - shown.x, referencePoint.y - shown.y))
    {
      BeginFrame(frame, orientation);
      shown := AdvanceAndPresent(camera, bearing);
    }

    /** `session(_:didUpdate:)` after the bookkeeping: the branch on the tracking state, then the display. */
    method AdvanceAndPresent(camera: Camera, bearing: (real, real) -> real) returns (ghost shown: Point)
      requires Valid() && camera.Valid()
      requires forall dx, dy :: 0.0 <= Angle(bearing, dx, dy) < 360.0
      requires forall dx, dy {:trigger FB.IsBearing(dx, dy, Angle(bearing, dx, dy))} :: FB.IsBearing(dx, dy, Angle(bearing, dx, dy))
      modifies this`isDistanceShared, this`trackingState, this`anchor
      modifies view`targetPoint, view`indicationMessage, view`rubberbandingStart, view`rubberbandingVector
      modifies feedback`observation, feedback`pitch, feedback`pan, feedback`braceletState, feedback`interBipTime
      modifies feedback`directionMessage, feedback`indicationMessage, feedback`isCentered, feedback`effects
      ensures feedback.observation.frameWidth == old(feedback.observation.frameWidth)
      ensures feedback.observation.frameHeight == old(feedback.observation.frameHeight)
      ensures old(trackingState) == Tracking ==>
        && trackingState == Tracking && isDistanceShared
        && (!old(isDistanceShared) ==>
              |old(feedback.effects)| < |feedback.effects|
              && feedback.effects[|old(feedback.effects)|] ==
                 FB.Speak(FB.DistanceIndication(old(feedback.indicationMessage), target.distanceTargetFromDimensions)))
        && (old(anchor.targetNode).Some? ==>
              var projection := camera.project(old(anchor.targetNode).value);
              anchor.targetPositionProjection == projection && view.targetPoint == projection
              && anchor.objectInView == InsideBoundaries(projection, view.trackingRect))
      ensures old(trackingState) == TrackingState.Detection ==>
        && isDistanceShared == old(isDistanceShared)
        && trackingState == (if target.targetPositionModel != Origin && old(anchor.sceneNodes) == 3 then Tracking else TrackingState.Detection)
        && (target.targetPositionModel != Origin ==> view.targetPoint == ScaledPoint(target.targetPositionModel))
      ensures old(trackingState) == Stopped ==>
        trackingState == Stopped && anchor == old(anchor) && isDistanceShared == old(isDistanceShared)
      ensures old(feedback.effects) <= feedback.effects
      ensures Valid()
      ensures shown == if old(trackingState) == Tracking then old(view.targetPoint) else view.targetPoint
      ensures currentFrame.Some? ==>
        Displayed(shown, referencePoint, old(feedback.interBipTime), old(feedback.braceletState),
                  old(anchor.distanceTargetFromAnchor), Angle(bearing, referencePoint.x - shown.x, referencePoint.y - shown.y))
    {
      var wasTracking := trackingState == Tracking;
      ghost var priorTime, priorZone := feedback.interBipTime, feedback.braceletState;
      AdvanceState();
      shown := view.targetPoint;
      ghost var depth := anchor.distanceTargetFromAnchor;
      assert depth == old(anchor.distanceTargetFromAnchor);
      var angle := Angle(bearing, referencePoint.x - view.targetPoint.x, referencePoint.y - view.targetPoint.y);
      Present(camera, angle, wasTracking, priorTime, priorZone);
      assert currentFrame.Some? ==> Displayed(shown, referencePoint, priorTime, priorZone, depth, angle);
      assert angle == Angle(bearing, referencePoint.x - shown.x, referencePoint.y - shown.y);
    }

    /** The end of `session(_:didUpdate:)`: `displayFrame`, then the work-queue projection when tracking. */
    method Present(camera: Camera, angle: real, tracking: bool, ghost priorTime: real, ghost priorZone: string)
      requires Valid() && camera.Valid()
      requires Primed(priorTime, priorZone)
      requires 0.0 <= angle < 360.0
      modifies this`anchor, view`targetPoint, view`indicationMessage, view`rubberbandingStart, view`rubberbandingVector
      modifies feedback`pitch, feedback`pan, feedback`braceletState, feedback`interBipTime, feedback`directionMessage
      modifies feedback`indicationMessage, feedback`isCentered, feedback`effects
      ensures Valid()
      ensures tracking && old(anchor.targetNode).Some? ==>
        var projection := camera.project(old(anchor.targetNode).value);
        anchor.targetPositionProjection == projection && view.targetPoint == projection
        && anchor.objectInView == InsideBoundaries(projection, view.trackingRect)
      ensures !tracking ==> anchor == old(anchor) && view.targetPoint == old(view.targetPoint)
      ensures currentFrame.Some? ==>
        Displayed(old(view.targetPoint), referencePoint, priorTime, priorZone, old(anchor.distanceTargetFromAnchor), angle)
      ensures old(feedback.effects) <= feedback.effects
    {
      var shown, reference := view.targetPoint, referencePoint;
      var observation := feedback.observation;
      FB.CadenceIdempotent(priorTime, shown != Origin, anchor.distanceTargetFromAnchor, feedback.settings.depthSlope,
                           observation.handDetected, observation.maxHandSize, observation.handSize);
      FB.BraceletZoneIdempotent(reference.x - shown.x, reference.y - shown.y,
                                observation.targetWidth / 2.0, observation.targetHeight / 2.0, priorZone);
      DisplayFrame(shown, angle);
      if tracking {
        TrackTarget(camera);
      }
    }

    /** The branch of `session(_:didUpdate:)` on the tracking state, without the work-queue part. */
    method AdvanceState()
      requires Valid()
      modifies this`isDistanceShared, this`trackingState, this`anchor, view`targetPoint
      modifies feedback`observation, feedback`pitch, feedback`pan, feedback`braceletState, feedback`interBipTime, feedback`effects
      ensures Valid()
      ensures old(trackingState) == Tracking ==>
        && trackingState == Tracking && isDistanceShared && anchor == old(anchor) && view.targetPoint == old(view.targetPoint)
        && feedback.effects == old(feedback.effects)
             + (if old(isDistanceShared) then [] else [FB.Speak(FB.DistanceIndication(feedback.indicationMessage, target.distanceTargetFromDimensions))])
      ensures old(trackingState) == TrackingState.Detection ==>
        && isDistanceShared == old(isDistanceShared) && feedback.effects == old(feedback.effects)
        && trackingState == (if target.targetPositionModel != Origin && old(anchor.sceneNodes) == 3 then Tracking else TrackingState.Detection)
        && anchor.targetNode == old(anchor.targetNode)
        && (target.targetPositionModel != Origin ==> view.targetPoint == ScaledPoint(target.targetPositionModel))
        && feedback.observation == if trackingState == Tracking
             then old(feedback.observation).(foundTarget := true, targetHeight := target.currentTargetHeight)
             else old(feedback.observation)
      ensures old(trackingState) != TrackingState.Detection ==> feedback.observation == old(feedback.observation)
      ensures anchor.distanceTargetFromAnchor == old(anchor.distanceTargetFromAnchor)
      ensures Primed(old(feedback.interBipTime), old(feedback.braceletState))
      ensures view.targetPoint == if old(trackingState) == TrackingState.Detection && target.targetPositionModel != Origin
        then ScaledPoint(target.targetPositionModel) else old(view.targetPoint)
      ensures !(old(trackingState) == TrackingState.Detection && trackingState == Tracking) ==>
        feedback.interBipTime == old(feedback.interBipTime) && feedback.braceletState == old(feedback.braceletState)
      ensures old(trackingState) == TrackingState.Detection && trackingState == Tracking ==>
        && feedback.interBipTime == FB.FloorInterBipTime(FB.RawInterBipTime(old(feedback.interBipTime), view.targetPoint != Origin,
             anchor.distanceTargetFromAnchor, feedback.settings.depthSlope, feedback.observation.handDetected,
             feedback.observation.maxHandSize, feedback.observation.handSize))
        && (view.targetPoint != Origin && feedback.settings.feedbackUsed == "Bracelet" ==>
              feedback.braceletState == FB.BraceletZone(referencePoint.x - view.targetPoint.x, referencePoint.y - view.targetPoint.y,
                feedback.observation.targetWidth / 2.0, feedback.observation.targetHeight / 2.0, old(feedback.braceletState)))
      ensures old(trackingState) == Stopped ==>
        && trackingState == Stopped && anchor == old(anchor) && isDistanceShared == old(isDistanceShared)
        && feedback.effects == old(feedback.effects)
    {
      if trackingState == Tracking {
        if !isDistanceShared {
          feedback.IndicateDistanceFromTarget(target.distanceTargetFromDimensions);
          isDistanceShared := true;
        }
      } else if trackingState == TrackingState.Detection {
        DetectionUpdate();
      }
    }

    /** The bookkeeping that opens `session(_:didUpdate:)`. */
    method BeginFrame(frame: Frame, orientation: bool)
      requires Valid()
      requires frame.width > 0.0 && frame.height > 0.0 && frame.height != 2.0 * view.screenWidthInPixels
      modifies this`currentFrame, this`focalLength, this`referencePoint, vision`hasOrientation, view`cvPixelSize
      modifies feedback`observation
      ensures Valid()
      ensures currentFrame == Some(frame) && focalLength == frame.focalLength && vision.hasOrientation == orientation
      ensures view.cvPixelSize == Size(frame.height, frame.width)
      ensures feedback.observation == old(feedback.observation).(frameWidth := frame.width, frameHeight := frame.height)
      ensures referencePoint == if old(feedback.observation.handDetected) then old(referencePoint)
        else Point(view.trackingRect.Width() / 2.0, view.trackingRect.Height() / 2.0)
    {
      focalLength := frame.focalLength;
      currentFrame := Some(frame);
      vision.hasOrientation := orientation;
      view.cvPixelSize := Size(frame.height, frame.width);
      feedback.observation := feedback.observation.(frameWidth := frame.width, frameHeight := frame.height);
      if !feedback.observation.handDetected {
        referencePoint := Point(view.trackingRect.Width() / 2.0, view.trackingRect.Height() / 2.0);
      }
    }

    /**
     * The tracking half of a frame update, once the anchor exists: the
     * anchor is projected to the screen and shown there; leaving the
     * tracking rectangle sounds the target-lost cue, and otherwise the depth
     * along the projection's ray is read back through the depth filter (kept
     * as it was without a camera frame).
     */
    method TrackTarget(camera: Camera)
      requires Valid() && camera.Valid()
      modifies this`anchor, view`targetPoint, feedback`effects, feedback`indicationMessage
      ensures Valid()
      ensures old(anchor.targetNode).None? ==>
        && anchor == old(anchor) && view.targetPoint == old(view.targetPoint)
        && feedback.effects == old(feedback.effects) && feedback.indicationMessage == old(feedback.indicationMessage)
      ensures old(anchor.targetNode).Some? ==>
        var node := old(anchor.targetNode).value;
        var projection := camera.project(node);
        var inView := InsideBoundaries(projection, view.trackingRect);
        var lost := LostEdge(old(anchor.objectInView), inView);
        var distance := ComputeDistance(camera, node, projection, old(anchor.distanceTargetFromAnchor));
        && view.targetPoint == projection
        && anchor == old(anchor).(targetPositionProjection := projection, objectInView := inView,
             distanceTargetFromAnchor := if !lost && distance.Some? then distance.value else old(anchor.distanceTargetFromAnchor))
        && (!lost || !feedback.targetLostPlayerLoaded ==>
              feedback.effects == old(feedback.effects) && feedback.indicationMessage == old(feedback.indicationMessage))
        && (lost && feedback.targetLostPlayerLoaded ==>
              && feedback.indicationMessage == "Out of view, was " + feedback.directionMessage
              && feedback.effects == old(feedback.effects) + [FB.Play(FB.TargetLostSound)]
                   + (if feedback.settings.oralFeedbackEnabled then [FB.Speak(feedback.indicationMessage)] else []))
    {
      if anchor.targetNode.None? {
        return;
      }
      var node := anchor.targetNode.value;
      var projection := camera.project(node);
      var previousState := anchor.objectInView;
      var inView := InsideBoundaries(projection, view.trackingRect);
      var distance := anchor.distanceTargetFromAnchor;
      if LostEdge(previousState, inView) {
        feedback.IndicateDirectionAfterLost();
      } else {
        match ComputeDistance(camera, node, projection, anchor.distanceTargetFromAnchor)
        case Some(d) => distance := d;
        case None =>
      }
      anchor := anchor.(targetPositionProjection := projection, objectInView := inView, distanceTargetFromAnchor := distance);
      view.targetPoint := projection;
    }

    /**
     * The detection half of a frame update: a stored target point is scaled
     * onto the screen; once the anchor sphere has made the scene three nodes
     * strong the screen switches to tracking and primes the feedback with
     * the target's (normalized) height and the anchor distance.
     */
    method DetectionUpdate()
      requires Valid()
      modifies this`trackingState, this`anchor, view`targetPoint
      modifies feedback`observation, feedback`pitch, feedback`pan, feedback`braceletState, feedback`interBipTime
      ensures Valid()
      ensures target.targetPositionModel == Origin ==>
        && trackingState == old(trackingState) && anchor == old(anchor) && view.targetPoint == old(view.targetPoint)
        && feedback.observation == old(feedback.observation) && feedback.interBipTime == old(feedback.interBipTime)
        && feedback.braceletState == old(feedback.braceletState)
      ensures target.targetPositionModel != Origin ==> view.targetPoint == ScaledPoint(target.targetPositionModel)
      ensures target.targetPositionModel != Origin && anchor.sceneNodes != 3 ==>
        && trackingState == old(trackingState) && anchor == old(anchor)
        && feedback.observation == old(feedback.observation) && feedback.interBipTime == old(feedback.interBipTime)
        && feedback.braceletState == old(feedback.braceletState)
      ensures target.targetPositionModel != Origin && anchor.sceneNodes == 3 ==>
        && trackingState == Tracking && anchor == old(anchor).(objectInView := true)
        && feedback.observation == old(feedback.observation).(foundTarget := true, targetHeight := target.currentTargetHeight)
        && feedback.interBipTime == FB.FloorInterBipTime(FB.RawInterBipTime(old(feedback.interBipTime), view.targetPoint != Origin,
             anchor.distanceTargetFromAnchor, feedback.settings.depthSlope, feedback.observation.handDetected,
             feedback.observation.maxHandSize, feedback.observation.handSize))
        && (view.targetPoint != Origin && feedback.settings.feedbackUsed == "Bracelet" ==>
              feedback.braceletState == FB.BraceletZone(referencePoint.x - view.targetPoint.x, referencePoint.y - view.targetPoint.y,
                feedback.observation.targetWidth / 2.0, feedback.observation.targetHeight / 2.0, old(feedback.braceletState)))
    {
      if target.targetPositionModel == Origin {
        return;
      }
      view.targetPoint := ScaledPoint(target.targetPositionModel);
      if anchor.sceneNodes == 3 {
        feedback.observation := feedback.observation.(foundTarget := true, targetHeight := target.currentTargetHeight);
        anchor := anchor.(objectInView := true);
        trackingState := Tracking;
        feedback.UpdateParameters(Some(referencePoint), view.targetPoint, anchor.distanceTargetFromAnchor);
      }
    }

    /**
     * `displayFrame`, run once a camera frame is stored: the overlay shows the
     * target point, the feedback parameters follow the reference and target
     * points, and unless the target is lost the overlay's message becomes
     * the direction `assistUser` names. `angle` is what `computeAngle` gives
     * for the reference and target points.
     */
    method DisplayFrame(targetPoint: Point, angle: real)
      requires Valid()
      requires 0.0 <= angle < 360.0
      modifies view`targetPoint, view`indicationMessage, view`rubberbandingStart, view`rubberbandingVector
      modifies feedback`pitch, feedback`pan, feedback`braceletState, feedback`interBipTime,
        feedback`directionMessage, feedback`indicationMessage, feedback`isCentered, feedback`effects
      ensures Valid()
      ensures currentFrame.None? ==>
        && unchanged(feedback) && view.targetPoint == old(view.targetPoint)
        && view.indicationMessage == old(view.indicationMessage)
        && view.rubberbandingStart == old(view.rubberbandingStart) && view.rubberbandingVector == old(view.rubberbandingVector)
      ensures currentFrame.Some? ==>
        && view.targetPoint == targetPoint && view.rubberbandingStart == Origin && view.rubberbandingVector == Origin
        && feedback.settings == old(feedback.settings) && feedback.observation == old(feedback.observation)
        && Displayed(targetPoint, referencePoint, old(feedback.interBipTime), old(feedback.braceletState),
             anchor.distanceTargetFromAnchor, angle)
        && (targetLost ==> view.indicationMessage == old(view.indicationMessage))
        && (!targetLost ==> view.indicationMessage == feedback.indicationMessage)
        && old(feedback.effects) <= feedback.effects
    {
      if currentFrame.None? {
        return;
      }
      Guide(targetPoint, angle);
      view.rubberbandingStart, view.rubberbandingVector := Origin, Origin;
    }

    /** `updateParameters` and, unless the target is lost, `assistUser`: the feedback half of `displayFrame`. */
    method Guide(targetPoint: Point, angle: real)
      requires feedback.Valid()
      requires 0.0 <= angle < 360.0
      modifies view`targetPoint, view`indicationMessage
      modifies feedback`pitch, feedback`pan, feedback`braceletState, feedback`interBipTime,
        feedback`directionMessage, feedback`indicationMessage, feedback`isCentered, feedback`effects
      ensures feedback.Valid()
      ensures view.targetPoint == targetPoint
      ensures feedback.settings == old(feedback.settings) && feedback.observation == old(feedback.observation)
      ensures Displayed(targetPoint, referencePoint, old(feedback.interBipTime), old(feedback.braceletState),
        anchor.distanceTargetFromAnchor, angle)
      ensures targetLost ==> view.indicationMessage == old(view.indicationMessage)
      ensures !targetLost ==> view.indicationMessage == feedback.indicationMessage
      ensures old(feedback.effects) <= feedback.effects
    {
      var reference := referencePoint;
      FollowTarget(targetPoint);
      ghost var time, zone := feedback.interBipTime, feedback.braceletState;
      if !targetLost {
        ShowDirection(reference, targetPoint, angle);
      }
      assert feedback.interBipTime == time && feedback.braceletState == zone;
    }

    /** The `updateParameters` step of `displayFrame`, with the overlay's target point moved first. */
    method FollowTarget(targetPoint: Point)
      requires feedback.Valid()
      modifies view`targetPoint, feedback`pitch, feedback`pan, feedback`braceletState, feedback`interBipTime
      ensures feedback.Valid() && view.targetPoint == targetPoint
      ensures feedback.interBipTime == FB.FloorInterBipTime(FB.RawInterBipTime(old(feedback.interBipTime), targetPoint != Origin,
        anchor.distanceTargetFromAnchor, feedback.settings.depthSlope, feedback.observation.handDetected,
        feedback.observation.maxHandSize, feedback.observation.handSize))
      ensures targetPoint != Origin && feedback.settings.feedbackUsed == "Bracelet" ==>
        feedback.braceletState == FB.BraceletZone(referencePoint.x - targetPoint.x, referencePoint.y - targetPoint.y,
          feedback.observation.targetWidth / 2.0, feedback.observation.targetHeight / 2.0, old(feedback.braceletState))
    {
      view.targetPoint := targetPoint;
      feedback.UpdateParameters(Some(referencePoint), targetPoint, anchor.distanceTargetFromAnchor);
    }

    /** The `assistUser` step of `displayFrame`: its message goes on the overlay. */
    method ShowDirection(reference: Point, targetPoint: Point, angle: real)
      requires feedback.Valid()
      requires 0.0 <= angle < 360.0
      modifies view`indicationMessage
      modifies feedback`directionMessage, feedback`indicationMessage, feedback`isCentered, feedback`pan, feedback`effects
      ensures feedback.Valid()
      ensures view.indicationMessage == feedback.indicationMessage
      ensures targetPoint != Origin ==> feedback.directionMessage == FB.DirectionPhrase(angle)
      ensures targetPoint == Origin ==> unchanged(feedback)
      ensures old(feedback.effects) <= feedback.effects
    {
      var message := feedback.AssistUser(Some(reference), Some(targetPoint), angle);
      view.indicationMessage := message;
    }
  }

  /**
   * The detection the detector settles on is the one it held or a result with
   * a qualifying label, so it is classifiable when those are.
   */
  lemma SelectionClassifiable(results: Option<seq<Detection>>, wanted: string, previous: Option<GroceryItem>,
                              detected: Option<Detection>, held: Option<Detection>)
    requires results.Some? ==> forall d, l :: QualifiesAt(results.value, wanted, d, l) ==> Classifiable(results.value[d], previous)
    requires held.Some? ==> Usable(held.value) && previous.Some?
    requires detected.Some? ==>
      (detected == held || (results.Some? && exists d, l :: IsBest(results.value, wanted, d, l) && detected == Some(results.value[d])))
    ensures detected.Some? ==> Classifiable(detected.value, previous)
  {
    if detected.Some? && detected != held {
      var d, l :| IsBest(results.value, wanted, d, l) && detected == Some(results.value[d]);
    }
  }
}
