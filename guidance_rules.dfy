/**
 * The pure rules of the guidance screen: the bracelet direction rotation
 * and message, the depth filter and the ray geometry around the virtual
 * anchor, the gates that accept an anchor or a correction of it, the
 * distance estimate from a box's size, and the label parser.
 */
module GuidanceRules {
  import opened Wrappers
  import opened Numeric
  import opened Decimal
  import opened Geometry

  // ---------------------------------------------------------------------
  // Bracelet rotation
  // ---------------------------------------------------------------------

  /** The sector a left-hand grip turns a bracelet sector into. */
  function LeftTable(n: int): int
    requires 1 <= n <= 8
  {
    match n
    case 1 => 3
    case 2 => 4
    case 3 => 5
    case 4 => 6
    case 5 => 7
    case 6 => 8
    case 7 => 1
    case _ => 2
  }

  /** The sector a right-hand grip turns a bracelet sector into. */
  function RightTable(n: int): int
    requires 1 <= n <= 8
  {
    match n
    case 1 => 7
    case 2 => 8
    case 3 => 1
    case 4 => 2
    case 5 => 3
    case 6 => 4
    case 7 => 5
    case _ => 6
  }

  /** A left grip turns the eight sectors by two (90 degrees) one way, a right grip by two the other way. */
  lemma TablesRotate(n: int)
    requires 1 <= n <= 8
    ensures LeftTable(n) == (n + 1) % 8 + 1
    ensures RightTable(n) == (n + 5) % 8 + 1
    ensures RightTable(LeftTable(n)) == n && LeftTable(RightTable(n)) == n
  {
  }

  /**
   * `updateState`: a state that reads as an integer from 1 to 8 is rotated
   * for the hand holding the phone; any other state, or any other hand, is
   * returned as it is.
   */
  function UpdateState(state: string, holdingHand: string): (r: string)
    ensures ParseInt(state).None? || !(1 <= ParseInt(state).value <= 8) ==> r == state
    ensures holdingHand != "Left" && holdingHand != "Right" ==> r == state
    ensures ParseInt(state).Some? && 1 <= ParseInt(state).value <= 8 && holdingHand == "Left" ==>
      r == IntToString(LeftTable(ParseInt(state).value))
    ensures ParseInt(state).Some? && 1 <= ParseInt(state).value <= 8 && holdingHand == "Right" ==>
      r == IntToString(RightTable(ParseInt(state).value))
  {
    match ParseInt(state)
    case None => state
    case Some(n) =>
      if !(1 <= n <= 8) then state
      else if holdingHand == "Left" then IntToString(LeftTable(n))
      else if holdingHand == "Right" then IntToString(RightTable(n))
      else state
  }

  const Sectors: set<string> := {"1", "2", "3", "4", "5", "6", "7", "8"}

  lemma SectorIsNumeral(s: string) returns (n: int)
    requires s in Sectors
    ensures 1 <= n <= 8 && s == IntToString(n) && ParseInt(s) == Some(n)
  {
    n := if s == "1" then 1 else if s == "2" then 2 else if s == "3" then 3 else if s == "4" then 4
      else if s == "5" then 5 else if s == "6" then 6 else if s == "7" then 7 else 8;
    ParseIntRoundTrip(n);
  }

  /** On the eight sector names, the right-grip rotation undoes the left-grip one and conversely. */
  lemma {:induction false} UpdateStateInverse(s: string)
    requires s in Sectors
    ensures UpdateState(s, "Left") in Sectors && UpdateState(s, "Right") in Sectors
    ensures UpdateState(UpdateState(s, "Left"), "Right") == s
    ensures UpdateState(UpdateState(s, "Right"), "Left") == s
  {
    var n := SectorIsNumeral(s);
    TablesRotate(n);
    var l, r := LeftTable(n), RightTable(n);
    ParseIntRoundTrip(l);
    ParseIntRoundTrip(r);
    assert UpdateState(s, "Left") == IntToString(l);
    assert UpdateState(s, "Right") == IntToString(r);
    SectorName(l);
    SectorName(r);
  }

  lemma SectorName(n: int)
    requires 1 <= n <= 8
    ensures IntToString(n) in Sectors
  {
  }

  /** The centred zone "0" and an empty state are never rotated; a numeral with a sign or a leading zero is. */
  lemma UpdateStateEdgeCases()
    ensures UpdateState("0", "Left") == "0" && UpdateState("", "Right") == ""
    ensures UpdateState("1", "Both") == "1"
    ensures UpdateState("+1", "Left") == "3" && UpdateState("01", "Right") == "7"
  {
    assert ParseInt("0") == Some(0);
    assert ParseInt("+1") == Some(1) by {
      assert "+1"[1..] == "1";
      assert DigitsValue("1") == 1 by { assert "1"[..0] == ""; }
    }
    assert ParseInt("01") == Some(1) by {
      assert "01"[..1] == "0";
      assert "0"[..0] == "";
    }
    ParseIntRoundTrip(3);
    ParseIntRoundTrip(7);
  }

  // ---------------------------------------------------------------------
  // Bracelet message
  // ---------------------------------------------------------------------

  /** `"<state>-<milliseconds>"`. */
  function FormatBraceletMessage(state: string, milliseconds: int): (s: string)
    ensures |s| > |state| && s[..|state|] == state && s[|state|] == '-'
  {
    state + "-" + IntToString(milliseconds)
  }

  /** The reading side of the bracelet protocol: the state before the first dash and the number after it. */
  function ParseBraceletMessage(message: string): (r: Option<(string, int)>)
    ensures r.Some? ==> '-' !in r.value.0
  {
    match IndexOfChar(message, '-')
    case None => None
    case Some(i) =>
      match ParseInt(message[i + 1..])
      case None => None
      case Some(ms) => Some((message[..i], ms))
  }

  lemma {:induction false} BraceletMessageRoundTrip(state: string, milliseconds: int)
    requires '-' !in state && Int64Min <= milliseconds <= Int64Max
    ensures ParseBraceletMessage(FormatBraceletMessage(state, milliseconds)) == Some((state, milliseconds))
  {
    var m := FormatBraceletMessage(state, milliseconds);
    assert m[..|state|] == state;
    assert IndexOfChar(m, '-') == Some(|state|);
    assert m[|state| + 1..] == IntToString(milliseconds);
    ParseIntRoundTrip(milliseconds);
  }

  /**
   * One tick of the bracelet loop: nothing is sent without a state or
   * outside tracking; otherwise the state, turned for the holding hand when
   * no hand is being guided, and the beep period in whole milliseconds.
   */
  function BraceletMessage(state: string, tracking: bool, interBipTime: real, isHandDetected: bool, holdingHand: string): (r: Option<string>)
    ensures r.Some? <==> state != "" && tracking
    ensures r.Some? && isHandDetected ==> r.value == FormatBraceletMessage(state, Trunc(interBipTime * 1000.0))
    ensures r.Some? && !isHandDetected ==>
      r.value == FormatBraceletMessage(UpdateState(state, holdingHand), Trunc(interBipTime * 1000.0))
  {
    if state != "" && tracking then
      var interBipTimeInMilliseconds := Trunc(interBipTime * 1000.0);
      var finalState :=
        if !isHandDetected && holdingHand == "Left" then UpdateState(state, "Left")
        else if !isHandDetected && holdingHand == "Right" then UpdateState(state, "Right")
        else state;
      Some(FormatBraceletMessage(finalState, interBipTimeInMilliseconds))
    else None
  }

  /**
   * Every message sent for a bracelet zone decodes to a sector or the
   * centre and a period of at least 100 ms, the sector being the zone
   * turned for the grip when no hand is guided.
   */
  lemma {:induction false} BraceletMessageDecodes(state: string, interBipTime: real, isHandDetected: bool, holdingHand: string)
    requires state in {"0", "1", "3", "5", "7"}
    requires 0.1 <= interBipTime && interBipTime * 1000.0 <= Int64Max as real
    ensures var m := BraceletMessage(state, true, interBipTime, isHandDetected, holdingHand);
      && m.Some?
      && ParseBraceletMessage(m.value).Some?
      && ParseBraceletMessage(m.value).value.1 >= 100
      && ParseBraceletMessage(m.value).value.0 == (if isHandDetected then state else UpdateState(state, holdingHand))
      && ParseBraceletMessage(m.value).value.0 in Sectors + {"0"}
  {
    var ms := Trunc(interBipTime * 1000.0);
    assert ms >= 100;
    var finalState := if isHandDetected then state else UpdateState(state, holdingHand);
    ZoneAfterGrip(state, isHandDetected, holdingHand);
    assert BraceletMessage(state, true, interBipTime, isHandDetected, holdingHand) == Some(FormatBraceletMessage(finalState, ms));
    BraceletMessageRoundTrip(finalState, ms);
  }

  /** A bracelet zone, turned for the grip or not, is still a zone and holds no dash. */
  lemma ZoneAfterGrip(state: string, isHandDetected: bool, holdingHand: string)
    requires state in {"0", "1", "3", "5", "7"}
    ensures var finalState := if isHandDetected then state else UpdateState(state, holdingHand);
      finalState in Sectors + {"0"} && '-' !in finalState
  {
    var finalState := if isHandDetected then state else UpdateState(state, holdingHand);
    if state == "0" {
      assert ParseInt("0") == Some(0);
      assert finalState == "0";
    } else {
      assert state in Sectors;
      if !isHandDetected && (holdingHand == "Left" || holdingHand == "Right") {
        UpdateStateInverse(state);
      }
      assert finalState in Sectors;
    }
    ZoneHasNoDash(finalState);
  }

  lemma ZoneHasNoDash(s: string)
    requires s in Sectors + {"0"}
    ensures '-' !in s
  {
  }

  // ---------------------------------------------------------------------
  // Depth along the viewing ray
  // ---------------------------------------------------------------------

  /**
   * The plausibility filter of `computeDistance`: once a distance is known,
   * a negative estimate or one more than 20 cm farther is replaced by the
   * known distance. Decreases of any size pass.
   */
  function FilterDistance(distance: real, previousDistance: real): (r: real)
    ensures r == previousDistance <== previousDistance != 0.0 && (distance < 0.0 || distance - previousDistance > 0.2)
    ensures r == distance <== previousDistance == 0.0 || (distance >= 0.0 && distance - previousDistance <= 0.2)
  {
    if previousDistance != 0.0 && (distance < 0.0 || distance - previousDistance > 0.2) then previousDistance
    else distance
  }

  /** With a positive known distance, the filtered value is never negative and never more than 20 cm farther. */
  lemma FilterDistanceBounds(distance: real, previousDistance: real)
    requires previousDistance > 0.0
    ensures 0.0 <= FilterDistance(distance, previousDistance) <= previousDistance + 0.2
  {
  }

  /** The filter is one-sided: a jump of a metre towards the user is accepted, one away from the user is not. */
  lemma FilterDistanceOneSided()
    ensures FilterDistance(0.5, 1.5) == 0.5
    ensures FilterDistance(2.5, 1.5) == 1.5
  {
  }

  /**
   * `calculate3DPosition`: the point `depth` metres from the camera along
   * the viewing direction through a screen point; none without a frame.
   */
  function Calculate3DPosition(camera: Camera, targetPoint: Point, depth: real): (r: Option<Vec3>)
    ensures r.Some? <==> camera.position.Some?
  {
    match camera.position
    case None => None
    case Some(cameraPosition) => Some(cameraPosition.Add(camera.heading(targetPoint).Scale(depth)))
  }

  /** The depth of a world point along the viewing direction through a screen point, before filtering. */
  function RawDistance(camera: Camera, cameraPosition: Vec3, objectPosition: Vec3, targetPoint: Point): real
    requires camera.Valid()
  {
    var direction := camera.heading(targetPoint);
    var objectToCamera := objectPosition.Sub(cameraPosition);
    objectToCamera.Dot(direction) / direction.Dot(direction)
  }

  /** `computeDistance`: the filtered depth of a world point along the ray through a screen point; none without a frame. */
  function ComputeDistance(camera: Camera, objectPosition: Vec3, targetPoint: Point, previousDistance: real): (r: Option<real>)
    requires camera.Valid()
    ensures r.Some? <==> camera.position.Some?
    ensures r.Some? ==> r.value == FilterDistance(RawDistance(camera, camera.position.value, objectPosition, targetPoint), previousDistance)
  {
    match camera.position
    case None => None
    case Some(cameraPosition) => Some(FilterDistance(RawDistance(camera, cameraPosition, objectPosition, targetPoint), previousDistance))
  }

  /** Measuring the depth of the point placed at `depth` along a ray gives back `depth`. */
  lemma {:induction false} DistanceOfPlacedPoint(camera: Camera, targetPoint: Point, depth: real)
    requires camera.Valid() && camera.position.Some?
    ensures RawDistance(camera, camera.position.value, Calculate3DPosition(camera, targetPoint, depth).value, targetPoint) == depth
  {
    var pos := camera.position.value;
    var n := camera.heading(targetPoint);
    assert n.Dot(n) == 1.0;
    assert pos.Add(n.Scale(depth)).Sub(pos) == n.Scale(depth);
    ScaleDot(n, depth);
  }

  /** So with no known distance, or a known one at most 20 cm nearer, the anchor's depth is read back exactly. */
  lemma ComputeDistanceRoundTrip(camera: Camera, targetPoint: Point, depth: real, previousDistance: real)
    requires camera.Valid() && camera.position.Some?
    requires previousDistance == 0.0 || (depth >= 0.0 && depth <= previousDistance + 0.2)
    ensures ComputeDistance(camera, Calculate3DPosition(camera, targetPoint, depth).value, targetPoint, previousDistance) == Some(depth)
  {
    DistanceOfPlacedPoint(camera, targetPoint, depth);
  }

  // ---------------------------------------------------------------------
  // Anchor gates
  // ---------------------------------------------------------------------

  const ReprojectionTolerance: real := 10.0

  /** The double-tap gate: the anchor's reprojection is within 10 px of the target on both axes. */
  predicate AnchorAccepted(projected: Point, target: Point) {
    Abs(projected.x - target.x) < ReprojectionTolerance && Abs(projected.y - target.y) < ReprojectionTolerance
  }

  /** The stabiliser's gate: within 10 px on either axis. */
  predicate CorrectionAccepted(projected: Point, target: Point) {
    Abs(projected.x - target.x) < ReprojectionTolerance || Abs(projected.y - target.y) < ReprojectionTolerance
  }

  /** The stabiliser's gate is the looser one. */
  lemma CorrectionGateIsLooser(projected: Point, target: Point)
    ensures AnchorAccepted(projected, target) ==> CorrectionAccepted(projected, target)
    ensures CorrectionAccepted(Point(0.0, 50.0), Origin) && !AnchorAccepted(Point(0.0, 50.0), Origin)
  {
  }

  /** `isPositionInsideBoundaries`. */
  predicate InsideBoundaries(position: Point, boundaries: Rect) {
    boundaries.Contains(position)
  }

  /** The target-lost cue fires on a change from in view to out of view only. */
  predicate LostEdge(previousInView: bool, inView: bool) {
    previousInView && !inView
  }

  // ---------------------------------------------------------------------
  // The stabiliser's correction range
  // ---------------------------------------------------------------------

  const MinCorrection: real := 10.0

  /** The square of `computeL2Distance`. */
  function SquaredLength(horizontalDist: real, verticalDist: real): (r: real)
    ensures r >= 0.0
  {
    assert horizontalDist * horizontalDist >= 0.0 && verticalDist * verticalDist >= 0.0;
    verticalDist * verticalDist + horizontalDist * horizontalDist
  }

  /**
   * The range test of `checkPosition` as written, on squared lengths: the
   * closed range from 10 to half the target's diagonal. Building that range
   * traps when the half diagonal is below 10 (`None`).
   */
  function CorrectionRangeAsWritten(distSquared: real, targetWidth: real, targetHeight: real): (r: Option<bool>)
    requires distSquared >= 0.0
    ensures r.None? <==> SquaredLength(targetWidth / 2.0, targetHeight / 2.0) < MinCorrection * MinCorrection
  {
    var maxDistSquared := SquaredLength(targetWidth / 2.0, targetHeight / 2.0);
    if maxDistSquared < MinCorrection * MinCorrection then None
    else Some(MinCorrection * MinCorrection <= distSquared <= maxDistSquared)
  }

  /** A target 10 by 10 points on screen has a half diagonal of about 7.07 points: the range traps. */
  lemma SmallTargetTraps()
    ensures CorrectionRangeAsWritten(0.0, 10.0, 10.0).None?
  {
  }

  /**
   * The range test as intended: the distance lies between 10 and half the
   * target's diagonal, which no distance does when the half diagonal is
   * below 10.
   */
  function InCorrectionRange(distSquared: real, targetWidth: real, targetHeight: real): (r: bool)
    requires distSquared >= 0.0
    ensures r ==> MinCorrection * MinCorrection <= distSquared <= SquaredLength(targetWidth / 2.0, targetHeight / 2.0)
    ensures CorrectionRangeAsWritten(distSquared, targetWidth, targetHeight).Some? ==>
      r == CorrectionRangeAsWritten(distSquared, targetWidth, targetHeight).value
    ensures CorrectionRangeAsWritten(distSquared, targetWidth, targetHeight).None? ==> !r
  {
    var maxDistSquared := SquaredLength(targetWidth / 2.0, targetHeight / 2.0);
    MinCorrection * MinCorrection <= distSquared <= maxDistSquared
  }

  /** What the stabiliser does with the anchor in one pass. */
  datatype Correction = MoveToAnchorDepth | MoveToBoxDepth | NoCorrection

  /**
   * The decision of `checkPosition`: move the anchor when the drift is in
   * range and the box has grown past its largest width and height; the
   * second, depth-driven branch is written after a guard that implies the
   * first and is never chosen.
   */
  function CorrectionDecision(inRange: bool, widthChange: real, heightChange: real, depthDiff: real): (r: Correction)
    ensures r == MoveToAnchorDepth <==> inRange && widthChange < 0.0 && heightChange < 0.0
    ensures r != MoveToBoxDepth
  {
    if inRange && (widthChange < 0.0 && heightChange < 0.0) then MoveToAnchorDepth
    else if depthDiff > 0.01 && inRange && (widthChange < 0.0 && heightChange < 0.0) then MoveToBoxDepth
    else NoCorrection
  }

  // ---------------------------------------------------------------------
  // Distance from the box size
  // ---------------------------------------------------------------------

  /**
   * The pinhole estimate of the detection loop: `(focalLength + 100) *
   * objectHeight` over the box's larger normalized side, the height in
   * frame-width pixels or the width in frame-height pixels (the frame is
   * rotated).
   */
  function DetectionDepth(focalLength: real, objectHeight: real, boxWidth: real, boxHeight: real, frameWidth: real, frameHeight: real): (r: real)
    requires boxWidth > 0.0 && boxHeight > 0.0 && frameWidth > 0.0 && frameHeight > 0.0
    ensures boxHeight > boxWidth ==> r * (boxHeight * frameWidth) == (focalLength + 100.0) * objectHeight
    ensures boxHeight <= boxWidth ==> r * (boxWidth * frameHeight) == (focalLength + 100.0) * objectHeight
  {
    if boxHeight > boxWidth then
      var d := boxHeight * frameWidth;
      PositiveProduct(boxHeight, frameWidth);
      ((focalLength + 100.0) * objectHeight) / d
    else
      var d := boxWidth * frameHeight;
      PositiveProduct(boxWidth, frameHeight);
      ((focalLength + 100.0) * objectHeight) / d
  }

  /** The stabiliser's estimate: the same formula over the box's larger side measured in pixels. */
  function StabiliserDepth(focalLength: real, objectHeight: real, boxWidth: real, boxHeight: real, frameWidth: real, frameHeight: real): (r: real)
    requires boxWidth > 0.0 && boxHeight > 0.0 && frameWidth > 0.0 && frameHeight > 0.0
    ensures r * Max(boxHeight * frameWidth, boxWidth * frameHeight) == (focalLength + 100.0) * objectHeight
  {
    var targetHeightInPixels := boxHeight * frameWidth;
    var targetWidthInPixels := boxWidth * frameHeight;
    PositiveProduct(boxHeight, frameWidth);
    PositiveProduct(boxWidth, frameHeight);
    if targetHeightInPixels > targetWidthInPixels then ((focalLength + 100.0) * objectHeight) / targetHeightInPixels
    else ((focalLength + 100.0) * objectHeight) / targetWidthInPixels
  }

  lemma PositiveProduct(a: real, b: real)
    requires a > 0.0 && b > 0.0
    ensures a * b > 0.0
  {
  }

  /** On a square frame the two estimates agree; otherwise they may pick different sides. */
  lemma {:induction false} DepthEstimatesAgreeOnSquareFrame(focalLength: real, objectHeight: real, boxWidth: real, boxHeight: real, side: real)
    requires boxWidth > 0.0 && boxHeight > 0.0 && side > 0.0
    ensures DetectionDepth(focalLength, objectHeight, boxWidth, boxHeight, side, side)
         == StabiliserDepth(focalLength, objectHeight, boxWidth, boxHeight, side, side)
  {
    if boxHeight > boxWidth {
      MulMonotonic(boxWidth, boxHeight, side);
    } else if boxHeight < boxWidth {
      MulMonotonic(boxHeight, boxWidth, side);
    }
  }

  lemma MulMonotonic(a: real, b: real, k: real)
    requires a < b && k > 0.0
    ensures a * k < b * k
  {
  }

  // ---------------------------------------------------------------------
  // Label parsing
  // ---------------------------------------------------------------------

  predicate OccursAt(s: string, pattern: string, i: int) {
    0 <= i && i + |pattern| <= |s| && s[i..i + |pattern|] == pattern
  }

  /** The first occurrence of `pattern` in `s` at or after `from`. */
  function IndexOfFrom(s: string, pattern: string, from: nat): (r: Option<nat>)
    requires from <= |s|
    ensures r.Some? ==> from <= r.value && OccursAt(s, pattern, r.value)
    ensures r.Some? ==> forall i :: from <= i < r.value ==> !OccursAt(s, pattern, i)
    ensures r.None? ==> forall i :: from <= i ==> !OccursAt(s, pattern, i)
    decreases |s| - from
  {
    if from + |pattern| > |s| then None
    else if OccursAt(s, pattern, from) then Some(from)
    else IndexOfFrom(s, pattern, from + 1)
  }

  /** The characters of `.whitespacesAndNewlines`: the Unicode White_Space property. */
  predicate IsWhitespace(c: char) {
    || c == ' ' || c == '\t' || c == '\n' || c == '\r' || c == '\U{000B}' || c == '\U{000C}' || c == '\U{0085}' || c == '\U{00A0}'
    || c == '\U{1680}' || ('\U{2000}' <= c <= '\U{200A}') || c == '\U{2028}' || c == '\U{2029}' || c == '\U{202F}'
    || c == '\U{205F}' || c == '\U{3000}'
  }

  function TrimLeading(s: string): string
    decreases |s|
  {
    if |s| > 0 && IsWhitespace(s[0]) then TrimLeading(s[1..]) else s
  }

  /** `TrimLeading` removes a run of white space from the front and nothing else. */
  lemma {:induction false} TrimLeadingDropsWhitespace(s: string)
    ensures var r := TrimLeading(s);
      && |r| <= |s| && r == s[|s| - |r|..]
      && (|r| == 0 || !IsWhitespace(r[0]))
      && (forall i :: 0 <= i < |s| - |r| ==> IsWhitespace(s[i]))
    decreases |s|
  {
    if |s| > 0 && IsWhitespace(s[0]) {
      TrimLeadingDropsWhitespace(s[1..]);
      var r := TrimLeading(s);
      assert r == TrimLeading(s[1..]);
      forall i | 1 <= i < |s| - |r|
        ensures IsWhitespace(s[i])
      {
        assert s[i] == s[1..][i - 1];
      }
    }
  }

  function TrimTrailing(s: string): string
    decreases |s|
  {
    if |s| > 0 && IsWhitespace(s[|s| - 1]) then TrimTrailing(s[..|s| - 1]) else s
  }

  /** `TrimTrailing` removes a run of white space from the back and nothing else. */
  lemma {:induction false} TrimTrailingDropsWhitespace(s: string)
    ensures var r := TrimTrailing(s);
      && |r| <= |s| && r == s[..|r|]
      && (|r| == 0 || !IsWhitespace(r[|r| - 1]))
      && (forall i :: |r| <= i < |s| ==> IsWhitespace(s[i]))
    decreases |s|
  {
    if |s| > 0 && IsWhitespace(s[|s| - 1]) {
      var t := s[..|s| - 1];
      TrimTrailingDropsWhitespace(t);
      var r := TrimTrailing(s);
      assert r == TrimTrailing(t);
      assert r == t[..|r|] == s[..|r|];
      forall i | |r| <= i < |s| - 1
        ensures IsWhitespace(s[i])
      {
        assert s[i] == t[i];
      }
    }
  }

  /** `trimmingCharacters(in: .whitespacesAndNewlines)`. */
  function Trim(s: string): string {
    TrimTrailing(TrimLeading(s))
  }

  /**
   * Trimming keeps a contiguous piece of the text that neither starts nor
   * ends with white space, and leaves alone a text that already does not.
   */
  lemma {:induction false} TrimKeepsInterior(s: string)
    ensures var r := Trim(s);
      && (|r| == 0 || (!IsWhitespace(r[0]) && !IsWhitespace(r[|r| - 1])))
      && (forall c :: c in r ==> c in s)
      && (|s| == 0 || (!IsWhitespace(s[0]) && !IsWhitespace(s[|s| - 1])) ==> r == s)
  {
    var l := TrimLeading(s);
    TrimLeadingDropsWhitespace(s);
    TrimTrailingDropsWhitespace(l);
    var r := TrimTrailing(l);
    var i := |s| - |l|;
    assert r == s[i..i + |r|] by {
      assert l == s[i..];
      assert r == l[..|r|];
    }
    SliceCharsOccur(s, i, i + |r|);
    if |r| > 0 {
      assert r[0] == l[0];
    }
    if |s| > 0 && !IsWhitespace(s[0]) && !IsWhitespace(s[|s| - 1]) {
      assert l == s;
    }
  }

  /** Every character of a slice occurs in the whole text. */
  lemma SliceCharsOccur(s: string, a: int, b: int)
    requires 0 <= a <= b <= |s|
    ensures forall c :: c in s[a..b] ==> c in s
  {
    forall c | c in s[a..b]
      ensures c in s
    {
      var j :| 0 <= j < b - a && s[a..b][j] == c;
      assert s[a + j] == c;
    }
  }

  /** `replacingOccurrences(of: c, with: "")`. */
  function RemoveChar(s: string, c: char): string
    decreases |s|
  {
    if |s| == 0 then ""
    else if s[0] == c then RemoveChar(s[1..], c)
    else [s[0]] + RemoveChar(s[1..], c)
  }

  /** Removing a character removes every occurrence of it and keeps every other character. */
  lemma {:induction false} RemoveCharRemovesOnly(s: string, c: char)
    ensures c !in RemoveChar(s, c)
    ensures forall x :: x != c ==> (x in RemoveChar(s, c) <==> x in s)
    ensures c !in s ==> RemoveChar(s, c) == s
    decreases |s|
  {
    if |s| > 0 {
      RemoveCharRemovesOnly(s[1..], c);
      assert s == [s[0]] + s[1..];
    }
  }

  /** The first piece of `components(separatedBy:)` for a one-character separator. */
  function FirstComponent(s: string, separator: char): (r: string)
    ensures |r| <= |s| && separator !in r && r == s[..|r|]
    ensures |r| < |s| ==> s[|r|] == separator
    ensures separator !in s ==> r == s
  {
    match IndexOfChar(s, separator)
    case None => s
    case Some(i) => s[..i]
  }

  const LabelsKey: string := "labels="

  /**
   * `extractClass`: the first comma-separated piece of the text between the
   * first `labels=` and the next `]`, trimmed of white space, with brackets
   * removed. `None` (the class is kept) when either marker is missing.
   */
  function ExtractLabel(description: string): (r: Option<string>)
    ensures r.None? <==> (IndexOfFrom(description, LabelsKey, 0).None?
      || ']' !in description[IndexOfFrom(description, LabelsKey, 0).value + |LabelsKey|..])
    ensures r.Some? ==> ',' !in r.value && '[' !in r.value && ']' !in r.value
  {
    match IndexOfFrom(description, LabelsKey, 0)
    case None => None
    case Some(i) => FirstLabel(description[i + |LabelsKey|..])
  }

  /**
   * The label part of `extractClass`, on the text that follows `labels=`:
   * a label exists exactly when a `]` closes the list, and it is one name,
   * with no comma or bracket, drawn from the piece before the first comma.
   */
  function FirstLabel(labelsSubstring: string): (r: Option<string>)
    ensures r.None? <==> ']' !in labelsSubstring
    ensures r.Some? ==> ',' !in r.value && '[' !in r.value && ']' !in r.value
    ensures r.Some? ==> var endIndex := IndexOfChar(labelsSubstring, ']').value;
      forall c :: c in r.value ==> c in FirstComponent(labelsSubstring[..endIndex], ',')
  {
    match IndexOfChar(labelsSubstring, ']')
    case None => None
    case Some(endIndex) =>
      var labelsString := labelsSubstring[..endIndex];
      var firstLabel := FirstComponent(labelsString, ',');
      var trimmed := Trim(firstLabel);
      TrimKeepsInterior(firstLabel);
      RemoveCharRemovesOnly(trimmed, '[');
      RemoveCharRemovesOnly(RemoveChar(trimmed, '['), ']');
      Some(RemoveChar(RemoveChar(trimmed, '['), ']'))
  }

  /** With no `=` before it, the key written after `prefix` is its first occurrence. */
  lemma {:induction false} KeyFoundAfterPrefix(prefix: string, tail: string)
    requires '=' !in prefix
    ensures IndexOfFrom(prefix + LabelsKey + tail, LabelsKey, 0) == Some(|prefix|)
  {
    var description := prefix + LabelsKey + tail;
    var p := |prefix|;
    assert OccursAt(description, LabelsKey, p) by {
      assert description[p..p + 7] == LabelsKey;
    }
    forall i | 0 <= i < p
      ensures !OccursAt(description, LabelsKey, i)
    {
      assert description[i + 6] != '=' by {
        if i + 6 < p {
          assert description[i + 6] == prefix[i + 6];
        } else {
          assert description[i + 6] == LabelsKey[i + 6 - p];
        }
      }
      assert description[i..i + 7][6] == description[i + 6];
    }
  }

  /** The first occurrence is the position of `c` with no `c` before it. */
  lemma {:induction false} IndexOfCharIs(s: string, c: char, k: nat)
    requires k < |s| && s[k] == c && c !in s[..k]
    ensures IndexOfChar(s, c) == Some(k)
    decreases k
  {
    if k > 0 {
      assert s[0] == s[..k][0];
      assert s[1..][..k - 1] == s[1..k];
      assert forall m :: 1 <= m < k ==> s[m] == s[..k][m];
      IndexOfCharIs(s[1..], c, k - 1);
    }
  }

  /** The first `]` of `[name]...` closes the bracket when `name` has none. */
  lemma BracketClosesName(name: string, rest: string)
    requires ']' !in name
    ensures IndexOfChar("[" + name + "]" + rest, ']') == Some(|name| + 1)
  {
    var s := "[" + name + "]" + rest;
    assert s[..|name| + 1] == "[" + name;
    IndexOfCharIs(s, ']', |name| + 1);
  }

  /**
   * A description whose label list starts with a plain name yields that
   * name, when nothing before the list contains `=`.
   */
  lemma {:induction false} ExtractLabelRoundTrip(prefix: string, name: string, rest: string)
    requires '=' !in prefix
    requires ',' !in name && '[' !in name && ']' !in name
    requires |name| == 0 || (!IsWhitespace(name[0]) && !IsWhitespace(name[|name| - 1]))
    ensures ExtractLabel(prefix + LabelsKey + "[" + name + "]" + rest) == Some(name)
  {
    var tail := "[" + name + "]" + rest;
    var description := prefix + LabelsKey + tail;
    assert prefix + LabelsKey + "[" + name + "]" + rest == description;
    KeyFoundAfterPrefix(prefix, tail);
    assert description[|prefix| + |LabelsKey|..] == tail;
    FirstLabelOfList(name, rest);
  }

  /** The label list `[name]...` yields `name` when the name is plain. */
  lemma FirstLabelOfList(name: string, rest: string)
    requires ',' !in name && '[' !in name && ']' !in name
    requires |name| == 0 || (!IsWhitespace(name[0]) && !IsWhitespace(name[|name| - 1]))
    ensures FirstLabel("[" + name + "]" + rest) == Some(name)
  {
    var tail := "[" + name + "]" + rest;
    BracketClosesName(name, rest);
    var labelsString := tail[..|name| + 1];
    assert labelsString == "[" + name;
    assert ',' !in labelsString;
    assert FirstComponent(labelsString, ',') == labelsString;
    CleanBracketedName(name);
  }

  /** Trimming `[name` and dropping its brackets gives back a plain name. */
  lemma CleanBracketedName(name: string)
    requires ',' !in name && '[' !in name && ']' !in name
    requires |name| == 0 || (!IsWhitespace(name[0]) && !IsWhitespace(name[|name| - 1]))
    ensures RemoveChar(RemoveChar(Trim("[" + name), '['), ']') == name
  {
    var first := "[" + name;
    TrimKeepsInterior(first);
    assert first == ['['] + name;
    assert first[1..] == name;
    RemoveCharRemovesOnly(name, '[');
    RemoveCharRemovesOnly(name, ']');
    assert RemoveChar(first, '[') == name;
  }

  /**
   * In a list of several labels, `[name,more]...`, the first label is the
   * text before the first comma: the later labels are dropped.
   */
  lemma FirstLabelOfLongerList(name: string, more: string, rest: string)
    requires ',' !in name && '[' !in name && ']' !in name
    requires |name| == 0 || (!IsWhitespace(name[0]) && !IsWhitespace(name[|name| - 1]))
    requires ']' !in more
    ensures FirstLabel("[" + name + "," + more + "]" + rest) == Some(name)
  {
    var labelsString := "[" + name + "," + more;
    var tail := labelsString + "]" + rest;
    assert "[" + name + "," + more + "]" + rest == tail;
    assert tail[..|labelsString|] == labelsString;
    IndexOfCharIs(tail, ']', |labelsString|);
    var first := "[" + name;
    assert labelsString[..|first|] == first;
    IndexOfCharIs(labelsString, ',', |first|);
    assert FirstComponent(labelsString, ',') == first;
    CleanBracketedName(name);
  }

  /** A description listing several labels yields the first of them. */
  lemma {:induction false} ExtractLabelOfLongerList(prefix: string, name: string, more: string, rest: string)
    requires '=' !in prefix
    requires ',' !in name && '[' !in name && ']' !in name
    requires |name| == 0 || (!IsWhitespace(name[0]) && !IsWhitespace(name[|name| - 1]))
    requires ']' !in more
    ensures ExtractLabel(prefix + LabelsKey + "[" + name + "," + more + "]" + rest) == Some(name)
  {
    var tail := "[" + name + "," + more + "]" + rest;
    var description := prefix + LabelsKey + tail;
    assert prefix + LabelsKey + "[" + name + "," + more + "]" + rest == description;
    KeyFoundAfterPrefix(prefix, tail);
    assert description[|prefix| + |LabelsKey|..] == tail;
    FirstLabelOfLongerList(name, more, rest);
  }
}
