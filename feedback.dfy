/**
 * The feedback mapper of the guidance screen. From the reference point (the
 * hand, or the view centre), the target point and the target depth it
 * derives the sonification parameters (pitch and pan), the bracelet zone,
 * the time between beeps, the spoken direction and the centering cue.
 * Audio players, speech and haptics are recorded as emitted effects.
 */
module Feedback {
  import opened Wrappers
  import opened Numeric
  import opened Decimal
  import opened Geometry

  const DefaultInterBipTime: real := 1.0
  const MinimumInterBipTime: real := 0.1
  const MaxPitch: real := 2000.0
  const MaxDist: real := 960.0
  const MinHandSize: real := 300.0
  const ReachingDistance: real := 0.5
  const CenteringMargin: real := 30.0
  const LookAroundMessage: string := "Look around for a target object"
  const CenteredMessage: string := "Centered!"

  /** A pitch shift in cents; `NonFinite` stands for the infinities and NaNs a zero divisor produces. */
  datatype Pitch = Cents(value: real) | NonFinite

  function Negate(p: Pitch): Pitch {
    match p
    case Cents(v) => Cents(-v)
    case NonFinite => NonFinite
  }

  datatype Sound = CenteredSound | UncenteredSound | TargetLostSound

  /** What the processor makes the phone do. */
  datatype Effect = Speak(text: string) | Play(sound: Sound) | Haptic

  // ---------------------------------------------------------------------
  // Sonification: vertical pitch and horizontal pan
  // ---------------------------------------------------------------------

  /**
   * The "Steps" curve: no shift inside the target's half height, otherwise a
   * full shift of `2000 * factor` cents in the direction of the offset. A
   * zero offset outside a non-positive half height divides zero by zero.
   */
  function StepPitch(deltaY: real, verticalCenterDist: real, factor: real): (r: Pitch)
    ensures Abs(deltaY) < verticalCenterDist ==> r == Cents(0.0)
    ensures Abs(deltaY) >= verticalCenterDist && deltaY > 0.0 ==> r == Cents(factor * MaxPitch)
    ensures Abs(deltaY) >= verticalCenterDist && deltaY < 0.0 ==> r == Cents(-factor * MaxPitch)
    ensures r.NonFinite? <==> Abs(deltaY) >= verticalCenterDist && deltaY == 0.0
  {
    if Abs(deltaY) < verticalCenterDist then Cents(0.0)
    else if deltaY == 0.0 then NonFinite
    else
      var sign := deltaY / Abs(deltaY);
      UnitSign(1.0, deltaY);
      assert sign == 1.0 || sign == -1.0;
      Cents(factor * sign * 2000.0)
  }

  /** The "Parabol" curve: proportional to the squared offset, scaled by the reference height. */
  function ParabolaPitch(deltaY: real, referenceY: real, factor: real): (r: Pitch)
    ensures r.NonFinite? <==> referenceY == 0.0
    ensures r.Cents? ==> r.value * (MaxDist * referenceY) == factor * MaxPitch * (deltaY * deltaY)
  {
    if referenceY == 0.0 then NonFinite
    else
      var slope := MaxPitch / (MaxDist * referenceY);
      DivMulCancels(MaxPitch, MaxDist * referenceY);
      assert factor * slope * (deltaY * deltaY) * (MaxDist * referenceY) == factor * MaxPitch * (deltaY * deltaY);
      Cents(factor * slope * (deltaY * deltaY))
  }

  /**
   * The "Cubic" curve: proportional to the cubed offset, reaching 32 times
   * the factor at the target's half height, and saturated at 2000 cents.
   * A zero half height makes the slope infinite and the result not finite.
   */
  function CubicPitch(deltaY: real, verticalCenterDist: real, factor: real): (r: Pitch)
    ensures r.NonFinite? <==> verticalCenterDist == 0.0
    ensures r.Cents? ==> Abs(r.value) <= MaxPitch
    ensures r.Cents? && Abs(r.value) < MaxPitch ==> r.value == CubicRaw(deltaY, verticalCenterDist, factor)
    ensures verticalCenterDist != 0.0 && CubicRaw(deltaY, verticalCenterDist, factor) >= MaxPitch ==> r == Cents(MaxPitch)
    ensures verticalCenterDist != 0.0 && CubicRaw(deltaY, verticalCenterDist, factor) <= -MaxPitch ==> r == Cents(-MaxPitch)
  {
    if verticalCenterDist == 0.0 then NonFinite
    else
      var newPitch := CubicRaw(deltaY, verticalCenterDist, factor);
      if Abs(newPitch) < MaxPitch then Cents(newPitch)
      else
        UnitSign(MaxPitch, newPitch);
        Cents(MaxPitch * newPitch / Abs(newPitch))
  }

  /** The unsaturated cubic shift. */
  function CubicRaw(deltaY: real, verticalCenterDist: real, factor: real): real
    requires verticalCenterDist != 0.0
  {
    var slope := 32.0 / (verticalCenterDist * verticalCenterDist * verticalCenterDist);
    factor * slope * (deltaY * deltaY * deltaY)
  }

  /** `k * x / abs(x)` is `k` with the sign of a non-zero `x`. */
  lemma UnitSign(k: real, x: real)
    requires x != 0.0
    ensures x > 0.0 ==> x / Abs(x) == 1.0 && k * x / Abs(x) == k
    ensures x < 0.0 ==> x / Abs(x) == -1.0 && k * x / Abs(x) == -k
  {
    if x > 0.0 {
      assert k * x / x == k;
    } else {
      assert k * x / -x == -k;
    }
  }

  lemma DivMulCancels(a: real, b: real)
    requires b != 0.0
    ensures a / b * b == a
  {
  }

  /** Moving the target to the mirror position below the reference negates the step shift. */
  lemma StepPitchIsOdd(deltaY: real, verticalCenterDist: real, factor: real)
    ensures StepPitch(-deltaY, verticalCenterDist, factor) == Negate(StepPitch(deltaY, verticalCenterDist, factor))
  {
  }

  /** The parabola does not tell above from below. */
  lemma ParabolaPitchIsEven(deltaY: real, referenceY: real, factor: real)
    ensures ParabolaPitch(-deltaY, referenceY, factor) == ParabolaPitch(deltaY, referenceY, factor)
  {
    assert (-deltaY) * (-deltaY) == deltaY * deltaY;
  }

  /** The cubic shift, saturated or not, is odd in the offset. */
  lemma {:induction false} CubicPitchIsOdd(deltaY: real, verticalCenterDist: real, factor: real)
    ensures CubicPitch(-deltaY, verticalCenterDist, factor) == Negate(CubicPitch(deltaY, verticalCenterDist, factor))
  {
    if verticalCenterDist != 0.0 {
      var c := 32.0 / (verticalCenterDist * verticalCenterDist * verticalCenterDist);
      CubeIsOdd(deltaY);
      assert CubicRaw(-deltaY, verticalCenterDist, factor) == factor * c * (-(deltaY * deltaY * deltaY));
      assert CubicRaw(-deltaY, verticalCenterDist, factor) == -CubicRaw(deltaY, verticalCenterDist, factor);
      var p := CubicRaw(deltaY, verticalCenterDist, factor);
      if Abs(p) >= MaxPitch {
        UnitSign(MaxPitch, p);
        UnitSign(MaxPitch, -p);
      }
    }
  }

  lemma CubeIsOdd(x: real)
    ensures (-x) * (-x) * (-x) == -(x * x * x)
  {
  }

  /**
   * The stereo pan: centred inside the target's half width, otherwise fully
   * towards the side the target is on; unchanged when the two points share
   * their x coordinate outside a non-positive half width.
   */
  function Pan(referencePoint: Point, objectLocation: Point, horizontalCenterDist: real, current: real): (r: real)
    ensures current in {-1.0, 0.0, 1.0} ==> r in {-1.0, 0.0, 1.0}
    ensures Abs(referencePoint.x - objectLocation.x) < horizontalCenterDist ==> r == 0.0
    ensures Abs(referencePoint.x - objectLocation.x) >= horizontalCenterDist && objectLocation.x > referencePoint.x ==> r == 1.0
    ensures Abs(referencePoint.x - objectLocation.x) >= horizontalCenterDist && objectLocation.x < referencePoint.x ==> r == -1.0
    ensures Abs(referencePoint.x - objectLocation.x) >= horizontalCenterDist && objectLocation.x == referencePoint.x ==> r == current
  {
    var deltaX := referencePoint.x - objectLocation.x;
    if Abs(deltaX) < horizontalCenterDist then 0.0
    else if objectLocation.x > referencePoint.x then 1.0
    else if objectLocation.x < referencePoint.x then -1.0
    else current
  }

  /** Swapping the target to the other side of the reference swaps the pan. */
  lemma PanMirrors(referencePoint: Point, objectLocation: Point, h: real, current: real)
    requires Abs(referencePoint.x - objectLocation.x) >= h && objectLocation.x != referencePoint.x
    ensures Pan(referencePoint, objectLocation, h, current)
         == -Pan(referencePoint, Point(2.0 * referencePoint.x - objectLocation.x, objectLocation.y), h, current)
  {
  }

  // ---------------------------------------------------------------------
  // Bracelet zones
  // ---------------------------------------------------------------------

  const BraceletZones: set<string> := {"0", "1", "3", "5", "7"}

  /**
   * The bracelet zone of the target around the reference: "0" centred,
   * "1" to the left, "3" above, "5" to the right, "7" below, tested in that
   * order; on a boundary the zone is kept.
   */
  function BraceletZone(deltaX: real, deltaY: real, horizontalCenterDist: real, verticalCenterDist: real, current: string): (r: string)
    ensures var centred := Abs(deltaX) < horizontalCenterDist && Abs(deltaY) < verticalCenterDist;
      var left := Abs(deltaX) > horizontalCenterDist && deltaX > 0.0;
      var above := Abs(deltaX) < horizontalCenterDist && deltaY > 0.0;
      var right := Abs(deltaX) > horizontalCenterDist && deltaX < 0.0;
      var below := Abs(deltaX) < horizontalCenterDist && deltaY < 0.0;
      && (centred ==> r == "0")
      && (!centred && left ==> r == "1")
      && (!centred && !left && above ==> r == "3")
      && (!centred && !left && !above && right ==> r == "5")
      && (!centred && !left && !above && !right && below ==> r == "7")
      && (!centred && !left && !above && !right && !below ==> r == current)
    ensures r == current || r in BraceletZones
  {
    var h, v := horizontalCenterDist, verticalCenterDist;
    if Abs(deltaX) < h && Abs(deltaY) < v then "0"
    else if Abs(deltaX) > h && deltaX > 0.0 then "1"
    else if Abs(deltaX) < h && deltaY > 0.0 then "3"
    else if Abs(deltaX) > h && deltaX < 0.0 then "5"
    else if Abs(deltaX) < h && deltaY < 0.0 then "7"
    else current
  }

  /**
   * With a non-negative half width and a positive half height, a zone is
   * always assigned except exactly on the vertical edges of the box.
   */
  lemma {:induction false} BraceletZoneTotal(deltaX: real, deltaY: real, h: real, v: real, current: string)
    requires h >= 0.0 && v > 0.0 && Abs(deltaX) != h
    ensures BraceletZone(deltaX, deltaY, h, v, current) in BraceletZones
    ensures Abs(deltaX) > h ==> BraceletZone(deltaX, deltaY, h, v, current) in {"1", "5"}
  {
    if Abs(deltaX) > h {
      assert deltaX != 0.0;
    }
  }

  /**
   * On the axes through the reference, outside the target box, the zone is
   * the motor `determineState` picks for the bearing of the offset.
   */
  lemma BraceletZoneMatchesSectorOnAxes(deltaX: real, deltaY: real, h: real, v: real, angle: real, current: string)
    requires IsBearing(deltaX, deltaY, angle)
    requires h > 0.0 && v > 0.0
    requires (deltaY == 0.0 && Abs(deltaX) > h) || (deltaX == 0.0 && Abs(deltaY) >= v)
    ensures BraceletZone(deltaX, deltaY, h, v, current) == DetermineState(angle)
  {
  }

  /** Reading the zone twice for the same offset gives what the first reading gave. */
  lemma BraceletZoneIdempotent(deltaX: real, deltaY: real, h: real, v: real, current: string)
    ensures var once := BraceletZone(deltaX, deltaY, h, v, current);
      BraceletZone(deltaX, deltaY, h, v, once) == once
  {
  }

  // ---------------------------------------------------------------------
  // Beep cadence
  // ---------------------------------------------------------------------

  /** The depth cadence: linear from the minimum time at depth 0, with slope `depthSlope * 0.9` per metre. */
  function DepthInterBipTime(depth: real, depthSlope: real): (r: real)
    ensures r - MinimumInterBipTime == depthSlope * (DefaultInterBipTime - MinimumInterBipTime) * depth
  {
    depthSlope * (DefaultInterBipTime - MinimumInterBipTime) * depth + MinimumInterBipTime
  }

  /**
   * The hand cadence as written: a line through (300 px, depth - 0.5) with
   * slope `0.5 / (maxHandSize - 300)`, floored at the minimum. `None` stands
   * for the NaN that the zero divisor gives when `maxHandSize` is 300.
   */
  function HandInterBipTimeAsWritten(depth: real, maxHandSize: real, handSize: real): (r: Option<real>)
    ensures r.None? <==> maxHandSize == MinHandSize
    ensures r.Some? ==> r.value >= MinimumInterBipTime
  {
    if maxHandSize == MinHandSize then None
    else Some(Max(HandLine(depth, maxHandSize, handSize), MinimumInterBipTime))
  }

  /** The hand line itself, for a calibration size other than 300 px. */
  function HandLine(depth: real, maxHandSize: real, handSize: real): (r: real)
    requires maxHandSize != MinHandSize
    ensures handSize == MinHandSize ==> r == depth - ReachingDistance
    ensures handSize == maxHandSize ==> r == depth
  {
    var minDist := depth - ReachingDistance;
    var handSlope := (depth - minDist) / (maxHandSize - MinHandSize);
    var handOffset := minDist - handSlope * MinHandSize;
    DivMulCancels(depth - minDist, maxHandSize - MinHandSize);
    assert handSlope * maxHandSize + handOffset == handSlope * (maxHandSize - MinHandSize) + minDist;
    handSlope * handSize + handOffset
  }

  /** A calibrated hand of exactly 300 px gives no usable cadence. */
  lemma HandCadenceNaNAtMinHandSize(depth: real, handSize: real)
    ensures HandInterBipTimeAsWritten(depth, 300.0, handSize).None?
  {
  }

  /**
   * The hand cadence with the calibration that cannot form a line (a
   * maximum hand size of 300 px) treated like a missing calibration: the
   * current time is kept.
   */
  function HandInterBipTime(depth: real, maxHandSize: real, handSize: real, current: real): (r: real)
    ensures maxHandSize == MinHandSize ==> r == current
    ensures maxHandSize != MinHandSize ==> Some(r) == HandInterBipTimeAsWritten(depth, maxHandSize, handSize)
    ensures current >= MinimumInterBipTime ==> r >= MinimumInterBipTime
  {
    match HandInterBipTimeAsWritten(depth, maxHandSize, handSize)
    case None => current
    case Some(t) => t
  }

  /**
   * The time between beeps after one update, before the final floor: 1 s
   * without a target; otherwise, for a non-zero depth, the hand cadence when
   * a calibrated hand is seen, the depth cadence when no hand is seen, and
   * the current time in every other case.
   */
  function RawInterBipTime(current: real, hasTarget: bool, depth: real, depthSlope: real,
                           handDetected: bool, maxHandSize: real, handSize: real): real
  {
    if !hasTarget then 1.0
    else if depth == 0.0 then current
    else if handDetected then
      (if maxHandSize > 0.0 then HandInterBipTime(depth, maxHandSize, handSize, current) else current)
    else DepthInterBipTime(depth, depthSlope)
  }

  /** The final floor at the minimum time. */
  function FloorInterBipTime(t: real): (r: real)
    ensures r >= MinimumInterBipTime && (t >= MinimumInterBipTime ==> r == t)
  {
    if t < MinimumInterBipTime then MinimumInterBipTime else t
  }

  /** The cadence rules of one update, as the source states them. */
  lemma InterBipTimeCases(current: real, hasTarget: bool, depth: real, depthSlope: real,
                          handDetected: bool, maxHandSize: real, handSize: real)
    requires current >= MinimumInterBipTime
    ensures var r := FloorInterBipTime(RawInterBipTime(current, hasTarget, depth, depthSlope, handDetected, maxHandSize, handSize));
      && r >= MinimumInterBipTime
      && (!hasTarget ==> r == DefaultInterBipTime)
      && (hasTarget && depth != 0.0 && !handDetected ==> r == Max(DepthInterBipTime(depth, depthSlope), MinimumInterBipTime))
      && (hasTarget && handDetected && maxHandSize == 0.0 ==> r == current)
      && (hasTarget && depth == 0.0 ==> r == current)
  {
  }

  /**
   * An update repeated with the same target, depth and hand leaves the time
   * between beeps where the first one put it.
   */
  lemma CadenceIdempotent(current: real, hasTarget: bool, depth: real, depthSlope: real,
                          handDetected: bool, maxHandSize: real, handSize: real)
    ensures var once := FloorInterBipTime(RawInterBipTime(current, hasTarget, depth, depthSlope, handDetected, maxHandSize, handSize));
      FloorInterBipTime(RawInterBipTime(once, hasTarget, depth, depthSlope, handDetected, maxHandSize, handSize)) == once
  {
  }

  // ---------------------------------------------------------------------
  // Directions
  // ---------------------------------------------------------------------

  /** An angle in degrees shifted from (-180, 180] into [0, 360), as `computeAngle` does. */
  function NormalizeDegrees(degrees: real): (r: real)
    requires -180.0 < degrees <= 180.0
    ensures 0.0 <= r < 360.0
    ensures r == degrees || r == degrees + 360.0
  {
    if degrees < 0.0 then degrees + 360.0 else degrees
  }

  /**
   * `angle` is what `computeAngle` returns for the offset `(dx, dy)` from the
   * target to the reference: the atan2 angle in degrees brought into
   * [0, 360). Trigonometry is not modelled; the predicate pins the angle to
   * the axes, the diagonals and the open octant the offset lies in.
   */
  predicate IsBearing(dx: real, dy: real, angle: real) {
    0.0 <= angle < 360.0
    && (dx == 0.0 && dy == 0.0 ==> angle == 0.0)
    && (dy == 0.0 && dx > 0.0 ==> angle == 0.0)
    && (dy == 0.0 && dx < 0.0 ==> angle == 180.0)
    && (dx == 0.0 && dy > 0.0 ==> angle == 90.0)
    && (dx == 0.0 && dy < 0.0 ==> angle == 270.0)
    && (dx > 0.0 && dy > 0.0 ==> 0.0 < angle < 90.0)
    && (dx < 0.0 && dy > 0.0 ==> 90.0 < angle < 180.0)
    && (dx < 0.0 && dy < 0.0 ==> 180.0 < angle < 270.0)
    && (dx > 0.0 && dy < 0.0 ==> 270.0 < angle < 360.0)
    && (dx != 0.0 && (dy == dx || dy == -dx) ==> angle in {45.0, 135.0, 225.0, 315.0})
    && (Abs(dy) < Abs(dx) ==> angle < 45.0 || 135.0 < angle < 225.0 || angle > 315.0)
    && (Abs(dy) > Abs(dx) ==> 45.0 < angle < 135.0 || 225.0 < angle < 315.0)
  }

  /** `determineState`: the bracelet motor facing a bearing, in eight 45-degree sectors centred on 0, 45, ... */
  function DetermineState(angle: real): (s: string)
    requires 0.0 <= angle <= 360.0
    ensures s in {"1", "2", "3", "4", "5", "6", "7", "8"}
  {
    if (angle >= 0.0 && angle < 22.5) || (angle > 337.5 && angle <= 360.0) then "1"
    else if angle >= 22.5 && angle < 67.5 then "2"
    else if angle >= 67.5 && angle < 112.5 then "3"
    else if angle >= 112.5 && angle < 157.5 then "4"
    else if angle >= 157.5 && angle < 202.5 then "5"
    else if angle >= 202.5 && angle < 247.5 then "6"
    else if angle >= 247.5 && angle < 292.5 then "7"
    else "8"
  }

  /** The spoken direction `assistUser` gives for a bearing. */
  function DirectionPhrase(angle: real): (s: string)
    requires 0.0 <= angle <= 360.0
    ensures s in {"left", "top left", "top", "top right", "right", "down right", "down", "down left"}
  {
    if (angle >= 0.0 && angle < 22.5) || (angle > 337.5 && angle <= 360.0) then "left"
    else if angle >= 22.5 && angle < 67.5 then "top left"
    else if angle >= 67.5 && angle < 112.5 then "top"
    else if angle >= 112.5 && angle < 157.5 then "top right"
    else if angle >= 157.5 && angle < 202.5 then "right"
    else if angle >= 202.5 && angle < 247.5 then "down right"
    else if angle >= 247.5 && angle < 292.5 then "down"
    else "down left"
  }

  /** The phrase belonging to each bracelet motor. */
  function PhraseOfState(state: string): string {
    match state
    case "1" => "left"
    case "2" => "top left"
    case "3" => "top"
    case "4" => "top right"
    case "5" => "right"
    case "6" => "down right"
    case "7" => "down"
    case _ => "down left"
  }

  /** Motor and phrase share the same sectors. */
  lemma PhraseMatchesState(angle: real)
    requires 0.0 <= angle <= 360.0
    ensures DirectionPhrase(angle) == PhraseOfState(DetermineState(angle))
  {
  }

  /**
   * Away from the 337.5-degree boundary (which the source assigns to sector
   * 8), the sector is the nearest multiple of 45 degrees, counted from 1.
   */
  lemma {:induction false} DetermineStateIsNearestOctant(angle: real)
    requires 0.0 <= angle <= 360.0 && angle != 337.5
    ensures DetermineState(angle) == IntToString(((angle + 22.5) / 45.0).Floor % 8 + 1)
  {
    var k := ((angle + 22.5) / 45.0).Floor;
    assert 0 <= k <= 8;
    assert k as real <= (angle + 22.5) / 45.0 < k as real + 1.0;
    assert 45.0 * k as real <= angle + 22.5 < 45.0 * k as real + 45.0;
    if k == 0 { assert DetermineState(angle) == "1"; }
    else if k == 1 { assert DetermineState(angle) == "2"; }
    else if k == 2 { assert DetermineState(angle) == "3"; }
    else if k == 3 { assert DetermineState(angle) == "4"; }
    else if k == 4 { assert DetermineState(angle) == "5"; }
    else if k == 5 { assert DetermineState(angle) == "6"; }
    else if k == 6 { assert DetermineState(angle) == "7"; }
    else if k == 7 { assert DetermineState(angle) == "8"; }
    else { assert DetermineState(angle) == "1"; }
  }

  /**
   * Directions in screen terms (y grows downwards): a target straight to the
   * left of the reference is "left", straight above is "top", straight to the
   * right is "right", straight below is "down", and on the upper-left
   * diagonal "top left".
   */
  lemma DirectionsOnAxes(dx: real, dy: real, angle: real)
    requires IsBearing(dx, dy, angle)
    ensures dy == 0.0 && dx > 0.0 ==> DirectionPhrase(angle) == "left"
    ensures dx == 0.0 && dy > 0.0 ==> DirectionPhrase(angle) == "top"
    ensures dy == 0.0 && dx < 0.0 ==> DirectionPhrase(angle) == "right"
    ensures dx == 0.0 && dy < 0.0 ==> DirectionPhrase(angle) == "down"
    ensures dx > 0.0 && dy == dx ==> DirectionPhrase(angle) == "top left"
  {
  }

  // ---------------------------------------------------------------------
  // Centering
  // ---------------------------------------------------------------------

  predicate InInnerBox(deltaX: real, deltaY: real, targetWidth: real, targetHeight: real) {
    Abs(deltaX) < targetWidth / 2.0 && Abs(deltaY) < targetHeight / 2.0
  }

  predicate InMargin(deltaX: real, deltaY: real, targetWidth: real, targetHeight: real) {
    Abs(deltaX) < targetWidth / 2.0 + CenteringMargin && Abs(deltaY) < targetHeight / 2.0 + CenteringMargin
  }

  /**
   * One centering decision: inside the inner box the target is centred (and
   * a cue plays if it was not); outside the inner box but inside the margin
   * a centred target becomes uncentred (with a cue); otherwise nothing
   * changes. Returns the new flag and the cue, if any.
   */
  function CenteringStep(deltaX: real, deltaY: real, targetWidth: real, targetHeight: real, wasCentered: bool): (r: (bool, Option<Sound>))
    ensures r.1 == Some(CenteredSound) <==> !wasCentered && r.0
    ensures r.1 == Some(UncenteredSound) <==> wasCentered && !r.0
    ensures r.1.None? <==> r.0 == wasCentered
    ensures InInnerBox(deltaX, deltaY, targetWidth, targetHeight) ==> r == (true, if wasCentered then None else Some(CenteredSound))
    ensures !InInnerBox(deltaX, deltaY, targetWidth, targetHeight) && InMargin(deltaX, deltaY, targetWidth, targetHeight) && wasCentered
      ==> r == (false, Some(UncenteredSound))
    ensures !InInnerBox(deltaX, deltaY, targetWidth, targetHeight) && !(InMargin(deltaX, deltaY, targetWidth, targetHeight) && wasCentered)
      ==> r == (wasCentered, None)
  {
    var inner := Abs(deltaX) < targetWidth / 2.0 && Abs(deltaY) < targetHeight / 2.0;
    var margin := Abs(deltaX) < targetWidth / 2.0 + CenteringMargin && Abs(deltaY) < targetHeight / 2.0 + CenteringMargin;
    if inner then (true, if wasCentered then None else Some(CenteredSound))
    else if margin && wasCentered then (false, Some(UncenteredSound))
    else (wasCentered, None)
  }

  /**
   * The flag is not a symmetric hysteresis: it is set only inside the inner
   * box, cleared only inside the margin, and an offset beyond the margin
   * leaves a centred flag set.
   */
  lemma CenteringIsNotHysteresis(deltaX: real, deltaY: real, w: real, h: real, wasCentered: bool)
    ensures CenteringStep(deltaX, deltaY, w, h, wasCentered).0 && !wasCentered ==> InInnerBox(deltaX, deltaY, w, h)
    ensures !CenteringStep(deltaX, deltaY, w, h, wasCentered).0 && wasCentered ==>
      InMargin(deltaX, deltaY, w, h) && !InInnerBox(deltaX, deltaY, w, h)
    ensures InInnerBox(deltaX, deltaY, w, h) ==> CenteringStep(deltaX, deltaY, w, h, wasCentered).0
    ensures !InMargin(deltaX, deltaY, w, h) ==> CenteringStep(deltaX, deltaY, w, h, wasCentered) == (wasCentered, None)
    ensures InMargin(deltaX, deltaY, w, h) && !InInnerBox(deltaX, deltaY, w, h) && wasCentered ==>
      CenteringStep(deltaX, deltaY, w, h, wasCentered) == (false, Some(UncenteredSound))
    ensures !InInnerBox(deltaX, deltaY, w, h) && !wasCentered ==> CenteringStep(deltaX, deltaY, w, h, wasCentered) == (false, None)
  {
  }

  // ---------------------------------------------------------------------
  // Spoken texts
  // ---------------------------------------------------------------------

  /** The distance announcement, in whole centimetres, after the current message unless it is the default. */
  function DistanceIndication(indicationMessage: string, depth: real): (s: string)
    ensures var tail := "Distance from target: " + IntToString(Trunc(depth * 100.0)) + " centimeters";
      && (indicationMessage == LookAroundMessage ==> s == tail)
      && (indicationMessage != LookAroundMessage ==> s == indicationMessage + ", " + tail)
  {
    var distance := "Distance from target: " + IntToString(Trunc(depth * 100.0)) + " centimeters";
    if indicationMessage != LookAroundMessage then indicationMessage + ", " + distance else distance
  }

  /** What the guidance screen tells the processor about the current frame, target and hand. */
  datatype Observation = Observation(
    frameWidth: real, frameHeight: real, foundTarget: bool,
    targetHeight: real, targetWidth: real,
    handDetected: bool, handSize: real, maxHandSize: real)

  const NoObservation: Observation := Observation(0.0, 0.0, false, 0.0, 0.0, false, 0.0, 0.0)

  /** The options chosen on the settings screen. */
  datatype Settings = Settings(
    feedbackUsed: string, verticalType: string,
    verticalSlope: real, depthSlope: real, oralFeedbackEnabled: bool)

  const DefaultSettings: Settings := Settings("", "", 1.0, 1.0, false)

  /** The pitch the chosen vertical curve gives; an unknown curve keeps the current pitch. */
  function NextPitch(settings: Settings, targetHeight: real, referencePoint: Point, objectLocation: Point, current: Pitch): (r: Pitch)
    ensures settings.verticalType !in {"Steps", "Parabol", "Cubic"} ==> r == current
  {
    var deltaY := referencePoint.y - objectLocation.y;
    if settings.verticalType == "Steps" then StepPitch(deltaY, targetHeight / 2.0, settings.verticalSlope)
    else if settings.verticalType == "Parabol" then ParabolaPitch(deltaY, referencePoint.y, settings.verticalSlope)
    else if settings.verticalType == "Cubic" then CubicPitch(deltaY, targetHeight / 2.0, settings.verticalSlope)
    else current
  }

  class FeedbackProcessor {
    var settings: Settings
    var observation: Observation
    var interBipTime: real
    var isCentered: bool
    var indicationMessage: string
    var directionMessage: string
    /** The pitch shift of the beep player. */
    var pitch: Pitch
    /** The stereo pan of the beep player. */
    var pan: real
    var braceletState: string
    /** Whether the target-lost sound could be loaded. */
    const targetLostPlayerLoaded: bool
    /** Everything played, spoken or vibrated so far, oldest first. */
    var effects: seq<Effect>

    ghost predicate Valid()
      reads this`interBipTime, this`pan, this`braceletState
    {
      interBipTime >= MinimumInterBipTime
      && pan in {-1.0, 0.0, 1.0}
      && (braceletState == "" || braceletState in BraceletZones)
    }

    constructor(targetLostPlayerLoaded: bool)
      ensures Valid() && this.targetLostPlayerLoaded == targetLostPlayerLoaded
      ensures settings == DefaultSettings && observation == NoObservation
      ensures interBipTime == DefaultInterBipTime && !isCentered && braceletState == ""
      ensures indicationMessage == LookAroundMessage && directionMessage == CenteredMessage
      ensures pitch == Cents(0.0) && pan == 0.0 && effects == []
    {
      settings := DefaultSettings;
      observation := NoObservation;
      interBipTime := DefaultInterBipTime;
      isCentered := false;
      indicationMessage := LookAroundMessage;
      directionMessage := CenteredMessage;
      pitch := Cents(0.0);
      pan := 0.0;
      braceletState := "";
      this.targetLostPlayerLoaded := targetLostPlayerLoaded;
      effects := [];
    }

    /**
     * Maps the reference point, the target point and the depth to the
     * sonification or bracelet parameters and the beep cadence. Without a
     * reference point nothing changes.
     */
    method UpdateParameters(referencePoint: Option<Point>, objectLocation: Point, depth: real)
      requires Valid()
      modifies this`pitch, this`pan, this`braceletState, this`interBipTime
      ensures Valid()
      ensures referencePoint.None? ==>
        pitch == old(pitch) && pan == old(pan) && braceletState == old(braceletState) && interBipTime == old(interBipTime)
      ensures referencePoint.Some? ==>
        interBipTime == FloorInterBipTime(RawInterBipTime(old(interBipTime), objectLocation != Origin, depth,
          settings.depthSlope, observation.handDetected, observation.maxHandSize, observation.handSize))
      ensures referencePoint.Some? && objectLocation != Origin && settings.feedbackUsed == "Sonification" ==>
        && pitch == NextPitch(settings, observation.targetHeight, referencePoint.value, objectLocation, old(pitch))
        && pan == Pan(referencePoint.value, objectLocation, observation.targetWidth / 2.0, old(pan))
        && braceletState == old(braceletState)
      ensures referencePoint.Some? && objectLocation != Origin && settings.feedbackUsed == "Bracelet" ==>
        && braceletState == BraceletZone(referencePoint.value.x - objectLocation.x, referencePoint.value.y - objectLocation.y,
             observation.targetWidth / 2.0, observation.targetHeight / 2.0, old(braceletState))
        && pitch == old(pitch) && pan == old(pan)
      ensures referencePoint.Some? && (objectLocation == Origin || settings.feedbackUsed !in {"Sonification", "Bracelet"}) ==>
        pitch == old(pitch) && pan == old(pan) && braceletState == old(braceletState)
    {
      if referencePoint.None? {
        return;
      }
      var reference := referencePoint.value;
      var newPitch, newPan, newState, newTime := pitch, pan, braceletState, interBipTime;
      if objectLocation != Origin {
        var verticalCenterDist := observation.targetHeight / 2.0;
        var horizontalCenterDist := observation.targetWidth / 2.0;
        var deltaX := reference.x - objectLocation.x;
        var deltaY := reference.y - objectLocation.y;
        if settings.feedbackUsed == "Sonification" {
          newPitch := NextPitch(settings, observation.targetHeight, reference, objectLocation, pitch);
          newPan := Pan(reference, objectLocation, horizontalCenterDist, pan);
        } else if settings.feedbackUsed == "Bracelet" {
          newState := BraceletZone(deltaX, deltaY, horizontalCenterDist, verticalCenterDist, braceletState);
        }
        if depth != 0.0 {
          var depthTime := DepthInterBipTime(depth, settings.depthSlope);
          if observation.handDetected {
            if observation.maxHandSize > 0.0 {
              newTime := HandInterBipTime(depth, observation.maxHandSize, observation.handSize, newTime);
            }
          } else {
            newTime := depthTime;
          }
        }
      } else {
        newTime := DefaultInterBipTime;
      }
      pitch, pan, braceletState, interBipTime := newPitch, newPan, newState, FloorInterBipTime(newTime);
    }

    /**
     * Names the direction of the target and tracks the centering flag. With
     * no target or no reference point the answer is empty; a zero target
     * point keeps the current message. `bearing` is `computeAngle` of the
     * two points.
     */
    method AssistUser(referencePoint: Option<Point>, objectLocation: Option<Point>, bearing: real) returns (message: string)
      requires 0.0 <= bearing < 360.0
      requires Valid()
      modifies this`directionMessage, this`indicationMessage, this`isCentered, this`pan, this`effects
      ensures Valid()
      ensures objectLocation.None? || referencePoint.None? ==> message == "" && unchanged(this)
      ensures objectLocation.Some? && referencePoint.Some? && objectLocation.value == Origin ==>
        message == indicationMessage && unchanged(this)
      ensures objectLocation.Some? && referencePoint.Some? && objectLocation.value != Origin ==>
        var dx := referencePoint.value.x - objectLocation.value.x;
        var dy := referencePoint.value.y - objectLocation.value.y;
        var step := CenteringStep(dx, dy, observation.targetWidth, observation.targetHeight, old(isCentered));
        && directionMessage == DirectionPhrase(bearing)
        && isCentered == step.0
        && indicationMessage == (if InInnerBox(dx, dy, observation.targetWidth, observation.targetHeight) then CenteredMessage else directionMessage)
        && message == indicationMessage
        && effects == old(effects) + (if step.1.Some? then [Play(step.1.value)] else [])
        && pan == (if step.1 == Some(CenteredSound) then 0.0 else old(pan))
      ensures settings == old(settings) && observation == old(observation)
      ensures interBipTime == old(interBipTime) && braceletState == old(braceletState) && pitch == old(pitch)
    {
      if objectLocation.None? || referencePoint.None? {
        return "";
      }
      var target := objectLocation.value;
      var reference := referencePoint.value;
      if target == Origin {
        return indicationMessage;
      }
      Centre(reference.x - target.x, reference.y - target.y, DirectionPhrase(bearing));
      message := indicationMessage;
    }

    /** The centering part of `assistUser`, for a target offset by `(deltaX, deltaY)` from the reference. */
    method Centre(deltaX: real, deltaY: real, direction: string)
      requires Valid()
      modifies this`directionMessage, this`indicationMessage, this`isCentered, this`pan, this`effects
      ensures Valid()
      ensures var step := CenteringStep(deltaX, deltaY, observation.targetWidth, observation.targetHeight, old(isCentered));
        && directionMessage == direction
        && isCentered == step.0
        && indicationMessage == (if InInnerBox(deltaX, deltaY, observation.targetWidth, observation.targetHeight) then CenteredMessage else direction)
        && effects == old(effects) + (if step.1.Some? then [Play(step.1.value)] else [])
        && pan == (if step.1 == Some(CenteredSound) then 0.0 else old(pan))
    {
      var halfWidth, halfHeight := observation.targetWidth / 2.0, observation.targetHeight / 2.0;
      directionMessage := direction;
      indicationMessage := directionMessage;
      if Abs(deltaX) < halfWidth && Abs(deltaY) < halfHeight {
        indicationMessage := CenteredMessage;
        if !isCentered {
          effects := effects + [Play(CenteredSound)];
          pan := 0.0;
          isCentered := true;
        }
      } else if Abs(deltaX) < halfWidth + CenteringMargin && Abs(deltaY) < halfHeight + CenteringMargin && isCentered {
        effects := effects + [Play(UncenteredSound)];
        isCentered := false;
        indicationMessage := directionMessage;
      }
    }

    /** Speaks the distance to the target, interrupting any speech. */
    method IndicateDistanceFromTarget(depth: real)
      modifies this`effects
      ensures effects == old(effects) + [Speak(DistanceIndication(indicationMessage, depth))]
    {
      effects := effects + [Speak(DistanceIndication(indicationMessage, depth))];
    }

    method PlayIndication(sentence: string)
      modifies this`effects
      ensures effects == old(effects) + [Speak(sentence)]
    {
      effects := effects + [Speak(sentence)];
    }

    /**
     * The target left the view: the lost sound plays and the message recalls
     * the last direction, spoken when oral feedback is on. Nothing happens if
     * the sound could not be loaded.
     */
    method IndicateDirectionAfterLost()
      modifies this`effects, this`indicationMessage
      ensures !targetLostPlayerLoaded ==> effects == old(effects) && indicationMessage == old(indicationMessage)
      ensures targetLostPlayerLoaded ==> indicationMessage == "Out of view, was " + directionMessage
      ensures targetLostPlayerLoaded && settings.oralFeedbackEnabled ==>
        effects == old(effects) + [Play(TargetLostSound), Speak(indicationMessage)]
      ensures targetLostPlayerLoaded && !settings.oralFeedbackEnabled ==> effects == old(effects) + [Play(TargetLostSound)]
    {
      if targetLostPlayerLoaded {
        indicationMessage := "Out of view, was " + directionMessage;
        if settings.oralFeedbackEnabled {
          effects := effects + [Play(TargetLostSound), Speak(indicationMessage)];
        } else {
          effects := effects + [Play(TargetLostSound)];
        }
      }
    }

    method IndicateDirectionOrally()
      modifies this`effects
      ensures effects == old(effects) + (if settings.oralFeedbackEnabled then [Speak(indicationMessage)] else [])
    {
      if settings.oralFeedbackEnabled {
        effects := effects + [Speak(indicationMessage)];
      }
    }

    method TriggerHapticFeedback()
      modifies this`effects
      ensures effects == old(effects) + [Haptic]
    {
      effects := effects + [Haptic];
    }

    /** Restores the per-session fields; settings, pitch, pan and the bracelet state are kept. */
    method ResetAudio()
      requires Valid()
      modifies this`observation, this`interBipTime, this`isCentered, this`indicationMessage, this`directionMessage
      ensures Valid()
      ensures observation == NoObservation && interBipTime == DefaultInterBipTime && !isCentered
      ensures indicationMessage == LookAroundMessage && directionMessage == CenteredMessage
    {
      observation, interBipTime, isCentered := NoObservation, DefaultInterBipTime, false;
      indicationMessage, directionMessage := LookAroundMessage, CenteredMessage;
    }
  }
}
