/**
 * The door-finding screen: each object-detection result is filtered for
 * confident doors; a door seen for the first time beeps, every fifteenth
 * detection may announce the door's clock-face direction and rounded
 * distance when either changed enough, and forty frames in a row without a
 * door announce "Lost". The detector's observations are inputs; the
 * announcements, the beep and the success sound are recorded as effects.
 */
module Room {
  import opened Wrappers
  import opened Numeric
  import opened Decimal
  import opened Geometry
  import opened VisionTracker

  /** A recognized-object observation as this screen reads it: its box, its labels and its own confidence. */
  datatype Observation = Observation(boundingBox: Rect, labels: seq<Label>, confidence: real)

  /** What the screen asks of the speech synthesizer, the haptic engine and the sound players. */
  datatype RoomEffect =
    | Beep                   // the door was seen for the first time
    | Success                // the door fills most of the frame
    | SpeakAndVibrate(text: string)

  const DoorLabel: string := "door"
  const DefaultConfidenceThreshold: real := 0.65
  const XPosThreshold: real := 0.05
  const DistanceThreshold: real := 5.0
  const AnnouncementPeriod: int := 15
  const LostAfterFrames: int := 40
  const BoxBufferCapacity: int := 4
  const LostMessage: string := "Lost"

  // ---------------------------------------------------------------------
  // Filtering the detector's results
  // ---------------------------------------------------------------------

  /** The observation's first label is "door" and the observation is at least as confident as the threshold. */
  predicate IsDoor(o: Observation, threshold: real) {
    |o.labels| > 0 && o.labels[0].identifier == DoorLabel && o.confidence >= threshold
  }

  /** `predictions.filter { … }`: the doors among the results, in their order. */
  function Doors(os: seq<Observation>, threshold: real): seq<Observation>
    decreases |os|
  {
    if |os| == 0 then []
    else (if IsDoor(os[0], threshold) then [os[0]] else []) + Doors(os[1..], threshold)
  }

  /**
   * The filter keeps exactly the doors: it is empty iff no result is a door,
   * everything it keeps is a door, and its first element is the first door
   * among the results.
   */
  lemma {:induction false} DoorsAreTheDoors(os: seq<Observation>, threshold: real)
    ensures var r := Doors(os, threshold);
      && (|r| > 0 <==> exists i :: 0 <= i < |os| && IsDoor(os[i], threshold))
      && (forall j :: 0 <= j < |r| ==> IsDoor(r[j], threshold))
      && (|r| > 0 ==> exists i :: 0 <= i < |os| && os[i] == r[0] && forall j :: 0 <= j < i ==> !IsDoor(os[j], threshold))
    decreases |os|
  {
    if |os| > 0 {
      DoorsAreTheDoors(os[1..], threshold);
      var r := Doors(os, threshold);
      var rest := Doors(os[1..], threshold);
      if IsDoor(os[0], threshold) {
        assert r[0] == os[0];
      } else {
        assert r == rest;
        if |r| > 0 {
          var i :| 0 <= i < |os[1..]| && os[1..][i] == rest[0] && forall j :: 0 <= j < i ==> !IsDoor(os[1..][j], threshold);
          assert os[i + 1] == r[0];
          forall j | 0 <= j < i + 1
            ensures !IsDoor(os[j], threshold)
          {
            if j > 0 {
              assert os[j] == os[1..][j - 1];
            }
          }
        }
        if exists i :: 0 <= i < |os| && IsDoor(os[i], threshold) {
          var i :| 0 <= i < |os| && IsDoor(os[i], threshold);
          assert os[1..][i - 1] == os[i];
        }
      }
    }
  }

  /** Every box the detector reports has a height, so `1 / height` is finite. */
  predicate HasHeights(os: seq<Observation>) {
    forall i :: 0 <= i < |os| ==> os[i].boundingBox.Height() > 0.0
  }

  lemma {:induction false} DoorsHaveHeights(os: seq<Observation>, threshold: real)
    requires HasHeights(os)
    ensures HasHeights(Doors(os, threshold))
    decreases |os|
  {
    if |os| > 0 {
      DoorsHaveHeights(os[1..], threshold);
    }
  }

  // ---------------------------------------------------------------------
  // Direction and distance
  // ---------------------------------------------------------------------

  /** The clock hour for a horizontal position across the frame, and "" outside it. */
  function ClockHour(xPos: real): (r: string)
    ensures r == "" <==> xPos < 0.0 || xPos > 1.0
  {
    if 0.0 <= xPos < 0.2 then "10"
    else if 0.2 <= xPos < 0.4 then "11"
    else if 0.4 <= xPos < 0.6 then "12"
    else if 0.6 <= xPos < 0.8 then "1"
    else if 0.8 <= xPos <= 1.0 then "2"
    else ""
  }

  /** The position of an hour on the dial as seen from the left edge: 10, 11, 12, 1, 2. */
  function DialRank(hour: string): int {
    if hour == "10" then 0 else if hour == "11" then 1 else if hour == "12" then 2
    else if hour == "1" then 3 else 4
  }

  /** The hour sweeps the dial from left to right: a position further right never gets an earlier hour. */
  lemma ClockHourSweepsRight(x: real, y: real)
    requires 0.0 <= x <= y <= 1.0
    ensures DialRank(ClockHour(x)) <= DialRank(ClockHour(y))
  {
  }

  /**
   * Mirroring the position mirrors the hour about twelve o'clock, except on
   * the sector borders, where the half-open sectors break the symmetry.
   */
  lemma ClockHourMirrors(x: real)
    requires 0.0 <= x <= 1.0 && x != 0.2 && x != 0.4 && x != 0.6 && x != 0.8
    ensures DialRank(ClockHour(1.0 - x)) == 4 - DialRank(ClockHour(x))
  {
  }

  /** `round(1 / height)`, the distance the screen announces, in metres. */
  function DoorDistance(box: Rect): (d: int)
    requires box.Height() > 0.0
    ensures box.Height() <= 1.0 ==> d >= 1
    ensures d >= 0
  {
    InverseOfFraction(box.Height());
    Round(1.0 / box.Height())
  }

  lemma InverseOfFraction(h: real)
    requires h > 0.0
    ensures 1.0 / h > 0.0
    ensures h <= 1.0 ==> 1.0 / h >= 1.0
  {
    var q := 1.0 / h;
    assert q * h == 1.0;
    if h <= 1.0 {
      assert q * h <= q * 1.0;
    }
  }

  /** A box tall enough to play the success sound is announced at one or two metres. */
  lemma SuccessIsNear(box: Rect)
    requires 0.666 <= box.Height() <= 1.0
    ensures 1 <= DoorDistance(box) <= 2
  {
    var h := box.Height();
    var q := 1.0 / h;
    InverseOfFraction(h);
    assert q * h == 1.0;
    assert q * 0.666 <= q * h;
    assert q < 2.5;
  }

  /** The sentence announced for a position and distance, "" when the position is off the dial. */
  function Announcement(xPos: real, distance: int): (s: string)
    ensures s == "" <==> xPos < 0.0 || xPos > 1.0
    ensures s != "" ==> s == ClockHour(xPos) + " o'clock, " + WholeNumberText(distance) + " meters"
  {
    var hour := ClockHour(xPos);
    if hour == "" then "" else hour + " o'clock, " + WholeNumberText(distance) + " meters"
  }

  // ---------------------------------------------------------------------
  // The box buffer and its average
  // ---------------------------------------------------------------------

  /** `updateBoundingBoxBuffer`: append, and once there are more than four boxes drop the oldest four. */
  function NextBuffer(buffer: seq<Rect>, box: Rect): seq<Rect> {
    var b := buffer + [box];
    if |b| > BoxBufferCapacity then b[4..] else b
  }

  /**
   * The new box is always last, what is kept is the end of the history, and
   * a buffer of at most four boxes stays between one and four.
   */
  lemma NextBufferBounds(buffer: seq<Rect>, box: Rect)
    ensures var r := NextBuffer(buffer, box);
      && |r| >= 1 && r[|r| - 1] == box
      && r == (buffer + [box])[|buffer| + 1 - |r|..]
      && (|buffer| <= BoxBufferCapacity ==> |r| <= BoxBufferCapacity)
      && (|buffer| < BoxBufferCapacity ==> r == buffer + [box])
      && (|buffer| == BoxBufferCapacity ==> r == [box])
  {
  }

  function MidXs(buffer: seq<Rect>): (r: seq<real>)
    ensures |r| == |buffer| && forall i :: 0 <= i < |r| ==> r[i] == (buffer[i].MinX() + buffer[i].MaxX()) / 2.0
  {
    seq(|buffer|, i requires 0 <= i < |buffer| => (buffer[i].MinX() + buffer[i].MaxX()) / 2.0)
  }

  function Heights(buffer: seq<Rect>): (r: seq<real>)
    ensures |r| == |buffer| && forall i :: 0 <= i < |r| ==> r[i] == buffer[i].MaxY() - buffer[i].MinY()
  {
    seq(|buffer|, i requires 0 <= i < |buffer| => buffer[i].MaxY() - buffer[i].MinY())
  }

  function SumReals(s: seq<real>): real
    decreases |s|
  {
    if |s| == 0 then 0.0 else SumReals(s[..|s| - 1]) + s[|s| - 1]
  }

  function Mean(s: seq<real>): real
    requires |s| > 0
  {
    SumReals(s) / |s| as real
  }

  lemma {:induction false} SumRealsBounds(s: seq<real>, lo: real, hi: real)
    requires forall i :: 0 <= i < |s| ==> lo <= s[i] <= hi
    ensures |s| as real * lo <= SumReals(s) <= |s| as real * hi
    decreases |s|
  {
    if |s| > 0 {
      var n := (|s| - 1) as real;
      SumRealsBounds(s[..|s| - 1], lo, hi);
      assert |s| as real * lo == n * lo + lo;
      assert |s| as real * hi == n * hi + hi;
    }
  }

  /** A mean lies between bounds that hold for every element. */
  lemma MeanWithin(s: seq<real>, lo: real, hi: real)
    requires |s| > 0 && forall i :: 0 <= i < |s| ==> lo <= s[i] <= hi
    ensures lo <= Mean(s) <= hi
  {
    SumRealsBounds(s, lo, hi);
    var n := |s| as real;
    assert Mean(s) * n == SumReals(s);
  }

  /** `calculateAverageBoundingBox`: the mean centre and the mean height of the buffered boxes, (0, 0) when empty. */
  function AverageBox(buffer: seq<Rect>): (real, real) {
    if |buffer| == 0 then (0.0, 0.0) else (Mean(MidXs(buffer)), Mean(Heights(buffer)))
  }

  /**
   * The average box lies among the boxes: when every centre is in
   * `[xLo, xHi]` and every height in `[hLo, hHi]`, so is the average.
   */
  lemma AverageBoxWithin(buffer: seq<Rect>, xLo: real, xHi: real, hLo: real, hHi: real)
    requires |buffer| > 0
    requires forall i :: 0 <= i < |buffer| ==> xLo <= (buffer[i].MinX() + buffer[i].MaxX()) / 2.0 <= xHi
    requires forall i :: 0 <= i < |buffer| ==> hLo <= buffer[i].MaxY() - buffer[i].MinY() <= hHi
    ensures xLo <= AverageBox(buffer).0 <= xHi && hLo <= AverageBox(buffer).1 <= hHi
  {
    MeanWithin(MidXs(buffer), xLo, xHi);
    MeanWithin(Heights(buffer), hLo, hHi);
  }

  /** The heights averaged are the boxes' standardized heights, so the average height is never negative. */
  lemma AverageHeightNonNegative(buffer: seq<Rect>)
    ensures AverageBox(buffer).1 >= 0.0
  {
    if |buffer| > 0 {
      var hi := AverageBox(buffer).1;
      forall i | 0 <= i < |buffer|
        ensures 0.0 <= buffer[i].MaxY() - buffer[i].MinY()
      {
      }
      MeanWithin(Heights(buffer), 0.0, SumOfHeights(buffer));
    }
  }

  /** A bound on every height: their sum, since none is negative. */
  function SumOfHeights(buffer: seq<Rect>): (r: real)
    ensures forall i :: 0 <= i < |buffer| ==> buffer[i].MaxY() - buffer[i].MinY() <= r
    decreases |buffer|
  {
    if |buffer| == 0 then 0.0
    else (buffer[0].MaxY() - buffer[0].MinY()) + SumOfHeights(buffer[1..])
  }

  // ---------------------------------------------------------------------
  // The announcement slider
  // ---------------------------------------------------------------------

  /** `sliderDidSlide`: below 1 "Less" (no repeated announcements), below 2 "Norm", otherwise "More". */
  function FrequencySetting(value: real): (r: (int, string))
    ensures r.0 in {0, 1, 2}
    ensures r.1 == (if r.0 == 0 then "Less" else if r.0 == 1 then "Norm" else "More")
  {
    if value < 1.0 then (0, "Less") else if value < 2.0 then (1, "Norm") else (2, "More")
  }

  /** Sliding further right never lowers the frequency. */
  lemma FrequencyMonotone(a: real, b: real)
    requires a <= b
    ensures FrequencySetting(a).0 <= FrequencySetting(b).0
  {
  }

  // ---------------------------------------------------------------------
  // One detection result, as a function of the screen's state
  // ---------------------------------------------------------------------

  /** The screen's counters, flags and memory that a detection result updates. */
  datatype RoomState = RoomState(
    prevXPos: real,
    prevDistance: int,
    sayDistance: int,
    numBoundingBox: int,
    numNotFound: int,
    shelterDetected: bool,
    shelterDetectedFirst: bool,
    speechString: string,
    hasBeeped: bool,
    boundingBoxBuffer: seq<Rect>)

  /**
   * The state the screen keeps between results: the beep flag is up exactly
   * while a door episode is open, the miss counter runs below forty and only
   * during an episode, and the buffer holds at most four boxes.
   */
  predicate Consistent(s: RoomState) {
    s.hasBeeped == s.shelterDetectedFirst
    && 0 <= s.numNotFound < LostAfterFrames
    && (!s.shelterDetectedFirst ==> s.numNotFound == 0)
    && 0 <= s.numBoundingBox && 0 <= s.sayDistance
    && |s.boundingBoxBuffer| <= BoxBufferCapacity
  }

  /** The gate on the detection count: the first detection and every fifteenth one. */
  predicate AnnouncementDue(numBoundingBox: int) {
    numBoundingBox == 1 || numBoundingBox % AnnouncementPeriod == 0
  }

  /** The door moved across by more than 0.05 or its rounded distance changed by five metres or more. */
  predicate MovedEnough(s: RoomState, xPos: real, distance: int) {
    Abs(xPos - s.prevXPos) > XPosThreshold || Abs((distance - s.prevDistance) as real) >= DistanceThreshold
  }

  /**
   * An announcement opportunity for the first door's box: the box enters
   * the buffer; if the door moved enough the position and distance are
   * remembered, the success sound plays for a tall box, the sentence is
   * spoken, and with a non-zero frequency it is spoken again whenever the
   * repeat counter has reached the frequency (which then restarts).
   */
  function AnnounceStep(s: RoomState, box: Rect, freq: int): (RoomState, seq<RoomEffect>)
    requires box.Height() > 0.0
  {
    var xPos := (box.MinX() + box.MaxX()) / 2.0;
    var distance := DoorDistance(box);
    var buffered := s.(boundingBoxBuffer := NextBuffer(s.boundingBoxBuffer, box));
    if MovedEnough(s, xPos, distance) then SpeakStep(buffered, xPos, distance, box.Height(), freq) else (buffered, [])
  }

  /** The announcement itself, once the door moved enough. */
  function SpeakStep(s: RoomState, xPos: real, distance: int, height: real, freq: int): (RoomState, seq<RoomEffect>) {
    var text := Announcement(xPos, distance);
    var spoken: seq<RoomEffect> := if text != "" then [SpeakAndVibrate(text)] else [];
    var announced := s.(prevXPos := xPos, prevDistance := distance, speechString := text);
    var first := (if 0.666 <= height <= 1.0 then [Success] else []) + spoken;
    if freq <= 0 then (announced, first)
    else if s.sayDistance >= freq then (announced.(sayDistance := 0), first + spoken)
    else (announced.(sayDistance := s.sayDistance + 1), first)
  }

  /** A door is in view: the counters move, the episode opens, the first sighting beeps, and an announcement may follow. */
  function DetectedStep(s: RoomState, door: Observation, freq: int): (RoomState, seq<RoomEffect>)
    requires door.boundingBox.Height() > 0.0
  {
    var n := s.numBoundingBox + 1;
    var seen := s.(numBoundingBox := n, numNotFound := 0, shelterDetectedFirst := true, hasBeeped := true);
    var beep := if s.hasBeeped then [] else [Beep];
    if AnnouncementDue(n) then
      var (t, e) := AnnounceStep(seen, door.boundingBox, freq);
      (t, beep + e)
    else (seen, beep)
  }

  /** The end of every result: during an episode the miss counter advances and at forty the door is lost; otherwise the detection count restarts. */
  function CountStep(s: RoomState): (RoomState, seq<RoomEffect>) {
    if s.shelterDetectedFirst then
      var k := s.numNotFound + 1;
      if k >= LostAfterFrames then
        (s.(speechString := LostMessage, shelterDetectedFirst := false, numNotFound := 0, hasBeeped := false),
         [SpeakAndVibrate(LostMessage)])
      else (s.(numNotFound := k), [])
    else (s.(numBoundingBox := 0), [])
  }

  /** `visionRequestDidComplete` for a list of results, given the doors among them. */
  function FrameStep(s: RoomState, doors: seq<Observation>, freq: int): (RoomState, seq<RoomEffect>)
    requires HasHeights(doors)
  {
    var s0 := s.(shelterDetected := |doors| > 0);
    var (s1, e1) := if |doors| > 0 then DetectedStep(s0, doors[0], freq) else (s0, []);
    var (s2, e2) := CountStep(s1);
    (s2, e1 + e2)
  }

  lemma FrameStepKeepsConsistent(s: RoomState, doors: seq<Observation>, freq: int)
    requires Consistent(s) && HasHeights(doors)
    ensures Consistent(FrameStep(s, doors, freq).0)
  {
  }

  /**
   * The beep plays at most once per episode: a result beeps only when a
   * door is in view and the beep flag was down, it beeps at most once, and
   * the flag is then up.
   */
  lemma BeepOncePerEpisode(s: RoomState, doors: seq<Observation>, freq: int)
    requires Consistent(s) && HasHeights(doors)
    ensures var (t, e) := FrameStep(s, doors, freq);
      && (Beep in e ==> |doors| > 0 && !s.hasBeeped && t.hasBeeped)
      && (forall i, j :: 0 <= i < j < |e| ==> !(e[i] == Beep && e[j] == Beep))
  {
    if |doors| > 0 {
      var s0 := s.(shelterDetected := true);
      var (s1, e1) := DetectedStep(s0, doors[0], freq);
      DetectionOpensEpisode(s0, doors[0], freq);
      DetectionBeepsOnce(s0, doors[0], freq);
      assert CountStep(s1) == (s1.(numNotFound := 1), []);
      assert e1 + [] == e1;
      assert FrameStep(s, doors, freq) == (s1.(numNotFound := 1), e1);
    } else {
      var c := CountStep(s.(shelterDetected := false));
      assert [] + c.1 == c.1;
      assert FrameStep(s, doors, freq) == c;
    }
  }

  /** A detection beeps only when the flag was down, and at most once. */
  lemma DetectionBeepsOnce(s: RoomState, door: Observation, freq: int)
    requires door.boundingBox.Height() > 0.0
    ensures var e := DetectedStep(s, door, freq).1;
      (Beep in e ==> !s.hasBeeped) && forall i, j :: 0 <= i < j < |e| ==> !(e[i] == Beep && e[j] == Beep)
  {
    var n := s.numBoundingBox + 1;
    var beep: seq<RoomEffect> := if s.hasBeeped then [] else [Beep];
    var e := DetectedStep(s, door, freq).1;
    if AnnouncementDue(n) {
      var seen := s.(numBoundingBox := n, numNotFound := 0, shelterDetectedFirst := true, hasBeeped := true);
      var a := AnnounceStep(seen, door.boundingBox, freq).1;
      assert Beep !in a;
      assert e == beep + a;
    }
  }

  /** The beep flag comes down only on a result that announces "Lost". */
  lemma BeepRearmedOnlyByLost(s: RoomState, doors: seq<Observation>, freq: int)
    requires Consistent(s) && HasHeights(doors)
    ensures var (t, e) := FrameStep(s, doors, freq);
      s.hasBeeped && !t.hasBeeped ==> |doors| == 0 && e == [SpeakAndVibrate(LostMessage)] && t.speechString == LostMessage
  {
  }

  /**
   * Announcements follow the gate: a result that speaks anything but
   * "Lost", or plays the success sound, or moves the remembered position
   * or distance, has a door in view, falls on the first or a fifteenth
   * detection, and the door moved enough since the last announcement.
   */
  lemma AnnouncementsAreGated(s: RoomState, doors: seq<Observation>, freq: int)
    requires Consistent(s) && HasHeights(doors)
    ensures var (t, e) := FrameStep(s, doors, freq);
      ((exists i :: 0 <= i < |e| && e[i] != Beep && e[i] != SpeakAndVibrate(LostMessage))
        || t.prevXPos != s.prevXPos || t.prevDistance != s.prevDistance) ==>
        && |doors| > 0 && AnnouncementDue(t.numBoundingBox)
        && var box := doors[0].boundingBox;
           MovedEnough(s, (box.MinX() + box.MaxX()) / 2.0, DoorDistance(box))
  {
    if |doors| > 0 {
      var s0 := s.(shelterDetected := true);
      var (s1, e1) := DetectedStep(s0, doors[0], freq);
      DetectionOpensEpisode(s0, doors[0], freq);
      assert CountStep(s1) == (s1.(numNotFound := 1), []);
      assert e1 + [] == e1;
      assert FrameStep(s, doors, freq) == (s1.(numNotFound := 1), e1);
      var box := doors[0].boundingBox;
      if !AnnouncementDue(s.numBoundingBox + 1) || !MovedEnough(s, (box.MinX() + box.MaxX()) / 2.0, DoorDistance(box)) {
        QuietDetection(s0, doors[0], freq);
      }
    } else {
      var c := CountStep(s.(shelterDetected := false));
      assert [] + c.1 == c.1;
      assert FrameStep(s, doors, freq) == c;
    }
  }

  /** A detection leaves an open episode with no misses counted and the detection count advanced by one. */
  lemma DetectionOpensEpisode(s: RoomState, door: Observation, freq: int)
    requires door.boundingBox.Height() > 0.0
    ensures var t := DetectedStep(s, door, freq).0;
      t.shelterDetectedFirst && t.hasBeeped && t.numNotFound == 0 && t.numBoundingBox == s.numBoundingBox + 1
  {
    var n := s.numBoundingBox + 1;
    if AnnouncementDue(n) {
      var seen := s.(numBoundingBox := n, numNotFound := 0, shelterDetectedFirst := true, hasBeeped := true);
      var box := door.boundingBox;
      var buffered := seen.(boundingBoxBuffer := NextBuffer(seen.boundingBoxBuffer, box));
      assert AnnounceStep(seen, box, freq).0.numNotFound == 0;
    }
  }

  /** Off the gate, or without enough movement, a detection at most beeps and remembers nothing new. */
  lemma QuietDetection(s: RoomState, door: Observation, freq: int)
    requires door.boundingBox.Height() > 0.0
    requires var box := door.boundingBox;
      !AnnouncementDue(s.numBoundingBox + 1) || !MovedEnough(s, (box.MinX() + box.MaxX()) / 2.0, DoorDistance(box))
    ensures var (t, e) := DetectedStep(s, door, freq);
      e == (if s.hasBeeped then [] else [Beep]) && t.prevXPos == s.prevXPos && t.prevDistance == s.prevDistance
  {
  }

  /** `count` results in a row without a door, with their effects. */
  function Misses(s: RoomState, count: nat, freq: int): (RoomState, seq<RoomEffect>)
    decreases count
  {
    if count == 0 then (s, [])
    else
      var (t, e) := FrameStep(s, [], freq);
      var (u, f) := Misses(t, count - 1, freq);
      (u, e + f)
  }

  /**
   * After a door, "Lost" comes after exactly as many empty results as the
   * miss counter lacks to reach forty: none before, and one then, which
   * closes the episode.
   */
  lemma {:induction false} LostAfterMisses(s: RoomState, count: nat, freq: int)
    requires Consistent(s) && s.shelterDetectedFirst
    requires count <= LostAfterFrames - s.numNotFound
    ensures var (t, e) := Misses(s, count, freq);
      && (count < LostAfterFrames - s.numNotFound ==>
            e == [] && t.shelterDetectedFirst && t.numNotFound == s.numNotFound + count)
      && (count == LostAfterFrames - s.numNotFound ==>
            e == [SpeakAndVibrate(LostMessage)] && !t.shelterDetectedFirst && !t.hasBeeped && t.numNotFound == 0)
    decreases count
  {
    if count > 0 {
      var (t1, e1) := FrameStep(s, [], freq);
      if s.numNotFound + 1 < LostAfterFrames {
        assert e1 == [] && t1.shelterDetectedFirst && t1.numNotFound == s.numNotFound + 1;
        LostAfterMisses(t1, count - 1, freq);
      } else {
        assert count == 1;
        assert Misses(t1, 0, freq) == (t1, []);
      }
    }
  }

  /** A result with a door leaves the miss counter at one, so "Lost" follows thirty-nine empty results later. */
  lemma DoorRestartsMissCount(s: RoomState, doors: seq<Observation>, freq: int)
    requires Consistent(s) && HasHeights(doors) && |doors| > 0
    ensures var t := FrameStep(s, doors, freq).0;
      t.shelterDetectedFirst && t.numNotFound == 1 && LostAfterFrames - t.numNotFound == 39
  {
  }

  lemma AppendAssociates<T>(a: seq<T>, b: seq<T>, c: seq<T>)
    ensures a + (b + c) == (a + b) + c
  {
  }

  // ---------------------------------------------------------------------
  // The screen
  // ---------------------------------------------------------------------

  class RoomController {
    var prevXPos: real
    var prevDistance: int
    var sayDistance: int
    var numBoundingBox: int
    var numNotFound: int
    var shelterDetected: bool
    var shelterDetectedFirst: bool
    var speechString: string
    var hasBeeped: bool
    var boundingBoxBuffer: seq<Rect>
    /** `Int(freq)`: the slider only ever stores 0, 1 or 2. */
    var freq: int
    var freqLabel: string
    var confidenceThreshold: real
    var isInferencing: bool
    /** The beeps, sounds and sentences requested so far, oldest first. */
    var effects: seq<RoomEffect>

    function State(): RoomState
      reads this`prevXPos, this`prevDistance, this`sayDistance, this`numBoundingBox, this`numNotFound
      reads this`shelterDetected, this`shelterDetectedFirst, this`speechString, this`hasBeeped, this`boundingBoxBuffer
    {
      RoomState(prevXPos, prevDistance, sayDistance, numBoundingBox, numNotFound,
                shelterDetected, shelterDetectedFirst, speechString, hasBeeped, boundingBoxBuffer)
    }

    ghost predicate Valid()
      reads this`prevXPos, this`prevDistance, this`sayDistance, this`numBoundingBox, this`numNotFound
      reads this`shelterDetected, this`shelterDetectedFirst, this`speechString, this`hasBeeped, this`boundingBoxBuffer
    {
      Consistent(State())
    }

    constructor()
      ensures Valid() && effects == [] && !isInferencing
      ensures State() == RoomState(0.0, 0, 1, 0, 0, false, false, "", false, [])
      ensures freq == 1 && confidenceThreshold == DefaultConfidenceThreshold
    {
      prevXPos, prevDistance, sayDistance := 0.0, 0, 1;
      numBoundingBox, numNotFound := 0, 0;
      shelterDetected, shelterDetectedFirst, speechString, hasBeeped := false, false, "", false;
      boundingBoxBuffer := [];
      freq, freqLabel, confidenceThreshold := 1, "", DefaultConfidenceThreshold;
      isInferencing := false;
      effects := [];
    }

    /** `sliderDidSlide`: the repeat frequency and its label. */
    method SliderDidSlide(value: real)
      modifies this`freq, this`freqLabel
      ensures (freq, freqLabel) == FrequencySetting(value)
    {
      if value < 1.0 {
        freqLabel := "Less";
        freq := 0;
      } else if value < 2.0 {
        freqLabel := "Norm";
        freq := 1;
      } else {
        freqLabel := "More";
        freq := 2;
      }
    }

    /** `thresholdsliderDidSlide`: the slider's value is the new door-confidence threshold. */
    method ThresholdSliderDidSlide(value: real)
      modifies this`confidenceThreshold
      ensures confidenceThreshold == value
    {
      confidenceThreshold := value;
    }

    /** `updateBoundingBoxBuffer`. */
    method UpdateBoundingBoxBuffer(newBox: Rect)
      modifies this`boundingBoxBuffer
      ensures boundingBoxBuffer == NextBuffer(old(boundingBoxBuffer), newBox)
    {
      boundingBoxBuffer := boundingBoxBuffer + [newBox];
      if |boundingBoxBuffer| > BoxBufferCapacity {
        boundingBoxBuffer := boundingBoxBuffer[1..];
        boundingBoxBuffer := boundingBoxBuffer[1..];
        boundingBoxBuffer := boundingBoxBuffer[1..];
        boundingBoxBuffer := boundingBoxBuffer[1..];
      }
    }

    /**
     * `visionRequestDidComplete`: without results only the inference flag
     * drops; with results the doors among them drive one `FrameStep`.
     */
    method VisionRequestDidComplete(results: Option<seq<Observation>>)
      requires Valid()
      requires results.Some? ==> HasHeights(results.value)
      modifies this`prevXPos, this`prevDistance, this`sayDistance, this`numBoundingBox, this`numNotFound
      modifies this`shelterDetected, this`shelterDetectedFirst, this`speechString, this`hasBeeped
      modifies this`boundingBoxBuffer, this`isInferencing, this`effects
      ensures Valid() && !isInferencing
      ensures results.None? ==> State() == old(State()) && effects == old(effects)
      ensures results.Some? ==>
        var doors := Doors(results.value, confidenceThreshold);
        HasHeights(doors)
        && State() == FrameStep(old(State()), doors, freq).0
        && effects == old(effects) + FrameStep(old(State()), doors, freq).1
    {
      if results.None? {
        isInferencing := false;
        return;
      }
      var doors := Doors(results.value, confidenceThreshold);
      DoorsHaveHeights(results.value, confidenceThreshold);
      isInferencing := false;
      ObserveDoors(doors);
    }

    /** The body of `visionRequestDidComplete` once the doors are known. */
    method ObserveDoors(doors: seq<Observation>)
      requires Valid() && HasHeights(doors)
      modifies this`prevXPos, this`prevDistance, this`sayDistance, this`numBoundingBox, this`numNotFound
      modifies this`shelterDetected, this`shelterDetectedFirst, this`speechString, this`hasBeeped
      modifies this`boundingBoxBuffer, this`effects
      ensures State() == FrameStep(old(State()), doors, freq).0
      ensures effects == old(effects) + FrameStep(old(State()), doors, freq).1
      ensures Valid()
    {
      ghost var before, heard := State(), effects;
      FrameStepKeepsConsistent(before, doors, freq);
      shelterDetected := |doors| > 0;
      ghost var s0 := State();
      assert s0 == before.(shelterDetected := |doors| > 0);
      if shelterDetected {
        DoorSeen(doors[0]);
      }
      ghost var detected := effects[|heard|..];
      assert effects == heard + detected;
      ghost var s1 := State();
      assert (s1, detected) == if |doors| > 0 then DetectedStep(s0, doors[0], freq) else (s0, []);
      CountFrame();
      assert FrameStep(before, doors, freq) == (CountStep(s1).0, detected + CountStep(s1).1);
      AppendAssociates(heard, detected, CountStep(s1).1);
    }

    /** The door branch of `visionRequestDidComplete`. */
    method DoorSeen(door: Observation)
      requires door.boundingBox.Height() > 0.0
      modifies this`prevXPos, this`prevDistance, this`sayDistance, this`numBoundingBox, this`numNotFound
      modifies this`shelterDetectedFirst, this`speechString, this`hasBeeped, this`boundingBoxBuffer, this`effects
      ensures State() == DetectedStep(old(State()), door, freq).0
      ensures effects == old(effects) + DetectedStep(old(State()), door, freq).1
    {
      ghost var before, heard := State(), effects;
      numBoundingBox := numBoundingBox + 1;
      numNotFound := 0;
      if !shelterDetectedFirst {
        shelterDetectedFirst := true;
        numNotFound := 0;
      }
      if !hasBeeped {
        effects := effects + [Beep];
        hasBeeped := true;
      }
      ghost var beep := effects[|heard|..];
      assert effects == heard + beep;
      assert State() == before.(numBoundingBox := numBoundingBox, numNotFound := 0, shelterDetectedFirst := true, hasBeeped := true);
      if numBoundingBox == 1 || numBoundingBox % AnnouncementPeriod == 0 {
        ghost var seen := State();
        ConsiderAnnouncement(door.boundingBox);
        AppendAssociates(heard, beep, AnnounceStep(seen, door.boundingBox, freq).1);
      }
    }

    /** The announcement opportunity inside the door branch. */
    method ConsiderAnnouncement(box: Rect)
      requires box.Height() > 0.0
      modifies this`prevXPos, this`prevDistance, this`sayDistance, this`speechString, this`boundingBoxBuffer, this`effects
      ensures State() == AnnounceStep(old(State()), box, freq).0
      ensures effects == old(effects) + AnnounceStep(old(State()), box, freq).1
    {
      var xPos := (box.MinX() + box.MaxX()) / 2.0;
      var height := box.Height();
      var distance := DoorDistance(box);
      UpdateBoundingBoxBuffer(box);
      var xPosChange := Abs(xPos - prevXPos);
      var distanceChange := Abs((distance - prevDistance) as real);
      if xPosChange > XPosThreshold || distanceChange >= DistanceThreshold {
        Speak(xPos, distance, height);
      }
    }

    /** The announcement branch: remember the door, play the cues and speak, once or twice. */
    method Speak(xPos: real, distance: int, height: real)
      modifies this`prevXPos, this`prevDistance, this`sayDistance, this`speechString, this`effects
      ensures State() == SpeakStep(old(State()), xPos, distance, height, freq).0
      ensures effects == old(effects) + SpeakStep(old(State()), xPos, distance, height, freq).1
    {
      var text := Announcement(xPos, distance);
      prevXPos := xPos;
      prevDistance := distance;
      speechString := text;
      var emitted: seq<RoomEffect> := [];
      if 0.666 <= height <= 1.0 {
        emitted := [Success];
      }
      var spoken: seq<RoomEffect> := [];
      if text != "" {
        spoken := [SpeakAndVibrate(text)];
      }
      emitted := emitted + spoken;
      if freq > 0 {
        if sayDistance >= freq {
          speechString := text;
          if text != "" {
            emitted := emitted + spoken;
          }
          sayDistance := 0;
        } else {
          sayDistance := sayDistance + 1;
        }
      }
      effects := effects + emitted;
    }

    /** The miss counter at the end of `visionRequestDidComplete`. */
    method CountFrame()
      modifies this`numBoundingBox, this`numNotFound, this`shelterDetectedFirst, this`speechString, this`hasBeeped, this`effects
      ensures State() == CountStep(old(State())).0
      ensures effects == old(effects) + CountStep(old(State())).1
    {
      if shelterDetectedFirst {
        numNotFound := numNotFound + 1;
        if numNotFound >= LostAfterFrames {
          speechString := LostMessage;
          shelterDetectedFirst := false;
          numNotFound := 0;
          hasBeeped := false;
          effects := effects + [SpeakAndVibrate(LostMessage)];
        }
      } else {
        numBoundingBox := 0;
      }
    }
  }
}
