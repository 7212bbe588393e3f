# Sight guidance core in Dafny

A model of the decision logic of the Sight iOS app. Sight helps a blind or
low-vision user find things with the phone camera. The model covers:

- **CyberGuidance, the object-guidance screen.**
  - The detection → tracking state machine of `ViewControllerCybsGuidance`:
    - the anchor gate and the promotion to tracking;
    - the lost-target edge and the depth-jump filter;
    - the position stabiliser (`checkPosition`);
    - the bracelet loop and its rotated zone message (`"<state>-<ms>"`);
    - the label parser (`extractClass`), the gestures and `reset`.
  - The feedback mapper (`FeedbackProcessor`):
    - the step, parabola and cubic pitch curves;
    - pan, the bracelet zone and the time between beeps with its floor;
    - the eight compass sectors;
    - the edge-triggered centering cue.
  - The bounded buffers (`ObjectBuffer`, `PositionBuffer`).
  - The label → height table (`GroceryItem.height`).
  - The detector-result selection and the hand-keypoint guards (`VisionTrackerProcessor`).
  - The overlay's coordinate flips and scales (`TrackingImageView`).
  - The feature-selection screen, which turns switches into a configuration.
- **Room, the door-finding screen.** Confident doors are filtered, and the
  first sighting beeps. The clock-face direction and rounded distance are
  announced only after a big enough change. Forty frames without a door
  announce "Lost".
- **Two integer moving averages**, of the Room screen and of the segmentation screen.
- **The live-classification screen**, which speaks a label only when it is
  new and more than a second has passed.

Each source file is one module. The exceptions are four helper modules:
- `Wrappers`: `Option`;
- `Numeric`: truncation, rounding and clamping as Swift does them;
- `Decimal`: integer and number text as Swift prints and parses it;
- `Geometry`: points, vectors and rectangles.

State that the app updates in place is modelled as classes whose methods
say exactly what changes. This covers the view controllers, the buffers and
the filters. The rules those methods follow are pure functions. The
properties of those functions are stated as lemmas over all inputs.

Camera frames, ARKit and SceneKit projections, and the detector's and the
hand-pose request's results are parameters of the step that reads them.
Speech, sounds, haptics and the bracelet messages are recorded as emitted
effects, in order. Swift `Float`, `Double` and `CGFloat` are modelled as
`real`.

## Model

| member | source | states |
|---|---|---|
| BufferTypes.ObjectBuffer.constructor | Sight/CyberGuidance/Buffers/BufferTypes.swift:15-17 | a new point buffer is empty and has the given capacity |
| BufferTypes.ObjectBuffer.AddToBuffer | Sight/CyberGuidance/Buffers/BufferTypes.swift:19-24 | after an append the buffer is the newest `maxSize` points of the old contents plus the new point, in arrival order |
| BufferTypes.ObjectBuffer.ClearBuffer | Sight/CyberGuidance/Buffers/BufferTypes.swift:26-28 | the buffer is empty afterwards and stays within capacity |
| BufferTypes.ObjectBuffer.Count | Sight/CyberGuidance/Buffers/BufferTypes.swift:30-32 | the count is the number of stored points and never exceeds the capacity |
| BufferTypes.PositionBuffer.constructor | Sight/CyberGuidance/Buffers/BufferTypes.swift:46-49 | a new ring buffer is empty with its write index at 0 |
| BufferTypes.PositionBuffer.AddPosition | Sight/CyberGuidance/Buffers/BufferTypes.swift:51-58 | below capacity the position is appended and the index kept; at capacity the slot at the index is overwritten and the index advances modulo the capacity |
| BufferTypes.PositionBuffer.GetAllPositions | Sight/CyberGuidance/Buffers/BufferTypes.swift:60-62 | returns exactly the stored positions, slot by slot |
| BufferTypes.PositionBuffer.GetLastPosition | Sight/CyberGuidance/Buffers/BufferTypes.swift:64-66 | nothing exactly when the buffer is empty, otherwise the last slot |
| BufferTypes.PositionBuffer.Clear | Sight/CyberGuidance/Buffers/BufferTypes.swift:68-70 | the positions are removed and the ring index is left as it was |
| BufferTypes.PositionBuffer.EstimateMean | Sight/CyberGuidance/Buffers/BufferTypes.swift:72-77 | nothing for an empty buffer; otherwise a point whose coordinates times the count equal the coordinate sums |
| BufferTypes.LastAfterWrap | Sight/CyberGuidance/Buffers/BufferTypes.swift:51-66 | after a wrap-around, the last position reported is the old last slot while the newest position sits elsewhere |
| BufferTypes.MeanOfConstant | Sight/CyberGuidance/Buffers/BufferTypes.swift:76-77 | a buffer of identical positions sums to count times that position, so its mean is that position |
| Window.Newest | Sight/CyberGuidance/Buffers/BufferTypes.swift:20-23 | the window is the last `k` elements of a sequence, or all of it when shorter |
| Window.NewestAppend | Sight/CyberGuidance/Buffers/BufferTypes.swift:19-24 | trimming after every append keeps the same window as trimming the whole history once |
| MovingAverage.Smallest | Sight/Room/ViewControllerRoom.swift:591-595 | the smallest sample is in the window and below every sample |
| MovingAverage.Largest | Sight/Room/ViewControllerRoom.swift:591-595 | the largest sample is in the window and above every sample |
| MovingAverage.SumBounds | Sight/Room/ViewControllerRoom.swift:593 | the sum of samples between two bounds lies between count times each bound |
| MovingAverage.AverageWithinRange | Sight/SementicSegmentation-CoreML/LiveImageViewControllerSegment.swift:192-196 | the truncated average of a non-empty window lies between its smallest and largest sample, for any signs |
| MovingAverage.MeanBounds | Sight/Room/ViewControllerRoom.swift:594 | the real quotient of a bounded sum by the count lies between the bounds |
| MovingAverage.TruncWithin | Sight/Room/ViewControllerRoom.swift:594 | truncation toward zero of a value between two integers stays between them |
| MovingAverage.AverageOfConstant | Sight/Room/ViewControllerRoom.swift:591-595 | a window of one repeated value averages to that value |
| MovingAverage.MovingAverageFilter.constructor | Sight/Room/ViewControllerRoom.swift:580-582 | a new filter holds no samples |
| MovingAverage.MovingAverageFilter.Append | Sight/Room/ViewControllerRoom.swift:584-589 | after an append the filter holds the newest ten samples, oldest dropped first |
| MovingAverage.MovingAverageFilter.AverageValue | Sight/SementicSegmentation-CoreML/LiveImageViewControllerSegment.swift:192-196 | 0 for an empty window; otherwise between the smallest and the largest sample, and the mean of the samples rounded toward zero: `v·n <= sum < (v+1)·n` for a non-negative sum and `(v-1)·n < sum <= v·n` for a negative one |
| MovingAverage.TruncQuotient | Sight/SementicSegmentation-CoreML/LiveImageViewControllerSegment.swift:192-196 | `Int(Double(sum) / Double(n))` for a positive count is the quotient rounded toward zero, bracketed by multiples of `n` on the side of zero |
| MovingAverage.AppendAll | Sight/SementicSegmentation-CoreML/LiveImageViewControllerSegment.swift:185-190 | after any run of appends the filter holds the newest ten samples of the whole history |
| CommonTypes.GroceryItem.Height | Sight/CyberGuidance/Vision/CommonTypes.swift:16-37 | the height is never negative and is positive exactly for the eight known names |
| CommonTypes.HeightTable | Sight/CyberGuidance/Vision/CommonTypes.swift:17-33 | the table entry by entry, from 0.16 m for "cell phone" to 0.12 m for "QR_CODE" |
| CommonTypes.MatchingIsCaseSensitive | Sight/CyberGuidance/Vision/CommonTypes.swift:16-37 | a capitalised name or one with a trailing space has height 0 |
| Feedback.StepPitch | Sight/CyberGuidance/Feedback/FeedbackProcessor.swift:168-174 | no shift inside the half height; otherwise a full ±2000·factor cents toward the offset; not finite exactly for a zero offset outside the half height |
| Feedback.ParabolaPitch | Sight/CyberGuidance/Feedback/FeedbackProcessor.swift:176-179 | the shift times 960·(reference y) equals factor·2000·deltaY²; not finite exactly when the reference y is 0 |
| Feedback.CubicPitch | Sight/CyberGuidance/Feedback/FeedbackProcessor.swift:181-189 | never beyond ±2000 cents; below saturation it is the cubic 32·factor·deltaY³/h³, at or above +2000 it is exactly +2000 and at or below -2000 exactly -2000; not finite exactly for a zero half height |
| Feedback.UnitSign | Sight/CyberGuidance/Feedback/FeedbackProcessor.swift:173-188 | `k * x / abs(x)` is `k` for positive `x` and `-k` for negative `x` |
| Feedback.StepPitchIsOdd | Sight/CyberGuidance/Feedback/FeedbackProcessor.swift:168-174 | a target mirrored through the reference gets the negated step shift |
| Feedback.ParabolaPitchIsEven | Sight/CyberGuidance/Feedback/FeedbackProcessor.swift:176-179 | a target mirrored through the reference gets the same parabola shift |
| Feedback.CubicPitchIsOdd | Sight/CyberGuidance/Feedback/FeedbackProcessor.swift:181-189 | a target mirrored through the reference gets the negated cubic shift, saturated or not |
| Feedback.CubeIsOdd | Sight/CyberGuidance/Feedback/FeedbackProcessor.swift:184 | the cube of a negated number is the negated cube |
| Feedback.Pan | Sight/CyberGuidance/Feedback/FeedbackProcessor.swift:196-206 | the pan stays in {-1, 0, 1}; it is 0 inside the half width; beyond it, +1 for a target to the right, -1 for one to the left, and the current pan for one straight above or below |
| Feedback.PanMirrors | Sight/CyberGuidance/Feedback/FeedbackProcessor.swift:196-206 | outside the half width, moving the target to the mirror side negates the pan |
| Feedback.BraceletZone | Sight/CyberGuidance/Feedback/FeedbackProcessor.swift:211-223 | the conditions are tried in order: centred gives 0, else left of the half width 1, else above within it 3, else right of it 5, else below within it 7; when none holds the zone is kept; the result is a zone or the kept one |
| Feedback.BraceletZoneTotal | Sight/CyberGuidance/Feedback/FeedbackProcessor.swift:211-223 | with a positive half height every offset off the vertical edges gets a zone, and one beyond the half width gets zone 1 or 5 |
| Feedback.BraceletZoneMatchesSectorOnAxes | Sight/CyberGuidance/Feedback/FeedbackProcessor.swift:211-223 | for an offset on an axis, beyond the half box, the zone equals the sector `determineState` gives for the bearing of that offset |
| Feedback.BraceletZoneIdempotent | Sight/CyberGuidance/Feedback/FeedbackProcessor.swift:211-223 | reading the zone again for the same offset gives the zone the first reading chose |
| Feedback.DepthInterBipTime | Sight/CyberGuidance/Feedback/FeedbackProcessor.swift:233-240 | the depth cadence exceeds 0.1 s by depthSlope·0.9 s per metre |
| Feedback.HandInterBipTimeAsWritten | Sight/CyberGuidance/Feedback/FeedbackProcessor.swift:243-257 | undefined exactly when the calibrated hand size is 300 px; otherwise never below 0.1 s |
| Feedback.HandLine | Sight/CyberGuidance/Feedback/FeedbackProcessor.swift:247-254 | the hand line passes through (300 px, depth − 0.5) and (calibrated size, depth) |
| Feedback.HandCadenceNaNAtMinHandSize | Sight/CyberGuidance/Feedback/FeedbackProcessor.swift:247-254 | a calibrated hand of exactly 300 px divides by zero, whatever the hand seen |
| Feedback.HandInterBipTime | Sight/CyberGuidance/Feedback/FeedbackProcessor.swift:243-257 | equals the cadence as written whenever that is defined, keeps the current time otherwise, and never drops below 0.1 s |
| Feedback.CadenceIdempotent | Sight/CyberGuidance/Feedback/FeedbackProcessor.swift:231-275 | recomputing the time between beeps from the time one update gave, with the same inputs, gives the same time |
| Feedback.FloorInterBipTime | Sight/CyberGuidance/Feedback/FeedbackProcessor.swift:274-275 | the result is at least 0.1 s and leaves a time already at least 0.1 s unchanged |
| Feedback.InterBipTimeCases | Sight/CyberGuidance/Feedback/FeedbackProcessor.swift:231-275 | after an update: 1 s without a target, the floored depth cadence when no hand is seen, the current time for a zero depth or an uncalibrated hand, and never below 0.1 s |
| Feedback.NormalizeDegrees | Sight/CyberGuidance/Feedback/FeedbackProcessor.swift:285-289 | an atan2 angle in (-180, 180] moves into [0, 360) by adding 360 only when negative |
| Feedback.DetermineState | Sight/CyberGuidance/Feedback/FeedbackProcessor.swift:292-313 | every angle in [0, 360] gets one of the eight motors "1" to "8" |
| Feedback.DirectionPhrase | Sight/CyberGuidance/Feedback/FeedbackProcessor.swift:354-373 | every angle in [0, 360] gets one of the eight direction phrases |
| Feedback.PhraseMatchesState | Sight/CyberGuidance/Feedback/FeedbackProcessor.swift:292-313 | the spoken phrase and the bracelet motor use the same eight sectors |
| Feedback.DetermineStateIsNearestOctant | Sight/CyberGuidance/Feedback/FeedbackProcessor.swift:292-313 | off 337.5 degrees, the motor is the nearest multiple of 45 degrees, counted from 1 and wrapping at 360 |
| Feedback.DirectionsOnAxes | Sight/CyberGuidance/Feedback/FeedbackProcessor.swift:281-290 | for a target straight left, above, right or below the reference, or on the upper-left diagonal, the phrase names that direction in screen terms |
| Feedback.CenteringStep | Sight/CyberGuidance/Feedback/FeedbackProcessor.swift:378-389 | a centred cue plays exactly when the flag is set, an uncentred cue exactly when it is cleared; inside the inner box the flag is set, with the cue only if it was clear; in the margin a set flag is cleared with the uncentred cue; otherwise the flag is kept silently |
| Feedback.CenteringIsNotHysteresis | Sight/CyberGuidance/Feedback/FeedbackProcessor.swift:378-389 | the flag is set only inside the inner box; in the margin a set flag is cleared with the uncentred cue; a clear flag outside the inner box stays clear with no cue; beyond the margin the flag is kept |
| Feedback.DistanceIndication | Sight/CyberGuidance/Feedback/FeedbackProcessor.swift:315-323 | the distance in whole centimetres, after the current message unless it is the default "look around" message |
| Feedback.NextPitch | Sight/CyberGuidance/Feedback/FeedbackProcessor.swift:166-192 | an unknown vertical curve keeps the current pitch |
| Feedback.FeedbackProcessor.constructor | Sight/CyberGuidance/Feedback/FeedbackProcessor.swift:27-63 | the processor starts at 1 s cadence, uncentred, with the default messages, no bracelet zone and nothing played |
| Feedback.FeedbackProcessor.UpdateParameters | Sight/CyberGuidance/Feedback/FeedbackProcessor.swift:145-277 | no change without a reference point; otherwise the cadence as in the cadence rules, the pitch and pan from the chosen curve in sonification mode, the bracelet zone in bracelet mode, and nothing else in other modes |
| Feedback.FeedbackProcessor.AssistUser | Sight/CyberGuidance/Feedback/FeedbackProcessor.swift:336-393 | empty without a point; the current message for the zero point; otherwise the direction phrase of the bearing, the centering step with its cue, and "Centered!" inside the inner box; settings, cadence and pitch are kept |
| Feedback.FeedbackProcessor.Centre | Sight/CyberGuidance/Feedback/FeedbackProcessor.swift:375-389 | the new centering flag, message, cue and pan follow the centering step for the offset |
| Feedback.FeedbackProcessor.IndicateDistanceFromTarget | Sight/CyberGuidance/Feedback/FeedbackProcessor.swift:315-328 | the distance sentence is spoken and nothing else is appended |
| Feedback.FeedbackProcessor.PlayIndication | Sight/CyberGuidance/Feedback/FeedbackProcessor.swift:330-334 | the sentence is spoken and nothing else is appended |
| Feedback.FeedbackProcessor.IndicateDirectionAfterLost | Sight/CyberGuidance/Feedback/FeedbackProcessor.swift:406-420 | nothing without the lost sound; otherwise the sound plays, the message becomes "Out of view, was" and the last direction, and it is spoken when oral feedback is on |
| Feedback.FeedbackProcessor.IndicateDirectionOrally | Sight/CyberGuidance/Feedback/FeedbackProcessor.swift:422-429 | the current message is spoken exactly when oral feedback is on |
| Feedback.FeedbackProcessor.TriggerHapticFeedback | Sight/CyberGuidance/Feedback/FeedbackProcessor.swift:431-435 | one haptic tap is appended |
| Feedback.FeedbackProcessor.ResetAudio | Sight/CyberGuidance/Feedback/FeedbackProcessor.swift:437-454 | cadence, centering, hand and target measures and both messages return to their defaults |
| GuidanceRules.TablesRotate | Sight/CyberGuidance/ViewControllerCybsGuidance.swift:655-680 | the left-grip table turns every sector two steps one way, the right-grip table two steps the other way, and each undoes the other |
| GuidanceRules.UpdateState | Sight/CyberGuidance/ViewControllerCybsGuidance.swift:647-687 | a state that is not a numeral from 1 to 8, or a hand other than "Left" or "Right", is returned unchanged; otherwise the numeral of the rotated sector |
| GuidanceRules.SectorIsNumeral | Sight/CyberGuidance/ViewControllerCybsGuidance.swift:649 | each of the eight sector names reads back as its number from 1 to 8 |
| GuidanceRules.UpdateStateInverse | Sight/CyberGuidance/ViewControllerCybsGuidance.swift:647-687 | on the eight sector names the two grips' rotations stay within the sectors and undo each other |
| GuidanceRules.UpdateStateEdgeCases | Sight/CyberGuidance/ViewControllerCybsGuidance.swift:649-682 | the centre "0", the empty state and an unknown hand are not rotated, while "+1" and "01" are read as 1 and rotated |
| GuidanceRules.FormatBraceletMessage | Sight/CyberGuidance/ViewControllerCybsGuidance.swift:636 | the message starts with the state followed by a dash |
| GuidanceRules.ParseBraceletMessage | Sight/CyberGuidance/ViewControllerCybsGuidance.swift:636 | a decoded state holds no dash |
| GuidanceRules.BraceletMessageRoundTrip | Sight/CyberGuidance/ViewControllerCybsGuidance.swift:624-636 | a state without a dash and a 64-bit period decode back from the message exactly |
| GuidanceRules.BraceletMessage | Sight/CyberGuidance/ViewControllerCybsGuidance.swift:613-645 | a message is sent exactly for a non-empty state while tracking; it carries the state, turned for the grip only when no hand is detected, and the period truncated to milliseconds |
| GuidanceRules.BraceletMessageDecodes | Sight/CyberGuidance/ViewControllerCybsGuidance.swift:613-645 | every message sent for a bracelet zone decodes to the centre or a sector, the grip rotation applied as above, with a period of at least 100 ms |
| GuidanceRules.ZoneAfterGrip | Sight/CyberGuidance/ViewControllerCybsGuidance.swift:627-633 | a bracelet zone turned for the grip, or not, is still the centre or a sector |
| GuidanceRules.FilterDistance | Sight/CyberGuidance/ViewControllerCybsGuidance.swift:793-798 | with a known distance, a negative estimate or one more than 0.2 m farther is replaced by the known one; any other estimate passes |
| GuidanceRules.FilterDistanceBounds | Sight/CyberGuidance/ViewControllerCybsGuidance.swift:793-798 | with a positive known distance the result is between 0 and the known distance plus 0.2 m |
| GuidanceRules.FilterDistanceOneSided | Sight/CyberGuidance/ViewControllerCybsGuidance.swift:793-798 | a 1 m move towards the user passes while a 1 m move away is replaced |
| GuidanceRules.Calculate3DPosition | Sight/CyberGuidance/ViewControllerCybsGuidance.swift:730-756 | a position exists exactly when the session has a frame |
| GuidanceRules.ComputeDistance | Sight/CyberGuidance/ViewControllerCybsGuidance.swift:758-801 | a distance exists exactly when the session has a frame, and it is the filtered projection of the object onto the viewing ray |
| GuidanceRules.DistanceOfPlacedPoint | Sight/CyberGuidance/ViewControllerCybsGuidance.swift:730-791 | the depth measured along the ray for the point placed at a depth on that ray is that depth |
| GuidanceRules.ComputeDistanceRoundTrip | Sight/CyberGuidance/ViewControllerCybsGuidance.swift:730-801 | with no known distance, or a known one the placed depth does not exceed by more than 0.2 m, placing then measuring gives the depth back |
| GuidanceRules.CorrectionGateIsLooser | Sight/CyberGuidance/ViewControllerCybsGuidance.swift:582-595 | the stabiliser's either-axis 10 px test accepts whatever the double-tap's both-axes test accepts, and more |
| GuidanceRules.SquaredLength | Sight/CyberGuidance/ViewControllerCybsGuidance.swift:689-694 | the squared length is never negative |
| GuidanceRules.CorrectionRangeAsWritten | Sight/CyberGuidance/ViewControllerCybsGuidance.swift:557-560 | building the range traps exactly when half the target's diagonal is shorter than 10 |
| GuidanceRules.SmallTargetTraps | Sight/CyberGuidance/ViewControllerCybsGuidance.swift:558-560 | a 10 by 10 target makes the range's upper bound below its lower bound |
| GuidanceRules.InCorrectionRange | Sight/CyberGuidance/ViewControllerCybsGuidance.swift:557-567 | the distance lies between 10 and half the diagonal; the answer agrees with the range as written wherever that exists and is false where it traps |
| GuidanceRules.CorrectionDecision | Sight/CyberGuidance/ViewControllerCybsGuidance.swift:567-579 | the anchor moves to its own measured depth exactly when the drift is in range and the box is larger than ever seen; the depth-driven branch is never taken |
| GuidanceRules.DetectionDepth | Sight/CyberGuidance/ViewControllerCybsGuidance.swift:503-507 | the estimate times the box's larger normalized side in pixels of the rotated frame equals (focal length + 100) times the object's height |
| GuidanceRules.StabiliserDepth | Sight/CyberGuidance/ViewControllerCybsGuidance.swift:536-543 | the estimate times the larger of the two pixel sides equals (focal length + 100) times the object's height |
| GuidanceRules.DepthEstimatesAgreeOnSquareFrame | Sight/CyberGuidance/ViewControllerCybsGuidance.swift:503-507 | on a square frame the detection loop and the stabiliser estimate the same depth |
| GuidanceRules.IndexOfFrom | Sight/CyberGuidance/ViewControllerCybsGuidance.swift:834 | the first occurrence of the pattern at or after the start, or none when there is none |
| GuidanceRules.TrimLeadingDropsWhitespace | Sight/CyberGuidance/ViewControllerCybsGuidance.swift:847 | trimming the front removes a run of white space and keeps a suffix that starts with no white space |
| GuidanceRules.TrimTrailingDropsWhitespace | Sight/CyberGuidance/ViewControllerCybsGuidance.swift:847 | trimming the back removes a run of white space and keeps a prefix that ends with no white space |
| GuidanceRules.TrimKeepsInterior | Sight/CyberGuidance/ViewControllerCybsGuidance.swift:847 | trimmed text neither starts nor ends with white space, holds only characters of the original, and an already trimmed text is unchanged |
| GuidanceRules.RemoveCharRemovesOnly | Sight/CyberGuidance/ViewControllerCybsGuidance.swift:847 | removing a character removes every occurrence of it and keeps every other character |
| GuidanceRules.FirstComponent | Sight/CyberGuidance/ViewControllerCybsGuidance.swift:844-850 | the first piece is a prefix without the separator; when shorter than the text, the separator follows it; the whole text when there is no separator |
| GuidanceRules.ExtractLabel | Sight/CyberGuidance/ViewControllerCybsGuidance.swift:831-859 | no label exactly when "labels=" is missing or no "]" follows it; a label holds no comma and no bracket |
| GuidanceRules.FirstLabel | Sight/CyberGuidance/ViewControllerCybsGuidance.swift:839-853 | no label exactly when the text after "labels=" holds no "]"; a label holds no comma and no bracket and every character of it is in the first comma-piece before the "]" |
| GuidanceRules.KeyFoundAfterPrefix | Sight/CyberGuidance/ViewControllerCybsGuidance.swift:834 | with no "=" before it, the key is found where it was written |
| GuidanceRules.IndexOfCharIs | Sight/CyberGuidance/ViewControllerCybsGuidance.swift:839 | the first index of a character is the position with no earlier occurrence |
| GuidanceRules.BracketClosesName | Sight/CyberGuidance/ViewControllerCybsGuidance.swift:839 | in "[name]..." with a plain name the first "]" closes the name |
| GuidanceRules.ExtractLabelRoundTrip | Sight/CyberGuidance/ViewControllerCybsGuidance.swift:831-853 | a description whose label list starts with a plain name yields exactly that name |
| GuidanceRules.FirstLabelOfList | Sight/CyberGuidance/ViewControllerCybsGuidance.swift:839-853 | the label list "[name]..." yields a plain name exactly |
| GuidanceRules.FirstLabelOfLongerList | Sight/CyberGuidance/ViewControllerCybsGuidance.swift:839-853 | the label list "[name,more]..." yields the plain name exactly |
| GuidanceRules.ExtractLabelOfLongerList | Sight/CyberGuidance/ViewControllerCybsGuidance.swift:831-853 | a description whose label list is "[name,more]" after "labels=" yields exactly that name |
| Guidance.ClassAfter | Sight/CyberGuidance/ViewControllerCybsGuidance.swift:831-859 | the class is the one the first label names; with no readable label the class already held is kept, so a known class stays known |
| Guidance.ModelPoint | Sight/CyberGuidance/ViewControllerCybsGuidance.swift:486-487 | the stored point plus the box centre is (1, 1) on each axis: the centre mirrored on both axes |
| Guidance.CornerBoxLooksLikeNoTarget | Sight/CyberGuidance/ViewControllerCybsGuidance.swift:486-510 | a box centred on the image corner gives the zero point that the screen reads as "no target" |
| Guidance.PlaceAnchor | Sight/CyberGuidance/ViewControllerCybsGuidance.swift:213-235 | an anchor is placed exactly when the target point is set, the scene does not have three nodes, the camera has a frame and the anchor reprojects within 10 points on both axes; it lies at the box distance along the target's ray |
| Guidance.ResetTarget | Sight/CyberGuidance/ViewControllerCybsGuidance.swift:862-896 | reset clears the detection, the target point, the box size and the box distance, and keeps the class and the detection flag |
| Guidance.ResetHand | Sight/CyberGuidance/ViewControllerCybsGuidance.swift:874-875 | reset clears the hand flag and size and keeps the index-tip point and the hand loop period |
| Guidance.ResetAnchor | Sight/CyberGuidance/ViewControllerCybsGuidance.swift:880-895 | reset clears the projection, the in-view flag and the anchor distance and removes one sphere if there is one; the anchor position and the stabiliser's memory survive |
| Guidance.ResetTargetAndHandIdempotent | Sight/CyberGuidance/ViewControllerCybsGuidance.swift:862-896 | resetting the reading or the hand twice is the same as once |
| Guidance.ResetAnchorIdempotence | Sight/CyberGuidance/ViewControllerCybsGuidance.swift:892-895 | resetting the anchor is idempotent only with at most one sphere; with more, each reset removes another |
| Guidance.StabilisedPosition | Sight/CyberGuidance/ViewControllerCybsGuidance.swift:563-596 | no move without a correction; a move is always accepted by the either-axis gate and, for an anchor-depth correction, lies at the filtered anchor depth along the scaled model point's ray |
| Guidance.StabilisedPositionDepth | Sight/CyberGuidance/ViewControllerCybsGuidance.swift:567-596 | a moved anchor reads back, along the scaled model point's ray, at the depth it was placed at |
| Guidance.ReadDetection | Sight/CyberGuidance/ViewControllerCybsGuidance.swift:477-507 | a usable detection stores the mirrored centre, the box size, the class its label names and the pinhole distance for that class's height |
| Guidance.SelectionClassifiable | Sight/CyberGuidance/ViewControllerCybsGuidance.swift:474-497 | the detection kept is the one held or a result with a qualifying label, so it has a usable box and a known class whenever those do |
| Guidance.GuidanceController.constructor | Sight/CyberGuidance/ViewControllerCybsGuidance.swift:103-191 | the feedback takes the chosen feedback mode, curve, slopes and oral option, the detector the chosen object, the screen starts detecting with no frame, no sphere and a ten-point buffer |
| Guidance.GuidanceController.HandleTap | Sight/CyberGuidance/ViewControllerCybsGuidance.swift:198-211 | while tracking the distance is spoken; otherwise the direction (if oral feedback is on) when a target is shown, and "Keep searching" when none is |
| Guidance.GuidanceController.DoubleTap | Sight/CyberGuidance/ViewControllerCybsGuidance.swift:213-235 | the anchor is added exactly when the placement is accepted; a placement that reprojects too far speaks "Try again - " and the overlay message; otherwise nothing changes |
| Guidance.GuidanceController.Reset | Sight/CyberGuidance/ViewControllerCybsGuidance.swift:862-896 | back to detection with the reading, hand and anchor reset as above, the reference point at zero, the feedback, overlay and point buffer reset |
| Guidance.GuidanceController.ResetModules | Sight/CyberGuidance/ViewControllerCybsGuidance.swift:867-876 | the feedback returns to its defaults, the overlay is reset and the point buffer emptied |
| Guidance.GuidanceController.ResetState | Sight/CyberGuidance/ViewControllerCybsGuidance.swift:864-891 | the screen's own fields return to their reset values |
| Guidance.GuidanceController.LongPress | Sight/CyberGuidance/ViewControllerCybsGuidance.swift:237-245 | "Resetting" is spoken and then everything the reset states holds |
| Guidance.GuidanceController.BraceletTick | Sight/CyberGuidance/ViewControllerCybsGuidance.swift:613-645 | the message sent is the bracelet message for the current zone and period, it decodes to a zone with a period of at least 100 ms, and it is appended to what was sent |
| Guidance.GuidanceController.HandTrackingStep | Sight/CyberGuidance/ViewControllerCybsGuidance.swift:415-465 | nothing without a frame; a found index tip becomes the scaled reference point, keeps the largest hand size and says "Hand" on the change from the slow period; no hand keeps the reference, clears the hand point and says "Frame" on the change back |
| Guidance.GuidanceController.ObjectTrackingStep | Sight/CyberGuidance/ViewControllerCybsGuidance.swift:467-524 | nothing without a frame; a detection exists exactly when some result qualifies, it is classifiable, and it is stored as the detector loop stores it; none clears the target point |
| Guidance.GuidanceController.RecordDetection | Sight/CyberGuidance/ViewControllerCybsGuidance.swift:477-512 | a detection stores the reading, the scaled box size for the overlay and the feedback, and a haptic pulse while detecting; none clears the target point and the detection flag |
| Guidance.GuidanceController.CheckPositionStep | Sight/CyberGuidance/ViewControllerCybsGuidance.swift:526-611 | outside tracking with an anchor and a target nothing changes; otherwise the anchor moves only to the stabilised position, only when the drift is in range and the box is larger than ever seen, and the distance and largest sizes are recorded |
| Guidance.GuidanceController.SessionUpdate | Sight/CyberGuidance/ViewControllerCybsGuidance.swift:294-392 | the frame, focal length, orientation and rotated pixel size are stored, the reference returns to the rectangle's middle unless a hand is guided; tracking speaks the distance once and shows the anchor's projection; detection switches to tracking once the scene has three nodes; for the point shown (the previous one while tracking, otherwise the one left on the overlay, which while detecting is the scaled stored point) the cadence is one update from the old time, the bracelet zone is the zone of the reference-minus-target offset, and unless the target is lost the direction is the phrase of the bearing of that offset; effects are only appended |
| Guidance.GuidanceController.AdvanceAndPresent | Sight/CyberGuidance/ViewControllerCybsGuidance.swift:316-391 | the branch on the tracking state and the display, with the frame size kept and effects only appended; with a frame, for the point shown (the previous one while tracking, otherwise the one left on the overlay, which while detecting is the scaled stored point) the cadence is one update from the old time, the bracelet zone is the zone of the reference-minus-target offset, and unless the target is lost the direction is the phrase of the bearing of that offset |
| Guidance.GuidanceController.Present | Sight/CyberGuidance/ViewControllerCybsGuidance.swift:327-391 | with a frame, for the previous target point and the bearing given, the cadence is one update from the earlier time, the bracelet zone is the zone of the offset, and unless the target is lost the direction is the phrase of the bearing; this holds whether or not the feedback was already primed from that earlier time and zone; while tracking with an anchor the projection is shown afterwards and the in-view flag is the rectangle test; otherwise the anchor and target point are kept |
| Guidance.GuidanceController.AdvanceState | Sight/CyberGuidance/ViewControllerCybsGuidance.swift:321-389 | tracking speaks the distance once; detection scales the stored target point and switches to tracking with the feedback primed once the scene has three nodes; the cadence and bracelet zone change only on that switch, to one update for the scaled point; the anchor depth is kept; a stopped screen changes nothing |
| Guidance.GuidanceController.BeginFrame | Sight/CyberGuidance/ViewControllerCybsGuidance.swift:296-318 | the frame is stored and only the frame size of the feedback changes; the reference point follows the hand rule |
| Guidance.GuidanceController.TrackTarget | Sight/CyberGuidance/ViewControllerCybsGuidance.swift:327-369 | the anchor's projection is shown; leaving the rectangle plays the lost cue with "Out of view, was" and the last direction; otherwise the anchor depth is read back through the depth filter |
| Guidance.GuidanceController.DetectionUpdate | Sight/CyberGuidance/ViewControllerCybsGuidance.swift:371-389 | a stored target point is scaled onto the screen; with three scene nodes the screen tracks, the feedback is primed with the target height and the anchor distance, and the cadence and bracelet zone follow the update rules for the scaled point; otherwise nothing else changes |
| Guidance.GuidanceController.DisplayFrame | Sight/CyberGuidance/ViewControllerCybsGuidance.swift:900-926 | nothing without a frame; otherwise the overlay shows the point and the drag is cleared, and for that point the cadence is one update from the old time, the bracelet zone is the zone of the reference-minus-target offset, and unless the target is lost the direction is the phrase of the bearing of that offset |
| Guidance.GuidanceController.Guide | Sight/CyberGuidance/ViewControllerCybsGuidance.swift:913-919 | the overlay shows the point; the cadence is one update from the old time, the bracelet zone is the zone of the reference-minus-target offset, and unless the target is lost the direction is the phrase of the bearing of that offset; the overlay's message is then the feedback's |
| Guidance.GuidanceController.FollowTarget | Sight/CyberGuidance/ViewControllerCybsGuidance.swift:913-916 | the overlay shows the point and the cadence and bracelet zone follow the update rules |
| Guidance.GuidanceController.ShowDirection | Sight/CyberGuidance/ViewControllerCybsGuidance.swift:917-919 | the overlay's message is the feedback's message, naming the direction of the bearing for a non-zero point |
| TrackingView.RubberbandingRect | Sight/CyberGuidance/Vision/TrackingImageView.swift:46-52 | the drag rectangle starts at the smaller coordinates of its two corners and its size is the absolute drag vector, never negative |
| TrackingView.RubberbandingRectNormalized | Sight/CyberGuidance/Vision/TrackingImageView.swift:54-71 | the zero rectangle without a positive image area; otherwise the drag rectangle relative to the image area with the origin moved to the lower-left corner |
| TrackingView.DenormalizeInverts | Sight/CyberGuidance/Vision/TrackingImageView.swift:54-71 | mapping the normalized drag rectangle back into the image area gives the drag rectangle |
| TrackingView.Scale | Sight/CyberGuidance/Vision/TrackingImageView.swift:220-230 | the view x is the mirrored x cropped by the part of the camera image outside the screen and scaled to the image width; the view y is the y scaled to the image height |
| TrackingView.ScaleDefinedUnlessDoubleWidth | Sight/CyberGuidance/Vision/TrackingImageView.swift:226-227 | the crop divisor is zero exactly when the camera image is twice as wide as the screen in pixels |
| TrackingView.ScaleRoundTrip | Sight/CyberGuidance/Vision/TrackingImageView.swift:220-230 | undoing the scaling gives the normalized point back |
| TrackingView.ScaleMirrors | Sight/CyberGuidance/Vision/TrackingImageView.swift:223-229 | two points mirrored about the middle land at x coordinates adding up to the image width |
| TrackingView.ScaleRect | Sight/CyberGuidance/Vision/TrackingImageView.swift:232-238 | each side is the normalized side times the screen side times the camera-to-screen pixel ratio of its axis |
| TrackingView.ScaleRectLinear | Sight/CyberGuidance/Vision/TrackingImageView.swift:232-238 | scaling both sides of the box by a factor scales both results by that factor |
| TrackingView.TrackingImageView.constructor | Sight/CyberGuidance/Vision/TrackingImageView.swift:9-35 | a new overlay holds the reset values, a zero image area and no drag |
| TrackingView.TrackingImageView.ResetTracking | Sight/CyberGuidance/Vision/TrackingImageView.swift:240-251 | target point, box, hand point, tracking rectangle, pixel size and message return to their defaults; the image area and the drag are kept |
| TrackingView.TrackingImageView.Layout | Sight/CyberGuidance/Vision/TrackingImageView.swift:78-97 | the tracking rectangle is the drawn rectangle; with an image the image area fills the rectangle's width and height; nothing else changes |
| VisionTracker.BestIsUnique | Sight/CyberGuidance/Vision/VisionTrackerProcessor.swift:116-124 | at most one label position is the one the scan settles on |
| VisionTracker.SelectBest | Sight/CyberGuidance/Vision/VisionTrackerProcessor.swift:113-128 | nothing exactly when no label names the wanted class with confidence above 0.3; otherwise the most confident such label, the first among equals |
| VisionTracker.PixelDistanceSquared | Sight/CyberGuidance/Vision/VisionTrackerProcessor.swift:186-190 | the squared pixel distance is never negative |
| VisionTracker.DetectHand | Sight/CyberGuidance/Vision/VisionTrackerProcessor.swift:131-183 | a hand is reported exactly when there is an observation with all needed keypoints and both tips above 0.3 confidence; then the index tip and the hand size, otherwise no point, no hand and size 0 |
| VisionTracker.ThresholdConfidenceRejected | Sight/CyberGuidance/Vision/VisionTrackerProcessor.swift:169-172 | a tip confidence of exactly 0.3 never yields a hand |
| VisionTracker.VisionTrackerProcessor.constructor | Sight/CyberGuidance/Vision/VisionTrackerProcessor.swift:21-68 | no wanted class, no detection, the default orientation, no observation centre and not initialized |
| VisionTracker.VisionTrackerProcessor.ProcessDetections | Sight/CyberGuidance/Vision/VisionTrackerProcessor.swift:106-129 | without results nothing changes; otherwise the detection holding the best qualifying label is kept, or none when no label qualifies |
| VisionTracker.VisionTrackerProcessor.DetectObject | Sight/CyberGuidance/Vision/VisionTrackerProcessor.swift:70-85 | without an image or an orientation the detection is cleared; otherwise the results are processed as above; the detection then held is returned |
| VisionTracker.VisionTrackerProcessor.CalculateDetectedObservationCenter | Sight/CyberGuidance/Vision/VisionTrackerProcessor.swift:192-195 | the centre is the rectangle's midpoint and marked active; nothing else changes |
| VisionTracker.VisionTrackerProcessor.Reset | Sight/CyberGuidance/Vision/VisionTrackerProcessor.swift:198-201 | the initialization and centre flags are cleared; nothing else changes |
| FeatureSelection.ChangeSelection | Sight/CyberGuidance/FeatureSelectionViewController.swift:128-140 | the flags are always (pressed on, other off); the pressed border ends green, and the other turns red only when the pressed one was red |
| FeatureSelection.ChangeSelection3 | Sight/CyberGuidance/FeatureSelectionViewController.swift:142-157 | the same rule for a group of three buttons |
| FeatureSelection.ChangeSelectionKeepsBordersInStep | Sight/CyberGuidance/FeatureSelectionViewController.swift:128-140 | when exactly one border of a pair is green, the borders after a press show the returned flags |
| FeatureSelection.ChangeSelection3KeepsBordersInStep | Sight/CyberGuidance/FeatureSelectionViewController.swift:142-157 | when exactly one border of a triple is green, the borders after a press show the returned flags |
| FeatureSelection.GroupOf | Sight/CyberGuidance/FeatureSelectionViewController.swift:21-48 | each button belongs to its group: detector, item, feedback mode, hand or vertical curve |
| FeatureSelection.Partners | Sight/CyberGuidance/FeatureSelectionViewController.swift:67-120 | the partners passed by a tap handler are exactly the other buttons of the pressed button's group, one or two and distinct |
| FeatureSelection.Include | Sight/CyberGuidance/FeatureSelectionViewController.swift:67-120 | storing one flag sets that button's membership and leaves every other button's |
| FeatureSelection.Choose | Sight/CyberGuidance/FeatureSelectionViewController.swift:67-120 | the tapped button is chosen, the rest of its group is not, and the other groups keep their choice |
| FeatureSelection.ChooseKeepsOnePerGroup | Sight/CyberGuidance/FeatureSelectionViewController.swift:67-120 | a tap keeps exactly one choice in each of the five groups |
| FeatureSelection.Colour | Sight/CyberGuidance/FeatureSelectionViewController.swift:159-204 | a border is green exactly for a chosen button |
| FeatureSelection.ChangeSelectionChooses | Sight/CyberGuidance/FeatureSelectionViewController.swift:67-140 | in a two-button group, the flags and borders that a press leaves are both the selection with the tapped button chosen |
| FeatureSelection.PairChooses | Sight/CyberGuidance/FeatureSelectionViewController.swift:67-107 | setting the pressed flag and clearing the partner's is choosing the pressed button |
| FeatureSelection.ChangeSelection3Chooses | Sight/CyberGuidance/FeatureSelectionViewController.swift:76-157 | in a three-button group, the flags and borders that a press leaves are both the selection with the tapped button chosen |
| FeatureSelection.TripleChooses | Sight/CyberGuidance/FeatureSelectionViewController.swift:76-120 | setting the pressed flag and clearing both partners' is choosing the pressed button |
| FeatureSelection.PrepareConfig | Sight/CyberGuidance/FeatureSelectionViewController.swift:238-296 | detector and item, curve, hand and feedback mode are set only for a valid combination of flags and otherwise left as they were; the switch and both sliders are always copied |
| FeatureSelection.ChooseDetector | Sight/CyberGuidance/FeatureSelectionViewController.swift:244-262 | QR code alone gives ("QRCode", "QR_CODE"); groceries alone gives "Groceries" with the one chosen item; any other combination keeps both |
| FeatureSelection.ChooseVertical | Sight/CyberGuidance/FeatureSelectionViewController.swift:264-272 | exactly one curve flag names that curve; otherwise the curve is kept |
| FeatureSelection.ChooseHand | Sight/CyberGuidance/FeatureSelectionViewController.swift:274-280 | exactly one hand flag names that hand; otherwise the hand is kept |
| FeatureSelection.ChooseFeedback | Sight/CyberGuidance/FeatureSelectionViewController.swift:284-290 | exactly one mode flag names that mode; otherwise the mode is kept |
| FeatureSelection.PrepareConfigComplete | Sight/CyberGuidance/FeatureSelectionViewController.swift:238-296 | from a selection with one choice per group every string field is set and the object is a detectable one, whatever the destination held |
| FeatureSelection.InitialConfiguration | Sight/CyberGuidance/FeatureSelectionViewController.swift:238-296 | validating the initial selection configures groceries, bottle, steps, left hand and sonification with both slopes 1 |
| FeatureSelection.FeatureSelectionController.constructor | Sight/CyberGuidance/FeatureSelectionViewController.swift:21-225 | the declared flags and the initial borders are the same selection, both sliders start at 1 |
| FeatureSelection.FeatureSelectionController.Tap | Sight/CyberGuidance/FeatureSelectionViewController.swift:67-120 | after any tap the flags are the chosen selection, the borders still agree with them and each group has one choice |
| FeatureSelection.FeatureSelectionController.Prepare | Sight/CyberGuidance/FeatureSelectionViewController.swift:238-296 | from the screen's state, the configuration always names a detector, a detectable object, a curve, a hand and a feedback mode, with the sliders' slopes |
| FeatureSelection.FeatureSelectionController.TextFieldDidEndEditing | Sight/CyberGuidance/FeatureSelectionViewController.swift:306-324 | text that reads as a number moves the field's slider to it, clamped into the slider's range; other text changes nothing |
| FeatureSelection.EditedWholeNumberInRange | Sight/CyberGuidance/FeatureSelectionViewController.swift:306-314 | a whole number typed within the vertical range sets the slider to exactly that number |
| Room.DoorsAreTheDoors | Sight/Room/ViewControllerRoom.swift:331-335 | the filtered list is empty exactly when no result is a door above the threshold, keeps only doors, and starts with the first door among the results |
| Room.DoorsHaveHeights | Sight/Room/ViewControllerRoom.swift:331-335 | every door kept has a box with a positive height |
| Room.ClockHour | Sight/Room/ViewControllerRoom.swift:385-398 | an hour is named exactly for positions from 0 to 1 |
| Room.ClockHourSweepsRight | Sight/Room/ViewControllerRoom.swift:385-398 | a position further right never gets an earlier hour on the dial from 10 to 2 |
| Room.ClockHourMirrors | Sight/Room/ViewControllerRoom.swift:385-398 | mirroring the position about the middle mirrors the hour about twelve o'clock, away from the sector borders |
| Room.DoorDistance | Sight/Room/ViewControllerRoom.swift:370 | the announced distance is never negative, and at least one metre for a box no taller than the frame |
| Room.InverseOfFraction | Sight/Room/ViewControllerRoom.swift:370 | the inverse of a positive height is positive, and at least 1 for a height up to 1 |
| Room.SuccessIsNear | Sight/Room/ViewControllerRoom.swift:369-406 | a box tall enough for the success sound is announced at one or two metres |
| Room.Announcement | Sight/Room/ViewControllerRoom.swift:384-398 | no sentence exactly off the dial; otherwise the hour, " o'clock, ", the rounded distance as Swift prints a whole Double, and " meters" |
| Room.NextBufferBounds | Sight/Room/ViewControllerRoom.swift:470-478 | the new box is last, what is kept is the end of the history, a buffer below four boxes just grows, and a full buffer of four restarts with the new box |
| Room.MidXs | Sight/Room/ViewControllerRoom.swift:531-535 | each entry is the middle x of its box |
| Room.Heights | Sight/Room/ViewControllerRoom.swift:531-535 | each entry is the height of its box |
| Room.SumRealsBounds | Sight/Room/ViewControllerRoom.swift:531-539 | a sum of values between two bounds lies between count times each bound |
| Room.MeanWithin | Sight/Room/ViewControllerRoom.swift:537-539 | a mean lies between bounds that hold for every element |
| Room.AverageBoxWithin | Sight/Room/ViewControllerRoom.swift:526-542 | the average centre and height lie within any bounds that hold for every buffered box |
| Room.AverageHeightNonNegative | Sight/Room/ViewControllerRoom.swift:531-539 | the average height is never negative |
| Room.SumOfHeights | Sight/Room/ViewControllerRoom.swift:531-535 | the sum of the heights bounds each height |
| Room.FrequencySetting | Sight/Room/ViewControllerRoom.swift:126-139 | the frequency is 0, 1 or 2, labelled "Less", "Norm" or "More" in that order |
| Room.FrequencyMonotone | Sight/Room/ViewControllerRoom.swift:126-139 | sliding further right never lowers the frequency |
| Room.FrameStepKeepsConsistent | Sight/Room/ViewControllerRoom.swift:328-467 | a result keeps the beep flag up exactly while an episode is open, the miss counter below forty and only counting during an episode, and the buffer within four boxes |
| Room.BeepOncePerEpisode | Sight/Room/ViewControllerRoom.swift:360-364 | a result beeps only with a door in view and the flag down, at most once, and raises the flag |
| Room.DetectionBeepsOnce | Sight/Room/ViewControllerRoom.swift:360-364 | a detection beeps only when the flag was down, and at most once |
| Room.BeepRearmedOnlyByLost | Sight/Room/ViewControllerRoom.swift:447-457 | the beep flag comes down only on a result without a door that announces "Lost" and nothing else |
| Room.AnnouncementsAreGated | Sight/Room/ViewControllerRoom.swift:366-382 | any effect other than the beep and "Lost", or a change of the remembered position or distance, needs a door, the first or a fifteenth detection, and enough movement since the last announcement |
| Room.DetectionOpensEpisode | Sight/Room/ViewControllerRoom.swift:348-364 | a detection opens the episode, raises the beep flag, resets the miss counter and advances the detection count by one |
| Room.QuietDetection | Sight/Room/ViewControllerRoom.swift:366-382 | off the gate or without enough movement a detection at most beeps and keeps the remembered position and distance |
| Room.LostAfterMisses | Sight/Room/ViewControllerRoom.swift:447-457 | during an episode, "Lost" comes after exactly as many empty results as the miss counter lacks to reach forty, then closes the episode and lowers the beep flag |
| Room.DoorRestartsMissCount | Sight/Room/ViewControllerRoom.swift:348-450 | a result with a door leaves the miss counter at one, so "Lost" needs thirty-nine more empty results |
| Room.RoomController.constructor | Sight/Room/ViewControllerRoom.swift:29-67 | counters at their declared values, no episode, an empty buffer, frequency 1 and the default 0.65 threshold |
| Room.RoomController.SliderDidSlide | Sight/Room/ViewControllerRoom.swift:126-139 | the frequency and its label are the setting for the slider's value |
| Room.RoomController.ThresholdSliderDidSlide | Sight/Room/ViewControllerRoom.swift:142-148 | the slider's value becomes the door confidence threshold |
| Room.RoomController.UpdateBoundingBoxBuffer | Sight/Room/ViewControllerRoom.swift:470-478 | the buffer becomes the next buffer for the new box |
| Room.RoomController.VisionRequestDidComplete | Sight/Room/ViewControllerRoom.swift:328-467 | without results only the inference flag drops; with results the state and effects advance by one frame step on the doors among them, and the state stays consistent |
| Room.RoomController.ObserveDoors | Sight/Room/ViewControllerRoom.swift:335-461 | the state and effects advance by one frame step on the doors |
| Room.RoomController.DoorSeen | Sight/Room/ViewControllerRoom.swift:348-445 | the state and effects advance by the detection step |
| Room.RoomController.ConsiderAnnouncement | Sight/Room/ViewControllerRoom.swift:366-444 | the state and effects advance by the announcement step for the box |
| Room.RoomController.Speak | Sight/Room/ViewControllerRoom.swift:380-442 | the state and effects advance by the speaking step |
| Room.RoomController.CountFrame | Sight/Room/ViewControllerRoom.swift:447-460 | the state and effects advance by the miss-counting step |
| LiveImage.Heard | Sight/ImageClassification/LiveImageViewController.swift:212-221 | when the label may be spoken the memory becomes that label and time; otherwise it is unchanged |
| LiveImage.ConfidenceText | Sight/ImageClassification/LiveImageViewController.swift:210 | the confidence text always ends in ".0 %", as Swift prints a whole Float |
| LiveImage.ConfidenceTextReadsBack | Sight/ImageClassification/LiveImageViewController.swift:210 | a confidence in [0, 1] prints as a whole percentage from 0 to 100 within half a point of it, and its digits read back as that percentage |
| LiveImage.FirstLabelSpoken | Sight/ImageClassification/LiveImageViewController.swift:18-219 | with nothing spoken yet, a non-empty label arriving more than a second after the epoch is spoken |
| LiveImage.NoRepeatWithinInterval | Sight/ImageClassification/LiveImageViewController.swift:213-219 | right after a label is spoken, neither the same label nor any label within the next second is spoken |
| LiveImage.Replay | Sight/ImageClassification/LiveImageViewController.swift:207-234 | over a stream of results the spoken ones are at most as many as the results and are among them |
| LiveImage.SpokenLabelsAreSpaced | Sight/ImageClassification/LiveImageViewController.swift:207-234 | over any stream, each spoken label differs from the one spoken before it and comes more than a second later, and the memory ends at the last label spoken |
| LiveImage.LabelSpeaker.constructor | Sight/ImageClassification/LiveImageViewController.swift:18-19 | nothing remembered (the empty label at time 0), empty texts and no speech |
| LiveImage.LabelSpeaker.ShowResults | Sight/ImageClassification/LiveImageViewController.swift:207-234 | both texts always change; the label is spoken exactly when the debounce rule allows, after stopping any speech in progress, and the memory advances as described |
| Numeric.Trunc | Sight/CyberGuidance/Feedback/FeedbackProcessor.swift:320-322 | `Int(_:)` of a number rounds toward zero: the result is within one below a non-negative value and within one above a negative value |
| Numeric.Round | Sight/Room/ViewControllerRoom.swift:370 | `round` gives the nearest integer and sends halves away from zero |
| Numeric.Clamp | Sight/CyberGuidance/FeatureSelectionViewController.swift:310 | `min(max(v, lo), hi)` lies in the range, is `v` inside it and the nearer end outside it |
| Decimal.IntToString | Sight/CyberGuidance/ViewControllerCybsGuidance.swift:686 | the numeral of an integer is all digits, after a minus sign when negative |
| Decimal.ParseInt | Sight/CyberGuidance/ViewControllerCybsGuidance.swift:649 | `Int(_:)` of a text reads only a non-empty text and only values in the 64-bit range |
| Decimal.ParseIntRoundTrip | Sight/CyberGuidance/ViewControllerCybsGuidance.swift:649-686 | reading back the numeral of any integer gives that integer |
| Decimal.WholeNumberText | Sight/Room/ViewControllerRoom.swift:387 | a whole `Double` prints with a trailing ".0" |
| Decimal.ParseDecimal | Sight/CyberGuidance/FeatureSelectionViewController.swift:307 | `Float(_:)` of a text reads only a non-empty text |
| Decimal.ParseDecimalOfInteger | Sight/CyberGuidance/FeatureSelectionViewController.swift:307 | a whole number's numeral reads back as that number |

### Where the design description and the code differ

The model follows the code in each of these cases.

- **Centering.** The design description calls the centering flag a
  hysteresis that stays set up to half the target size plus 30 px. In
  `FeedbackProcessor.assistUser`, the flag is set only inside the inner box.
  It is cleared only between the inner box and the margin, and only while
  set. An offset beyond the margin leaves the flag as it was, so it is not
  a hysteresis. `Feedback.CenteringIsNotHysteresis` states this behaviour.
- **The stabiliser's depth-only branch.** The design describes this branch
  as a separate correction. The guard of its `else if` in `checkPosition`
  implies the guard of the first branch. As a result the branch never runs,
  and `GuidanceRules.CorrectionDecision` never chooses it.

## Left out

The classes run the corrected definitions of "Findings": `Feedback.FeedbackProcessor.UpdateParameters` uses `Feedback.HandInterBipTime`, which keeps the time between beeps for a calibrated hand size of 300 px, and `Guidance.GuidanceController.CheckPositionStep` uses `GuidanceRules.InCorrectionRange`.


- The `sqrt` calls are not modelled: `computeL2Distance`, `distanceBetween`, the square root of the standard deviation and the hand-size measure. Range tests compare squared lengths instead, and the hand size is an input.
- `atan2` in `computeAngle` is not modelled. The bearing is a function given to `SessionUpdate` and `AdvanceAndPresent`, which require it to meet `Feedback.IsBearing` for every offset: the angle is pinned on the axes and the diagonals and to the octant of the offset. `Present` receives the angle it gives for the point shown. `Feedback.DirectionsOnAxes` and `Feedback.BraceletZoneMatchesSectorOnAxes` use this. `Feedback.NormalizeDegrees` models the shift into [0, 360) on its own.
- `Float`, `Double` and `CGFloat` rounding, range and non-finite values are not modelled: numbers are `real`. Where the code can divide by zero, the model says what happens:
  - a zero half height makes the parabola and cubic pitch `NonFinite`;
  - the hand cadence NaN is in "Findings";
  - `Scale`'s crop divisor is zero for a camera image twice the screen width, which the frame requirement of `SessionUpdate` and `BeginFrame` excludes;
  - zero-size boxes, whose distance estimates would divide by zero, are excluded by `Guidance.Usable` and `Room.HasHeights`.
- BufferTypes.PositionBuffer.EstimateMean: returns the means that `estimateStandardDeviation` computes, not the square-rooted deviations.
- Decimal.WholeNumberText: whole numbers of 1e16 and above, which Swift prints in exponent form, are not covered. The percentages and distances the screens print are far below that.
- Decimal.ParseDecimal: accepts only plain decimal numerals. The exponent, hexadecimal, `inf` and `nan` forms that `Float(String)` also reads are not modelled.
- Audio engine, `AVSpeechSynthesizer`, haptics and sound players are effectors. They are recorded as effect sequences, and their timing and completion handlers are not modelled.
- The Room screen's guard that skips speaking while the synthesizer is busy is not modelled: every announcement is recorded as an effect.
- Bluetooth transport is not part of this model: the bracelet message string is the boundary.
- `DispatchQueue` work items, the `while true` loops, `Thread.sleep`, semaphores and dispatch groups are not modelled. Each loop body is one atomic step, and interleavings between loops are not modelled.
- ARKit and SceneKit are not modelled: `calculate3DPosition`, `projectPoint`, `unprojectPoint` and camera intrinsics. They are a `Camera` value with an unprojection ray and a projection function, given as inputs.
- The Vision and Core ML request machinery and model loading are not modelled. Detections, labels and hand keypoints are input records.
- The Room screen's average box is computed and buffered but, as in the source, never read. The performance labels and the blue bar are UI and are not modelled.
- The Room screen's `freq` is a `Double` in the source that only ever holds 0, 1 or 2 and is read through `Int(freq)`, so it is modelled as an `int`.
- Drawing and rendering are not modelled: `TrackingImageView.draw`, `scaleImage`, the segmentation view and the Metal views. The navigation screens, the still-image controllers and the text-recognition data source are also left out.
- MovingAverage.MovingAverageFilter.AverageValue: the sum is an unbounded integer. Swift's `reduce` with `+` traps on 64-bit overflow, which the model does not reproduce.
- Guidance.GuidanceController.ObjectTrackingStep: requires every qualifying result to have a usable box and, when no class is held yet, a readable label. Without one, the detector loop reads `targetClass!` while it is still nil (ViewControllerCybsGuidance.swift:78, 504) and traps, and a zero-size box divides by zero.
- Guidance.GuidanceController.RecordDetection: requires the same of the detection it stores, for the same reason.
- BufferTypes.ObjectBuffer.constructor: requires a non-negative size. With a negative one, `removeFirst` would remove more points than the buffer holds and trap.
- BufferTypes.PositionBuffer.AddPosition: requires a positive size. With size 0, the first overwrite indexes an empty array and traps.
- Guidance.GuidanceController.BraceletTick: requires the time between beeps in milliseconds to fit in 64 bits. Beyond that, `Int(interBipTime * 1000)` traps.
- Guidance.GuidanceController.HandTrackingStep: a `detectHand` that throws is the same as no observation, so the frame counts as "no hand". The error is not modelled.
- Commented-out code is not modelled, because it is not live behaviour. This includes the alternative hand-slope formula in `FeedbackProcessor.swift`.

## Findings

| source | as written | input that shows it | evidently intended | confidence | as-written member | corrected member |
|---|---|---|---|---|---|---|
| Sight/CyberGuidance/ViewControllerCybsGuidance.swift:558-560 | `checkPosition` builds the closed range `10.0...maxDist`, where `maxDist` is half the target's diagonal; Swift traps when the lower bound exceeds the upper | a tracked target 10 × 10 px (half-diagonal about 7.07 < 10) | a target too small for the range proposes no correction | not executed | GuidanceRules.SmallTargetTraps | GuidanceRules.InCorrectionRange |
| Sight/CyberGuidance/Feedback/FeedbackProcessor.swift:247-254 | the hand cadence divides by `maxHandSize - minHandSize`; a calibrated maximum hand size of exactly 300 px makes the slope infinite and the time between beeps NaN, which then traps in `Int(interBipTime * 1000)` in the bracelet loop | `maxHandSize == 300`, any hand size | a calibration that cannot form a line keeps the current time between beeps | not executed | Feedback.HandCadenceNaNAtMinHandSize | Feedback.HandInterBipTime |
