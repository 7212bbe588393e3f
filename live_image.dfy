/**
 * The live classification screen (`LiveImageViewController.showResults`):
 * every result updates the label and confidence texts, and the label is
 * read aloud only when it differs from the last label spoken and more than
 * one second has passed since that label was spoken.
 */
module LiveImage {
  import opened Wrappers
  import opened Numeric
  import opened Decimal

  /** The least gap, in seconds, between two spoken labels. */
  const DebounceInterval: real := 1.0

  /** What the screen asks of the speech synthesizer. */
  datatype SpeechEffect = StopSpeaking | SpeakLabel(text: string)

  /** The last label spoken and the time it was spoken, in seconds since 1970. */
  datatype Memory = Memory(lastLabel: string, lastTime: real)

  /** One classification result as it reaches the screen. */
  datatype Call = Call(name: string, time: real)

  /** Nothing spoken yet: the empty label at the epoch. */
  const Initial: Memory := Memory("", 0.0)

  /** The debounce rule: a new label, and more than a second since the last one spoken. */
  predicate ShouldSpeak(m: Memory, name: string, now: real) {
    name != m.lastLabel && now - m.lastTime > DebounceInterval
  }

  /** The memory after one result arrives. */
  function Heard(m: Memory, name: string, now: real): (r: Memory)
    ensures ShouldSpeak(m, name, now) ==> r.lastLabel == name && r.lastTime == now
    ensures !ShouldSpeak(m, name, now) ==> r == m
  {
    if ShouldSpeak(m, name, now) then Memory(name, now) else m
  }

  /** The confidence label: the rounded percentage as Swift prints a whole `Float`, then " %". */
  function ConfidenceText(confidence: real): (t: string)
    ensures |t| >= 5 && t[|t| - 4..] == ".0 %"
  {
    WholeNumberText(Round(confidence * 100.0)) + " %"
  }

  /**
   * A confidence in [0, 1] prints as a whole percentage between 0 and 100,
   * within half a point of the confidence, and the digits read back.
   */
  lemma ConfidenceTextReadsBack(confidence: real)
    requires 0.0 <= confidence <= 1.0
    ensures exists p: int {:trigger IntToString(p)} ::
      0 <= p <= 100 && Abs(confidence * 100.0 - p as real) <= 0.5
      && ConfidenceText(confidence) == IntToString(p) + ".0 %"
      && ParseInt(ConfidenceText(confidence)[..|ConfidenceText(confidence)| - 4]) == Some(p)
  {
    var p := Round(confidence * 100.0);
    var t := ConfidenceText(confidence);
    assert t == IntToString(p) + ".0 %";
    assert t[..|t| - 4] == IntToString(p);
    ParseIntRoundTrip(p);
  }

  /** With nothing spoken yet, any non-empty label arriving more than a second after the epoch is spoken. */
  lemma FirstLabelSpoken(name: string, now: real)
    requires name != "" && now > DebounceInterval
    ensures ShouldSpeak(Initial, name, now)
    ensures Heard(Initial, name, now) == Memory(name, now)
  {
  }

  /** Right after a label is spoken, neither the same label nor any label within the next second is spoken. */
  lemma NoRepeatWithinInterval(m: Memory, name: string, now: real, next: string, later: real)
    requires ShouldSpeak(m, name, now)
    requires next == name || later - now <= DebounceInterval
    ensures !ShouldSpeak(Heard(m, name, now), next, later)
  {
  }

  /** A stream of results: the memory at the end and the results whose labels were spoken, in order. */
  function Replay(m: Memory, calls: seq<Call>): (r: (Memory, seq<Call>))
    ensures |r.1| <= |calls|
    ensures forall c :: c in r.1 ==> c in calls
    decreases |calls|
  {
    if |calls| == 0 then (m, [])
    else
      var c := calls[0];
      if ShouldSpeak(m, c.name, c.time) then
        var (end, spoken) := Replay(Heard(m, c.name, c.time), calls[1..]);
        (end, [c] + spoken)
      else Replay(m, calls[1..])
  }

  /**
   * Over any stream of results, the first label spoken differs from the
   * remembered one and comes more than a second after it, every label
   * spoken differs from the one spoken before it and comes more than a
   * second later, and the memory ends at the last label spoken.
   */
  lemma {:induction false} SpokenLabelsAreSpaced(m: Memory, calls: seq<Call>)
    ensures var (end, spoken) := Replay(m, calls);
      && (|spoken| > 0 ==> ShouldSpeak(m, spoken[0].name, spoken[0].time))
      && (forall i :: 0 < i < |spoken| ==>
            spoken[i].name != spoken[i - 1].name && spoken[i].time - spoken[i - 1].time > DebounceInterval)
      && (|spoken| == 0 ==> end == m)
      && (|spoken| > 0 ==> end == Memory(spoken[|spoken| - 1].name, spoken[|spoken| - 1].time))
    decreases |calls|
  {
    if |calls| > 0 {
      var c := calls[0];
      if ShouldSpeak(m, c.name, c.time) {
        SpokenLabelsAreSpaced(Heard(m, c.name, c.time), calls[1..]);
        var (end, rest) := Replay(Heard(m, c.name, c.time), calls[1..]);
        var spoken := [c] + rest;
        assert Replay(m, calls) == (end, spoken);
        forall i | 0 < i < |spoken|
          ensures spoken[i].name != spoken[i - 1].name && spoken[i].time - spoken[i - 1].time > DebounceInterval
        {
          assert spoken[i] == rest[i - 1];
          if i == 1 {
            assert spoken[i - 1] == c;
          } else {
            assert spoken[i - 1] == rest[i - 2];
          }
        }
        if |rest| > 0 {
          assert spoken[|spoken| - 1] == rest[|rest| - 1];
        }
      } else {
        SpokenLabelsAreSpaced(m, calls[1..]);
      }
    }
  }

  /** `LiveImageViewController`: the two texts on screen, the speech memory and what was asked of the synthesizer. */
  class LabelSpeaker {
    var labelText: string
    var confidenceText: string
    var lastSpokenLabel: string
    var lastSpokenTime: real
    var effects: seq<SpeechEffect>

    function Remembered(): Memory
      reads this
    {
      Memory(lastSpokenLabel, lastSpokenTime)
    }

    constructor()
      ensures Remembered() == Initial
      ensures labelText == "" && confidenceText == "" && effects == []
    {
      labelText := "";
      confidenceText := "";
      lastSpokenLabel := "";
      lastSpokenTime := 0.0;
      effects := [];
    }

    /**
     * `showResults`: both texts always change; the label is spoken, after
     * stopping speech in progress, exactly when the debounce rule allows it.
     * The clock reading and whether the synthesizer is speaking are inputs.
     */
    method ShowResults(objectLabel: string, confidence: real, now: real, isSpeaking: bool) returns (spoke: bool)
      modifies this
      ensures labelText == objectLabel && confidenceText == ConfidenceText(confidence)
      ensures spoke == ShouldSpeak(old(Remembered()), objectLabel, now)
      ensures Remembered() == Heard(old(Remembered()), objectLabel, now)
      ensures spoke ==> effects == old(effects) + (if isSpeaking then [StopSpeaking] else []) + [SpeakLabel(objectLabel)]
      ensures !spoke ==> effects == old(effects)
    {
      labelText := objectLabel;
      confidenceText := WholeNumberText(Round(confidence * 100.0)) + " %";
      var currentTime := now;
      var timeInterval := currentTime - lastSpokenTime;
      spoke := objectLabel != lastSpokenLabel && timeInterval > 1.0;
      if spoke {
        lastSpokenLabel := objectLabel;
        lastSpokenTime := currentTime;
        if isSpeaking {
          effects := effects + [StopSpeaking];
        }
        effects := effects + [SpeakLabel(objectLabel)];
      }
    }
  }
}
