/**
 * The settings screen shown before guidance starts: five groups of
 * mutually exclusive buttons (detector, grocery item, feedback mode,
 * holding hand, vertical curve), two sliders with editable text fields,
 * and the decoding of the selection into the guidance configuration.
 */
module FeatureSelection {
  import opened Wrappers
  import opened Numeric
  import opened Decimal

  /** The border colour a button shows: green when chosen, red otherwise. */
  datatype Border = Red | Green

  /**
   * `changeSelection`: the pressed button turns green and the other red, but
   * only when the pressed one was red. The returned flags are always
   * (pressed enabled, other disabled). Result: the two flags, then the two
   * new borders.
   */
  function ChangeSelection(pressed: Border, other: Border): (r: (bool, bool, Border, Border))
    ensures r.0 && !r.1
    ensures r.2 == Green
    ensures pressed == Green ==> r.3 == other
    ensures pressed == Red ==> r.3 == Red
  {
    if pressed == Red then (true, false, Green, Red) else (true, false, Green, other)
  }

  /** `changeSelection3`: the same rule with two other buttons. */
  function ChangeSelection3(pressed: Border, other1: Border, other2: Border): (r: (bool, bool, bool, Border, Border, Border))
    ensures r.0 && !r.1 && !r.2
    ensures r.3 == Green
    ensures pressed == Green ==> r.4 == other1 && r.5 == other2
    ensures pressed == Red ==> r.4 == Red && r.5 == Red
  {
    if pressed == Red then (true, false, false, Green, Red, Red)
    else (true, false, false, Green, other1, other2)
  }

  /**
   * When the borders already show the flags (exactly one of the pair green),
   * they still show the returned flags after a press.
   */
  lemma ChangeSelectionKeepsBordersInStep(pressed: Border, other: Border)
    requires (pressed == Green) != (other == Green)
    ensures var r := ChangeSelection(pressed, other);
      (r.2 == Green) == r.0 && (r.3 == Green) == r.1
  {
  }

  lemma ChangeSelection3KeepsBordersInStep(pressed: Border, other1: Border, other2: Border)
    requires pressed == Green ==> other1 == Red && other2 == Red
    ensures var r := ChangeSelection3(pressed, other1, other2);
      (r.3 == Green) == r.0 && (r.4 == Green) == r.1 && (r.5 == Green) == r.2
  {
  }

  datatype Button =
    | QRCode | Groceries
    | Item1 | Item2 | Item3
    | Sonification | Bracelet
    | LeftHand | RightHand
    | VerticalSteps | VerticalParabol | VerticalCubic

  /** The five groups of mutually exclusive buttons. */
  datatype Group = Detector | Item | FeedbackMode | Hand | Vertical

  function GroupOf(b: Button): (g: Group)
    ensures g == Detector <==> b == QRCode || b == Groceries
    ensures g == Item <==> b == Item1 || b == Item2 || b == Item3
    ensures g == FeedbackMode <==> b == Sonification || b == Bracelet
    ensures g == Hand <==> b == LeftHand || b == RightHand
    ensures g == Vertical <==> b == VerticalSteps || b == VerticalParabol || b == VerticalCubic
  {
    match b
    case QRCode | Groceries => Detector
    case Item1 | Item2 | Item3 => Item
    case Sonification | Bracelet => FeedbackMode
    case LeftHand | RightHand => Hand
    case VerticalSteps | VerticalParabol | VerticalCubic => Vertical
  }

  /**
   * The other buttons of a button's group, in the order its tap handler
   * passes them to `changeSelection` or `changeSelection3`.
   */
  function Partners(b: Button): (r: seq<Button>)
    ensures |r| == 1 || |r| == 2
    ensures b !in r
    ensures |r| == 2 ==> r[0] != r[1]
    ensures forall c :: c in r <==> c != b && GroupOf(c) == GroupOf(b)
  {
    match b
    case QRCode => [Groceries]
    case Groceries => [QRCode]
    case Item1 => [Item2, Item3]
    case Item2 => [Item1, Item3]
    case Item3 => [Item1, Item2]
    case Sonification => [Bracelet]
    case Bracelet => [Sonification]
    case LeftHand => [RightHand]
    case RightHand => [LeftHand]
    case VerticalSteps => [VerticalParabol, VerticalCubic]
    case VerticalParabol => [VerticalSteps, VerticalCubic]
    case VerticalCubic => [VerticalSteps, VerticalParabol]
  }

  predicate ExactlyOne(a: bool, b: bool) {
    a != b
  }

  predicate ExactlyOne3(a: bool, b: bool, c: bool) {
    (a && !b && !c) || (!a && b && !c) || (!a && !b && c)
  }

  /** Each of the five groups has exactly one member in `s`. */
  predicate OnePerGroup(s: set<Button>) {
    ExactlyOne(QRCode in s, Groceries in s)
    && ExactlyOne3(Item1 in s, Item2 in s, Item3 in s)
    && ExactlyOne(Sonification in s, Bracelet in s)
    && ExactlyOne(LeftHand in s, RightHand in s)
    && ExactlyOne3(VerticalSteps in s, VerticalParabol in s, VerticalCubic in s)
  }

  function Include(s: set<Button>, b: Button, on: bool): (r: set<Button>)
    ensures b in r <==> on
    ensures forall c :: c != b ==> (c in r <==> c in s)
  {
    if on then s + {b} else s - {b}
  }

  /**
   * The selection after tapping `b`: `b` is chosen and the rest of its group
   * is not; the other groups keep their choice.
   */
  function Choose(s: set<Button>, b: Button): (r: set<Button>)
    ensures b in r
    ensures forall c :: c != b && GroupOf(c) == GroupOf(b) ==> c !in r
    ensures forall c :: GroupOf(c) != GroupOf(b) ==> (c in r <==> c in s)
  {
    match b
    case QRCode | Groceries => s - {QRCode, Groceries} + {b}
    case Item1 | Item2 | Item3 => s - {Item1, Item2, Item3} + {b}
    case Sonification | Bracelet => s - {Sonification, Bracelet} + {b}
    case LeftHand | RightHand => s - {LeftHand, RightHand} + {b}
    case VerticalSteps | VerticalParabol | VerticalCubic => s - {VerticalSteps, VerticalParabol, VerticalCubic} + {b}
  }

  /** A tap keeps exactly one choice per group. */
  lemma ChooseKeepsOnePerGroup(s: set<Button>, b: Button)
    requires OnePerGroup(s)
    ensures OnePerGroup(Choose(s, b))
  {
  }

  function Colour(s: set<Button>, b: Button): (r: Border)
    ensures r == Green <==> b in s
  {
    if b in s then Green else Red
  }

  /**
   * With flags and borders both equal to a selection with one choice per
   * group, applying what `changeSelection` returns to the flags, and the
   * colours it leaves to the borders, both give `Choose`.
   */
  lemma ChangeSelectionChooses(s: set<Button>, b: Button)
    requires OnePerGroup(s) && |Partners(b)| == 1
    ensures var o := Partners(b)[0];
      var r := ChangeSelection(Colour(s, b), Colour(s, o));
      Include(Include(s, b, r.0), o, r.1) == Choose(s, b)
      && Include(Include(s, b, r.2 == Green), o, r.3 == Green) == Choose(s, b)
  {
    var o := Partners(b)[0];
    var r := ChangeSelection(Colour(s, b), Colour(s, o));
    assert b in s ==> o !in s by {
      match b
      case QRCode =>
      case Groceries =>
      case Sonification =>
      case Bracelet =>
      case LeftHand =>
      case RightHand =>
    }
    assert forall c :: GroupOf(c) == GroupOf(b) ==> c == b || c == o by {
      assert forall c :: c in Partners(b) <==> c == o;
    }
    PairChooses(s, b, o);
  }

  /** Choosing in a two-button group sets the pressed button and clears the other. */
  lemma PairChooses(s: set<Button>, b: Button, o: Button)
    requires o != b && GroupOf(o) == GroupOf(b)
    requires forall c :: GroupOf(c) == GroupOf(b) ==> c == b || c == o
    ensures Include(Include(s, b, true), o, false) == Choose(s, b)
  {
  }

  /** The same for the three-button groups and `changeSelection3`. */
  lemma ChangeSelection3Chooses(s: set<Button>, b: Button)
    requires OnePerGroup(s) && |Partners(b)| == 2
    ensures var p := Partners(b);
      var r := ChangeSelection3(Colour(s, b), Colour(s, p[0]), Colour(s, p[1]));
      Include(Include(Include(s, b, r.0), p[0], r.1), p[1], r.2) == Choose(s, b)
      && Include(Include(Include(s, b, r.3 == Green), p[0], r.4 == Green), p[1], r.5 == Green) == Choose(s, b)
  {
    var p := Partners(b);
    var r := ChangeSelection3(Colour(s, b), Colour(s, p[0]), Colour(s, p[1]));
    assert b in s ==> p[0] !in s && p[1] !in s by {
      match b
      case Item1 =>
      case Item2 =>
      case Item3 =>
      case VerticalSteps =>
      case VerticalParabol =>
      case VerticalCubic =>
    }
    assert forall c :: GroupOf(c) == GroupOf(b) ==> c == b || c == p[0] || c == p[1] by {
      assert forall c :: c in Partners(b) <==> c == p[0] || c == p[1];
    }
    TripleChooses(s, b, p[0], p[1]);
  }

  /** Choosing in a three-button group sets the pressed button and clears the other two. */
  lemma TripleChooses(s: set<Button>, b: Button, o1: Button, o2: Button)
    requires o1 != b && o2 != b && GroupOf(o1) == GroupOf(b) && GroupOf(o2) == GroupOf(b)
    requires forall c :: GroupOf(c) == GroupOf(b) ==> c == b || c == o1 || c == o2
    ensures Include(Include(Include(s, b, true), o1, false), o2, false) == Choose(s, b)
  {
  }

  /** The settings the guidance screen receives; unset strings stay empty. */
  datatype Configuration = Configuration(
    modelUsed: string,
    objectToDetect: string,
    verticalType: string,
    holdingHand: string,
    oralFeedbackEnabled: bool,
    feedbackUsed: string,
    verticalSlope: real,
    depthSlope: real)

  /** The guidance screen's own initial values. */
  const DefaultConfiguration: Configuration := Configuration("", "", "", "", false, "", 1.0, 1.0)

  /**
   * `prepare(for:)`: the detector and item are set only for a valid
   * combination, each of vertical curve, hand and feedback mode only when
   * exactly one of its flags is set; every other field of `dest` is left as
   * it was. The switch and the two sliders are always copied.
   */
  function PrepareConfig(enabled: set<Button>, oralFeedback: bool, verticalSlider: real, depthSlider: real,
                         dest: Configuration): (r: Configuration)
    ensures QRCode in enabled && Groceries !in enabled ==> r.modelUsed == "QRCode" && r.objectToDetect == "QR_CODE"
    ensures QRCode !in enabled && Groceries in enabled ==> r.modelUsed == "Groceries"
    ensures !ExactlyOne(QRCode in enabled, Groceries in enabled) ==>
      r.modelUsed == dest.modelUsed && r.objectToDetect == dest.objectToDetect
    ensures QRCode !in enabled && Groceries in enabled ==>
      (Item1 in enabled && Item2 !in enabled && Item3 !in enabled ==> r.objectToDetect == "bottle")
      && (Item1 !in enabled && Item2 in enabled && Item3 !in enabled ==> r.objectToDetect == "banana")
      && (Item1 !in enabled && Item2 !in enabled && Item3 in enabled ==> r.objectToDetect == "orange")
      && (!ExactlyOne3(Item1 in enabled, Item2 in enabled, Item3 in enabled) ==> r.objectToDetect == dest.objectToDetect)
    ensures ExactlyOne3(VerticalSteps in enabled, VerticalParabol in enabled, VerticalCubic in enabled) ==>
      (r.verticalType == "Steps" <==> VerticalSteps in enabled)
      && (r.verticalType == "Parabol" <==> VerticalParabol in enabled)
      && (r.verticalType == "Cubic" <==> VerticalCubic in enabled)
    ensures !ExactlyOne3(VerticalSteps in enabled, VerticalParabol in enabled, VerticalCubic in enabled) ==>
      r.verticalType == dest.verticalType
    ensures ExactlyOne(LeftHand in enabled, RightHand in enabled) ==>
      r.holdingHand == (if LeftHand in enabled then "Left" else "Right")
    ensures !ExactlyOne(LeftHand in enabled, RightHand in enabled) ==> r.holdingHand == dest.holdingHand
    ensures ExactlyOne(Sonification in enabled, Bracelet in enabled) ==>
      r.feedbackUsed == (if Sonification in enabled then "Sonification" else "Bracelet")
    ensures !ExactlyOne(Sonification in enabled, Bracelet in enabled) ==> r.feedbackUsed == dest.feedbackUsed
    ensures r.oralFeedbackEnabled == oralFeedback
    ensures r.verticalSlope == verticalSlider && r.depthSlope == depthSlider
  {
    var (model, target) := ChooseDetector(enabled, dest.modelUsed, dest.objectToDetect);
    var vertical := ChooseVertical(enabled, dest.verticalType);
    var hand := ChooseHand(enabled, dest.holdingHand);
    var feedback := ChooseFeedback(enabled, dest.feedbackUsed);
    Configuration(model, target, vertical, hand, oralFeedback, feedback, verticalSlider, depthSlider)
  }

  /** The detector and the item to find, kept as they were unless the two flags of a group disagree. */
  function ChooseDetector(enabled: set<Button>, model: string, target: string): (r: (string, string))
    ensures QRCode in enabled && Groceries !in enabled ==> r == ("QRCode", "QR_CODE")
    ensures QRCode !in enabled && Groceries in enabled ==> r.0 == "Groceries"
    ensures !ExactlyOne(QRCode in enabled, Groceries in enabled) ==> r == (model, target)
    ensures QRCode !in enabled && Groceries in enabled ==>
      (Item1 in enabled && Item2 !in enabled && Item3 !in enabled ==> r.1 == "bottle")
      && (Item1 !in enabled && Item2 in enabled && Item3 !in enabled ==> r.1 == "banana")
      && (Item1 !in enabled && Item2 !in enabled && Item3 in enabled ==> r.1 == "orange")
      && (!ExactlyOne3(Item1 in enabled, Item2 in enabled, Item3 in enabled) ==> r.1 == target)
  {
    if QRCode in enabled && Groceries !in enabled then ("QRCode", "QR_CODE")
    else if QRCode !in enabled && Groceries in enabled then
      ("Groceries",
       if Item1 in enabled && Item2 !in enabled && Item3 !in enabled then "bottle"
       else if Item1 !in enabled && Item2 in enabled && Item3 !in enabled then "banana"
       else if Item1 !in enabled && Item2 !in enabled && Item3 in enabled then "orange"
       else target)
    else (model, target)
  }

  /** The vertical curve, kept unless exactly one of its three flags is set. */
  function ChooseVertical(enabled: set<Button>, current: string): (r: string)
    ensures ExactlyOne3(VerticalSteps in enabled, VerticalParabol in enabled, VerticalCubic in enabled) ==>
      (r == "Steps" <==> VerticalSteps in enabled)
      && (r == "Parabol" <==> VerticalParabol in enabled)
      && (r == "Cubic" <==> VerticalCubic in enabled)
    ensures !ExactlyOne3(VerticalSteps in enabled, VerticalParabol in enabled, VerticalCubic in enabled) ==> r == current
  {
    if VerticalSteps in enabled && VerticalParabol !in enabled && VerticalCubic !in enabled then "Steps"
    else if VerticalSteps !in enabled && VerticalParabol in enabled && VerticalCubic !in enabled then "Parabol"
    else if VerticalSteps !in enabled && VerticalParabol !in enabled && VerticalCubic in enabled then "Cubic"
    else current
  }

  /** The holding hand, kept unless exactly one of its flags is set. */
  function ChooseHand(enabled: set<Button>, current: string): (r: string)
    ensures ExactlyOne(LeftHand in enabled, RightHand in enabled) ==> r == (if LeftHand in enabled then "Left" else "Right")
    ensures !ExactlyOne(LeftHand in enabled, RightHand in enabled) ==> r == current
  {
    if LeftHand in enabled && RightHand !in enabled then "Left"
    else if LeftHand !in enabled && RightHand in enabled then "Right"
    else current
  }

  /** The feedback mode, kept unless exactly one of its flags is set. */
  function ChooseFeedback(enabled: set<Button>, current: string): (r: string)
    ensures ExactlyOne(Sonification in enabled, Bracelet in enabled) ==>
      r == (if Sonification in enabled then "Sonification" else "Bracelet")
    ensures !ExactlyOne(Sonification in enabled, Bracelet in enabled) ==> r == current
  {
    if Sonification in enabled && Bracelet !in enabled then "Sonification"
    else if Sonification !in enabled && Bracelet in enabled then "Bracelet"
    else current
  }

  /** The detector names the configuration can carry once every group has a choice. */
  const DetectableObjects: set<string> := {"QR_CODE", "bottle", "banana", "orange"}

  /** From a selection with one choice per group, every string field is set, whatever `dest` held. */
  lemma PrepareConfigComplete(enabled: set<Button>, oral: bool, v: real, d: real, dest: Configuration)
    requires OnePerGroup(enabled)
    ensures var r := PrepareConfig(enabled, oral, v, d, dest);
      r.modelUsed in {"QRCode", "Groceries"} && r.objectToDetect in DetectableObjects
      && r.verticalType in {"Steps", "Parabol", "Cubic"} && r.holdingHand in {"Left", "Right"}
      && r.feedbackUsed in {"Sonification", "Bracelet"}
      && (r.modelUsed == "QRCode" <==> r.objectToDetect == "QR_CODE")
  {
  }

  /** The screen's initial selection. */
  const InitialSelection: set<Button> := {Groceries, Item1, Sonification, LeftHand, VerticalSteps}

  /** Validating without touching anything configures bottle guidance with sonification. */
  lemma InitialConfiguration(oral: bool)
    ensures PrepareConfig(InitialSelection, oral, 1.0, 1.0, DefaultConfiguration)
      == Configuration("Groceries", "bottle", "Steps", "Left", oral, "Sonification", 1.0, 1.0)
  {
  }

  datatype TextField = VerticalFunction | DepthFunction

  const VerticalMinimum: real := 0.0
  const VerticalMaximum: real := 2.0
  const DepthMinimum: real := 0.0
  const DepthMaximum: real := 5.0

  class FeatureSelectionController {
    /** The buttons whose flag is set. */
    var enabled: set<Button>
    /** The buttons with a green border. */
    var green: set<Button>
    var verticalSlider: real
    var depthSlider: real
    var oralFeedback: bool

    /** Flags and borders agree, each group has one choice, and both sliders are within range. */
    ghost predicate Valid()
      reads this
    {
      OnePerGroup(enabled) && green == enabled
      && VerticalMinimum <= verticalSlider <= VerticalMaximum
      && DepthMinimum <= depthSlider <= DepthMaximum
    }

    /** The declared flags, `setupUI`'s borders and slider values, and the switch's stored state. */
    constructor(oralFeedback: bool)
      ensures enabled == InitialSelection && green == InitialSelection
      ensures verticalSlider == 1.0 && depthSlider == 1.0 && this.oralFeedback == oralFeedback
      ensures Valid()
    {
      enabled := InitialSelection;
      green := InitialSelection;
      verticalSlider := 1.0;
      depthSlider := 1.0;
      this.oralFeedback := oralFeedback;
    }

    /**
     * A button's tap handler: the flags of its group are replaced by what
     * `changeSelection` (or `changeSelection3`) returns, and the borders
     * by the colours it leaves.
     */
    method Tap(b: Button)
      requires Valid()
      modifies this`enabled, this`green
      ensures Valid()
      ensures enabled == Choose(old(enabled), b)
    {
      var p := Partners(b);
      ghost var chosen := Choose(enabled, b);
      ChooseKeepsOnePerGroup(enabled, b);
      var flags, borders;
      if |p| == 1 {
        var r := ChangeSelection(Colour(green, b), Colour(green, p[0]));
        ChangeSelectionChooses(enabled, b);
        flags := Include(Include(enabled, b, r.0), p[0], r.1);
        borders := Include(Include(green, b, r.2 == Green), p[0], r.3 == Green);
      } else {
        var r := ChangeSelection3(Colour(green, b), Colour(green, p[0]), Colour(green, p[1]));
        ChangeSelection3Chooses(enabled, b);
        flags := Include(Include(Include(enabled, b, r.0), p[0], r.1), p[1], r.2);
        borders := Include(Include(Include(green, b, r.3 == Green), p[0], r.4 == Green), p[1], r.5 == Green);
      }
      assert flags == chosen && borders == chosen;
      enabled, green := flags, borders;
    }

    /** The configuration handed to the guidance screen when the selection is validated. */
    function Prepare(dest: Configuration): (r: Configuration)
      reads this
      requires Valid()
      ensures r.modelUsed != "" && r.objectToDetect in DetectableObjects
      ensures r.verticalType != "" && r.holdingHand != "" && r.feedbackUsed != ""
      ensures r.verticalSlope == verticalSlider && r.depthSlope == depthSlider
    {
      PrepareConfigComplete(enabled, oralFeedback, verticalSlider, depthSlider, dest);
      PrepareConfig(enabled, oralFeedback, verticalSlider, depthSlider, dest)
    }

    /**
     * `textFieldDidEndEditing`: text that reads as a number moves the
     * field's slider to that number clamped into the slider's range; other
     * text changes nothing.
     */
    method TextFieldDidEndEditing(field: TextField, text: string)
      requires Valid()
      modifies this`verticalSlider, this`depthSlider
      ensures Valid()
      ensures ParseDecimal(text).None? ==> verticalSlider == old(verticalSlider) && depthSlider == old(depthSlider)
      ensures ParseDecimal(text).Some? && field == VerticalFunction ==>
        verticalSlider == Clamp(ParseDecimal(text).value, VerticalMinimum, VerticalMaximum) && depthSlider == old(depthSlider)
      ensures ParseDecimal(text).Some? && field == DepthFunction ==>
        depthSlider == Clamp(ParseDecimal(text).value, DepthMinimum, DepthMaximum) && verticalSlider == old(verticalSlider)
    {
      match ParseDecimal(text)
      case None =>
      case Some(value) =>
        if field == VerticalFunction {
          verticalSlider := Clamp(value, VerticalMinimum, VerticalMaximum);
        } else {
          depthSlider := Clamp(value, DepthMinimum, DepthMaximum);
        }
    }
  }

  /** Entering a whole number within range sets the slider to exactly that number. */
  lemma EditedWholeNumberInRange(n: nat)
    requires n <= 2
    ensures ParseDecimal(NatToDigits(n)).Some?
    ensures Clamp(ParseDecimal(NatToDigits(n)).value, VerticalMinimum, VerticalMaximum) == n as real
  {
    ParseDecimalOfInteger(n);
  }
}
