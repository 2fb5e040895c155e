/**
 * NPCController: the customer's wanted attributes, how they are drawn at
 * random, how a painting submission is judged against them, and how a
 * colour is given a name for display.
 *
 * Randomness is not modelled: the numbers `Random.Range` and `Random.value`
 * would return are passed in as a `Draw`. `Vector4.Distance` works with a
 * square root; here the same test is stated on the squared distance.
 */
module Npc {
  import opened Engine

  /** NPCAttributes: what the current customer wants to see painted. */
  datatype Attributes = Attributes(emotion: string, hairColor: Color, eyeColor: Color, accessory: string)

  /**
   * PaintingSubmission (declared beside PlayerController): the same four
   * fields, filled in by the player's side.
   */
  datatype Submission = Submission(emotion: string, hairColor: Color, eyeColor: Color, accessory: string)

  const PossibleEmotions: seq<string> := ["Happy", "Sad", "Angry", "Surprised", "Neutral"]
  const PossibleAccessories: seq<string> := ["None", "Glasses", "Hat", "Earrings", "Scarf"]

  /** The distance below which two colours count as the same. */
  const MatchThreshold: real := 0.2

  // ---------------------------------------------------------------------
  // Random generation
  // ---------------------------------------------------------------------

  /**
   * The random numbers one call of GenerateRandomAttributes draws, in the
   * order it draws them: an emotion index, three hair channels, three eye
   * channels and an accessory index.
   */
  datatype Draw = Draw(
    emotionIndex: int,
    hairR: real, hairG: real, hairB: real,
    eyeR: real, eyeG: real, eyeB: real,
    accessoryIndex: int)

  predicate UnitInterval(x: real) {
    0.0 <= x <= 1.0
  }

  /**
   * What Unity's random source guarantees: `Random.Range(0, n)` on ints is
   * in [0, n) and `Random.value` is in [0, 1].
   */
  predicate ValidDraw(d: Draw) {
    && 0 <= d.emotionIndex < |PossibleEmotions|
    && 0 <= d.accessoryIndex < |PossibleAccessories|
    && UnitInterval(d.hairR) && UnitInterval(d.hairG) && UnitInterval(d.hairB)
    && UnitInterval(d.eyeR) && UnitInterval(d.eyeG) && UnitInterval(d.eyeB)
  }

  predicate OpaqueUnitColor(c: Color) {
    UnitInterval(c.r) && UnitInterval(c.g) && UnitInterval(c.b) && c.a == 1.0
  }

  /** The attributes GenerateRandomAttributes builds from one draw. */
  function Generate(d: Draw): (a: Attributes)
    requires ValidDraw(d)
    ensures a.emotion in PossibleEmotions && a.accessory in PossibleAccessories
    ensures OpaqueUnitColor(a.hairColor) && OpaqueUnitColor(a.eyeColor)
    ensures a.emotion == "Happy" <==> d.emotionIndex == 0
    ensures a.accessory == "None" <==> d.accessoryIndex == 0
  {
    Attributes(
      PossibleEmotions[d.emotionIndex],
      Rgb(d.hairR, d.hairG, d.hairB),
      Rgb(d.eyeR, d.eyeG, d.eyeB),
      PossibleAccessories[d.accessoryIndex])
  }

  /** The NPC object, whose attributes are replaced on every new customer. */
  class NPCController {
    /** None until the first customer has been generated. */
    var currentAttributes: Option<Attributes>

    constructor ()
      ensures currentAttributes == None
    {
      currentAttributes := None;
    }

    method GenerateRandomAttributes(d: Draw)
      requires ValidDraw(d)
      modifies this
      ensures currentAttributes == Some(Generate(d))
      ensures currentAttributes.value.emotion in PossibleEmotions
      ensures currentAttributes.value.accessory in PossibleAccessories
    {
      currentAttributes := Some(Generate(d));
    }
  }

  // ---------------------------------------------------------------------
  // Judging a submission
  // ---------------------------------------------------------------------

  function AbsReal(x: real): (m: real) {
    if x < 0.0 then -x else x
  }

  function Sq(x: real): (s: real) {
    x * x
  }

  lemma SqNonnegative(x: real)
    ensures Sq(x) >= 0.0
  {
  }

  lemma SqPositive(t: real)
    requires t > 0.0
    ensures Sq(t) > 0.0
  {
    calc {
      Sq(t);
    ==
      t * t;
    >
      0.0;
    }
  }

  lemma SqFlip(x: real, y: real)
    ensures Sq(x - y) == Sq(y - x)
  {
  }

  lemma SqMonotone(y: real, t: real)
    requires y >= t > 0.0
    ensures Sq(y) >= Sq(t)
  {
    calc {
      Sq(y);
    ==
      y * y;
    >=
      t * y;
    >=
      t * t;
    ==
      Sq(t);
    }
  }

  /** A square below Sq(t), for t > 0, means a value below t in size. */
  lemma SquareBelow(x: real, t: real)
    requires t > 0.0 && Sq(x) < Sq(t)
    ensures AbsReal(x) < t
  {
    assert Sq(x) == Sq(AbsReal(x));
    if AbsReal(x) >= t {
      SqMonotone(AbsReal(x), t);
    }
  }

  /** The square of the Euclidean distance of two colours in RGBA space. */
  function SquaredDistance(a: Color, b: Color): (d: real)
    ensures d >= 0.0
    ensures a == b ==> d == 0.0
  {
    SqNonnegative(a.r - b.r);
    SqNonnegative(a.g - b.g);
    SqNonnegative(a.b - b.b);
    SqNonnegative(a.a - b.a);
    Sq(a.r - b.r) + Sq(a.g - b.g) + Sq(a.b - b.b) + Sq(a.a - b.a)
  }

  /** Each channel's difference is bounded by the whole distance. */
  lemma ChannelsWithin(a: Color, b: Color, t: real)
    requires t > 0.0 && SquaredDistance(a, b) < Sq(t)
    ensures && AbsReal(a.r - b.r) < t && AbsReal(a.g - b.g) < t
            && AbsReal(a.b - b.b) < t && AbsReal(a.a - b.a) < t
  {
    SqNonnegative(a.r - b.r);
    SqNonnegative(a.g - b.g);
    SqNonnegative(a.b - b.b);
    SqNonnegative(a.a - b.a);
    SquareBelow(a.r - b.r, t);
    SquareBelow(a.g - b.g, t);
    SquareBelow(a.b - b.b, t);
    SquareBelow(a.a - b.a, t);
  }

  /**
   * ColorsAreClose: the Euclidean distance of the two colours is below the
   * threshold. As the distance is a non-negative square root, that is: the
   * threshold is positive and the squared distance is below its square.
   */
  function ColorsAreClose(a: Color, b: Color, threshold: real): (close: bool)
    ensures close ==> threshold > 0.0
    ensures a == b ==> (close <==> threshold > 0.0)
    ensures close ==>
              && AbsReal(a.r - b.r) < threshold && AbsReal(a.g - b.g) < threshold
              && AbsReal(a.b - b.b) < threshold && AbsReal(a.a - b.a) < threshold
  {
    if threshold > 0.0 && SquaredDistance(a, b) < Sq(threshold) then
      ChannelsWithin(a, b, threshold);
      true
    else
      if threshold > 0.0 then SqPositive(threshold); false else false
  }

  /** Closeness does not depend on which colour comes first. */
  lemma ColorsAreCloseSymmetric(a: Color, b: Color, threshold: real)
    ensures ColorsAreClose(a, b, threshold) <==> ColorsAreClose(b, a, threshold)
  {
    SqFlip(a.r, b.r);
    SqFlip(a.g, b.g);
    SqFlip(a.b, b.b);
    SqFlip(a.a, b.a);
    assert SquaredDistance(a, b) == SquaredDistance(b, a);
  }

  /**
   * CompareWithSubmission: a match needs the same emotion, the same
   * accessory, and hair and eye colours each within 0.2 of the wanted ones.
   */
  function CompareWithSubmission(current: Attributes, submission: Submission): (isMatch: bool)
    ensures isMatch <==>
              && submission.emotion == current.emotion
              && submission.accessory == current.accessory
              && SquaredDistance(submission.hairColor, current.hairColor) < 0.04
              && SquaredDistance(submission.eyeColor, current.eyeColor) < 0.04
  {
    var emotionMatch := submission.emotion == current.emotion;
    var hairMatch := ColorsAreClose(submission.hairColor, current.hairColor, MatchThreshold);
    var eyeMatch := ColorsAreClose(submission.eyeColor, current.eyeColor, MatchThreshold);
    var accessoryMatch := submission.accessory == current.accessory;
    emotionMatch && hairMatch && eyeMatch && accessoryMatch
  }

  /** The submission that repeats the wanted attributes field for field. */
  function AsSubmission(a: Attributes): (s: Submission) {
    Submission(a.emotion, a.hairColor, a.eyeColor, a.accessory)
  }

  /** Painting exactly what was asked for is always a match. */
  lemma IdenticalSubmissionMatches(current: Attributes)
    ensures CompareWithSubmission(current, AsSubmission(current))
  {
  }

  /** A wrong emotion or a wrong accessory is a mismatch whatever the colours. */
  lemma DiscreteMismatch(current: Attributes, submission: Submission)
    requires submission.emotion != current.emotion || submission.accessory != current.accessory
    ensures !CompareWithSubmission(current, submission)
  {
  }

  /** A match keeps every colour channel of hair and eyes within 0.2. */
  lemma MatchBoundsChannels(current: Attributes, submission: Submission)
    requires CompareWithSubmission(current, submission)
    ensures AbsReal(submission.hairColor.r - current.hairColor.r) < MatchThreshold
    ensures AbsReal(submission.hairColor.g - current.hairColor.g) < MatchThreshold
    ensures AbsReal(submission.hairColor.b - current.hairColor.b) < MatchThreshold
    ensures AbsReal(submission.eyeColor.r - current.eyeColor.r) < MatchThreshold
    ensures AbsReal(submission.eyeColor.g - current.eyeColor.g) < MatchThreshold
    ensures AbsReal(submission.eyeColor.b - current.eyeColor.b) < MatchThreshold
  {
    assert ColorsAreClose(submission.hairColor, current.hairColor, MatchThreshold);
    assert ColorsAreClose(submission.eyeColor, current.eyeColor, MatchThreshold);
  }

  // ---------------------------------------------------------------------
  // Naming a colour
  // ---------------------------------------------------------------------

  /** A channel requirement: above 0.8 or below 0.2. */
  datatype Level = High | Low

  predicate Meets(level: Level, x: real) {
    match level
    case High => x > 0.8
    case Low => x < 0.2
  }

  /** A colour name and the level each of r, g, b must have to earn it. */
  datatype NamedRegion = NamedRegion(name: string, r: Level, g: Level, b: Level)

  predicate InRegion(region: NamedRegion, c: Color) {
    Meets(region.r, c.r) && Meets(region.g, c.g) && Meets(region.b, c.b)
  }

  /** The names ColorToName knows, in the order it tries them. */
  const ColorRegions: seq<NamedRegion> := [
    NamedRegion("Red", High, Low, Low),
    NamedRegion("Green", Low, High, Low),
    NamedRegion("Blue", Low, Low, High),
    NamedRegion("Yellow", High, High, Low),
    NamedRegion("Purple", High, Low, High),
    NamedRegion("Cyan", Low, High, High),
    NamedRegion("White", High, High, High),
    NamedRegion("Black", Low, Low, Low)
  ]

  const CustomColorName: string := "Custom Color"

  /** The nine answers ColorToName can give: the region names, then the fallback. */
  const ColorNames: seq<string> :=
    ["Red", "Green", "Blue", "Yellow", "Purple", "Cyan", "White", "Black", CustomColorName]

  /**
   * Reference decision list: the first region of `regions`, from index
   * `from` on, that contains `c`.
   */
  function FirstRegion(regions: seq<NamedRegion>, c: Color, from: nat): (k: Option<nat>)
    requires from <= |regions|
    ensures k.Some? ==> from <= k.value < |regions| && InRegion(regions[k.value], c)
    ensures k.Some? ==> forall j :: from <= j < k.value ==> !InRegion(regions[j], c)
    ensures k.None? ==> forall j :: from <= j < |regions| ==> !InRegion(regions[j], c)
    decreases |regions| - from
  {
    if from == |regions| then None
    else if InRegion(regions[from], c) then Some(from)
    else FirstRegion(regions, c, from + 1)
  }

  /** ColorToName: the display name of a colour, by first match. */
  function ColorToName(color: Color): (name: string)
    ensures name in ColorNames
  {
    if color.r > 0.8 && color.g < 0.2 && color.b < 0.2 then "Red"
    else if color.g > 0.8 && color.r < 0.2 && color.b < 0.2 then "Green"
    else if color.b > 0.8 && color.r < 0.2 && color.g < 0.2 then "Blue"
    else if color.r > 0.8 && color.g > 0.8 && color.b < 0.2 then "Yellow"
    else if color.r > 0.8 && color.b > 0.8 && color.g < 0.2 then "Purple"
    else if color.g > 0.8 && color.b > 0.8 && color.r < 0.2 then "Cyan"
    else if color.r > 0.8 && color.g > 0.8 && color.b > 0.8 then "White"
    else if color.r < 0.2 && color.g < 0.2 && color.b < 0.2 then "Black"
    else CustomColorName
  }

  /** The name ColorToName gives is the one of the first region containing the colour. */
  lemma {:induction false} ColorToNameIsFirstMatch(c: Color)
    ensures ColorToName(c) == match FirstRegion(ColorRegions, c, 0)
                              case Some(k) => ColorRegions[k].name
                              case None => CustomColorName
  {
    var k := FirstRegion(ColorRegions, c, 0);
    if k.Some? {
      var i := k.value;
      assert InRegion(ColorRegions[i], c);
      assert forall j :: 0 <= j < i ==> !InRegion(ColorRegions[j], c);
      assert i == 0 || i == 1 || i == 2 || i == 3 || i == 4 || i == 5 || i == 6 || i == 7;
    } else {
      assert forall j :: 0 <= j < 8 ==> !InRegion(ColorRegions[j], c);
      assert !InRegion(ColorRegions[0], c) && !InRegion(ColorRegions[1], c);
      assert !InRegion(ColorRegions[2], c) && !InRegion(ColorRegions[3], c);
      assert !InRegion(ColorRegions[4], c) && !InRegion(ColorRegions[5], c);
      assert !InRegion(ColorRegions[6], c) && !InRegion(ColorRegions[7], c);
    }
  }

  /**
   * No colour lies in two of the regions, so the order of the decision
   * list decides nothing.
   */
  lemma RegionsDisjoint(c: Color, i: nat, j: nat)
    requires i < |ColorRegions| && j < |ColorRegions|
    requires InRegion(ColorRegions[i], c) && InRegion(ColorRegions[j], c)
    ensures i == j
  {
    var ri, rj := ColorRegions[i], ColorRegions[j];
    assert ri.r == rj.r && ri.g == rj.g && ri.b == rj.b;
  }

  lemma ColorToNameExamples()
    ensures ColorToName(Rgb(0.0, 0.0, 0.0)) == "Black"
    ensures ColorToName(Rgb(1.0, 1.0, 1.0)) == "White"
    ensures ColorToName(Rgb(1.0, 0.0, 0.0)) == "Red"
    ensures ColorToName(Yellow) == "Yellow"
    ensures ColorToName(Rgb(0.5, 0.5, 0.5)) == CustomColorName
  {
  }
}
