/** The index arithmetic of the LED test pattern: which colour each LED key
    is painted, which number is written on it, and which edge of the screen
    it belongs to. The drawing itself is not modelled. */
module TestPattern {
  import opened JavaLang
  import opened Config

  datatype Fill = Red | Green | Blue

  /** The five strips, in the order the keys run through them. */
  datatype Segment = BottomRight | Right | Top | Left | BottomLeft

  function Rank(s: Segment): nat
  {
    match s
    case BottomRight => 0
    case Right => 1
    case Top => 2
    case Left => 3
    case BottomLeft => 4
  }

  /** The per-edge LED counts of a configuration. */
  datatype Edges = Edges(bottomRight: int, right: int, top: int, left: int, bottomLeft: int)

  function EdgesOf(c: Configuration): Edges
  {
    Edges(c.bottomRightLed, c.rightLed, c.topLed, c.leftLed, c.bottomLeftLed)
  }

  predicate NonNegative(e: Edges)
  {
    e.bottomRight >= 0 && e.right >= 0 && e.top >= 0 && e.left >= 0 && e.bottomLeft >= 0
  }

  function Total(e: Edges): int
  {
    e.bottomRight + e.right + e.top + e.left + e.bottomLeft
  }

  // ----------------------------------------------------------------- colour

  /** `colorToUse`: starts at the key and, for keys above 3, subtracts 3
      until it is at most 3. */
  method ColorToUse(key: int) returns (colorToUse: int)
    ensures key >= 1 ==> 1 <= colorToUse <= 3 && colorToUse == (key - 1) % 3 + 1
    ensures key < 1 ==> colorToUse == key
  {
    colorToUse := key;
    if key > 3 {
      while colorToUse > 3
        invariant 1 <= colorToUse <= key
        invariant (key - colorToUse) % 3 == 0
      {
        colorToUse := colorToUse - 3;
      }
    }
  }

  /** The colour index `ColorToUse` computes, in closed form. */
  function ColorIndex(key: int): int
  {
    if key >= 1 then (key - 1) % 3 + 1 else key
  }

  /** The `switch (colorToUse)`: 1 is red, 2 green, and the `default` arm
      paints every other value blue. */
  function FillFor(colorToUse: int): (fill: Fill)
    ensures fill == Red <==> colorToUse == 1
    ensures fill == Green <==> colorToUse == 2
    ensures fill == Blue <==> colorToUse != 1 && colorToUse != 2
  {
    if colorToUse == 1 then Red else if colorToUse == 2 then Green else Blue
  }

  /** Keys 1, 2, 3 are red, green, blue; the pattern repeats every three
      keys, so neighbouring LEDs never share a colour. */
  lemma FillCycles(key: int)
    requires key >= 1
    ensures FillFor(ColorIndex(key + 3)) == FillFor(ColorIndex(key))
    ensures FillFor(ColorIndex(key + 1)) != FillFor(ColorIndex(key))
    ensures FillFor(ColorIndex(key)) == Red <==> key % 3 == 1
    ensures FillFor(ColorIndex(key)) == Green <==> key % 3 == 2
    ensures FillFor(ColorIndex(key)) == Blue <==> key % 3 == 0
  {
  }

  // ------------------------------------------------------------------ label

  /** The number written on an LED: counted backwards from the total in
      clockwise mode, the key itself otherwise. */
  function LabelNumber(clockwise: bool, e: Edges, key: int): (n: int)
    ensures clockwise && 1 <= key <= Total(e) ==> 1 <= n <= Total(e)
    ensures clockwise ==> n + key == Total(e) + 1
    ensures !clockwise ==> n == key
  {
    if clockwise then Total(e) - (key - 1) else key
  }

  /** `"#" + number`. */
  function LedLabel(clockwise: bool, e: Edges, key: int): (ledNum: string)
    ensures |ledNum| >= 2 && ledNum[0] == '#'
  {
    "#" + StringOf(LabelNumber(clockwise, e, key))
  }

  /** The number can be read back from the label. */
  lemma LedLabelReadsBack(clockwise: bool, e: Edges, key: int)
    requires InInt32(LabelNumber(clockwise, e, key))
    ensures ParseInt(LedLabel(clockwise, e, key)[1..]) == Some(LabelNumber(clockwise, e, key))
  {
    assert LedLabel(clockwise, e, key)[1..] == StringOf(LabelNumber(clockwise, e, key));
    ParseIntOfStringOf(LabelNumber(clockwise, e, key));
  }

  /** Clockwise numbering maps keys 1..total onto 1..total and undoes itself. */
  lemma ClockwiseLabelInRange(e: Edges, key: int)
    requires 1 <= key <= Total(e)
    ensures 1 <= LabelNumber(true, e, key) <= Total(e)
    ensures LabelNumber(true, e, LabelNumber(true, e, key)) == key
  {
  }

  /** The keys 1..n in order. */
  function Keys(n: nat): seq<int>
  {
    seq(n, i => i + 1)
  }

  /** The labels shown on keys 1..total in clockwise mode. */
  function ClockwiseLabels(e: Edges): seq<int>
    requires Total(e) >= 0
  {
    seq(Total(e), i => LabelNumber(true, e, i + 1))
  }

  /** Clockwise labels are the keys reversed, hence a permutation of them. */
  lemma ClockwiseLabelsReverseKeys(e: Edges)
    requires Total(e) >= 0
    ensures forall i :: 0 <= i < Total(e) ==> ClockwiseLabels(e)[i] == Keys(Total(e))[Total(e) - 1 - i]
    ensures multiset(ClockwiseLabels(e)) == multiset(Keys(Total(e)))
  {
    var n := Total(e);
    assert ClockwiseLabels(e) == Countdown(n);
    CountdownPermutesKeys(n);
  }

  /** n, n-1, ..., 1. */
  function Countdown(n: nat): seq<int>
  {
    seq(n, i => n - i)
  }

  lemma {:induction false} CountdownPermutesKeys(n: nat)
    ensures multiset(Countdown(n)) == multiset(Keys(n))
  {
    if n > 0 {
      CountdownPermutesKeys(n - 1);
      assert Countdown(n) == [n] + Countdown(n - 1);
      assert Keys(n) == Keys(n - 1) + [n];
    }
  }

  // -------------------------------------------------------------- segments

  /** The if-chain of `drawTestShapes` that decides which edge a key is on:
      with non-negative counts, the strip whose block of keys, in the order
      bottom-right, right, top, left, bottom-left, holds `key`. */
  function SegmentOf(e: Edges, key: int): (s: Segment)
    ensures NonNegative(e) && 1 <= key <= Total(e) ==> Offset(e, s) < key <= Offset(e, s) + Count(e, s)
  {
    if key <= e.bottomRight then BottomRight
    else if key <= e.bottomRight + e.right then Right
    else if key > e.bottomRight + e.right && key <= e.bottomRight + e.right + e.top then Top
    else if key > e.bottomRight + e.right + e.top
            && key <= e.bottomRight + e.right + e.top + e.left then Left
    else BottomLeft
  }

  /** How many LEDs the configuration gives a segment. */
  function Count(e: Edges, s: Segment): int
  {
    match s
    case BottomRight => e.bottomRight
    case Right => e.right
    case Top => e.top
    case Left => e.left
    case BottomLeft => e.bottomLeft
  }

  /** The number of keys on the segments before `s`. */
  function Offset(e: Edges, s: Segment): int
    decreases Rank(s)
  {
    match s
    case BottomRight => 0
    case Right => Count(e, BottomRight)
    case Top => Offset(e, Right) + Count(e, Right)
    case Left => Offset(e, Top) + Count(e, Top)
    case BottomLeft => Offset(e, Left) + Count(e, Left)
  }

  /** Each key of 1..total lies on exactly one segment: the one whose block
      Offset < key <= Offset + Count contains it. The blocks follow one
      another without gaps and end at the total. */
  lemma SegmentOfBlocks(e: Edges, key: int, s: Segment)
    requires NonNegative(e) && 1 <= key <= Total(e)
    ensures SegmentOf(e, key) == s <==> Offset(e, s) < key <= Offset(e, s) + Count(e, s)
    ensures Offset(e, BottomLeft) + Count(e, BottomLeft) == Total(e)
  {
  }

  /** Keys run through the segments in order: a higher key never lies on an
      earlier segment. */
  lemma SegmentOfMonotone(e: Edges, k1: int, k2: int)
    requires NonNegative(e) && k1 <= k2
    ensures Rank(SegmentOf(e, k1)) <= Rank(SegmentOf(e, k2))
  {
  }

  // ------------------------------------------------------------ the pattern

  /** What the test pattern shows for one LED. */
  datatype LedPaint = LedPaint(key: int, fill: Fill, ledNum: string, segment: Segment)

  /** What the pattern shows for `key`, by the closed forms above. */
  function PaintOf(clockwise: bool, e: Edges, key: int): LedPaint
  {
    LedPaint(key, FillFor(ColorIndex(key)), LedLabel(clockwise, e, key), SegmentOf(e, key))
  }

  /** The `ledMatrix.forEach` of `drawTestShapes`, visiting the keys of the
      LED matrix in their order. Clockwise mode is on when the stored
      orientation equals `clockwiseName`, the value of `Constants.CLOCKWISE`. */
  method PlanTestPattern(conf: Configuration, clockwiseName: string, keys: seq<int>)
    returns (plan: seq<LedPaint>)
    ensures |plan| == |keys|
    ensures forall i :: 0 <= i < |keys| ==>
              plan[i] == PaintOf(conf.orientation == clockwiseName, EdgesOf(conf), keys[i])
  {
    var clockwise := conf.orientation == clockwiseName;
    var e := EdgesOf(conf);
    plan := [];
    for i := 0 to |keys|
      invariant |plan| == i
      invariant forall j :: 0 <= j < i ==> plan[j] == PaintOf(clockwise, e, keys[j])
    {
      var key := keys[i];
      var colorToUse := ColorToUse(key);
      var ledNum := LedLabel(clockwise, e, key);
      plan := plan + [LedPaint(key, FillFor(colorToUse), ledNum, SegmentOf(e, key))];
    }
  }
}
