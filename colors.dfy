/** The pure colour arithmetic of the perception game: channel clamping, the
    per-level variance, the perturbation of one channel, the palette cell built
    from a base colour, and the distance used to classify a pick. */
module Colors {
  import opened JsMath

  /** A colour as the game stores it: `{r, g, b}` with integer channels. */
  datatype Rgb = Rgb(r: int, g: int, b: int)

  predicate InRange(c: Rgb) {
    0 <= c.r <= 255 && 0 <= c.g <= 255 && 0 <= c.b <= 255
  }

  /** `clamp`: forces a channel value into [0, 255]. */
  function Clamp(value: int): (r: int)
    ensures 0 <= r <= 255
    ensures 0 <= value <= 255 ==> r == value
    ensures value < 0 ==> r == 0
    ensures value > 255 ==> r == 255
  {
    Min(255, Max(0, value))
  }

  /** Clamping towards [0, 255] never moves a value further from a point of that range. */
  lemma ClampNoFurther(value: int, anchor: int)
    requires 0 <= anchor <= 255
    ensures value <= anchor ==> value <= Clamp(value) <= anchor
    ensures value >= anchor ==> anchor <= Clamp(value) <= value
  {
  }

  /** The per-level variance bound `max(5, 50 - level * 2)`. */
  function Variance(level: int): (v: int)
    ensures v >= 5 && v >= 50 - 2 * level
    ensures v == 5 || v == 50 - 2 * level
  {
    Max(5, 50 - level * 2)
  }

  /** A higher level never widens the variance. */
  lemma VarianceNonIncreasing(lo: int, hi: int)
    requires lo <= hi
    ensures Variance(hi) <= Variance(lo)
  {
  }

  /** From level 23 on the variance sits on its floor of 5; from level 1 on it is at most 48. */
  lemma VarianceRange(level: int)
    requires level >= 1
    ensures 5 <= Variance(level) <= 48
    ensures level >= 23 <==> Variance(level) == 5
  {
  }

  /** A draw of `Math.floor(Math.random() * variance * 2)`, which lies in [0, 2 * variance). */
  predicate DrawFits(draw: int, variance: int) {
    0 <= draw < 2 * variance
  }

  /** `randomVariance`: the drawn integer shifted down by `variance`. */
  function RandomVariance(variance: int, draw: int): (offset: int)
    requires DrawFits(draw, variance)
    ensures -variance <= offset <= variance - 1
  {
    draw - variance
  }

  /** Every offset in [-variance, variance - 1] comes from exactly one draw. */
  lemma RandomVarianceBijective(variance: int, offset: int)
    requires -variance <= offset < variance
    ensures DrawFits(offset + variance, variance)
    ensures RandomVariance(variance, offset + variance) == offset
    ensures forall draw :: DrawFits(draw, variance) && RandomVariance(variance, draw) == offset ==> draw == offset + variance
  {
  }

  /** The three draws that perturb the channels of one palette cell. */
  datatype Draw = Draw(dr: int, dg: int, db: int)

  predicate CellDrawFits(d: Draw, variance: int) {
    DrawFits(d.dr, variance) && DrawFits(d.dg, variance) && DrawFits(d.db, variance)
  }

  /** One palette cell: each channel of the base perturbed by its own draw, then clamped. */
  function Cell(base: Rgb, variance: int, d: Draw): (c: Rgb)
    requires CellDrawFits(d, variance)
    ensures InRange(c)
  {
    Rgb(Clamp(base.r + RandomVariance(variance, d.dr)),
        Clamp(base.g + RandomVariance(variance, d.dg)),
        Clamp(base.b + RandomVariance(variance, d.db)))
  }

  /** A channel of a cell stays within [base - variance, base + variance - 1]. */
  predicate ChannelNear(channel: int, base: int, variance: int) {
    base - variance <= channel <= base + variance - 1
  }

  lemma CellNearBase(base: Rgb, variance: int, d: Draw)
    requires InRange(base) && CellDrawFits(d, variance)
    ensures ChannelNear(Cell(base, variance, d).r, base.r, variance)
    ensures ChannelNear(Cell(base, variance, d).g, base.g, variance)
    ensures ChannelNear(Cell(base, variance, d).b, base.b, variance)
  {
    ClampNoFurther(base.r + RandomVariance(variance, d.dr), base.r);
    ClampNoFurther(base.g + RandomVariance(variance, d.dg), base.g);
    ClampNoFurther(base.b + RandomVariance(variance, d.db), base.b);
  }

  /** Any two cells around the same base differ by less than 2 * variance in every channel. */
  lemma CellsClose(base: Rgb, variance: int, d1: Draw, d2: Draw)
    requires InRange(base) && CellDrawFits(d1, variance) && CellDrawFits(d2, variance)
    ensures var c1, c2 := Cell(base, variance, d1), Cell(base, variance, d2);
      -2 * variance < c1.r - c2.r < 2 * variance &&
      -2 * variance < c1.g - c2.g < 2 * variance &&
      -2 * variance < c1.b - c2.b < 2 * variance
  {
    CellNearBase(base, variance, d1);
    CellNearBase(base, variance, d2);
  }

  function Square(x: int): (s: int)
    ensures s >= 0
    ensures s == 0 <==> x == 0
  {
    x * x
  }

  /** The square of `calculateColorDifference`: rDiff² + gDiff² + bDiff², before `Math.sqrt`. */
  function DistSq(c1: Rgb, c2: Rgb): (d: int)
    ensures d >= 0
    ensures d == 0 <==> c1 == c2
  {
    Square(c1.r - c2.r) + Square(c1.g - c2.g) + Square(c1.b - c2.b)
  }

  lemma DistSqSymmetric(c1: Rgb, c2: Rgb)
    ensures DistSq(c1, c2) == DistSq(c2, c1)
  {
    assert Square(c1.r - c2.r) == Square(c2.r - c1.r);
    assert Square(c1.g - c2.g) == Square(c2.g - c1.g);
    assert Square(c1.b - c2.b) == Square(c2.b - c1.b);
  }

  /** The three branches of `handleColorPick`. */
  datatype Outcome = Perfect | Close | Wrong

  /** `difference === 0` is perfect, `difference < 10` close, anything else wrong;
      stated on the squared distance, so the thresholds are 0 and 100. */
  function Classify(picked: Rgb, target: Rgb): (o: Outcome)
    ensures o == Perfect <==> picked == target
    ensures o == Close <==> picked != target && DistSq(picked, target) < 100
    ensures o == Wrong <==> DistSq(picked, target) >= 100
  {
    var d := DistSq(picked, target);
    if d == 0 then Perfect
    else if d < 100 then Close
    else Wrong
  }

  /** The classification does not depend on the order of its two colours. */
  lemma ClassifySymmetric(c1: Rgb, c2: Rgb)
    ensures Classify(c1, c2) == Classify(c2, c1)
  {
    DistSqSymmetric(c1, c2);
  }

  lemma SquareBelow(x: real, bound: real)
    requires 0.0 <= x && 0.0 <= bound
    ensures x < bound <==> x * x < bound * bound
  {
    var low, mid, high := x * x, x * bound, bound * bound;
    if x < bound {
      assert low <= mid;
      assert mid < high;
    } else {
      assert low >= mid;
      assert mid >= high;
    }
  }

  /** Comparing the Euclidean distance (the non-negative root of `DistSq`) with
      0 and 10 is the same as comparing `DistSq` with 0 and 100. */
  lemma ClassifyMatchesDistance(picked: Rgb, target: Rgb, difference: real)
    requires 0.0 <= difference
    requires difference * difference == DistSq(picked, target) as real
    ensures Classify(picked, target) == Perfect <==> difference == 0.0
    ensures Classify(picked, target) == Close <==> 0.0 < difference < 10.0
    ensures Classify(picked, target) == Wrong <==> difference >= 10.0
  {
    SquareBelow(difference, 10.0);
    if difference > 0.0 {
      SquareBelow(0.0, difference);
    }
  }

  /** The close-pick base score `floor(50 * level * (1 - difference / 10))`, in
      exact arithmetic, for a close pick's distance. */
  function CloseBaseScore(level: int, difference: real): (s: int)
    requires level >= 1 && 0.0 < difference < 10.0
    ensures 0 <= s < 50 * level
  {
    var fraction := 1.0 - difference / 10.0;
    assert 0.0 < fraction < 1.0;
    var raw := 50.0 * (level as real) * fraction;
    assert 0.0 < raw < 50.0 * (level as real) by {
      assert (level as real) * fraction < (level as real);
    }
    raw.Floor
  }
}
