/** The round and scoring engine of `ColorPerceptionGame`: a palette of
    near-identical colours around a random base, one of them the target, a pick
    scored by its distance to the target, and the level, grid and difficulty
    progression. Every random draw of a round arrives as a `RoundDraws` value;
    the host's timers call `NextLevel`, `StartRound` and `Tick`. */
module ColorGame {
  import opened JsMath
  import opened Colors

  /** The grid edge at a level, by the rule of `nextLevel`: 3 at level 1, one
      more at each level divisible by 3 while the edge is below 8. */
  function GridSizeAt(level: int): (g: int)
    requires level >= 1
    ensures 3 <= g <= 8
  {
    if level == 1 then 3
    else
      var previous := GridSizeAt(level - 1);
      if level % 3 == 0 && previous < 8 then previous + 1 else previous
  }

  /** The rule above in closed form: the edge is 3 + level / 3, capped at 8. */
  lemma {:induction false} GridSizeClosedForm(level: int)
    requires level >= 1
    ensures GridSizeAt(level) == Min(8, 3 + level / 3)
  {
    if level > 1 {
      GridSizeClosedForm(level - 1);
    }
  }

  /** The grid never shrinks as the level rises. */
  lemma GridSizeMonotone(lo: int, hi: int)
    requires 1 <= lo <= hi
    ensures GridSizeAt(lo) <= GridSizeAt(hi)
  {
    GridSizeClosedForm(lo);
    GridSizeClosedForm(hi);
  }

  /** The difficulty meter: 0 before the first `nextLevel`, then `min(100, level * 5)`. */
  function DifficultyAt(level: int): (d: int)
    requires level >= 1
    ensures 0 <= d <= 100
    ensures level >= 20 ==> d == 100
  {
    if level == 1 then 0 else Min(100, level * 5)
  }

  /** `Math.floor(currentStreak * 0.5 * 100)`: the products are exact, so the bonus is 50 per streak step. */
  function PerfectStreakBonus(streak: nat): (bonus: int)
    ensures bonus == 50 * streak
  {
    ((streak as real) * 0.5 * 100.0).Floor
  }

  /** Everything `Math.random` decides in one call of `generateColors`. */
  datatype RoundDraws = RoundDraws(base: Rgb, cells: seq<Draw>, targetIndex: int) {
    /** The base channels come from `Math.floor(Math.random() * 256)`, each cell
        has three draws for the level's variance, and the target index comes
        from `Math.floor(Math.random() * colors.length)`. */
    predicate Fits(gridSize: int, variance: int) {
      InRange(base) &&
      |cells| == gridSize * gridSize &&
      (forall k :: 0 <= k < |cells| ==> CellDrawFits(cells[k], variance)) &&
      0 <= targetIndex < |cells|
    }
  }

  /** What `handleColorPick` does with a click: an index with no colour makes
      `calculateColorDifference` throw before any field changes. */
  datatype PickResult = InvalidPick | Picked(outcome: Outcome)

  /** The scalar fields of the game, for stating what an operation changes. */
  datatype Snapshot = Snapshot(
    score: int, level: int, timeLeft: int, accuracy: int,
    perfectPicks: int, missedShades: int, gridSize: int, difficulty: int,
    currentStreak: int, highestStreak: int, isGameOver: bool, timerActive: bool)

  class ColorPerceptionGame {
    var score: int
    var level: int
    var timeLeft: int
    var accuracy: int
    var perfectPicks: int
    var missedShades: int
    var gridSize: int
    var targetColor: Rgb
    var colors: seq<Rgb>
    /** Whether the one-second interval of `startTimer` is installed. */
    var timerActive: bool
    var difficulty: int
    var currentStreak: int
    var highestStreak: int
    var isGameOver: bool

    ghost function Snap(): Snapshot
      reads this
    {
      Snapshot(score, level, timeLeft, accuracy, perfectPicks, missedShades, gridSize,
               difficulty, currentStreak, highestStreak, isGameOver, timerActive)
    }

    /** The invariant of the counters. No pick resets the streak, so the highest
        streak is always the current one. */
    ghost predicate CountersValid()
      reads this
    {
      level >= 1 &&
      gridSize == GridSizeAt(level) &&
      difficulty == DifficultyAt(level) &&
      score >= 0 &&
      0 <= accuracy <= 100 &&
      perfectPicks >= 0 &&
      missedShades >= 0 &&
      currentStreak >= 0 &&
      highestStreak == currentStreak &&
      0 <= timeLeft <= 30
    }

    /** The interval runs only while time is left: it is cleared when the count reaches 0. */
    ghost predicate TimerValid()
      reads this
    {
      timerActive ==> timeLeft > 0
    }

    /** The palette has one in-range colour per grid cell and the target is one of them. */
    ghost predicate PaletteValid()
      reads this
    {
      |colors| == gridSize * gridSize &&
      (forall c :: c in colors ==> InRange(c)) &&
      targetColor in colors
    }

    ghost predicate Valid()
      reads this
    {
      CountersValid() && TimerValid() && PaletteValid()
    }

    /** The palette `generateColors` builds from the draws `rd` at the current level. */
    ghost predicate PaletteFrom(rd: RoundDraws)
      reads this
      requires CountersValid() && rd.Fits(gridSize, Variance(level))
    {
      |colors| == |rd.cells| &&
      (forall k :: 0 <= k < |colors| ==> colors[k] == Cell(rd.base, Variance(level), rd.cells[k])) &&
      targetColor == colors[rd.targetIndex]
    }

    /** The constructor and `initializeGame`'s first `startRound`. */
    constructor (first: RoundDraws)
      requires first.Fits(3, Variance(1))
      ensures Snap() == Snapshot(0, 1, 30, 100, 0, 0, 3, 0, 0, 0, false, true)
      ensures Valid() && PaletteFrom(first)
    {
      score := 0;
      level := 1;
      timeLeft := 30;
      accuracy := 100;
      perfectPicks := 0;
      missedShades := 0;
      gridSize := 3;
      colors := [];
      timerActive := false;
      difficulty := 0;
      currentStreak := 0;
      highestStreak := 0;
      isGameOver := false;
      new;
      StartRound(first);
    }

    /** `startRound`: a fresh 30-second round with a new palette at the same level. */
    method StartRound(rd: RoundDraws)
      requires CountersValid() && rd.Fits(gridSize, Variance(level))
      modifies this
      ensures Snap() == old(Snap()).(timeLeft := 30, timerActive := true)
      ensures Valid() && PaletteFrom(rd)
    {
      timeLeft := 30;
      GenerateColors(rd);
      timerActive := true;
    }

    /** `generateColors`: one perturbed copy of the base per cell, then the target. */
    method GenerateColors(rd: RoundDraws)
      requires CountersValid() && TimerValid() && rd.Fits(gridSize, Variance(level))
      modifies this
      ensures Snap() == old(Snap())
      ensures Valid() && PaletteFrom(rd)
    {
      var variance := Variance(level);
      colors := [];
      var totalCells := gridSize * gridSize;
      var i := 0;
      while i < totalCells
        invariant 0 <= i <= totalCells
        invariant Snap() == old(Snap())
        invariant |colors| == i
        invariant forall k :: 0 <= k < i ==> colors[k] == Cell(rd.base, variance, rd.cells[k])
      {
        colors := colors + [Cell(rd.base, variance, rd.cells[i])];
        i := i + 1;
      }
      targetColor := colors[rd.targetIndex];
    }

    /** `handleColorPick`: classify the colour at `index` against the target and
        apply the matching rule. `closeBaseScore` and `closeStreakBonus` are the
        floating-point amounts a close pick adds. The `nextLevel` it schedules,
        whatever the outcome, is the host's next call. */
    method HandleColorPick(index: int, closeBaseScore: nat, closeStreakBonus: nat)
      returns (result: PickResult)
      requires Valid()
      modifies this
      ensures Valid()
      ensures colors == old(colors) && targetColor == old(targetColor)
      ensures !(0 <= index < |colors|) <==> result == InvalidPick
      ensures result == InvalidPick ==> Snap() == old(Snap())
      ensures result.Picked? ==> result.outcome == Classify(colors[index], targetColor)
      ensures result == Picked(Perfect) ==> Snap() == old(Snap()).(
        currentStreak := old(currentStreak) + 1,
        highestStreak := Max(old(highestStreak), old(currentStreak) + 1),
        score := old(score) + 100 * level + 50 * (old(currentStreak) + 1),
        perfectPicks := old(perfectPicks) + 1,
        accuracy := Min(100, old(accuracy) + 5))
      ensures result == Picked(Close) ==> Snap() == old(Snap()).(
        currentStreak := old(currentStreak) + 1,
        highestStreak := Max(old(highestStreak), old(currentStreak) + 1),
        score := old(score) + closeBaseScore + closeStreakBonus,
        accuracy := Max(0, old(accuracy) - 5))
      ensures result == Picked(Wrong) ==> Snap() == old(Snap()).(
        missedShades := old(missedShades) + 1,
        accuracy := Max(0, old(accuracy) - 10),
        isGameOver := true,
        timerActive := false)
    {
      if !(0 <= index < |colors|) {
        return InvalidPick;
      }
      var outcome := Classify(colors[index], targetColor);
      match outcome {
        case Perfect => HandlePerfectPick();
        case Close => HandleClosePick(closeBaseScore, closeStreakBonus);
        case Wrong => HandleWrongPick();
      }
      result := Picked(outcome);
    }

    /** `handlePerfectPick`: streak up, 100 per level plus 50 per streak step, accuracy up by 5 to at most 100. */
    method HandlePerfectPick()
      requires Valid()
      modifies this
      ensures Valid()
      ensures colors == old(colors) && targetColor == old(targetColor)
      ensures score > old(score)
      ensures Snap() == old(Snap()).(
        currentStreak := old(currentStreak) + 1,
        highestStreak := Max(old(highestStreak), old(currentStreak) + 1),
        score := old(score) + 100 * level + 50 * (old(currentStreak) + 1),
        perfectPicks := old(perfectPicks) + 1,
        accuracy := Min(100, old(accuracy) + 5))
    {
      currentStreak := currentStreak + 1;
      highestStreak := Max(highestStreak, currentStreak);
      var streakBonus := PerfectStreakBonus(currentStreak);
      score := score + 100 * level + streakBonus;
      perfectPicks := perfectPicks + 1;
      accuracy := Min(100, accuracy + 5);
    }

    /** `handleClosePick`: streak up, the two non-negative amounts added, accuracy down by 5 to at least 0. */
    method HandleClosePick(baseScore: nat, streakBonus: nat)
      requires Valid()
      modifies this
      ensures Valid()
      ensures colors == old(colors) && targetColor == old(targetColor)
      ensures score >= old(score)
      ensures Snap() == old(Snap()).(
        currentStreak := old(currentStreak) + 1,
        highestStreak := Max(old(highestStreak), old(currentStreak) + 1),
        score := old(score) + baseScore + streakBonus,
        accuracy := Max(0, old(accuracy) - 5))
    {
      currentStreak := currentStreak + 1;
      highestStreak := Max(highestStreak, currentStreak);
      score := score + baseScore + streakBonus;
      accuracy := Max(0, accuracy - 5);
    }

    /** `handleWrongPick`: one more missed shade, accuracy down by 10 to at
        least 0, then `gameOver`. The streak is left as it was. */
    method HandleWrongPick()
      requires Valid()
      modifies this
      ensures Valid()
      ensures colors == old(colors) && targetColor == old(targetColor)
      ensures Snap() == old(Snap()).(
        missedShades := old(missedShades) + 1,
        accuracy := Max(0, old(accuracy) - 10),
        isGameOver := true,
        timerActive := false)
    {
      missedShades := missedShades + 1;
      accuracy := Max(0, accuracy - 10);
      GameOver();
    }

    /** `gameOver`: the flag is set and the interval cleared. */
    method GameOver()
      requires Valid()
      modifies this
      ensures Valid()
      ensures colors == old(colors) && targetColor == old(targetColor)
      ensures Snap() == old(Snap()).(isGameOver := true, timerActive := false)
    {
      isGameOver := true;
      timerActive := false;
    }

    /** `nextLevel`: one level up, one more grid column at every third level
        while below 8, the difficulty meter at `min(100, level * 5)`, and a new
        round drawn with `rd`. */
    method NextLevel(rd: RoundDraws)
      requires CountersValid()
      requires rd.Fits(GridSizeAt(level + 1), Variance(level + 1))
      modifies this
      ensures level == old(level) + 1
      ensures gridSize == if level % 3 == 0 && old(gridSize) < 8 then old(gridSize) + 1 else old(gridSize)
      ensures old(gridSize) <= gridSize <= 8
      ensures difficulty == Min(100, level * 5)
      ensures Snap() == old(Snap()).(level := level, gridSize := gridSize, difficulty := difficulty,
                                     timeLeft := 30, timerActive := true)
      ensures Valid() && PaletteFrom(rd)
    {
      level := level + 1;
      if level % 3 == 0 && gridSize < 8 {
        gridSize := gridSize + 1;
      }
      difficulty := Min(100, level * 5);
      StartRound(rd);
    }

    /** One firing of the interval installed by `startTimer`: a second less, and
        a timeout when none is left. */
    method Tick() returns (timedOut: bool)
      requires Valid() && timerActive
      modifies this
      ensures Valid()
      ensures colors == old(colors) && targetColor == old(targetColor)
      ensures timedOut <==> old(timeLeft) == 1
      ensures !timedOut ==> Snap() == old(Snap()).(timeLeft := old(timeLeft) - 1)
      ensures timedOut ==> Snap() == old(Snap()).(timeLeft := 0, missedShades := old(missedShades) + 1,
                                                  timerActive := false)
    {
      timeLeft := timeLeft - 1;
      timedOut := timeLeft <= 0;
      if timedOut {
        HandleTimeout();
      }
    }

    /** `handleTimeout`: the interval is cleared and the round counts as one
        missed shade; level and grid stay, and the host restarts the round with
        `StartRound`. */
    method HandleTimeout()
      requires CountersValid() && PaletteValid()
      modifies this
      ensures Valid()
      ensures colors == old(colors) && targetColor == old(targetColor)
      ensures Snap() == old(Snap()).(missedShades := old(missedShades) + 1, timerActive := false)
    {
      timerActive := false;
      missedShades := missedShades + 1;
    }
  }
}
