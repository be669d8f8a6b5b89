/**
 * The difficulty settings resources: four stepped settings (paddle size,
 * paddle speed, ball size, ball speed), each a number of points kept inside
 * an inclusive range, and the brick-ghost switch. The concrete ranges, the
 * defaults and the physical quantities derived from the points belong to the
 * game's `resources` module, which is not part of this model: here they are
 * parameters.
 */
module Resources {

  /** The inclusive range of points a stepped setting may hold. */
  datatype StepRange = StepRange(lo: int, hi: int) {
    predicate Valid() {
      lo <= hi
    }

    predicate Contains(p: int) {
      lo <= p <= hi
    }
  }

  /** Distance between two points. */
  function Dist(a: int, b: int): (r: nat) {
    if a <= b then b - a else a - b
  }

  /**
   * `change_points(delta)`: move the setting by `delta` points, clamped to
   * its range. The result is the point of the range nearest to
   * `points + delta`.
   */
  function ChangePoints(points: int, delta: int, range: StepRange): (r: int)
    requires range.Valid()
    ensures range.Contains(r)
    ensures forall q :: range.Contains(q) ==> Dist(r, points + delta) <= Dist(q, points + delta)
  {
    if points + delta < range.lo then range.lo
    else if range.hi < points + delta then range.hi
    else points + delta
  }

  /** A step that stays inside the range is undone by the opposite step. */
  lemma ChangePointsUndo(points: int, delta: int, range: StepRange)
    requires range.Valid() && range.Contains(points) && range.Contains(points + delta)
    ensures ChangePoints(ChangePoints(points, delta, range), -delta, range) == points
  {
  }

  /** `n` successive single steps of `delta` points, one per frame. */
  function ChangeRepeatedly(points: int, delta: int, n: nat, range: StepRange): (r: int)
    requires range.Valid()
  {
    if n == 0 then points else ChangePoints(ChangeRepeatedly(points, delta, n - 1, range), delta, range)
  }

  /**
   * From a point inside the range, `n` single steps of +1 (or of -1) end
   * where one clamped step of `n` (or of `-n`) points ends: clamping on the
   * way never loses ground that a later step in the same direction would
   * need.
   */
  lemma {:induction false} ChangeRepeatedlyIsOneStep(points: int, delta: int, n: nat, range: StepRange)
    requires range.Valid() && range.Contains(points)
    requires delta == 1 || delta == -1
    ensures ChangeRepeatedly(points, delta, n, range) == ChangePoints(points, n * delta, range)
  {
    if n > 0 {
      ChangeRepeatedlyIsOneStep(points, delta, n - 1, range);
      assert n * delta == (n - 1) * delta + delta;
    }
  }

  /**
   * Raising a setting more often than its headroom leaves it at the top of
   * its range, and lowering it more often than its footroom leaves it at the
   * bottom.
   */
  lemma Saturates(points: int, n: nat, range: StepRange)
    requires range.Valid() && range.Contains(points)
    ensures n >= range.hi - points ==> ChangeRepeatedly(points, 1, n, range) == range.hi
    ensures n >= points - range.lo ==> ChangeRepeatedly(points, -1, n, range) == range.lo
  {
    ChangeRepeatedlyIsOneStep(points, 1, n, range);
    ChangeRepeatedlyIsOneStep(points, -1, n, range);
  }

  /** The five settings resources, by value. */
  datatype Settings = Settings(
    paddleSize: int,
    paddleSpeed: int,
    ballSize: int,
    ballSpeed: int,
    brickGhost: bool)

  /** The range of each stepped setting. */
  datatype SettingRanges = SettingRanges(
    paddleSize: StepRange,
    paddleSpeed: StepRange,
    ballSize: StepRange,
    ballSpeed: StepRange)
  {
    predicate Valid() {
      paddleSize.Valid() && paddleSpeed.Valid() && ballSize.Valid() && ballSpeed.Valid()
    }

    /** Every stepped setting of `s` lies inside its range. */
    predicate Admits(s: Settings) {
      && paddleSize.Contains(s.paddleSize)
      && paddleSpeed.Contains(s.paddleSpeed)
      && ballSize.Contains(s.ballSize)
      && ballSpeed.Contains(s.ballSpeed)
    }
  }

  /** What `Default` gives for each resource that `clean_up` resets. */
  datatype Defaults = Defaults(score: nat, brickRowSpawnCooldown: nat, settings: Settings)
}
