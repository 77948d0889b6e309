/**
 * The record of one finished exercise and its two derived figures: head
 * turns per minute and accuracy, both guarded against division by zero.
 */
module Sessions {
  import opened Directions

  /** A target the user matched: its direction, seconds from the target's
      appearance to the match, and when the match happened. */
  datatype Movement = Movement(direction: Direction, responseTime: real, timestamp: real)

  /** `ExerciseSession`; `date` is a time in seconds, `duration` whole seconds. */
  datatype ExerciseSession = ExerciseSession(
    date: real,
    duration: int,
    score: int,
    totalTargets: int,
    movements: seq<Movement>,
    dizzinessLevel: real)

  /**
   * Matched targets per minute of exercise; 0 when the session has no
   * positive duration.
   */
  function HeadTurnsPerMinute(s: ExerciseSession): (r: real)
    ensures s.duration > 0 ==> r * (s.duration as real / 60.0) == s.score as real
    ensures s.duration <= 0 ==> r == 0.0
    ensures s.score >= 0 ==> r >= 0.0
  {
    var minutes := s.duration as real / 60.0;
    if minutes > 0.0 then s.score as real / minutes else 0.0
  }

  /**
   * Percentage of targets matched, clamped to [0, 100], and 0 when there
   * were no targets.  The source also maps a NaN or infinite quotient to 0;
   * with at least one target the quotient of two integers is always finite,
   * so that guard never applies here.
   */
  function Accuracy(s: ExerciseSession): (r: real)
    ensures 0.0 <= r <= 100.0
    ensures s.totalTargets <= 0 ==> r == 0.0
    ensures 0 < s.totalTargets && 0 <= s.score <= s.totalTargets ==>
      r == s.score as real / s.totalTargets as real * 100.0
    ensures 0 < s.totalTargets < s.score ==> r == 100.0
    ensures 0 < s.totalTargets && s.score <= 0 ==> r == 0.0
  {
    if s.totalTargets <= 0 then 0.0
    else
      var value := (s.score as real / s.totalTargets as real) * 100.0;
      var capped := if value < 100.0 then value else 100.0;
      if capped > 0.0 then capped else 0.0
  }
}
