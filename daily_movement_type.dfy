/** The movement-type bar chart: every recorded movement, counted by axis. */
module MovementTypes {
  import opened Sessions
  import opened Collections
  import opened Stats

  /** Vertical movements over all sessions. */
  function VerticalTotal(sessions: seq<ExerciseSession>): nat {
    if sessions == [] then 0
    else VerticalTotal(sessions[..|sessions| - 1])
         + CountWhere(sessions[|sessions| - 1].movements, VerticalMove)
  }

  /** Horizontal movements over all sessions. */
  function HorizontalTotal(sessions: seq<ExerciseSession>): nat {
    if sessions == [] then 0
    else HorizontalTotal(sessions[..|sessions| - 1])
         + CountWhere(sessions[|sessions| - 1].movements, HorizontalMove)
  }

  /** Movements over all sessions. */
  function MovementTotal(sessions: seq<ExerciseSession>): nat {
    if sessions == [] then 0
    else MovementTotal(sessions[..|sessions| - 1]) + |sessions[|sessions| - 1].movements|
  }

  /** Every movement is on exactly one axis, so the two bars add up to all movements. */
  lemma {:induction false} AxisTotalsCoverMovements(sessions: seq<ExerciseSession>)
    ensures VerticalTotal(sessions) + HorizontalTotal(sessions) == MovementTotal(sessions)
  {
    if sessions != [] {
      AxisTotalsCoverMovements(sessions[..|sessions| - 1]);
      CountComplement(sessions[|sessions| - 1].movements, VerticalMove, HorizontalMove);
    }
  }

  lemma CountStep<T>(s: seq<T>, p: T -> bool, j: int)
    requires 0 <= j < |s|
    ensures CountWhere(s[..j + 1], p) == CountWhere(s[..j], p) + (if p(s[j]) then 1 else 0)
  {
    assert s[..j + 1][..j] == s[..j];
  }

  lemma TotalsStep(sessions: seq<ExerciseSession>, i: int)
    requires 0 <= i < |sessions|
    ensures VerticalTotal(sessions[..i + 1])
         == VerticalTotal(sessions[..i]) + CountWhere(sessions[i].movements, VerticalMove)
    ensures HorizontalTotal(sessions[..i + 1])
         == HorizontalTotal(sessions[..i]) + CountWhere(sessions[i].movements, HorizontalMove)
  {
    assert sessions[..i + 1][..i] == sessions[..i];
  }

  /** One bar of the chart. */
  datatype MovementTypeCount = MovementTypeCount(kind: string, count: nat)

  /**
   * `movementTypeCounts`: walks every movement of every session and bumps
   * the up/down or the left/right counter; the chart gets the up/down bar,
   * then the left/right bar.
   */
  method MovementTypeCounts(sessions: seq<ExerciseSession>) returns (counts: seq<MovementTypeCount>)
    ensures |counts| == 2
    ensures counts[0] == MovementTypeCount("Up/Down", VerticalTotal(sessions))
    ensures counts[1] == MovementTypeCount("Left/Right", HorizontalTotal(sessions))
    ensures counts[0].count + counts[1].count == MovementTotal(sessions)
    ensures sessions == [] ==> counts[0].count == 0 && counts[1].count == 0
  {
    var upDown, leftRight := 0, 0;
    var i := 0;
    while i < |sessions|
      invariant 0 <= i <= |sessions|
      invariant upDown == VerticalTotal(sessions[..i])
      invariant leftRight == HorizontalTotal(sessions[..i])
    {
      var movements := sessions[i].movements;
      var j := 0;
      while j < |movements|
        invariant 0 <= j <= |movements|
        invariant upDown == VerticalTotal(sessions[..i]) + CountWhere(movements[..j], VerticalMove)
        invariant leftRight == HorizontalTotal(sessions[..i]) + CountWhere(movements[..j], HorizontalMove)
      {
        var m := movements[j];
        CountStep(movements, VerticalMove, j);
        CountStep(movements, HorizontalMove, j);
        match m.direction {
          case Up | Down =>
            upDown := upDown + 1;
          case Left | Right =>
            leftRight := leftRight + 1;
        }
        j := j + 1;
      }
      assert movements[..j] == movements;
      TotalsStep(sessions, i);
      i := i + 1;
    }
    assert sessions[..i] == sessions;
    AxisTotalsCoverMovements(sessions);
    counts := [MovementTypeCount("Up/Down", upDown), MovementTypeCount("Left/Right", leftRight)];
  }
}
