/**
 * The target sequencer: a fixed four-step cycle of directions chosen by the
 * exercise's head-movement pattern, walked by a wrapping cursor, and the
 * dwell time of each target chosen by the speed setting.
 */
module Sequencing {
  import opened Directions

  datatype Pattern = Vertical | Horizontal | Combined

  /** The setup screen's head-movement choice, read as a pattern. */
  function PatternFor(headMovement: string): (p: Pattern)
    ensures p == Vertical <==> headMovement == "Up & Down"
    ensures p == Horizontal <==> headMovement == "Left & Right"
  {
    if headMovement == "Up & Down" then Vertical
    else if headMovement == "Left & Right" then Horizontal
    else Combined
  }

  /** The directions `generateSequence` installs for each pattern. */
  function Cycle(p: Pattern): (c: seq<Direction>)
    ensures |c| == 4
    ensures p == Vertical ==> forall i :: 0 <= i < |c| ==> IsVertical(c[i])
    ensures p == Horizontal ==> forall i :: 0 <= i < |c| ==> IsHorizontal(c[i])
    ensures p == Combined ==> Up in c && Right in c && Down in c && Left in c
  {
    match p
    case Vertical => [Up, Down, Up, Down]
    case Horizontal => [Left, Right, Left, Right]
    case Combined => [Up, Right, Down, Left]
  }

  /** Seconds each target stays up, by speed setting (0 slowest, 4 fastest). */
  function DurationFor(speed: real): (seconds: real)
    ensures 0.5 <= seconds <= 3.0
    ensures speed == 0.0 ==> seconds == 3.0
    ensures speed == 4.0 ==> seconds == 0.5
    ensures speed !in {0.0, 1.0, 2.0, 3.0, 4.0} ==> seconds == 1.5
  {
    if speed == 0.0 then 3.0
    else if speed == 1.0 then 2.0
    else if speed == 2.0 then 1.5
    else if speed == 3.0 then 1.0
    else if speed == 4.0 then 0.5
    else 1.5
  }

  /**
   * On the speed settings 0 to 4 a faster setting always shows each target
   * for a shorter time, and the five settings are half a second apart from
   * speed 1 on: 2 s, 1.5 s, 1 s, 0.5 s.
   */
  lemma DurationDecreasing(a: int, b: int)
    requires 0 <= a < b <= 4
    ensures DurationFor(b as real) < DurationFor(a as real)
    ensures 1 <= a ==> DurationFor(a as real) - DurationFor(b as real) == 0.5 * (b - a) as real
  {
  }

  /**
   * Two consecutive targets are never the same direction, including across
   * the wrap-around from the last step back to the first.
   */
  lemma NoImmediateRepeat(p: Pattern, k: nat)
    ensures Cycle(p)[k % 4] != Cycle(p)[(k + 1) % 4]
  {
    var i := k % 4;
    assert (k + 1) % 4 == (i + 1) % 4;
  }

  /** `DirectionSequence`: the cycle for a pattern and a cursor into it. */
  class DirectionSequence {
    var currentSequence: seq<Direction>
    var currentIndex: int
    const pattern: Pattern
    const speed: real
    /** How many times `GetNextDirection` has been called. */
    ghost var calls: nat

    ghost predicate Valid()
      reads this
    {
      && currentSequence == Cycle(pattern)
      && 0 <= currentIndex < |currentSequence|
      && currentIndex == calls % |currentSequence|
    }

    constructor (headMovement: string, speed: real)
      ensures Valid()
      ensures pattern == PatternFor(headMovement) && this.speed == speed
      ensures currentIndex == 0 && calls == 0
    {
      pattern := PatternFor(headMovement);
      this.speed := speed;
      currentIndex := 0;
      calls := 0;
      new;
      GenerateSequence();
    }

    method GenerateSequence()
      modifies this`currentSequence
      ensures currentSequence == Cycle(pattern)
    {
      match pattern
      case Vertical => currentSequence := [Up, Down, Up, Down];
      case Horizontal => currentSequence := [Left, Right, Left, Right];
      case Combined => currentSequence := [Up, Right, Down, Left];
    }

    /**
     * Returns the direction under the cursor and advances it, wrapping after
     * the fourth step: the k-th call (from 0) returns `Cycle(pattern)[k % 4]`.
     */
    method GetNextDirection() returns (d: Direction)
      requires Valid()
      modifies this`currentIndex, this`calls
      ensures Valid()
      ensures calls == old(calls) + 1
      ensures currentIndex == (old(currentIndex) + 1) % 4
      ensures d == Cycle(pattern)[old(calls) % 4]
    {
      d := currentSequence[currentIndex];
      currentIndex := (currentIndex + 1) % |currentSequence|;
      calls := calls + 1;
    }

    /** `directionDuration`: the computed property, the dwell time `DurationFor` gives this sequence's speed. */
    function DirectionDuration(): (seconds: real)
      reads this
      ensures seconds == DurationFor(speed)
    {
      DurationFor(speed)
    }
  }

  /**
   * A fresh sequencer's first target is the cycle's first step, and its
   * fifth target is the same direction again.
   */
  method FifthTargetRepeatsFirst(headMovement: string, speed: real) returns (first: Direction, fifth: Direction)
    ensures first == Cycle(PatternFor(headMovement))[0]
    ensures fifth == first
  {
    var sequence := new DirectionSequence(headMovement, speed);
    first := sequence.GetNextDirection();
    var second := sequence.GetNextDirection();
    var third := sequence.GetNextDirection();
    var fourth := sequence.GetNextDirection();
    fifth := sequence.GetNextDirection();
  }
}
