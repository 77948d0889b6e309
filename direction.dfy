/**
 * The four head-movement directions shared by every part of the exercise
 * engine: a Swift enum with `String` raw values, `CaseIterable` and `Codable`.
 */
module Directions {
  import opened Wrappers

  datatype Direction = Left | Right | Up | Down

  /** The raw value of each case: its lower-case name. */
  function RawValue(d: Direction): (s: string)
    ensures |s| >= 2
  {
    match d
    case Left => "left"
    case Right => "right"
    case Up => "up"
    case Down => "down"
  }

  /** `Direction(rawValue:)`, which is also what `Codable` decodes with. */
  function FromRawValue(s: string): (r: Option<Direction>)
    ensures r.Some? <==> s in {"left", "right", "up", "down"}
    ensures r.Some? ==> RawValue(r.value) == s
  {
    if s == "left" then Some(Left)
    else if s == "right" then Some(Right)
    else if s == "up" then Some(Up)
    else if s == "down" then Some(Down)
    else None
  }

  /** `Direction.allCases`: the cases in declaration order. */
  const AllCases: seq<Direction> := [Left, Right, Up, Down]

  /** Up and down move the head about the pitch axis. */
  predicate IsVertical(d: Direction) {
    d == Up || d == Down
  }

  /** Left and right move the head about the yaw axis. */
  predicate IsHorizontal(d: Direction) {
    d == Left || d == Right
  }

  /** Decoding an encoded direction gives it back. */
  lemma DecodeEncode(d: Direction)
    ensures FromRawValue(RawValue(d)) == Some(d)
  {
  }

  /** Different cases have different raw values. */
  lemma RawValueInjective(d: Direction, e: Direction)
    ensures RawValue(d) == RawValue(e) ==> d == e
  {
  }

  /** `allCases` lists every direction exactly once, in declaration order. */
  lemma AllCasesComplete(d: Direction)
    ensures |AllCases| == 4
    ensures d in AllCases
    ensures forall i, j :: 0 <= i < j < |AllCases| ==> AllCases[i] != AllCases[j]
  {
  }

  /** Every direction is on exactly one axis. */
  lemma AxisPartition(d: Direction)
    ensures IsVertical(d) != IsHorizontal(d)
  {
  }
}
