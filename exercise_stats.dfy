/**
 * The statistics card of the history screen: how many sessions used each
 * exercise mode and each head-movement mix, and the ring chart that shows
 * those counts as arcs of a circle.
 */
module Stats {
  import opened Directions
  import opened Sessions
  import opened Collections

  predicate Short(s: ExerciseSession) { s.duration <= 30 }
  predicate Long(s: ExerciseSession) { s.duration > 30 }

  /**
   * `exerciseModeCounts`: sessions of at most 30 seconds, and longer ones;
   * every session falls in exactly one of the two.
   */
  function ExerciseModeCounts(sessions: seq<ExerciseSession>): (r: (nat, nat))
    ensures r.0 + r.1 == |sessions|
    ensures r.0 == |Filter(sessions, Short)| && r.1 == |Filter(sessions, Long)|
  {
    CountComplement(sessions, Short, Long);
    (CountWhere(sessions, Short), CountWhere(sessions, Long))
  }

  predicate VerticalMove(m: Movement) { m.direction == Up || m.direction == Down }
  predicate HorizontalMove(m: Movement) { m.direction == Left || m.direction == Right }

  predicate HasVertical(s: ExerciseSession) { Contains(s.movements, VerticalMove) }
  predicate HasHorizontal(s: ExerciseSession) { Contains(s.movements, HorizontalMove) }

  predicate BothAxes(s: ExerciseSession) { HasVertical(s) && HasHorizontal(s) }
  predicate OnlyVertical(s: ExerciseSession) { HasVertical(s) && !HasHorizontal(s) }
  predicate OnlyHorizontal(s: ExerciseSession) { !HasVertical(s) && HasHorizontal(s) }
  predicate NoMovement(s: ExerciseSession) { !HasVertical(s) && !HasHorizontal(s) }

  /**
   * Every session falls in exactly one of "both axes", "only up/down",
   * "only left/right" and "no movement".
   */
  lemma CategoriesExclusive(s: ExerciseSession)
    ensures BothAxes(s) || OnlyVertical(s) || OnlyHorizontal(s) || NoMovement(s)
    ensures !(BothAxes(s) && OnlyVertical(s)) && !(BothAxes(s) && OnlyHorizontal(s))
    ensures !(BothAxes(s) && NoMovement(s)) && !(OnlyVertical(s) && OnlyHorizontal(s))
    ensures !(OnlyVertical(s) && NoMovement(s)) && !(OnlyHorizontal(s) && NoMovement(s))
  {
  }

  /** A session falls in none of the three categories exactly when it recorded no movement. */
  lemma UncategorisedIffEmpty(s: ExerciseSession)
    ensures NoMovement(s) <==> s.movements == []
  {
    if s.movements != [] {
      var m := s.movements[0];
      assert VerticalMove(m) || HorizontalMove(m);
    }
  }

  /**
   * `headMovementCounts`: sessions that moved on both axes, only vertically,
   * only horizontally. The three are disjoint, and together they count every
   * session that recorded at least one movement.
   */
  function HeadMovementCounts(sessions: seq<ExerciseSession>): (r: (nat, nat, nat))
    ensures r.0 == CountWhere(sessions, BothAxes)
    ensures r.1 == CountWhere(sessions, OnlyVertical)
    ensures r.2 == CountWhere(sessions, OnlyHorizontal)
    ensures r.0 + r.1 + r.2 + CountWhere(sessions, (s: ExerciseSession) => s.movements == []) == |sessions|
  {
    CountPartition(sessions, BothAxes, OnlyVertical, OnlyHorizontal, NoMovement);
    forall s: ExerciseSession
      ensures NoMovement(s) == (s.movements == [])
    {
      UncategorisedIffEmpty(s);
    }
    SameCount(sessions, NoMovement, (s: ExerciseSession) => s.movements == []);
    (CountWhere(sessions, BothAxes), CountWhere(sessions, OnlyVertical), CountWhere(sessions, OnlyHorizontal))
  }

  /** Counting by two predicates that agree everywhere gives the same count. */
  lemma {:induction false} SameCount<T>(s: seq<T>, p: T -> bool, q: T -> bool)
    requires forall x :: p(x) == q(x)
    ensures CountWhere(s, p) == CountWhere(s, q)
  {
    if s != [] {
      SameCount(s[..|s| - 1], p, q);
    }
  }

  /**
   * A ratio `x / total` as the chart computes it in floating point: a finite
   * number, or NaN or an infinity when the total is zero.
   */
  datatype Ratio = Finite(value: real) | NotFinite

  function Divide(x: real, total: real): (q: Ratio)
    ensures total == 0.0 <==> q == NotFinite
    ensures total != 0.0 ==> q.value * total == x
  {
    if total == 0.0 then NotFinite else Finite(x / total)
  }

  /** `CircularChart.total`. */
  function Total(values: seq<real>): real {
    Sum(values)
  }

  /** The arc of segment `i`: where its trim starts and where it ends. */
  datatype Arc = Arc(from: Ratio, to: Ratio)

  function SegmentArc(values: seq<real>, i: int): (a: Arc)
    requires 0 <= i < |values|
    ensures i == 0 ==> a.from == Finite(0.0)
    ensures Total(values) == 0.0 ==> a.to == NotFinite && (i > 0 ==> a.from == NotFinite)
    ensures Total(values) != 0.0 ==>
      && a.from == Finite(Sum(values[..i]) / Total(values))
      && a.to == Finite(Sum(values[..i + 1]) / Total(values))
  {
    Arc(if i == 0 then Finite(0.0) else Divide(Sum(values[..i]), Total(values)),
        Divide(Sum(values[..i + 1]), Total(values)))
  }

  lemma PrefixSumStep(values: seq<real>, i: int)
    requires 0 <= i < |values|
    ensures Sum(values[..i + 1]) == Sum(values[..i]) + values[i]
  {
    assert values[..i + 1][..i] == values[..i];
  }

  /** With a non-zero total, each arc's share of the circle is its value's share of the total. */
  lemma ArcLength(values: seq<real>, i: int)
    requires 0 <= i < |values| && Total(values) != 0.0
    ensures (SegmentArc(values, i).to.value - SegmentArc(values, i).from.value) * Total(values) == values[i]
  {
    PrefixSumStep(values, i);
    var t, lo, hi := Total(values), Sum(values[..i]), Sum(values[..i + 1]);
    assert hi / t - lo / t == (hi - lo) / t;
  }

  /** Each arc starts where the previous one ended. */
  lemma ArcsContiguous(values: seq<real>, i: int)
    requires 0 < i < |values|
    ensures SegmentArc(values, i).from == SegmentArc(values, i - 1).to
  {
  }

  /** With a non-zero total, the arcs start at 0 and the last one closes the circle at 1. */
  lemma ArcsCoverCircle(values: seq<real>)
    requires |values| > 0 && Total(values) != 0.0
    ensures SegmentArc(values, 0).from == Finite(0.0)
    ensures SegmentArc(values, |values| - 1).to == Finite(1.0)
  {
    assert values[..|values|] == values;
  }

  lemma {:induction false} PrefixSumBounds(values: seq<real>, i: int)
    requires 0 <= i <= |values|
    requires forall k :: 0 <= k < |values| ==> values[k] >= 0.0
    ensures 0.0 <= Sum(values[..i]) <= Sum(values)
    decreases |values|
  {
    if i < |values| {
      var init := values[..|values| - 1];
      assert init[..i] == values[..i];
      PrefixSumBounds(init, i);
    } else {
      assert values[..i] == values;
      if values != [] {
        PrefixSumBounds(values[..|values| - 1], |values| - 1);
      }
    }
  }

  /** With non-negative counts and a positive total, every arc lies within the circle and runs forwards. */
  lemma ArcWithinCircle(values: seq<real>, i: int)
    requires 0 <= i < |values|
    requires forall k :: 0 <= k < |values| ==> values[k] >= 0.0
    requires Total(values) > 0.0
    ensures 0.0 <= SegmentArc(values, i).from.value <= SegmentArc(values, i).to.value <= 1.0
  {
    PrefixSumBounds(values, i);
    PrefixSumBounds(values, i + 1);
    PrefixSumStep(values, i);
    RatioBounds(Sum(values[..i]), Sum(values[..i + 1]), Total(values));
  }

  lemma RatioBounds(lo: real, hi: real, t: real)
    requires 0.0 <= lo <= hi <= t && t > 0.0
    ensures 0.0 <= lo / t <= hi / t <= 1.0
  {
    assert hi / t - lo / t == (hi - lo) / t;
    assert t / t - hi / t == (t - hi) / t;
  }

  /** The exercise-mode ring: its total is the number of sessions. */
  lemma ModeRingTotal(sessions: seq<ExerciseSession>)
    ensures var c := ExerciseModeCounts(sessions);
      Total([c.0 as real, c.1 as real]) == |sessions| as real
  {
    var c := ExerciseModeCounts(sessions);
    var a, b := c.0 as real, c.1 as real;
    assert [a, b][..1] == [a];
    assert Sum([a]) == a by {
      assert [a][..0] == [];
    }
  }
}
