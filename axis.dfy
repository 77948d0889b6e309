/**
 * The x-axis labels of the history charts: the session dates themselves
 * when they span no time, otherwise evenly spaced instants from the
 * earliest to the latest date.
 */
module Axis {

  /** `min()` of a non-empty list. */
  function SeqMin(s: seq<real>): (m: real)
    requires |s| > 0
    ensures m in s
    ensures forall i :: 0 <= i < |s| ==> m <= s[i]
  {
    if |s| == 1 then s[0]
    else
      var rest := SeqMin(s[1..]);
      assert rest in s;
      if s[0] <= rest then s[0] else rest
  }

  /** `max()` of a non-empty list. */
  function SeqMax(s: seq<real>): (m: real)
    requires |s| > 0
    ensures m in s
    ensures forall i :: 0 <= i < |s| ==> s[i] <= m
  {
    if |s| == 1 then s[0]
    else
      var rest := SeqMax(s[1..]);
      assert rest in s;
      if s[0] >= rest then s[0] else rest
  }

  /** The `i`-th of `segments + 1` evenly spaced instants from `lo` to `hi`. */
  function Label(lo: real, hi: real, segments: nat, i: int): real
    requires segments > 0
  {
    lo + (hi - lo) / segments as real * i as real
  }

  /** The first label is the earliest date and the last one the latest. */
  lemma LabelsSpanRange(lo: real, hi: real, segments: nat)
    requires segments > 0
    ensures Label(lo, hi, segments, 0) == lo
    ensures Label(lo, hi, segments, segments) == hi
  {
    var n := segments as real;
    assert (hi - lo) / n * n == hi - lo;
  }

  /** When the range is not empty, the labels strictly increase. */
  lemma LabelsIncrease(lo: real, hi: real, segments: nat, i: int, j: int)
    requires segments > 0 && lo < hi && i < j
    ensures Label(lo, hi, segments, i) < Label(lo, hi, segments, j)
  {
    var step := (hi - lo) / segments as real;
    assert step > 0.0;
    assert step * j as real - step * i as real == step * (j - i) as real;
  }

  /** Neighbouring labels are one interval apart. */
  lemma LabelStep(lo: real, hi: real, segments: nat, i: int)
    requires segments > 0
    ensures Label(lo, hi, segments, i + 1) - Label(lo, hi, segments, i) == (hi - lo) / segments as real
  {
    var step := (hi - lo) / segments as real;
    assert step * (i + 1) as real == step * i as real + step;
  }

  /**
   * `xAxisValues`: the dates unchanged when there are none or all are the
   * same instant; otherwise `segments + 1` labels, the first at the earliest
   * date, the last at the latest, strictly increasing and evenly spaced.
   */
  method EvenlySpacedLabels(dates: seq<real>, segments: nat) returns (r: seq<real>)
    requires segments > 0
    ensures dates == [] || SeqMin(dates) == SeqMax(dates) ==> r == dates
    ensures dates != [] && SeqMin(dates) != SeqMax(dates) ==>
      && |r| == segments + 1
      && r[0] == SeqMin(dates)
      && r[segments] == SeqMax(dates)
      && (forall i, j :: 0 <= i < j < |r| ==> r[i] < r[j])
      && (forall i :: 0 <= i < segments ==>
            r[i + 1] - r[i] == (SeqMax(dates) - SeqMin(dates)) / segments as real)
  {
    if dates == [] || SeqMin(dates) == SeqMax(dates) {
      return dates;
    }
    var minDate := SeqMin(dates);
    var maxDate := SeqMax(dates);
    var interval := (maxDate - minDate) / segments as real;
    r := [];
    for i := 0 to segments + 1
      invariant |r| == i
      invariant forall k :: 0 <= k < i ==> r[k] == Label(minDate, maxDate, segments, k)
    {
      r := r + [minDate + interval * i as real];
    }
    LabelsSpanRange(minDate, maxDate, segments);
    forall i, j | 0 <= i < j < |r|
      ensures r[i] < r[j]
    {
      LabelsIncrease(minDate, maxDate, segments, i, j);
    }
    forall i | 0 <= i < segments
      ensures r[i + 1] - r[i] == interval
    {
      LabelStep(minDate, maxDate, segments, i);
    }
  }
}
