/** Aggregates over a list of sessions that several screens share. */
module SessionMetrics {
  import opened Sessions
  import opened Collections

  function Accuracies(sessions: seq<ExerciseSession>): seq<real> {
    Map(sessions, Accuracy)
  }

  /**
   * `accuracies.isEmpty ? 0 : accuracies.reduce(0, +) / count`: the mean
   * session accuracy, 0 for no sessions.
   */
  function MeanAccuracy(sessions: seq<ExerciseSession>): (m: real)
    ensures 0.0 <= m <= 100.0
    ensures sessions == [] ==> m == 0.0
    ensures sessions != [] ==> m * |sessions| as real == Sum(Accuracies(sessions))
  {
    if sessions == [] then 0.0
    else
      MeanBounds(Accuracies(sessions), 0.0, 100.0);
      Sum(Accuracies(sessions)) / |sessions| as real
  }

  /** The mean accuracy does not depend on the order of the sessions. */
  lemma MeanAccuracyPermutation(a: seq<ExerciseSession>, b: seq<ExerciseSession>)
    requires multiset(a) == multiset(b)
    ensures MeanAccuracy(a) == MeanAccuracy(b)
  {
    assert |a| == |multiset(a)| == |b|;
    SumMapPermutation(a, b, Accuracy);
  }

  /** `map { $0.duration }.reduce(0, +)`. */
  function TotalDuration(sessions: seq<ExerciseSession>): int {
    SumInt(Map(sessions, (s: ExerciseSession) => s.duration))
  }

  /** The total over two runs of sessions is the sum of their totals. */
  lemma {:induction false} TotalDurationAppend(a: seq<ExerciseSession>, b: seq<ExerciseSession>)
    ensures TotalDuration(a + b) == TotalDuration(a) + TotalDuration(b)
    decreases |b|
  {
    if b == [] {
      assert a + b == a;
    } else {
      var b' := b[..|b| - 1];
      assert (a + b)[..|a + b| - 1] == a + b';
      TotalDurationAppend(a, b');
      assert Map(a + b, (s: ExerciseSession) => s.duration)[..|a + b| - 1]
          == Map(a + b', (s: ExerciseSession) => s.duration);
      assert Map(b, (s: ExerciseSession) => s.duration)[..|b| - 1]
          == Map(b', (s: ExerciseSession) => s.duration);
    }
  }

  /** Sessions of non-negative length add up to a non-negative total. */
  lemma {:induction false} TotalDurationNonNegative(sessions: seq<ExerciseSession>)
    requires forall i :: 0 <= i < |sessions| ==> sessions[i].duration >= 0
    ensures TotalDuration(sessions) >= 0
  {
    if sessions != [] {
      var init := sessions[..|sessions| - 1];
      TotalDurationNonNegative(init);
      assert Map(sessions, (s: ExerciseSession) => s.duration)[..|sessions| - 1]
          == Map(init, (s: ExerciseSession) => s.duration);
    }
  }

  /** The total duration does not depend on the order of the sessions. */
  lemma TotalDurationPermutation(a: seq<ExerciseSession>, b: seq<ExerciseSession>)
    requires multiset(a) == multiset(b)
    ensures TotalDuration(a) == TotalDuration(b)
  {
    SumIntMapPermutation(a, b, (s: ExerciseSession) => s.duration);
  }
}
