/** The session history list: its sort options and its accuracy badge. */
module Summary {
  import opened Sessions
  import opened Colors
  import opened Sorting

  datatype SortOption = ByDate | ByAccuracy | ByDuration | ByDizziness

  /** The picker label of each option. */
  function Description(o: SortOption): (t: string)
    ensures o == ByDate <==> t == "Date"
    ensures o == ByAccuracy <==> t == "Accuracy"
    ensures o == ByDuration <==> t == "Duration"
    ensures o == ByDizziness <==> t == "Dizziness Level"
  {
    match o
    case ByDate => "Date"
    case ByAccuracy => "Accuracy"
    case ByDuration => "Duration"
    case ByDizziness => "Dizziness Level"
  }

  /** Different options have different labels, so the picker never shows two alike. */
  lemma DescriptionsDistinct(o1: SortOption, o2: SortOption)
    requires o1 != o2
    ensures Description(o1) != Description(o2)
  {
  }

  /** The option's comparison as a key sorted ascending; descending orders negate. */
  function SortKey(o: SortOption): ExerciseSession -> real {
    match o
    case ByDate => (s: ExerciseSession) => -s.date
    case ByAccuracy => (s: ExerciseSession) => -Accuracy(s)
    case ByDuration => (s: ExerciseSession) => -(s.duration as real)
    case ByDizziness => (s: ExerciseSession) => s.dizzinessLevel
  }

  /**
   * `sortedSessions`: the same sessions, newest first, most accurate first,
   * longest first, or least dizzy first.
   */
  function SortedSessions(sessions: seq<ExerciseSession>, o: SortOption): (r: seq<ExerciseSession>)
    ensures multiset(r) == multiset(sessions)
    ensures |r| == |sessions|
    ensures o == ByDate ==> forall i, j :: 0 <= i < j < |r| ==> r[i].date >= r[j].date
    ensures o == ByAccuracy ==> forall i, j :: 0 <= i < j < |r| ==> Accuracy(r[i]) >= Accuracy(r[j])
    ensures o == ByDuration ==> forall i, j :: 0 <= i < j < |r| ==> r[i].duration >= r[j].duration
    ensures o == ByDizziness ==> forall i, j :: 0 <= i < j < |r| ==> r[i].dizzinessLevel <= r[j].dizzinessLevel
  {
    var r := SortBy(sessions, SortKey(o));
    assert forall i, j :: 0 <= i < j < |r| ==> SortKey(o)(r[i]) <= SortKey(o)(r[j]);
    r
  }

  /** `AccuracyBadge.color`: [80, 100] green, [60, 80) yellow, anything else red. */
  function BadgeColor(accuracy: real): (c: Color)
    ensures c == Green <==> 80.0 <= accuracy <= 100.0
    ensures c == Yellow <==> 60.0 <= accuracy < 80.0
    ensures c == Red <==> !(60.0 <= accuracy <= 100.0)
  {
    if 80.0 <= accuracy <= 100.0 then Green
    else if 60.0 <= accuracy < 80.0 then Yellow
    else Red
  }

  /** A session's badge is red exactly when its accuracy is below 60. */
  lemma SessionBadgeRedBelowSixty(s: ExerciseSession)
    ensures BadgeColor(Accuracy(s)) == Red <==> Accuracy(s) < 60.0
  {
  }
}
