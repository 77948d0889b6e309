/**
 * The dashboard: progress towards ten sessions, mean accuracy as a
 * fraction, the accuracy-per-day chart and its axis labels.
 */
module Dashboard {
  import opened Sessions
  import opened Collections
  import opened Sorting
  import opened SessionMetrics
  import opened Axis

  /** The session-count goal of the progress ring. */
  const SessionGoal: real := 10.0

  /** `totalSessionsProgress`: the share of the ten-session goal reached, capped at 1. */
  function TotalSessionsProgress(sessions: seq<ExerciseSession>): (p: real)
    ensures 0.0 <= p <= 1.0
    ensures p == 1.0 <==> |sessions| >= 10
    ensures |sessions| < 10 ==> p * SessionGoal == |sessions| as real
  {
    var ratio := |sessions| as real / SessionGoal;
    if ratio < 1.0 then ratio else 1.0
  }

  /** `averageAccuracyProgress`: the mean accuracy as a fraction of 100 %. */
  function AverageAccuracyProgress(sessions: seq<ExerciseSession>): (p: real)
    ensures 0.0 <= p <= 1.0
    ensures sessions == [] ==> p == 0.0
    ensures p * 100.0 == MeanAccuracy(sessions)
  {
    MeanAccuracy(sessions) / 100.0
  }

  /** One point of the accuracy chart. */
  datatype DataPoint = DataPoint(date: real, averageAccuracy: real)

  /** The days on which some session took place, `startOfDay` being the calendar's. */
  ghost function Days(sessions: seq<ExerciseSession>, startOfDay: real -> real): set<real> {
    set s | s in sessions :: startOfDay(s.date)
  }

  /** The sessions of one day, in their recorded order. */
  function DayGroup(sessions: seq<ExerciseSession>, startOfDay: real -> real, day: real): (g: seq<ExerciseSession>)
    ensures forall s :: s in g <==> s in sessions && startOfDay(s.date) == day
  {
    Filter(sessions, (s: ExerciseSession) => startOfDay(s.date) == day)
  }

  /** `Dictionary(grouping:by:)` on the start of each session's day. */
  function GroupByDay(sessions: seq<ExerciseSession>, startOfDay: real -> real): (m: map<real, seq<ExerciseSession>>)
    ensures m.Keys == Days(sessions, startOfDay)
    ensures forall day :: day in m ==> m[day] == DayGroup(sessions, startOfDay, day) && m[day] != []
  {
    var days := set s | s in sessions :: startOfDay(s.date);
    map day | day in days :: DayGroup(sessions, startOfDay, day)
  }

  function PointDate(p: DataPoint): real { p.date }

  /** The loop over the grouped days: one point per day, in the dictionary's order. */
  method DayAverages(grouped: map<real, seq<ExerciseSession>>) returns (unsorted: seq<DataPoint>)
    requires forall day :: day in grouped ==> grouped[day] != []
    ensures forall i :: 0 <= i < |unsorted| ==>
      unsorted[i].date in grouped && unsorted[i].averageAccuracy == MeanAccuracy(grouped[unsorted[i].date])
    ensures forall day :: day in grouped ==> exists i :: 0 <= i < |unsorted| && unsorted[i].date == day
    ensures DistinctBy(unsorted, PointDate)
  {
    var remaining := grouped.Keys;
    unsorted := [];
    while remaining != {}
      invariant remaining <= grouped.Keys
      invariant forall i :: 0 <= i < |unsorted| ==>
        && unsorted[i].date in grouped && unsorted[i].date !in remaining
        && unsorted[i].averageAccuracy == MeanAccuracy(grouped[unsorted[i].date])
      invariant forall day :: day in grouped && day !in remaining ==>
        exists i :: 0 <= i < |unsorted| && unsorted[i].date == day
      invariant DistinctBy(unsorted, PointDate)
      decreases |remaining|
    {
      NonEmptyHasMember(remaining);
      var day :| day in remaining;
      var group := grouped[day];
      var averageAccuracy := Sum(Accuracies(group)) / |group| as real;
      ghost var before := unsorted;
      unsorted := unsorted + [DataPoint(day, averageAccuracy)];
      remaining := remaining - {day};
      CoverageStep(grouped.Keys, remaining, before, day, averageAccuracy);
    }
  }

  lemma NonEmptyHasMember(s: set<real>)
    requires s != {}
    ensures exists x :: x in s
  {
    if forall x :: x !in s {
      assert false;
    }
  }

  lemma CoverageStep(keys: set<real>, remaining: set<real>, before: seq<DataPoint>, day: real, average: real)
    requires forall d :: d in keys && d !in remaining + {day} ==> exists i :: 0 <= i < |before| && before[i].date == d
    ensures forall d :: d in keys && d !in remaining ==>
      exists i :: 0 <= i < |before + [DataPoint(day, average)]| && (before + [DataPoint(day, average)])[i].date == d
  {
    var after := before + [DataPoint(day, average)];
    forall d | d in keys && d !in remaining
      ensures exists i :: 0 <= i < |after| && after[i].date == d
    {
      if d == day {
        assert after[|before|].date == d;
      } else {
        var i :| 0 <= i < |before| && before[i].date == d;
        assert after[i] == before[i];
      }
    }
  }

  /**
   * `dataPoints`: one point per day on which a session took place, holding
   * that day's mean session accuracy, ordered by strictly increasing day.
   */
  method DataPoints(sessions: seq<ExerciseSession>, startOfDay: real -> real) returns (points: seq<DataPoint>)
    ensures forall i, j :: 0 <= i < j < |points| ==> points[i].date < points[j].date
    ensures forall i :: 0 <= i < |points| ==>
      && points[i].date in Days(sessions, startOfDay)
      && points[i].averageAccuracy == MeanAccuracy(DayGroup(sessions, startOfDay, points[i].date))
      && 0.0 <= points[i].averageAccuracy <= 100.0
    ensures forall s :: s in sessions ==>
      exists i :: 0 <= i < |points| && points[i].date == startOfDay(s.date)
  {
    var grouped := GroupByDay(sessions, startOfDay);
    var unsorted := DayAverages(grouped);
    points := SortBy(unsorted, PointDate);
    SortedPoints(unsorted, points);
    PointsDescribeDays(sessions, startOfDay, grouped, unsorted, points);
  }

  /**
   * Points that are exactly the per-group averages describe the days: each
   * holds a day with a session and that day's mean accuracy, and every
   * session's day has a point.
   */
  lemma PointsDescribeDays(sessions: seq<ExerciseSession>, startOfDay: real -> real,
                           grouped: map<real, seq<ExerciseSession>>, unsorted: seq<DataPoint>, points: seq<DataPoint>)
    requires grouped == GroupByDay(sessions, startOfDay)
    requires forall i :: 0 <= i < |unsorted| ==>
      unsorted[i].date in grouped && unsorted[i].averageAccuracy == MeanAccuracy(grouped[unsorted[i].date])
    requires forall day :: day in grouped ==> exists i :: 0 <= i < |unsorted| && unsorted[i].date == day
    requires forall p :: p in points <==> p in unsorted
    ensures forall i :: 0 <= i < |points| ==>
      && points[i].date in Days(sessions, startOfDay)
      && points[i].averageAccuracy == MeanAccuracy(DayGroup(sessions, startOfDay, points[i].date))
      && 0.0 <= points[i].averageAccuracy <= 100.0
    ensures forall s :: s in sessions ==>
      exists i :: 0 <= i < |points| && points[i].date == startOfDay(s.date)
  {
    forall i | 0 <= i < |points|
      ensures points[i].date in Days(sessions, startOfDay)
      ensures points[i].averageAccuracy == MeanAccuracy(DayGroup(sessions, startOfDay, points[i].date))
    {
      assert points[i] in unsorted;
      var k :| 0 <= k < |unsorted| && unsorted[k] == points[i];
    }
    forall s | s in sessions
      ensures exists i :: 0 <= i < |points| && points[i].date == startOfDay(s.date)
    {
      assert startOfDay(s.date) in Days(sessions, startOfDay);
      var k :| 0 <= k < |unsorted| && unsorted[k].date == startOfDay(s.date);
      assert unsorted[k] in points;
    }
  }

  /** Sorting points with distinct days orders them strictly and keeps exactly the same points. */
  lemma SortedPoints(unsorted: seq<DataPoint>, points: seq<DataPoint>)
    requires DistinctBy(unsorted, PointDate)
    requires points == SortBy(unsorted, PointDate)
    ensures forall i, j :: 0 <= i < j < |points| ==> points[i].date < points[j].date
    ensures forall p :: p in points <==> p in unsorted
  {
    SortKeepsDistinct(unsorted, PointDate, PointDate);
    SortedDistinctIsStrict(points, PointDate);
    assert forall p :: p in points <==> p in multiset(unsorted);
  }

  /** `xAxisValues`: seven labels over the span of all session dates. */
  method XAxisValues(sessions: seq<ExerciseSession>) returns (r: seq<real>)
    ensures var dates := Map(sessions, (s: ExerciseSession) => s.date);
      if dates == [] || SeqMin(dates) == SeqMax(dates) then r == dates
      else (&& |r| == 7 && r[0] == SeqMin(dates) && r[6] == SeqMax(dates)
            && (forall i :: 0 <= i < 6 ==> r[i] < r[i + 1])
            && (forall i :: 0 <= i < 6 ==> r[i + 1] - r[i] == (SeqMax(dates) - SeqMin(dates)) / 6.0))
  {
    r := EvenlySpacedLabels(Map(sessions, (s: ExerciseSession) => s.date), 6);
  }
}
