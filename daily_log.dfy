/**
 * The daily log: the sessions of the chosen day, week, month or year,
 * oldest first, with their mean accuracy, total duration and axis labels.
 */
module DailyLog {
  import opened Wrappers
  import opened Sessions
  import opened Collections
  import opened Sorting
  import opened SessionMetrics
  import opened Axis

  datatype Granularity = Day | WeekOfYear | Month | Year

  /** The picker's view names; any other name selects nothing. */
  function PeriodFor(view: string): (g: Option<Granularity>)
    ensures g == Some(Day) <==> view == "Daily"
    ensures g == Some(WeekOfYear) <==> view == "Weekly"
    ensures g == Some(Month) <==> view == "Monthly"
    ensures g == Some(Year) <==> view == "Yearly"
  {
    if view == "Daily" then Some(Day)
    else if view == "Weekly" then Some(WeekOfYear)
    else if view == "Monthly" then Some(Month)
    else if view == "Yearly" then Some(Year)
    else None
  }

  function SessionDate(s: ExerciseSession): real { s.date }

  /** The filter's test: the session's date is in the selected period at granularity `g`. */
  function InPeriod(samePeriod: (Granularity, real) -> bool, g: Granularity): ExerciseSession -> bool {
    (s: ExerciseSession) => samePeriod(g, s.date)
  }

  /**
   * `filteredData`: the sessions whose date falls in the same period as the
   * selected date (`samePeriod` is the calendar's test at the view's
   * granularity), oldest first; an unknown view shows nothing.
   */
  function FilteredData(sessions: seq<ExerciseSession>, view: string,
                        samePeriod: (Granularity, real) -> bool): (r: seq<ExerciseSession>)
    ensures PeriodFor(view) == None ==> r == []
    ensures forall s :: s in r <==>
      s in sessions && PeriodFor(view).Some? && samePeriod(PeriodFor(view).value, s.date)
    ensures forall i, j :: 0 <= i < j < |r| ==> r[i].date <= r[j].date
    ensures forall s :: multiset(r)[s] ==
                       if PeriodFor(view).Some? && samePeriod(PeriodFor(view).value, s.date)
                       then multiset(sessions)[s] else 0
  {
    match PeriodFor(view)
    case None => []
    case Some(g) =>
      var selected := Filter(sessions, InPeriod(samePeriod, g));
      var r := SortBy(selected, SessionDate);
      SortedByDate(selected, r);
      r
  }

  /** Sorting by date keeps exactly the same sessions and orders them oldest first. */
  lemma SortedByDate(selected: seq<ExerciseSession>, r: seq<ExerciseSession>)
    requires r == SortBy(selected, SessionDate)
    ensures forall s :: s in r <==> s in selected
    ensures forall i, j :: 0 <= i < j < |r| ==> r[i].date <= r[j].date
  {
    assert forall s :: s in r <==> s in multiset(selected);
    assert forall i, j :: 0 <= i < j < |r| ==> SessionDate(r[i]) <= SessionDate(r[j]);
  }

  /** `averageAccuracy`: the mean accuracy of the shown sessions, 0 when none are shown. */
  function AverageAccuracy(sessions: seq<ExerciseSession>, view: string,
                           samePeriod: (Granularity, real) -> bool): (a: real)
    ensures 0.0 <= a <= 100.0
    ensures FilteredData(sessions, view, samePeriod) == [] ==> a == 0.0
    ensures PeriodFor(view) == None ==> a == 0.0
    ensures a == MeanAccuracy(FilteredData(sessions, view, samePeriod))
  {
    MeanAccuracy(FilteredData(sessions, view, samePeriod))
  }

  /** `totalDuration`: the summed durations of the shown sessions. */
  function TotalShownDuration(sessions: seq<ExerciseSession>, view: string,
                              samePeriod: (Granularity, real) -> bool): (t: int)
    ensures PeriodFor(view) == None ==> t == 0
    ensures t == TotalDuration(FilteredData(sessions, view, samePeriod))
  {
    TotalDuration(FilteredData(sessions, view, samePeriod))
  }

  /**
   * The figures shown do not depend on the date sort: the mean accuracy and
   * the total duration are those of the period's sessions in history order.
   */
  lemma ShownFiguresIgnoreOrder(sessions: seq<ExerciseSession>, view: string,
                                samePeriod: (Granularity, real) -> bool)
    requires PeriodFor(view).Some?
    ensures var inPeriod := Filter(sessions, InPeriod(samePeriod, PeriodFor(view).value));
      && AverageAccuracy(sessions, view, samePeriod) == MeanAccuracy(inPeriod)
      && TotalShownDuration(sessions, view, samePeriod) == TotalDuration(inPeriod)
  {
    var shown := FilteredData(sessions, view, samePeriod);
    var inPeriod := Filter(sessions, InPeriod(samePeriod, PeriodFor(view).value));
    assert multiset(shown) == multiset(inPeriod) by {
      forall s
        ensures multiset(shown)[s] == multiset(inPeriod)[s]
      {
        if s !in sessions {
          assert s !in inPeriod && s !in shown;
        }
      }
    }
    MeanAccuracyPermutation(shown, inPeriod);
    TotalDurationPermutation(shown, inPeriod);
  }

  /** With no negative durations recorded, the shown total is never negative. */
  lemma ShownDurationNonNegative(sessions: seq<ExerciseSession>, view: string,
                                 samePeriod: (Granularity, real) -> bool)
    requires forall i :: 0 <= i < |sessions| ==> sessions[i].duration >= 0
    ensures TotalShownDuration(sessions, view, samePeriod) >= 0
  {
    var shown := FilteredData(sessions, view, samePeriod);
    forall i | 0 <= i < |shown|
      ensures shown[i].duration >= 0
    {
      assert shown[i] in sessions;
    }
    TotalDurationNonNegative(shown);
  }

  /** `xAxisValues`: five labels over the span of the shown dates. */
  method XAxisValues(sessions: seq<ExerciseSession>, view: string,
                     samePeriod: (Granularity, real) -> bool) returns (r: seq<real>)
    ensures var dates := Map(FilteredData(sessions, view, samePeriod), SessionDate);
      if dates == [] || SeqMin(dates) == SeqMax(dates) then r == dates
      else (&& |r| == 5 && r[0] == SeqMin(dates) && r[4] == SeqMax(dates)
            && (forall i :: 0 <= i < 4 ==> r[i] < r[i + 1])
            && (forall i :: 0 <= i < 4 ==> r[i + 1] - r[i] == (SeqMax(dates) - SeqMin(dates)) / 4.0))
  {
    r := EvenlySpacedLabels(Map(FilteredData(sessions, view, samePeriod), SessionDate), 4);
  }
}
