/**
 * The rules behind one session's detail screen: the duration text, the
 * per-direction movement counts and bar widths, the accuracy and response
 * time bands, and which movements the timeline shows.
 */
module ExerciseDetail {
  import opened Directions
  import opened Sessions
  import opened Colors
  import opened ClockText
  import opened Collections
  import opened Sorting

  /** `SessionMetricsView.formatDuration`. */
  function FormatDuration(seconds: int): (t: string)
    ensures seconds >= 0 ==> t == Decimal(seconds / 60) + ":" + TwoDigits(seconds % 60)
    ensures seconds >= 0 ==>
      && |t| >= 4
      && t[|t| - 3] == ':'
      && (forall i :: 0 <= i < |t| && i != |t| - 3 ==> '0' <= t[i] <= '9')
      && ParseClock(t) == seconds
  {
    var n := if seconds >= 0 then seconds else 0;
    ClockRoundTrip(n);
    ClockParts(n);
    Clock(seconds)
  }

  /** One row of the distribution chart. */
  datatype DirectionStat = DirectionStat(direction: Direction, count: int, color: Color)

  /** How many of the movements went in direction `d`. */
  function CountOf(movements: seq<Movement>, d: Direction): (n: nat)
    ensures n <= |movements|
  {
    CountWhere(movements, (m: Movement) => m.direction == d)
  }

  /** The rows before sorting: up, down, left, right, each with its colour. */
  function UnsortedStats(movements: seq<Movement>): seq<DirectionStat> {
    [ DirectionStat(Up, CountOf(movements, Up), Blue),
      DirectionStat(Down, CountOf(movements, Down), Green),
      DirectionStat(Left, CountOf(movements, Left), Orange),
      DirectionStat(Right, CountOf(movements, Right), Purple) ]
  }

  function NegatedCount(s: DirectionStat): real {
    -(s.count as real)
  }

  /** Every movement is counted under exactly one direction. */
  lemma CountsCoverMovements(movements: seq<Movement>)
    ensures CountOf(movements, Up) + CountOf(movements, Down) + CountOf(movements, Left)
            + CountOf(movements, Right) == |movements|
  {
    CountPartition(movements, (m: Movement) => m.direction == Up,
      (m: Movement) => m.direction == Down, (m: Movement) => m.direction == Left,
      (m: Movement) => m.direction == Right);
  }

  function Direction(s: DirectionStat): Direction { s.direction }

  /**
   * `directionStats`: the four rows (up, down, left, right, each with its
   * count and colour) reordered by non-increasing count.
   */
  function DirectionStats(movements: seq<Movement>): (r: seq<DirectionStat>)
    ensures |r| == 4
    ensures multiset(r) == multiset(UnsortedStats(movements))
    ensures forall i, j :: 0 <= i < j < |r| ==> r[i].count >= r[j].count
    ensures DistinctBy(r, Direction)
  {
    var unsorted := UnsortedStats(movements);
    UnsortedDistinct(movements);
    SortKeepsDistinct(unsorted, NegatedCount, Direction);
    SortBy(unsorted, NegatedCount)
  }

  lemma UnsortedDistinct(movements: seq<Movement>)
    ensures DistinctBy(UnsortedStats(movements), Direction)
  {
    var u := UnsortedStats(movements);
    assert |u| == 4;
    assert u[0].direction == Up && u[1].direction == Down;
    assert u[2].direction == Left && u[3].direction == Right;
  }

  /** Each row carries the count of its own direction. */
  lemma DirectionStatsCounts(movements: seq<Movement>, i: int)
    requires 0 <= i < 4
    ensures DirectionStats(movements)[i].count == CountOf(movements, DirectionStats(movements)[i].direction)
  {
    var r := DirectionStats(movements);
    assert r[i] in multiset(UnsortedStats(movements));
  }

  /** Every direction has a row. */
  lemma DirectionStatsCover(movements: seq<Movement>, d: Direction)
    ensures exists i :: 0 <= i < 4 && DirectionStats(movements)[i].direction == d
  {
    var r := DirectionStats(movements);
    var unsorted := UnsortedStats(movements);
    var k := match d case Up => 0 case Down => 1 case Left => 2 case Right => 3;
    assert unsorted[k].direction == d;
    var i := IndexInPermutation(unsorted, r, k);
  }

  /** Where an element of `a` sits in a permutation `b` of it. */
  lemma IndexInPermutation(a: seq<DirectionStat>, b: seq<DirectionStat>, k: int) returns (i: int)
    requires multiset(a) == multiset(b) && 0 <= k < |a|
    ensures 0 <= i < |b| && b[i] == a[k]
  {
    assert a[k] in multiset(b);
    i :| 0 <= i < |b| && b[i] == a[k];
  }

  /** The sum of the counts of a list of rows. */
  function TotalCount(s: seq<DirectionStat>): int {
    if s == [] then 0 else s[0].count + TotalCount(s[1..])
  }

  lemma {:induction false} TotalCountAppend(a: seq<DirectionStat>, b: seq<DirectionStat>)
    ensures TotalCount(a + b) == TotalCount(a) + TotalCount(b)
  {
    if a == [] {
      assert a + b == b;
    } else {
      assert (a + b)[1..] == a[1..] + b;
      TotalCountAppend(a[1..], b);
    }
  }

  /** Reordering the rows does not change their total. */
  lemma {:induction false} TotalCountPermutation(a: seq<DirectionStat>, b: seq<DirectionStat>)
    requires multiset(a) == multiset(b)
    ensures TotalCount(a) == TotalCount(b)
    decreases |a|
  {
    if a == [] {
      assert |multiset(b)| == 0;
    } else {
      var x := a[0];
      assert x in multiset(b);
      var j :| 0 <= j < |b| && b[j] == x;
      var rest := b[..j] + b[j + 1..];
      assert b == b[..j] + ([x] + b[j + 1..]);
      TotalCountAppend(b[..j], [x] + b[j + 1..]);
      TotalCountAppend([x], b[j + 1..]);
      TotalCountAppend(b[..j], b[j + 1..]);
      assert a == [x] + a[1..];
      assert multiset(b) == multiset(b[..j]) + multiset{x} + multiset(b[j + 1..]);
      assert multiset(a[1..]) == multiset(a) - multiset{x};
      assert multiset(rest) == multiset(b[..j]) + multiset(b[j + 1..]);
      assert multiset(rest) == multiset(b) - multiset{x};
      TotalCountPermutation(a[1..], rest);
    }
  }

  lemma TotalCountOfFour(s: seq<DirectionStat>)
    requires |s| == 4
    ensures TotalCount(s) == s[0].count + s[1].count + s[2].count + s[3].count
  {
    assert s[3..][1..] == [];
    assert TotalCount(s[3..]) == s[3].count;
    assert s[2..][1..] == s[3..];
    assert TotalCount(s[2..]) == s[2].count + TotalCount(s[3..]);
    assert s[1..][1..] == s[2..];
    assert TotalCount(s[1..]) == s[1].count + TotalCount(s[2..]);
  }

  /** The rows' counts add up to the number of movements. */
  lemma DirectionStatsTotal(movements: seq<Movement>)
    ensures TotalCount(DirectionStats(movements)) == |movements|
  {
    var unsorted := UnsortedStats(movements);
    TotalCountPermutation(unsorted, DirectionStats(movements));
    TotalCountOfFour(unsorted);
    CountsCoverMovements(movements);
  }

  /**
   * The width of a bar: 0 when there is no positive maximum, otherwise the
   * count's share of the maximum, times the full width.
   */
  function CalculateWidth(count: int, maxCount: int, totalWidth: real): (w: real)
    ensures maxCount <= 0 ==> w == 0.0
    ensures maxCount > 0 ==> w * maxCount as real == totalWidth * count as real
    ensures maxCount > 0 && 0 <= count <= maxCount && totalWidth >= 0.0 ==> 0.0 <= w <= totalWidth
  {
    if maxCount <= 0 then 0.0 else totalWidth * count as real / maxCount as real
  }

  datatype Performance = Excellent | Good | NeedsWork

  /** The band of `AccuracyIndicator`: [80, 100], [60, 80), anything else. */
  function PerformanceBand(accuracy: real): (p: Performance)
    ensures p == Excellent <==> 80.0 <= accuracy <= 100.0
    ensures p == Good <==> 60.0 <= accuracy < 80.0
  {
    if 80.0 <= accuracy <= 100.0 then Excellent
    else if 60.0 <= accuracy < 80.0 then Good
    else NeedsWork
  }

  function PerformanceText(p: Performance): string {
    match p
    case Excellent => "Excellent"
    case Good => "Good"
    case NeedsWork => "Needs Work"
  }

  function PerformanceColor(p: Performance): Color {
    match p
    case Excellent => Green
    case Good => Orange
    case NeedsWork => Red
  }

  /** Every session accuracy falls in a band, and below 60 it needs work. */
  lemma SessionAccuracyBand(s: ExerciseSession)
    ensures Accuracy(s) < 60.0 <==> PerformanceBand(Accuracy(s)) == NeedsWork
  {
  }

  /** `TimelineItem.responseTimeColor`: under 1 s green, under 2 s orange, else red. */
  function ResponseTimeColor(responseTime: real): (c: Color)
    ensures c == Green <==> responseTime < 1.0
    ensures c == Orange <==> 1.0 <= responseTime < 2.0
    ensures c == Red <==> responseTime >= 2.0
  {
    if responseTime < 1.0 then Green
    else if responseTime < 2.0 then Orange
    else Red
  }

  /** The movements the timeline lists: the first six at most. */
  function TimelineMovements(movements: seq<Movement>): (shown: seq<Movement>)
    ensures |shown| == if |movements| <= 6 then |movements| else 6
    ensures shown <= movements
    ensures |shown| == |movements| <==> !ShowsAllButton(movements)
  {
    if |movements| <= 6 then movements else movements[..6]
  }

  /** Movements as the exercise screen records them: appended in time order. */
  predicate InTimeOrder(movements: seq<Movement>) {
    forall i, j :: 0 <= i < j < |movements| ==> movements[i].timestamp < movements[j].timestamp
  }

  /**
   * The timeline as written lists the oldest movements: with more than six
   * recorded, the most recent one is not shown, although the card's header
   * reads "Most Recent First".
   */
  lemma TimelineOmitsLatest(movements: seq<Movement>)
    requires |movements| > 6 && InTimeOrder(movements)
    ensures movements[|movements| - 1] !in TimelineMovements(movements)
  {
    var latest := movements[|movements| - 1];
    forall k | 0 <= k < 6
      ensures movements[k] != latest
    {
      assert movements[k].timestamp < latest.timestamp;
    }
  }

  /** The timeline the header describes: the six most recent movements, newest first. */
  function RecentTimeline(movements: seq<Movement>): (shown: seq<Movement>)
    ensures |shown| == if |movements| <= 6 then |movements| else 6
    ensures forall i :: 0 <= i < |shown| ==> shown[i] == movements[|movements| - 1 - i]
  {
    var n := if |movements| <= 6 then |movements| else 6;
    seq(n, i requires 0 <= i < n => movements[|movements| - 1 - i])
  }

  /**
   * For movements in time order, the corrected timeline starts with the most
   * recent movement, runs newest to oldest, and leaves out only older ones.
   */
  lemma RecentTimelineNewestFirst(movements: seq<Movement>)
    requires InTimeOrder(movements)
    ensures movements != [] ==> RecentTimeline(movements)[0] == movements[|movements| - 1]
    ensures var shown := RecentTimeline(movements);
      forall i, j :: 0 <= i < j < |shown| ==> shown[i].timestamp > shown[j].timestamp
    ensures var shown := RecentTimeline(movements);
      forall k :: 0 <= k < |movements| && movements[k] !in shown ==>
        forall i :: 0 <= i < |shown| ==> movements[k].timestamp < shown[i].timestamp
  {
    var shown := RecentTimeline(movements);
    forall k | |movements| - |shown| <= k < |movements|
      ensures movements[k] in shown
    {
      assert shown[|movements| - 1 - k] == movements[k];
    }
  }

  /** Whether the "Show All Movements" button appears. */
  predicate ShowsAllButton(movements: seq<Movement>) {
    |movements| > 6
  }

  /** `directionStats.map(\.count).max() ?? 1`. */
  function MaxCount(stats: seq<DirectionStat>): (m: int)
    ensures stats == [] ==> m == 1
    ensures stats != [] ==> (exists i :: 0 <= i < |stats| && m == stats[i].count)
    ensures forall i :: 0 <= i < |stats| ==> stats[i].count <= m
  {
    if stats == [] then 1
    else if |stats| == 1 then stats[0].count
    else
      var rest := MaxCount(stats[1..]);
      if stats[0].count >= rest then stats[0].count else rest
  }

  /**
   * Every bar of the distribution chart fits the available width: the counts
   * are non-negative and none exceeds the maximum.
   */
  lemma BarsFit(movements: seq<Movement>, totalWidth: real, i: int)
    requires totalWidth >= 0.0
    requires 0 <= i < 4
    ensures var stats := DirectionStats(movements);
      0.0 <= CalculateWidth(stats[i].count, MaxCount(stats), totalWidth) <= totalWidth
  {
    var stats := DirectionStats(movements);
    DirectionStatsCounts(movements, i);
    var m := MaxCount(stats);
    if m > 0 {
      assert 0 <= stats[i].count <= m;
    }
  }
}
