# VertiPro exercise engine, modelled in Dafny

VertiPro is an iOS app for vestibular rehabilitation. A patient sees arrows
(up, down, left, right) and turns their head towards each one. The front
camera's face tracking reports pitch and yaw, and the app scores every turn
that matches the arrow. When the timer runs out, the app saves the session
and shows it in the history screens.

This project models the engine behind that loop, plus the arithmetic of the
history screens:

- the four-case `Direction` enum and its raw values (`direction.dfy`);
- the face-tracking classifier (`head_tracking.dfy`). It is a debounced
  filter with a centre zone, a 0.3 s centre hold that re-arms detection, and
  a dominant-axis rule. Beside it sits the per-sample movement quality score;
- the target sequencer (`direction_sequence.dfy`): a fixed four-step cycle
  per head-movement pattern, a wrapping cursor, and a speed → dwell-time
  table;
- the session record's `accuracy` and `headTurnsPerMinute`
  (`exercise_session.dfy`);
- the exercise screen's controller (`exercise_view.dfy`). It covers start,
  the one-second countdown, scoring a reported direction against the target,
  the next target, and stop, which builds and saves the session;
- the two alternative detectors: the hold-to-confirm AR coordinator
  (`ar_coordinator.dfy`) and the rate-limited Core Motion classifier
  (`motion_manager.dfy`);
- the history screens' helpers:
  - `formatting.dfy`: the "m:ss" text;
  - `exercise_detail.dfy`: per-direction counts, bar widths, bands and the
    timeline;
  - `exercise_summary.dfy`: sorting and the badge colour;
  - `exercise_stats.dfy`: mode and movement-mix counts, ring chart arcs;
  - `daily_movement_type.dfy`: the counting loop;
  - `dashboard.dfy`: progress, per-day accuracy points and axis labels;
  - `daily_log.dfy`: period filter, averages and axis labels;
  - `clinical_insights.dfy`: the insight remarks.

Shared pieces:

- `collections.dfy` holds Swift's `filter`, `count`, `contains`, `map` and
  `reduce(0, +)`.
- `sorting.dfy` holds a sort by a real key, which stands for `sorted(by:)`.
- `session_metrics.dfy` holds the mean accuracy and total duration.
- `axis.dfy` holds the evenly spaced axis labels.
- `colors.dfy` holds the colour names.
- `wrappers.dfy` holds `Option`.

Modelling conventions:

- Angles and times are `real`.
- The current time is passed in as `now`.
- `Calendar` tests (start of day, same week/month/year) are function-typed
  parameters.
- Swift's truncating `/` and `%` on `Int` are written out (`ClockText.Quot`,
  `ClockText.Rem`).
- Timers and main-queue dispatch become explicit method calls:
  - `Tick` is one firing of the one-second timer;
  - `NextTarget` is one firing of the target timer;
  - `Sample` is one face-anchor update, delivered to `OnDirectionChanged` when
    the tracker reports a direction.

Each stateful source class is a Dafny class whose fields are the source's
fields. Its update method is proved equal to a pure `Step` function on a
value of its state, and the properties of a stream of samples are proved
about `Step`.

## Model

| member | source | states |
|---|---|---|
| Directions.FromRawValue | VertiPro/Direction.swift:10-15 | decoding succeeds exactly for "left", "right", "up", "down", and the decoded case's raw value is the input string |
| Directions.DecodeEncode | VertiPro/Direction.swift:10 | decoding a direction's raw value gives that direction back |
| Directions.RawValueInjective | VertiPro/Direction.swift:10-14 | different cases have different raw values |
| Directions.AllCasesComplete | VertiPro/Direction.swift:10-15 | `allCases` has four entries, contains every direction and repeats none |
| Directions.AxisPartition | VertiPro/Direction.swift:11-14 | every direction is either vertical (up/down) or horizontal (left/right), never both |
| HeadTracking.DetectDirection | VertiPro/HeadTrackingManager.swift:151-171 | pitch decides only when abs(pitch) > abs(yaw), so ties go to yaw; up iff pitch > 5, down iff pitch < −5, left iff yaw > 5, right iff yaw < −5; a detected direction is never a centred sample |
| HeadTracking.RelevantAngle | VertiPro/HeadTrackingManager.swift:205-212 | pitch for up/down and yaw for left/right, with a flag that is true iff that axis strictly dominates |
| HeadTracking.ValidateMovement | VertiPro/HeadTrackingManager.swift:187-203 | a wrong or tied axis gives (incorrect, 0); otherwise correct iff abs(angle) ≤ 5 and borderline iff 5 < abs(angle) ≤ 8; accuracy is in [0, 100] and is 0 unless correct; correct accuracy is (1 − abs(angle)/5)·100 |
| HeadTracking.Step | VertiPro/HeadTrackingManager.swift:89-185 | no change while not tracking; a centred sample never reports and leaves the feedback alone; the first centred sample records the centre start time; a non-centred sample clears it and stores the feedback; a direction is reported iff tracking, not centred, the latch is clear and a direction is detected, and reporting sets the latch and the current direction; a centred sample ≥ 0.3 s after the centre start clears the latch, and nothing else without a report changes it |
| HeadTracking.ReportsSeparatedByCentreHold | VertiPro/HeadTrackingManager.swift:110-142 | between any two reports in a sample stream there is a run of centred samples, strictly between them, spanning at least 0.3 s |
| HeadTracking.OneReportPerExcursion | VertiPro/HeadTrackingManager.swift:142 | two reports with no centred sample between them cannot happen: at most one report per excursion |
| HeadTracking.CentreHoldRearms | VertiPro/HeadTrackingManager.swift:110-183 | after a sample outside the centre, a centred run spanning at least 0.3 s, and then a sample showing a direction, that direction is reported whatever was reported before |
| HeadTracking.TrackingPersists | VertiPro/HeadTrackingManager.swift:89-93 | a stream of samples never switches tracking on or off |
| HeadTracking.HeadTrackingManager.constructor | VertiPro/HeadTrackingManager.swift:6-50 | a new manager is not tracking, faces up, has a clear latch and no centre start time |
| HeadTracking.HeadTrackingManager.StartTracking | VertiPro/HeadTrackingManager.swift:66-80 | already tracking or no face-tracking support: nothing changes; otherwise tracking starts and the latch is cleared |
| HeadTracking.HeadTrackingManager.StopTracking | VertiPro/HeadTrackingManager.swift:82-87 | tracking stops and nothing else changes |
| HeadTracking.HeadTrackingManager.SessionDidUpdate | VertiPro/HeadTrackingManager.swift:89-185 | the new fields and the reported direction are exactly `Step` of the old fields |
| Sequencing.PatternFor | VertiPro/DirectionSequence.swift:17-24 | vertical iff "Up & Down", horizontal iff "Left & Right", combined for any other string |
| Sequencing.Cycle | VertiPro/DirectionSequence.swift:29-41 | four steps; vertical uses only up/down, horizontal only left/right, combined visits all four |
| Sequencing.NoImmediateRepeat | VertiPro/DirectionSequence.swift:29-47 | two consecutive targets differ, including across the wrap-around |
| Sequencing.DurationFor | VertiPro/DirectionSequence.swift:49-58 | dwell time is between 0.5 s and 3 s: 3 s at speed 0, 0.5 s at speed 4, and 1.5 s for any speed other than 0–4 |
| Sequencing.DurationDecreasing | VertiPro/DirectionSequence.swift:49-58 | on speeds 0 to 4 a higher speed always gives a shorter dwell time, and from speed 1 on each step is half a second shorter (2, 1.5, 1, 0.5 s) |
| Sequencing.DirectionSequence.constructor | VertiPro/DirectionSequence.swift:17-27 | the sequence holds the pattern's cycle with the cursor at 0 |
| Sequencing.DirectionSequence.GenerateSequence | VertiPro/DirectionSequence.swift:29-41 | installs the pattern's cycle |
| Sequencing.DirectionSequence.GetNextDirection | VertiPro/DirectionSequence.swift:43-47 | the k-th call returns step k mod 4 of the cycle, and the cursor stays in [0, 4) |
| Sequencing.DirectionSequence.DirectionDuration | VertiPro/DirectionSequence.swift:49-58 | the dwell time of the sequence's speed |
| Sequencing.FifthTargetRepeatsFirst | VertiPro/DirectionSequence.swift:11-47 | a fresh sequence's first target is the cycle's first step and its fifth target equals its first |
| Sessions.HeadTurnsPerMinute | VertiPro/ExerciseSession.swift:22-25 | with a positive duration the rate times the minutes is the score; otherwise 0 |
| Sessions.Accuracy | VertiPro/ExerciseSession.swift:27-36 | always in [0, 100]; 0 without targets; exactly score/targets·100 when 0 ≤ score ≤ targets; 100 when score > targets > 0 |
| Exercise.FinishedAccuracyAllOrNothing | VertiPro/ExerciseView.swift:250-257 | a session saved by the controller has as many targets as points, so its accuracy is 100 if it scored and 0 otherwise |
| Exercise.ExerciseController.constructor | VertiPro/ExerciseView.swift:5-32 | the screen starts inactive with score 0, the full timer, no movements, up as target and no sequence |
| Exercise.ExerciseController.Start | VertiPro/ExerciseView.swift:218-244 | active, score 0, timer full, no movements, no targets, a fresh sequence for the pattern and speed, the callback installed, the first target shown at `now`, the tracker started |
| Exercise.ExerciseController.Reset | VertiPro/ExerciseView.swift:218-242 | active, counters zeroed, a fresh sequence for the pattern and speed, the callback installed, the first target of the cycle shown at `now`; saved sessions untouched |
| Exercise.ExerciseController.ClearCounters | VertiPro/ExerciseView.swift:219-223 | score 0, timer full, no movements, no targets, target time `now` |
| Exercise.ExerciseController.OnDirectionChanged | VertiPro/ExerciseView.swift:230-240 | a direction equal to the target adds one point and appends one movement timed from the target's appearance; any other direction changes nothing; score stays equal to the number of movements |
| Exercise.ExerciseController.Sample | VertiPro/HeadTrackingManager.swift:173-182 | the tracker steps once, and a reported direction is passed to the callback exactly once |
| Exercise.ExerciseController.Stop | VertiPro/ExerciseView.swift:246-262 | inactive, tracker stopped, results shown; the saved session has the elapsed time, which lies in [0, duration], the score, targets equal to the movement count, and the movements |
| Exercise.ExerciseController.Tick | VertiPro/ExerciseView.swift:264-277 | inactive: nothing at all changes; active with time left: one second less and nothing else changes; active at 0: exactly what stop does, with a saved session lasting the full duration and holding the recorded movements; the timer never goes negative |
| Exercise.ExerciseController.NextTarget | VertiPro/ExerciseView.swift:279-293 | only while active: the target becomes the sequence's next direction and its appearance time becomes `now`; while inactive neither the screen nor the sequence changes |
| ClockText.Rem | VertiPro/ExerciseView.swift:203-204 | Swift's remainder: quotient·60 + remainder is the input, and the remainder takes the input's sign |
| ClockText.Decimal | VertiPro/ExerciseView.swift:205 | "%d" of a natural number: only digits, a single digit exactly below 10, and no leading zero for a positive number |
| ClockText.ClockRoundTrip | VertiPro/ExerciseView.swift:202-206 | for non-negative seconds the text is digits, a colon and exactly two digits, and reading it back gives the seconds |
| ClockText.DecimalValue | VertiPro/ExerciseView.swift:205 | the decimal digits of a number read back as that number |
| ClockText.TwoDigitsValue | VertiPro/ExerciseView.swift:205 | "%02d" of 0–59 is two digits that read back as the number |
| HoldToConfirm.Step | ARViewContainer.swift:13-72 | advance iff the target is achieved, the same target was already held, and 0.5 s have passed; an advance or a miss resets both fields; a first achievement records the target and the time; the two fields are both set or both empty |
| HoldToConfirm.NoConsecutiveAdvances | ARViewContainer.swift:50-63 | two successive samples never both advance |
| HoldToConfirm.AdvanceNeedsFullHold | ARViewContainer.swift:33-63 | an advance comes only after an unbroken run of achieved samples for that target lasting at least 0.5 s |
| HoldToConfirm.Coordinator.constructor | ARViewContainer.swift:9-11 | nothing held yet |
| HoldToConfirm.Coordinator.SessionDidUpdate | ARViewContainer.swift:13-72 | the new fields and the advance flag are exactly `Step` of the old fields |
| Motion.Classify | VertiPro/MotionManager.swift:56-60 | yaw beyond 0.2 gives left (positive) or right; otherwise pitch more than 0.2 from π/2 gives down (above) or up; otherwise nothing |
| Motion.Step | VertiPro/MotionManager.swift:38-70 | a report iff at least 0.2 s passed and the classified direction differs from the current one; a report updates the direction and the time, and nothing else ever changes |
| Motion.SuccessiveReportsDiffer | VertiPro/MotionManager.swift:41-68 | two successive reports are different directions and at least 0.2 s apart |
| Motion.MotionManager.constructor | VertiPro/MotionManager.swift:5-20 | the manager starts facing up |
| Motion.MotionManager.DidReceiveMotion | VertiPro/MotionManager.swift:38-70 | the new fields and the report are exactly `Step` of the old fields |
| ExerciseDetail.FormatDuration | VertiPro/ExerciseDetailView.swift:105-109 | for non-negative seconds the text is the minutes in decimal, a colon and the seconds as `%02d`: digits everywhere but a colon three from the end, and it reads back as the seconds |
| ExerciseDetail.DirectionStats | VertiPro/ExerciseDetailView.swift:240-251 | four rows, a permutation of up, down, left, right with their counts and colours, ordered by non-increasing count, no direction twice |
| ExerciseDetail.DirectionStatsCounts | VertiPro/ExerciseDetailView.swift:241-249 | each row's count is the number of movements in its direction |
| ExerciseDetail.DirectionStatsCover | VertiPro/ExerciseDetailView.swift:244-249 | every direction has a row |
| ExerciseDetail.DirectionStatsTotal | VertiPro/ExerciseDetailView.swift:241-250 | the rows' counts add up to the number of movements |
| ExerciseDetail.CountsCoverMovements | VertiPro/ExerciseDetailView.swift:241-243 | every movement is counted under exactly one direction |
| ExerciseDetail.TotalCountPermutation | VertiPro/ExerciseDetailView.swift:250 | reordering the rows keeps their total |
| ExerciseDetail.CalculateWidth | VertiPro/ExerciseDetailView.swift:300-303 | 0 without a positive maximum; otherwise width·max = total·count, and 0 ≤ width ≤ total when 0 ≤ count ≤ max |
| ExerciseDetail.MaxCount | VertiPro/ExerciseDetailView.swift:280 | the largest count, which is one of the counts; 1 when there are none |
| ExerciseDetail.BarsFit | VertiPro/ExerciseDetailView.swift:275-281 | every bar of the chart is between 0 and the full width |
| ExerciseDetail.PerformanceBand | VertiPro/ExerciseDetailView.swift:145-159 | Excellent iff accuracy in [80, 100], Good iff in [60, 80), Needs Work otherwise |
| ExerciseDetail.ResponseTimeColor | VertiPro/ExerciseDetailView.swift:391-397 | green iff under 1 s, orange iff in [1, 2), red iff 2 s or more |
| ExerciseDetail.TimelineMovements | VertiPro/ExerciseDetailView.swift:334-348 | the first min(6, n) movements of the list, in order; all of them iff the "Show All" button is hidden |
| ExerciseDetail.TimelineOmitsLatest | VertiPro/ExerciseDetailView.swift:328-339 | with more than six movements in time order, the timeline as written does not show the most recent one |
| ExerciseDetail.RecentTimelineNewestFirst | VertiPro/ExerciseDetailView.swift:328 | the corrected timeline of movements in time order starts with the latest, runs strictly newest to oldest, and leaves out only movements older than every shown one |
| ExerciseDetail.RecentTimeline | VertiPro/ExerciseDetailView.swift:328 | the min(6, n) last movements in reverse order |
| Summary.Description | VertiPro/ExerciseSummaryView.swift:14-21 | the labels are "Date", "Accuracy", "Duration" and "Dizziness Level", each for exactly its option |
| Summary.DescriptionsDistinct | VertiPro/ExerciseSummaryView.swift:14-21 | different options have different labels |
| Summary.SortedSessions | VertiPro/ExerciseSummaryView.swift:24-37 | a permutation of the sessions: newest first, most accurate first, longest first, or least dizzy first |
| Summary.BadgeColor | VertiPro/ExerciseSummaryView.swift:157-163 | green iff accuracy in [80, 100], yellow iff in [60, 80), red otherwise |
| Stats.ExerciseModeCounts | VertiPro/ExerciseStatsView.swift:6-10 | sessions of at most 30 s and longer ones, which together are all sessions |
| Stats.UncategorisedIffEmpty | VertiPro/ExerciseStatsView.swift:12-28 | a session is in none of the three movement categories iff it recorded no movement |
| Stats.HeadMovementCounts | VertiPro/ExerciseStatsView.swift:12-28 | the first count is the sessions with moves on both axes, the second those with only up/down moves, the third those with only left/right moves; with the sessions without movements they make up all sessions |
| Stats.CategoriesExclusive | VertiPro/ExerciseStatsView.swift:13-26 | every session is in exactly one of: both axes, only up/down, only left/right, no movement |
| Stats.Divide | VertiPro/ExerciseStatsView.swift:101-102 | a zero total gives a non-finite ratio; otherwise the ratio times the total is the numerator |
| Stats.SegmentArc | VertiPro/ExerciseStatsView.swift:99-104 | the first arc starts at 0; with a non-zero total segment i runs from the sum of the values before it over the total to the sum through it over the total; with a zero total every other bound is non-finite |
| Stats.ArcLength | VertiPro/ExerciseStatsView.swift:99-104 | with a non-zero total, an arc's length times the total is its segment's value |
| Stats.ArcsContiguous | VertiPro/ExerciseStatsView.swift:99-104 | each arc starts where the previous one ends |
| Stats.ArcsCoverCircle | VertiPro/ExerciseStatsView.swift:84-104 | with a non-zero total the arcs run from 0 to 1 |
| Stats.ArcWithinCircle | VertiPro/ExerciseStatsView.swift:84-104 | with non-negative values and a positive total every arc lies in [0, 1] and runs forwards |
| Stats.ModeRingTotal | VertiPro/ExerciseStatsView.swift:36-40 | the exercise-mode ring's total is the number of sessions |
| MovementTypes.MovementTypeCounts | VertiPro/DailyMovementTypeChart.swift:7-26 | two bars, "Up/Down" with the number of vertical movements over all sessions, then "Left/Right" with the horizontal ones; the two bars add up to every recorded movement, and both are 0 with no sessions |
| MovementTypes.AxisTotalsCoverMovements | VertiPro/DailyMovementTypeChart.swift:8-20 | the two bars add up to all recorded movements |
| SessionMetrics.MeanAccuracy | VertiPro/DashBoardView.swift:110-111 | 0 for no sessions; otherwise mean·count is the sum of the accuracies; always in [0, 100] |
| SessionMetrics.MeanAccuracyPermutation | VertiPro/DailyLogView.swift:27-30 | reordering the sessions keeps the mean accuracy |
| SessionMetrics.TotalDurationAppend | VertiPro/DailyLogView.swift:32-34 | the total over two runs of sessions is the sum of their totals |
| SessionMetrics.TotalDurationPermutation | VertiPro/DailyLogView.swift:32-34 | reordering the sessions keeps the total duration |
| Dashboard.TotalSessionsProgress | VertiPro/DashBoardView.swift:103-107 | in [0, 1]; 1 iff at least ten sessions; otherwise count/10 |
| Dashboard.AverageAccuracyProgress | VertiPro/DashBoardView.swift:109-113 | in [0, 1]; 0 for no sessions; times 100 it is the mean accuracy |
| Dashboard.GroupByDay | VertiPro/DashBoardView.swift:120-122 | one group per day with a session, holding exactly that day's sessions, never empty |
| Dashboard.DayAverages | VertiPro/DashBoardView.swift:125-129 | one point per group, no day twice, each holding its group's mean accuracy |
| Dashboard.DataPoints | VertiPro/DashBoardView.swift:116-134 | strictly increasing days, each a day with a session, each value that day's mean accuracy in [0, 100], and every session's day present |
| Dashboard.PointsDescribeDays | VertiPro/DashBoardView.swift:120-129 | points that are exactly the per-day averages each hold a day with a session and that day's mean accuracy, and every session's day has a point |
| Dashboard.XAxisValues | VertiPro/DashBoardView.swift:137-154 | the session dates unchanged when empty or all equal; otherwise seven strictly increasing labels from the earliest to the latest date, each a sixth of the span apart |
| Axis.EvenlySpacedLabels | VertiPro/DashBoardView.swift:137-154 | the dates unchanged when empty or min = max; otherwise segments+1 labels from min to max, strictly increasing, one interval apart |
| Axis.LabelsSpanRange | VertiPro/DashBoardView.swift:149-152 | the first label is the minimum and the last the maximum |
| Axis.LabelsIncrease | VertiPro/DashBoardView.swift:149-152 | labels strictly increase when min < max |
| DailyLog.PeriodFor | VertiPro/DailyLogView.swift:12-22 | "Daily", "Weekly", "Monthly", "Yearly" select day, week, month, year; anything else selects nothing |
| DailyLog.FilteredData | VertiPro/DailyLogView.swift:9-25 | exactly the sessions in the selected period, each as many times as in the history, oldest first; none for an unknown view |
| Collections.Filter | VertiPro/DailyLogView.swift:11-23 | keeps every element that satisfies the test, as often as it occurs, and nothing else |
| DailyLog.AverageAccuracy | VertiPro/DailyLogView.swift:27-30 | the mean accuracy of the shown sessions: in [0, 100], and 0 when nothing is shown |
| DailyLog.TotalShownDuration | VertiPro/DailyLogView.swift:32-34 | the sum of the shown sessions' durations; 0 for an unknown view |
| DailyLog.ShownFiguresIgnoreOrder | VertiPro/DailyLogView.swift:9-34 | the mean accuracy and total duration shown are those of the period's sessions in history order: sorting by date changes neither |
| DailyLog.ShownDurationNonNegative | VertiPro/DailyLogView.swift:32-34 | never negative when no session has a negative duration |
| DailyLog.XAxisValues | VertiPro/DailyLogView.swift:147-164 | the shown dates unchanged when empty or all equal; otherwise five strictly increasing labels from the earliest to the latest, each a quarter of the span apart |
| ClinicalInsights.Insights | VertiPro/Components/ClinicalInsightsView.swift:7-21 | nothing without sessions; the accuracy remark iff the latest accuracy is above 80, the dizziness remark iff the latest dizziness is below 3, at most two and in that order |
| Sorting.SortBy | VertiPro/ExerciseSummaryView.swift:25 | a permutation of the input ordered by the key |
| Sorting.SortKeepsDistinct | VertiPro/DashBoardView.swift:133 | sorting keeps elements that differ on a field different on it |

## Left out

- Camera and sensor plumbing is not modelled. This covers ARKit and Core
  Motion session set-up, reading the face anchor's or device's attitude,
  euler-angle extraction and degree conversion. Pitch and yaw are inputs.
  Speech guidance and the camera preview are not part of this model.
- `calculateMovementMetrics` and its helpers are not modelled. They are
  floating-point numerics, and `validateMovement` ignores their result.
- Main-queue dispatch and timers are modelled as synchronous calls. In the
  app, the tracker sets its latch and calls back on the main queue later.
  Two samples handled before the main queue drains could therefore both
  report. The model delivers each report at once, so it does not capture
  that race.
- Stale timers are not modelled. A timer chain left over from an earlier run
  could still fire after a restart. Each `Tick` or `NextTarget` call is one
  firing of the current run's timer.
- The tracker is started and stopped by the screen's appear/disappear hooks.
  Those hooks are not modelled; `Start` and `Stop` call the tracker directly.
- Persistence (`ExerciseDataStore`) is not modelled: JSON encoding, user
  defaults and random sample data. Saving a session is an append to
  `savedSessions`.
- Calendar arithmetic and date formatting are not modelled. Day and period
  membership are parameters.
- Rendering is not modelled: SceneKit nodes, SwiftUI layout, charts and
  animations. The direction icons and the arrow rotation angle are also left
  out.
- The session record's `id` (a fresh UUID, VertiPro/ExerciseSession.swift:13)
  is not modelled. Two sessions with equal fields are equal values here, so
  lists of sessions are compared as multisets.
- Sessions in a saved history are not constrained, so any score, duration or
  target count is allowed.
- HoldToConfirm.Step: the thresholds are `Float` 0.3 in the source. The model
  compares against the decimal 0.3, not its single-precision rounding.
- Sessions.Accuracy: the source turns a non-finite intermediate into 0. On
  exact reals with a positive target count that case cannot arise, so it has
  no branch in the model.
- Stats.SegmentArc: with a zero total Swift divides by zero and draws
  nothing. The model records the bound as `NotFinite` rather than as IEEE NaN
  or infinity.
- Sorting.SortBy: the result's order among equal keys is not claimed to
  match Swift's `sorted`, which is not guaranteed stable.
- Dashboard.DataPoints: the order in which the groups are visited is left
  open, like the iteration order of a Swift dictionary.
- The summary screen's `formatDuration` (VertiPro/ExerciseSummaryView.swift:111-115)
  is the same code as the detail screen's and is modelled by
  `ExerciseDetail.FormatDuration`.

## Findings

| source | as written | input that shows it | evidently intended | confidence | as-written member | corrected member |
|---|---|---|---|---|---|---|
| VertiPro/ExerciseDetailView.swift:328-339 | the timeline card is headed "Most Recent First" but lists `movements.prefix(6)`, and movements are appended in time order | seven movements at times 1 to 7: the card shows times 1 to 6, oldest first, and never time 7 | the six most recent movements, newest first | not executed; medium (the header may describe an intended order the list never had) | ExerciseDetail.TimelineOmitsLatest | ExerciseDetail.RecentTimelineNewestFirst |

The model of the detail screen keeps `ExerciseDetail.TimelineMovements` as the
code writes it. `ExerciseDetail.RecentTimeline` is the list the header
describes.
