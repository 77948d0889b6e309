/**
 * The face-tracking direction classifier: a stateful filter that turns a
 * stream of (pitch, yaw) samples, in degrees, into at most one direction
 * event per excursion from the centre zone, and the per-sample movement
 * quality score computed beside it.
 */
module HeadTracking {
  import opened Wrappers
  import opened Directions

  /** Both angles below this magnitude (degrees) count as "centred". */
  const CenterThreshold: real := 4.0
  /** A dominant angle beyond this magnitude (degrees) is a movement. */
  const CorrectThreshold: real := 5.0
  /** Upper bound (degrees) of the "borderline" feedback band. */
  const WarningThreshold: real := 8.0
  /** Seconds the head must stay centred before detection re-arms. */
  const CenterHoldTime: real := 0.3

  function Abs(x: real): real {
    if x < 0.0 then -x else x
  }

  predicate IsInCenter(pitch: real, yaw: real) {
    Abs(pitch) < CenterThreshold && Abs(yaw) < CenterThreshold
  }

  /**
   * The direction a non-centred sample shows: the pitch axis is used only
   * when it strictly dominates (ties go to yaw), and the dominant angle must
   * pass the correct threshold.
   */
  function DetectDirection(pitch: real, yaw: real): (r: Option<Direction>)
    ensures r == Some(Up) <==> Abs(pitch) > Abs(yaw) && pitch > CorrectThreshold
    ensures r == Some(Down) <==> Abs(pitch) > Abs(yaw) && pitch < -CorrectThreshold
    ensures r == Some(Left) <==> Abs(pitch) <= Abs(yaw) && yaw > CorrectThreshold
    ensures r == Some(Right) <==> Abs(pitch) <= Abs(yaw) && yaw < -CorrectThreshold
    ensures r.Some? ==> !IsInCenter(pitch, yaw)
  {
    if Abs(pitch) > Abs(yaw) then
      if pitch > CorrectThreshold then Some(Up)
      else if pitch < -CorrectThreshold then Some(Down)
      else None
    else
      if yaw > CorrectThreshold then Some(Left)
      else if yaw < -CorrectThreshold then Some(Right)
      else None
  }

  datatype Feedback = NoFeedback | Correct | Borderline | Incorrect

  /**
   * The angle that matters for a target (pitch for up/down, yaw for
   * left/right) and whether that axis strictly dominates the other.
   */
  function RelevantAngle(pitch: real, yaw: real, target: Direction): (r: (real, bool))
    ensures r.0 == (if IsVertical(target) then pitch else yaw)
    ensures r.1 <==> (if IsVertical(target) then Abs(pitch) > Abs(yaw) else Abs(yaw) > Abs(pitch))
  {
    match target
    case Up => (pitch, Abs(pitch) > Abs(yaw))
    case Down => (pitch, Abs(pitch) > Abs(yaw))
    case Left => (yaw, Abs(yaw) > Abs(pitch))
    case Right => (yaw, Abs(yaw) > Abs(pitch))
  }

  /**
   * Feedback and accuracy percentage for a sample against a target.  A wrong
   * or tied axis is incorrect with accuracy 0; otherwise the band is chosen by
   * the magnitude of the relevant angle, and only a correct sample has a
   * non-zero accuracy.
   */
  function ValidateMovement(pitch: real, yaw: real, target: Direction): (r: (Feedback, real))
    ensures 0.0 <= r.1 <= 100.0
    ensures r.0 != Correct ==> r.1 == 0.0
    ensures r.0 in {Correct, Borderline, Incorrect}
    ensures !RelevantAngle(pitch, yaw, target).1 ==> r == (Incorrect, 0.0)
    ensures RelevantAngle(pitch, yaw, target).1 ==>
      var a := Abs(RelevantAngle(pitch, yaw, target).0);
      && (r.0 == Correct <==> a <= CorrectThreshold)
      && (r.0 == Borderline <==> CorrectThreshold < a <= WarningThreshold)
      && (r.0 == Correct ==> r.1 == (1.0 - a / CorrectThreshold) * 100.0)
  {
    var (angle, isCorrectAxis) := RelevantAngle(pitch, yaw, target);
    if !isCorrectAxis then (Incorrect, 0.0)
    else
      var accuracy := (1.0 - Abs(angle) / CorrectThreshold) * 100.0;
      if Abs(angle) <= CorrectThreshold then (Correct, if accuracy < 100.0 then accuracy else 100.0)
      else if Abs(angle) <= WarningThreshold then (Borderline, if accuracy > 0.0 then accuracy else 0.0)
      else (Incorrect, if accuracy > 0.0 then accuracy else 0.0)
  }

  /** The classifier's state, as a value. */
  datatype Tracker = Tracker(
    isTracking: bool,
    currentDirection: Direction,
    lastDirection: Option<Direction>,
    centerStartTime: Option<real>,
    lastPitch: real,
    lastYaw: real,
    lastUpdateTime: real,
    movementFeedback: Feedback,
    movementAccuracy: real)

  /** The state after one sample, and the direction reported, if any. */
  datatype Update = Update(next: Tracker, emitted: Option<Direction>)

  /**
   * One face-anchor update at time `now`.  The contract is the classifier's
   * promise: nothing happens while not tracking; a centred sample never
   * reports and never touches the feedback; a report needs an armed latch and
   * sets it; and only a centre hold of `CenterHoldTime` re-arms the latch.
   */
  function Step(t: Tracker, now: real, pitch: real, yaw: real): (r: Update)
    ensures !t.isTracking ==> r == Update(t, None)
    ensures r.next.isTracking == t.isTracking
    ensures IsInCenter(pitch, yaw) ==>
      && r.emitted == None
      && r.next.movementFeedback == t.movementFeedback
      && r.next.movementAccuracy == t.movementAccuracy
      && r.next.currentDirection == t.currentDirection
    ensures t.isTracking && IsInCenter(pitch, yaw) && t.centerStartTime == None ==>
      r.next.centerStartTime == Some(now) && r.next.lastDirection == t.lastDirection
    ensures t.isTracking && IsInCenter(pitch, yaw) && t.centerStartTime.Some? ==>
      r.next.centerStartTime == t.centerStartTime
    ensures t.isTracking && !IsInCenter(pitch, yaw) ==>
      && r.next.centerStartTime == None
      && (r.next.movementFeedback, r.next.movementAccuracy) == ValidateMovement(pitch, yaw, t.currentDirection)
    ensures t.lastDirection.Some? ==> r.emitted == None
    ensures r.emitted.Some? <==>
      t.isTracking && !IsInCenter(pitch, yaw) && t.lastDirection == None && DetectDirection(pitch, yaw).Some?
    ensures r.emitted.Some? ==>
      && r.emitted == DetectDirection(pitch, yaw)
      && r.next.lastDirection == r.emitted
      && r.next.currentDirection == r.emitted.value
    ensures r.emitted.None? ==> r.next.currentDirection == t.currentDirection
    ensures (&& t.isTracking && IsInCenter(pitch, yaw) && t.centerStartTime.Some?
             && now - t.centerStartTime.value >= CenterHoldTime) ==> r.next.lastDirection == None
    ensures r.emitted.None? && r.next.lastDirection != t.lastDirection ==>
      && t.isTracking && IsInCenter(pitch, yaw) && r.next.lastDirection == None
      && t.centerStartTime.Some? && now - t.centerStartTime.value >= CenterHoldTime
  {
    if !t.isTracking then Update(t, None)
    else
      var t1 := t.(lastPitch := pitch, lastYaw := yaw, lastUpdateTime := now);
      if IsInCenter(pitch, yaw) then
        if t1.centerStartTime.None? then
          Update(t1.(centerStartTime := Some(now)), None)
        else if now - t1.centerStartTime.value >= CenterHoldTime then
          Update(t1.(lastDirection := None), None)
        else
          Update(t1, None)
      else
        var (feedback, accuracy) := ValidateMovement(pitch, yaw, t.currentDirection);
        var t2 := t1.(centerStartTime := None, movementFeedback := feedback, movementAccuracy := accuracy);
        if t2.lastDirection.Some? then Update(t2, None)
        else
          match DetectDirection(pitch, yaw)
          case None => Update(t2, None)
          case Some(d) => Update(t2.(currentDirection := d, lastDirection := Some(d)), Some(d))
  }

  /** One face-anchor sample: its time and its angles in degrees. */
  datatype Sample = Sample(time: real, pitch: real, yaw: real)

  /** The state after the first `n` samples of a stream. */
  function StateAfter(t: Tracker, samples: seq<Sample>, n: nat): Tracker
    requires n <= |samples|
  {
    if n == 0 then t
    else
      var s := samples[n - 1];
      Step(StateAfter(t, samples, n - 1), s.time, s.pitch, s.yaw).next
  }

  /** What sample `i` of a stream reports. */
  function EmittedAt(t: Tracker, samples: seq<Sample>, i: nat): Option<Direction>
    requires i < |samples|
  {
    var s := samples[i];
    Step(StateAfter(t, samples, i), s.time, s.pitch, s.yaw).emitted
  }

  predicate Centred(s: Sample) {
    IsInCenter(s.pitch, s.yaw)
  }

  /** Samples `c` through `k` are all centred and span at least the hold time. */
  predicate CentreHeld(samples: seq<Sample>, c: nat, k: nat)
    requires c <= k < |samples|
  {
    && (forall m :: c <= m <= k ==> Centred(samples[m]))
    && samples[k].time - samples[c].time >= CenterHoldTime
  }

  /**
   * Between any two reported directions the head was held in the centre zone
   * for at least `CenterHoldTime`: a run of centred samples `c..k`, strictly
   * after the first report and strictly before the second, whose first and
   * last times are `CenterHoldTime` apart.
   */
  lemma {:induction false} ReportsSeparatedByCentreHold(t: Tracker, samples: seq<Sample>, i: nat, j: nat)
    requires t.isTracking
    requires i < j < |samples|
    requires EmittedAt(t, samples, i).Some? && EmittedAt(t, samples, j).Some?
    ensures exists c: nat, k: nat :: i < c <= k < j && CentreHeld(samples, c, k)
  {
    if !exists c: nat, k: nat :: i < c <= k < j && CentreHeld(samples, c, k) {
      // `start` is the first sample of the current centred run, or -1 if the
      // last sample seen was not centred.
      var n := i + 1;
      var start: int := -1;
      while n < j
        invariant i + 1 <= n <= j
        invariant StateAfter(t, samples, n).isTracking
        invariant StateAfter(t, samples, n).lastDirection.Some?
        invariant start == -1 ==> StateAfter(t, samples, n).centerStartTime == None
        invariant start != -1 ==>
          && i < start < n
          && StateAfter(t, samples, n).centerStartTime == Some(samples[start].time)
          && forall m :: start <= m < n ==> Centred(samples[m])
        decreases j - n
      {
        var s := samples[n];
        var before := StateAfter(t, samples, n);
        assert StateAfter(t, samples, n + 1) == Step(before, s.time, s.pitch, s.yaw).next;
        if !Centred(s) {
          start := -1;
        } else if start == -1 {
          start := n;
        } else {
          if s.time - samples[start].time >= CenterHoldTime {
            assert CentreHeld(samples, start, n);
            assert false;
          }
        }
        n := n + 1;
      }
      assert false;
    }
  }

  /** A stream of samples never switches tracking on or off. */
  lemma {:induction false} TrackingPersists(t: Tracker, samples: seq<Sample>, n: nat)
    requires n <= |samples|
    ensures StateAfter(t, samples, n).isTracking == t.isTracking
  {
    if n > 0 {
      TrackingPersists(t, samples, n - 1);
    }
  }

  /**
   * The centre hold re-arms detection: after a sample outside the centre
   * zone, a run of centred samples `c..k` spanning `CenterHoldTime`, and then
   * a sample that shows a direction, that direction is reported, whatever
   * was reported before.
   */
  lemma {:induction false} CentreHoldRearms(t: Tracker, samples: seq<Sample>, c: nat, k: nat)
    requires t.isTracking
    requires 0 < c < k && k + 1 < |samples|
    requires !Centred(samples[c - 1])
    requires CentreHeld(samples, c, k)
    requires DetectDirection(samples[k + 1].pitch, samples[k + 1].yaw).Some?
    ensures EmittedAt(t, samples, k + 1) == DetectDirection(samples[k + 1].pitch, samples[k + 1].yaw)
  {
    TrackingPersists(t, samples, c - 1);
    var n := c + 1;
    assert StateAfter(t, samples, c).centerStartTime == None;
    while n < k
      invariant c + 1 <= n <= k
      invariant StateAfter(t, samples, n).isTracking
      invariant StateAfter(t, samples, n).centerStartTime == Some(samples[c].time)
      decreases k - n
    {
      assert Centred(samples[n]);
      n := n + 1;
    }
    assert Centred(samples[k]);
    assert StateAfter(t, samples, k + 1).lastDirection == None;
  }

  /**
   * At most one direction is reported per excursion: two reports from a
   * stream need a centred sample strictly between them.
   */
  lemma OneReportPerExcursion(t: Tracker, samples: seq<Sample>, i: nat, j: nat)
    requires t.isTracking
    requires i < j < |samples|
    requires forall m :: i < m < j ==> !Centred(samples[m])
    ensures EmittedAt(t, samples, i).None? || EmittedAt(t, samples, j).None?
  {
    if EmittedAt(t, samples, i).Some? && EmittedAt(t, samples, j).Some? {
      ReportsSeparatedByCentreHold(t, samples, i, j);
      assert false;
    }
  }

  /**
   * `HeadTrackingManager`: the ARKit delegate that owns the classifier state
   * and reports each detected direction to its `onDirectionChanged` callback
   * (here, the `emitted` result of `SessionDidUpdate`).
   */
  class HeadTrackingManager {
    var isTracking: bool
    var currentDirection: Direction
    var lastDirection: Option<Direction>
    var centerStartTime: Option<real>
    var lastPitch: real
    var lastYaw: real
    var lastUpdateTime: real
    var movementFeedback: Feedback
    var movementAccuracy: real

    function State(): Tracker
      reads this
    {
      Tracker(isTracking, currentDirection, lastDirection, centerStartTime,
              lastPitch, lastYaw, lastUpdateTime, movementFeedback, movementAccuracy)
    }

    /** A new manager, created at time `now`, is idle and facing up. */
    constructor (now: real)
      ensures State() == Tracker(false, Up, None, None, 0.0, 0.0, now, NoFeedback, 0.0)
    {
      isTracking := false;
      currentDirection := Up;
      lastDirection := None;
      centerStartTime := None;
      lastPitch, lastYaw := 0.0, 0.0;
      lastUpdateTime := now;
      movementFeedback := NoFeedback;
      movementAccuracy := 0.0;
    }

    /**
     * Starts tracking unless already tracking or face tracking is not
     * supported on the device; starting clears the debounce latch.
     */
    method StartTracking(faceTrackingSupported: bool)
      modifies this
      ensures old(isTracking) || !faceTrackingSupported ==> State() == old(State())
      ensures !old(isTracking) && faceTrackingSupported ==>
        State() == old(State()).(isTracking := true, lastDirection := None)
    {
      if isTracking {
        return;
      }
      if !faceTrackingSupported {
        return;
      }
      isTracking := true;
      lastDirection := None;
    }

    method StopTracking()
      modifies this
      ensures State() == old(State()).(isTracking := false)
    {
      isTracking := false;
    }

    /** `session(_:didUpdate:)` for a face anchor with the given angles. */
    method SessionDidUpdate(now: real, pitch: real, yaw: real) returns (emitted: Option<Direction>)
      modifies this
      ensures Update(State(), emitted) == Step(old(State()), now, pitch, yaw)
    {
      emitted := None;
      if !isTracking {
        return;
      }
      lastPitch := pitch;
      lastYaw := yaw;
      lastUpdateTime := now;
      if IsInCenter(pitch, yaw) {
        if centerStartTime == None {
          centerStartTime := Some(now);
        } else if now - centerStartTime.value >= CenterHoldTime {
          if lastDirection != None {
            lastDirection := None;
          }
        }
      } else {
        centerStartTime := None;
        var (feedback, accuracy) := ValidateMovement(pitch, yaw, currentDirection);
        movementFeedback := feedback;
        movementAccuracy := accuracy;
        if lastDirection != None {
          return;
        }
        var newDirection := DetectDirection(pitch, yaw);
        if newDirection.Some? {
          currentDirection := newDirection.value;
          emitted := newDirection;
          lastDirection := newDirection;
        }
      }
    }
  }
}
