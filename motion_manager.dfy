/**
 * The CoreMotion direction classifier: device attitude samples (radians)
 * are rate-limited, classified with yaw taking priority over pitch, and a
 * direction is reported only when it differs from the current one.
 */
module Motion {
  import opened Wrappers
  import opened Directions

  const YawThreshold: real := 0.2
  const PitchThreshold: real := 0.2
  /** Minimum seconds since the last reported change. */
  const UpdateInterval: real := 0.2
  /** `Double.pi / 2` exactly as the double-precision value the source uses. */
  const HalfPi: real := 1.5707963267948965579989817342720925807952880859375

  function Abs(x: real): real {
    if x < 0.0 then -x else x
  }

  /**
   * The direction an attitude shows: a yaw beyond its threshold decides
   * left or right; otherwise a pitch far enough from upright (pi/2) decides
   * down or up; otherwise there is none.
   */
  function Classify(pitch: real, yaw: real): (r: Option<Direction>)
    ensures Abs(yaw) > YawThreshold ==> r == Some(if yaw > 0.0 then Left else Right)
    ensures Abs(yaw) <= YawThreshold && Abs(pitch - HalfPi) > PitchThreshold ==>
      r == Some(if pitch > HalfPi then Down else Up)
    ensures r == None <==> Abs(yaw) <= YawThreshold && Abs(pitch - HalfPi) <= PitchThreshold
  {
    if Abs(yaw) > YawThreshold then Some(if yaw > 0.0 then Left else Right)
    else if Abs(pitch - HalfPi) > PitchThreshold then Some(if pitch > HalfPi then Down else Up)
    else None
  }

  datatype MotionState = MotionState(currentDirection: Direction, lastUpdateTime: real)

  datatype MotionUpdate = MotionUpdate(next: MotionState, emitted: Option<Direction>)

  /**
   * One device-motion sample at time `now`.  A sample too soon after the
   * last change is ignored; a change is reported only when the classified
   * direction differs from the current one, and only a report changes the
   * state.
   */
  function Step(s: MotionState, now: real, pitch: real, yaw: real): (r: MotionUpdate)
    ensures r.emitted.Some? <==>
      && now - s.lastUpdateTime >= UpdateInterval
      && Classify(pitch, yaw).Some? && Classify(pitch, yaw).value != s.currentDirection
    ensures r.emitted.Some? ==>
      && r.emitted == Classify(pitch, yaw)
      && r.emitted.value != s.currentDirection
      && r.next == MotionState(r.emitted.value, now)
    ensures r.emitted.None? ==> r.next == s
  {
    if now - s.lastUpdateTime < UpdateInterval then MotionUpdate(s, None)
    else
      var newDirection := Classify(pitch, yaw);
      if newDirection.Some? && newDirection.value != s.currentDirection then
        MotionUpdate(MotionState(newDirection.value, now), newDirection)
      else
        MotionUpdate(s, None)
  }

  /** One attitude sample: its time, pitch and yaw. */
  datatype Attitude = Attitude(time: real, pitch: real, yaw: real)

  function StateAfter(s: MotionState, samples: seq<Attitude>, n: nat): MotionState
    requires n <= |samples|
  {
    if n == 0 then s
    else
      var a := samples[n - 1];
      Step(StateAfter(s, samples, n - 1), a.time, a.pitch, a.yaw).next
  }

  function EmittedAt(s: MotionState, samples: seq<Attitude>, i: nat): Option<Direction>
    requires i < |samples|
  {
    var a := samples[i];
    Step(StateAfter(s, samples, i), a.time, a.pitch, a.yaw).emitted
  }

  /**
   * Two successive reports (none in between) name different directions and
   * are at least `UpdateInterval` apart; the first report of a stream also
   * differs from the initial direction.
   */
  lemma {:induction false} SuccessiveReportsDiffer(s: MotionState, samples: seq<Attitude>, i: nat, j: nat)
    requires i < j < |samples|
    requires EmittedAt(s, samples, i).Some? && EmittedAt(s, samples, j).Some?
    requires forall m :: i < m < j ==> EmittedAt(s, samples, m).None?
    ensures EmittedAt(s, samples, j) != EmittedAt(s, samples, i)
    ensures samples[j].time - samples[i].time >= UpdateInterval
  {
    var reported := MotionState(EmittedAt(s, samples, i).value, samples[i].time);
    var n := i + 1;
    while n < j
      invariant i + 1 <= n <= j
      invariant StateAfter(s, samples, n) == reported
      decreases j - n
    {
      assert EmittedAt(s, samples, n).None?;
      n := n + 1;
    }
  }

  /** `MotionManager`: the last reported direction and when it was reported. */
  class MotionManager {
    var currentDirection: Direction
    var lastUpdateTime: real

    function State(): MotionState
      reads this
    {
      MotionState(currentDirection, lastUpdateTime)
    }

    /** A new manager created at `now` starts out facing up. */
    constructor (now: real)
      ensures State() == MotionState(Up, now)
    {
      currentDirection := Up;
      lastUpdateTime := now;
    }

    /**
     * The body of the device-motion callback; `emitted` is the call to
     * `onDirectionChanged`.
     */
    method DidReceiveMotion(now: real, pitch: real, yaw: real) returns (emitted: Option<Direction>)
      modifies this
      ensures MotionUpdate(State(), emitted) == Step(old(State()), now, pitch, yaw)
    {
      emitted := None;
      if now - lastUpdateTime < UpdateInterval {
        return;
      }
      var newDirection: Option<Direction> := None;
      if Abs(yaw) > YawThreshold {
        newDirection := Some(if yaw > 0.0 then Left else Right);
      } else if Abs(pitch - HalfPi) > PitchThreshold {
        newDirection := Some(if pitch > HalfPi then Down else Up);
      }
      if newDirection.Some? && newDirection.value != currentDirection {
        lastUpdateTime := now;
        currentDirection := newDirection.value;
        emitted := newDirection;
      }
    }
  }

}
