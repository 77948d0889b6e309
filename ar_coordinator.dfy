/**
 * The hold-to-confirm detector of the AR view's coordinator: a target
 * counts as reached only after the head has stayed past the target's
 * threshold for `HoldDuration` seconds; leaving the threshold, or reaching
 * it for a new target, restarts the hold.  Angles are in radians; the
 * current target is an input.
 */
module HoldToConfirm {
  import opened Wrappers
  import opened Directions

  const PitchThreshold: real := 0.3
  const YawThreshold: real := 0.3
  const HoldDuration: real := 0.5
  /** Seconds between two debug reports. */
  const DebugInterval: real := 1.0
  const DebugMode: bool := true

  /** Whether a sample reaches the target: looking up is negative pitch,
      looking left is positive yaw. */
  predicate Achieved(target: Direction, pitch: real, yaw: real) {
    match target
    case Up => pitch < -PitchThreshold
    case Down => pitch > PitchThreshold
    case Left => yaw > YawThreshold
    case Right => yaw < -YawThreshold
  }

  datatype HoldState = HoldState(
    lastSuccessfulDirection: Option<Direction>,
    directionStartTime: Option<real>,
    lastDebugPrint: real)

  /** The two hold fields are set together and cleared together. */
  predicate Consistent(s: HoldState) {
    s.lastSuccessfulDirection.None? <==> s.directionStartTime.None?
  }

  datatype HoldUpdate = HoldUpdate(next: HoldState, advance: bool)

  /**
   * One frame at time `now` for the current `target`.  A first achieved
   * frame for a target starts the hold; a held target advances after
   * `HoldDuration` and clears the hold; a frame that misses the target
   * clears the hold.
   */
  function Step(s: HoldState, now: real, pitch: real, yaw: real, target: Direction): (r: HoldUpdate)
    ensures Consistent(s) ==> Consistent(r.next)
    ensures r.advance <==>
      && Achieved(target, pitch, yaw)
      && s.lastSuccessfulDirection == Some(target)
      && s.directionStartTime.Some? && now - s.directionStartTime.value >= HoldDuration
    ensures r.advance ==> r.next.lastSuccessfulDirection == None && r.next.directionStartTime == None
    ensures Achieved(target, pitch, yaw) && s.lastSuccessfulDirection != Some(target) ==>
      r.next.lastSuccessfulDirection == Some(target) && r.next.directionStartTime == Some(now)
    ensures Achieved(target, pitch, yaw) && s.lastSuccessfulDirection == Some(target) && !r.advance ==>
      r.next.lastSuccessfulDirection == s.lastSuccessfulDirection &&
      r.next.directionStartTime == s.directionStartTime
    ensures Consistent(s) && !Achieved(target, pitch, yaw) ==>
      r.next.lastSuccessfulDirection == None && r.next.directionStartTime == None
    ensures r.next.lastDebugPrint == if DebugMode && now - s.lastDebugPrint >= DebugInterval then now else s.lastDebugPrint
  {
    var s1 := if DebugMode && now - s.lastDebugPrint >= DebugInterval then s.(lastDebugPrint := now) else s;
    if Achieved(target, pitch, yaw) then
      if s1.lastSuccessfulDirection != Some(target) then
        HoldUpdate(s1.(directionStartTime := Some(now), lastSuccessfulDirection := Some(target)), false)
      else if s1.directionStartTime.Some? && now - s1.directionStartTime.value >= HoldDuration then
        HoldUpdate(s1.(lastSuccessfulDirection := None, directionStartTime := None), true)
      else
        HoldUpdate(s1, false)
    else if s1.lastSuccessfulDirection != None then
      HoldUpdate(s1.(lastSuccessfulDirection := None, directionStartTime := None), false)
    else
      HoldUpdate(s1, false)
  }

  /** After an advance the very next frame cannot advance: at best it
      restarts the hold. */
  lemma NoConsecutiveAdvances(s: HoldState, now1: real, p1: real, y1: real, t1: Direction,
                              now2: real, p2: real, y2: real, t2: Direction)
    requires Step(s, now1, p1, y1, t1).advance
    ensures !Step(Step(s, now1, p1, y1, t1).next, now2, p2, y2, t2).advance
  {
  }

  /** One frame: its time, its angles and the target shown at that moment. */
  datatype Frame = Frame(time: real, pitch: real, yaw: real, target: Direction)

  function StateAfter(s: HoldState, frames: seq<Frame>, n: nat): HoldState
    requires n <= |frames|
  {
    if n == 0 then s
    else
      var f := frames[n - 1];
      Step(StateAfter(s, frames, n - 1), f.time, f.pitch, f.yaw, f.target).next
  }

  function AdvancesAt(s: HoldState, frames: seq<Frame>, i: nat): bool
    requires i < |frames|
  {
    var f := frames[i];
    Step(StateAfter(s, frames, i), f.time, f.pitch, f.yaw, f.target).advance
  }

  /** Frames `k..j` all show the same target and all reach it. */
  predicate HeldSince(frames: seq<Frame>, k: nat, j: nat)
    requires k <= j < |frames|
  {
    forall m :: k <= m <= j ==>
      frames[m].target == frames[j].target && Achieved(frames[m].target, frames[m].pitch, frames[m].yaw)
  }

  /**
   * Every advance, from a state with no hold in progress, ends an unbroken
   * run of frames that reach one and the same target and that lasts at
   * least `HoldDuration`.
   */
  lemma {:induction false} AdvanceNeedsFullHold(s: HoldState, frames: seq<Frame>, j: nat)
    requires s.lastSuccessfulDirection == None && s.directionStartTime == None
    requires j < |frames|
    requires AdvancesAt(s, frames, j)
    ensures exists k: nat :: k < j && HeldSince(frames, k, j) && frames[j].time - frames[k].time >= HoldDuration
  {
    // `k` is the first frame of the current hold, or -1 when none is held.
    var n := 0;
    var k: int := -1;
    while n < j
      invariant 0 <= n <= j
      invariant Consistent(StateAfter(s, frames, n))
      invariant k == -1 ==> StateAfter(s, frames, n).lastSuccessfulDirection == None
      invariant k != -1 ==>
        && 0 <= k < n
        && StateAfter(s, frames, n).lastSuccessfulDirection == Some(frames[k].target)
        && StateAfter(s, frames, n).directionStartTime == Some(frames[k].time)
        && forall m :: k <= m < n ==>
             frames[m].target == frames[k].target && Achieved(frames[m].target, frames[m].pitch, frames[m].yaw)
      decreases j - n
    {
      var f := frames[n];
      var before := StateAfter(s, frames, n);
      var u := Step(before, f.time, f.pitch, f.yaw, f.target);
      assert StateAfter(s, frames, n + 1) == u.next;
      if u.advance || !Achieved(f.target, f.pitch, f.yaw) {
        k := -1;
      } else if before.lastSuccessfulDirection != Some(f.target) {
        k := n;
      }
      n := n + 1;
    }
    assert k != -1;
    assert HeldSince(frames, k, j);
  }

  /** The coordinator's hold-to-confirm state. */
  class Coordinator {
    var lastSuccessfulDirection: Option<Direction>
    var directionStartTime: Option<real>
    var lastDebugPrint: real

    function State(): HoldState
      reads this
    {
      HoldState(lastSuccessfulDirection, directionStartTime, lastDebugPrint)
    }

    ghost predicate Valid()
      reads this
    {
      Consistent(State())
    }

    constructor (now: real)
      ensures Valid()
      ensures State() == HoldState(None, None, now)
    {
      lastSuccessfulDirection := None;
      directionStartTime := None;
      lastDebugPrint := now;
    }

    /**
     * `session(_:didUpdate:)` for a face at the given angles while `target`
     * is shown; `advance` is the call to `showNextTarget`.
     */
    method SessionDidUpdate(now: real, pitch: real, yaw: real, target: Direction) returns (advance: bool)
      requires Valid()
      modifies this
      ensures Valid()
      ensures HoldUpdate(State(), advance) == Step(old(State()), now, pitch, yaw, target)
    {
      if DebugMode && now - lastDebugPrint >= DebugInterval {
        lastDebugPrint := now;
      }
      var directionAchieved := false;
      match target {
        case Up => directionAchieved := pitch < -PitchThreshold;
        case Down => directionAchieved := pitch > PitchThreshold;
        case Left => directionAchieved := yaw > YawThreshold;
        case Right => directionAchieved := yaw < -YawThreshold;
      }
      advance := false;
      if directionAchieved {
        if lastSuccessfulDirection != Some(target) {
          directionStartTime := Some(now);
          lastSuccessfulDirection := Some(target);
        } else if directionStartTime.Some? {
          var holdTime := now - directionStartTime.value;
          if holdTime >= HoldDuration {
            advance := true;
            lastSuccessfulDirection := None;
            directionStartTime := None;
          }
        }
      } else {
        if lastSuccessfulDirection != None {
          lastSuccessfulDirection := None;
          directionStartTime := None;
        }
      }
    }
  }
}
