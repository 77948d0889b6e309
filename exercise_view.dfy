/**
 * The session controller embedded in the exercise screen: start and reset,
 * the 1 Hz countdown, the target timer, matching reported directions
 * against the current target, and building the finished session record.
 * Timers and the tracker's callback become explicit method calls carrying
 * the current time `now`.
 */
module Exercise {
  import opened Wrappers
  import opened Directions
  import opened Sessions
  import opened Sequencing
  import opened HeadTracking

  /** Every session this screen finishes has one target per match. */
  ghost predicate FinishedConsistently(s: ExerciseSession, duration: int) {
    && s.score == |s.movements|
    && s.totalTargets == s.score
    && 0 <= s.duration <= duration
  }

  /**
   * Because a finished session's target count is its number of matches, its
   * accuracy is 100 when anything was matched and 0 otherwise.
   */
  lemma FinishedAccuracyAllOrNothing(s: ExerciseSession, duration: int)
    requires FinishedConsistently(s, duration)
    ensures Accuracy(s) == if s.score > 0 then 100.0 else 0.0
  {
  }

  /** The state of `ExerciseView` that the exercise logic reads and writes. */
  class ExerciseController {
    const dizzinessLevel: real
    const speed: real
    const headMovement: string
    const duration: int
    const headTracker: HeadTrackingManager

    var score: int
    var timerValue: int
    var isExerciseActive: bool
    var shouldNavigateToResults: bool
    var session: Option<ExerciseSession>
    var sessionMovements: seq<Movement>
    var targetAppearanceTime: real
    var totalTargets: int
    var currentTargetDirection: Direction
    var directionSequence: DirectionSequence?
    /** Whether `startExercise` has installed the tracker's callback. */
    var callbackInstalled: bool
    /** The sessions handed to the data store, oldest first. */
    var savedSessions: seq<ExerciseSession>

    ghost predicate Valid()
      reads this, directionSequence
    {
      && 0 <= timerValue <= duration
      && score == |sessionMovements|
      && totalTargets == 0
      && (isExerciseActive ==> directionSequence != null && directionSequence.Valid() && callbackInstalled)
      && (forall s :: s in savedSessions ==> FinishedConsistently(s, duration))
      && (session.Some? ==> FinishedConsistently(session.value, duration))
    }

    /** The screen as first shown at time `now`, before any exercise. */
    constructor (dizzinessLevel: real, speed: real, headMovement: string, duration: int, now: real)
      requires duration >= 0
      ensures Valid() && fresh(headTracker)
      ensures this.dizzinessLevel == dizzinessLevel && this.speed == speed
      ensures this.headMovement == headMovement && this.duration == duration
      ensures !isExerciseActive && score == 0 && timerValue == duration
      ensures sessionMovements == [] && totalTargets == 0 && savedSessions == []
      ensures currentTargetDirection == Up && directionSequence == null && !callbackInstalled
      ensures !headTracker.isTracking
    {
      this.dizzinessLevel := dizzinessLevel;
      this.speed := speed;
      this.headMovement := headMovement;
      this.duration := duration;
      headTracker := new HeadTrackingManager(now);
      score := 0;
      timerValue := duration;
      isExerciseActive := false;
      shouldNavigateToResults := false;
      session := None;
      sessionMovements := [];
      targetAppearanceTime := now;
      totalTargets := 0;
      currentTargetDirection := Up;
      directionSequence := null;
      callbackInstalled := false;
      savedSessions := [];
    }

    /**
     * `startExercise`: resets the counters, creates a fresh sequencer for the
     * configured pattern, starts tracking, installs the match callback and
     * shows the first target at once.
     */
    method Start(now: real, faceTrackingSupported: bool)
      requires Valid()
      modifies this, headTracker
      ensures Valid()
      ensures isExerciseActive && callbackInstalled
      ensures score == 0 && timerValue == duration && sessionMovements == [] && totalTargets == 0
      ensures directionSequence != null && fresh(directionSequence)
      ensures directionSequence.pattern == PatternFor(headMovement) && directionSequence.speed == speed
      ensures directionSequence.calls == 1
      ensures currentTargetDirection == Cycle(PatternFor(headMovement))[0]
      ensures targetAppearanceTime == now
      ensures session == old(session) && savedSessions == old(savedSessions)
      ensures shouldNavigateToResults == old(shouldNavigateToResults)
      ensures old(headTracker.isTracking) || !faceTrackingSupported ==>
        headTracker.State() == old(headTracker.State())
      ensures !old(headTracker.isTracking) && faceTrackingSupported ==>
        headTracker.State() == old(headTracker.State()).(isTracking := true, lastDirection := None)
    {
      headTracker.StartTracking(faceTrackingSupported);
      Reset(now);
    }

    /**
     * The part of `startExercise` that belongs to the screen: fresh counters,
     * a fresh sequencer, the callback installed and the first target shown.
     */
    method Reset(now: real)
      requires Valid()
      modifies this`isExerciseActive, this`score, this`timerValue, this`sessionMovements, this`totalTargets
      modifies this`targetAppearanceTime, this`directionSequence, this`callbackInstalled, this`currentTargetDirection
      ensures Valid()
      ensures isExerciseActive && callbackInstalled
      ensures score == 0 && timerValue == duration && sessionMovements == [] && totalTargets == 0
      ensures directionSequence != null && fresh(directionSequence)
      ensures directionSequence.pattern == PatternFor(headMovement) && directionSequence.speed == speed
      ensures directionSequence.calls == 1
      ensures currentTargetDirection == Cycle(PatternFor(headMovement))[0]
      ensures targetAppearanceTime == now
      ensures session == old(session) && savedSessions == old(savedSessions)
      ensures shouldNavigateToResults == old(shouldNavigateToResults)
    {
      ClearCounters(now);
      var sequence := new DirectionSequence(headMovement, speed);
      isExerciseActive := true;
      directionSequence := sequence;
      callbackInstalled := true;
      NextTarget(now);
    }

    /** The counters `startExercise` zeroes, and the full countdown. */
    method ClearCounters(now: real)
      requires Valid()
      modifies this`score, this`timerValue, this`sessionMovements, this`totalTargets, this`targetAppearanceTime
      ensures Valid()
      ensures score == 0 && timerValue == duration && sessionMovements == [] && totalTargets == 0
      ensures targetAppearanceTime == now
    {
      score := 0;
      timerValue := duration;
      sessionMovements := [];
      totalTargets := 0;
      targetAppearanceTime := now;
    }

    /**
     * The tracker's `onDirectionChanged` callback: a reported direction
     * equal to the current target scores one point and records one movement
     * timed from the target's appearance; anything else changes nothing.
     */
    method OnDirectionChanged(now: real, direction: Direction)
      requires Valid()
      modifies this`score, this`sessionMovements
      ensures Valid()
      ensures callbackInstalled && direction == currentTargetDirection ==>
        && score == old(score) + 1
        && sessionMovements == old(sessionMovements) + [Movement(direction, now - targetAppearanceTime, now)]
      ensures !(callbackInstalled && direction == currentTargetDirection) ==>
        score == old(score) && sessionMovements == old(sessionMovements)
    {
      if callbackInstalled && direction == currentTargetDirection {
        score := score + 1;
        var movement := Movement(direction, now - targetAppearanceTime, now);
        sessionMovements := sessionMovements + [movement];
      }
    }

    /**
     * One face-anchor update delivered to the tracker; a direction it reports
     * goes to the callback.
     */
    method Sample(now: real, pitch: real, yaw: real)
      requires Valid()
      modifies this`score, this`sessionMovements, headTracker
      ensures Valid()
      ensures headTracker.State() == Step(old(headTracker.State()), now, pitch, yaw).next
      ensures var e := Step(old(headTracker.State()), now, pitch, yaw).emitted;
        if e.Some? && callbackInstalled && e.value == currentTargetDirection then
          && score == old(score) + 1
          && sessionMovements == old(sessionMovements) + [Movement(e.value, now - targetAppearanceTime, now)]
        else
          score == old(score) && sessionMovements == old(sessionMovements)
    {
      var emitted := headTracker.SessionDidUpdate(now, pitch, yaw);
      if emitted.Some? {
        OnDirectionChanged(now, emitted.value);
      }
    }

    /**
     * `stopExercise`: ends the exercise, stops tracking and hands the data
     * store a session whose duration is the time used and whose target count
     * is the number of recorded movements.
     */
    method Stop(now: real)
      requires Valid()
      modifies this, headTracker
      ensures Valid()
      ensures !isExerciseActive && shouldNavigateToResults
      ensures var finished := ExerciseSession(now, duration - timerValue, score, |sessionMovements|,
                                              sessionMovements, dizzinessLevel);
        && session == Some(finished)
        && savedSessions == old(savedSessions) + [finished]
      ensures 0 <= duration - timerValue <= duration
      ensures headTracker.State() == old(headTracker.State()).(isTracking := false)
      ensures score == old(score) && timerValue == old(timerValue)
      ensures sessionMovements == old(sessionMovements) && totalTargets == old(totalTargets)
      ensures currentTargetDirection == old(currentTargetDirection)
      ensures directionSequence == old(directionSequence) && callbackInstalled == old(callbackInstalled)
      ensures targetAppearanceTime == old(targetAppearanceTime)
    {
      isExerciseActive := false;
      headTracker.StopTracking();
      var finalSession := ExerciseSession(now, duration - timerValue, score, |sessionMovements|,
                                          sessionMovements, dizzinessLevel);
      savedSessions := savedSessions + [finalSession];
      session := Some(finalSession);
      shouldNavigateToResults := true;
    }

    /**
     * One tick of the 1 Hz countdown: while active it counts down, and at 0
     * it stops the exercise (which then lasted the full duration); while
     * inactive it does nothing.
     */
    method Tick(now: real)
      requires Valid()
      modifies this, headTracker
      ensures Valid()
      ensures !old(isExerciseActive) ==> unchanged(this) && unchanged(headTracker)
      ensures old(isExerciseActive) && old(timerValue) > 0 ==>
        && timerValue == old(timerValue) - 1 && isExerciseActive
        && unchanged(headTracker)
        && shouldNavigateToResults == old(shouldNavigateToResults)
        && savedSessions == old(savedSessions) && session == old(session)
      ensures old(isExerciseActive) && old(timerValue) == 0 ==>
        var finished := ExerciseSession(now, duration, score, |sessionMovements|,
                                        sessionMovements, dizzinessLevel);
        && !isExerciseActive && timerValue == 0 && shouldNavigateToResults
        && session == Some(finished)
        && savedSessions == old(savedSessions) + [finished]
        && headTracker.State() == old(headTracker.State()).(isTracking := false)
      ensures score == old(score) && sessionMovements == old(sessionMovements) && totalTargets == old(totalTargets)
      ensures currentTargetDirection == old(currentTargetDirection)
      ensures targetAppearanceTime == old(targetAppearanceTime)
      ensures directionSequence == old(directionSequence) && callbackInstalled == old(callbackInstalled)
    {
      if isExerciseActive {
        if timerValue > 0 {
          timerValue := timerValue - 1;
        } else {
          Stop(now);
        }
      }
    }

    /**
     * `scheduleNextDirection`: while active, the target becomes the
     * sequencer's next direction and its appearance time is reset; while
     * inactive nothing changes.
     */
    method NextTarget(now: real)
      requires Valid()
      modifies this`currentTargetDirection, this`targetAppearanceTime, directionSequence
      ensures Valid()
      ensures !old(isExerciseActive) ==>
        && currentTargetDirection == old(currentTargetDirection)
        && targetAppearanceTime == old(targetAppearanceTime)
        && (directionSequence != null ==> unchanged(directionSequence))
      ensures old(isExerciseActive) ==>
        && directionSequence.calls == old(directionSequence.calls) + 1
        && currentTargetDirection == Cycle(directionSequence.pattern)[old(directionSequence.calls) % 4]
        && targetAppearanceTime == now
    {
      if !isExerciseActive {
        return;
      }
      currentTargetDirection := directionSequence.GetNextDirection();
      targetAppearanceTime := now;
    }
  }
}
