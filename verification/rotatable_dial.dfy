/** The state of the rotatable dial (v2/src/components/molecules/RotatableDial.tsx):
    the dragging flag and last pointer sample, the unwrapped rotation, the
    position last reported to the host, and the spring animation.  A spring
    animation is modelled only by its goal: the engine moves the rotation
    through frames of its own choosing (`AnimationFrame`) and finally rests
    on the goal (`AnimationSettles`).  The host's `onPositionChange`
    callback is modelled by the list of positions passed to it. */
module Dial {
  import opened Wrappers
  import opened Angles
  import opened DialGeometry

  /** Is `a` pointing exactly at one of the four canonical angles? */
  predicate OnCanonicalAngle(a: real) {
    Normalize(a) == POSITION_ANGLES[PositionFromAngle(a)]
  }

  class RotatableDial {
    /** `isDragging.current` */
    var isDragging: bool
    /** `lastAngle.current`: the previous pointer sample of the drag. */
    var lastAngle: real
    /** The `rotation` motion value, in unwrapped degrees. */
    var rotation: real
    /** The `currentPosition` state. */
    var currentPosition: string
    /** The goal of the spring animation in flight, if any. */
    var animationGoal: Option<real>
    /** Every position passed to `onPositionChange`, oldest first. */
    var reported: seq<string>

    /** Once the rotation has moved, the position is the sector of the
        rotation (before that it is whatever label the host passed in, and
        an unknown label leaves the rotation at 0).  Reports are known
        labels, each different from the one before, the last one being the
        current position.  Every animation goal points exactly at a
        canonical angle. */
    ghost predicate Valid()
      reads this
    {
      && (currentPosition == PositionFromAngle(rotation)
          || (reported == [] && rotation == 0.0 && currentPosition !in POSITION_ANGLES))
      && (forall i :: 0 <= i < |reported| ==> reported[i] in POSITION_ANGLES)
      && (forall i :: 0 < i < |reported| ==> reported[i] != reported[i - 1])
      && (|reported| > 0 ==> currentPosition == reported[|reported| - 1])
      && (animationGoal.Some? ==> OnCanonicalAngle(animationGoal.value))
    }

    /** Mounting: the rotation starts at the canonical angle of
        `initialPosition`, or 0 for a label the dial does not know. */
    constructor (initialPosition: string)
      ensures Valid()
      ensures rotation == (if initialPosition in POSITION_ANGLES then POSITION_ANGLES[initialPosition] else 0.0)
      ensures currentPosition == initialPosition
      ensures !isDragging && lastAngle == 0.0 && animationGoal == None && reported == []
    {
      isDragging := false;
      lastAngle := 0.0;
      rotation := if initialPosition in POSITION_ANGLES then POSITION_ANGLES[initialPosition] else 0.0;
      currentPosition := initialPosition;
      animationGoal := None;
      reported := [];
      new;
      if initialPosition in POSITION_ANGLES {
        CanonicalAngleReportsItsLabel(initialPosition, 0);
      }
    }

    /** `rotation.set(value)` followed by the "change" listener.  A motion
        value notifies its listeners only when its value changes, so setting
        the rotation it already has leaves the position alone (this matters
        only for an unknown initial label, which is not the sector of the
        rotation 0).  Otherwise the position is recomputed and, only when
        it differs from the current one, stored and reported to the host. */
    method SetRotation(value: real)
      requires Valid()
      modifies this
      ensures Valid()
      ensures rotation == value
      ensures value == old(rotation) ==> currentPosition == old(currentPosition) && reported == old(reported)
      ensures value != old(rotation) ==> currentPosition == PositionFromAngle(value)
      ensures reported == if currentPosition == old(currentPosition) then old(reported)
                          else old(reported) + [currentPosition]
      ensures old(currentPosition) in POSITION_ANGLES ==> currentPosition == PositionFromAngle(value)
      ensures isDragging == old(isDragging) && lastAngle == old(lastAngle)
      ensures animationGoal == old(animationGoal)
    {
      if value == rotation {
        return;
      }
      rotation := value;
      var position := PositionFromAngle(value);
      if position != currentPosition {
        currentPosition := position;
        reported := reported + [position];
      }
    }

    /** `handlePointerDown`: start dragging from the pointer's angle. */
    method PointerDown(sample: real)
      requires Valid()
      modifies this
      ensures Valid()
      ensures isDragging && lastAngle == sample
      ensures rotation == old(rotation) && currentPosition == old(currentPosition)
      ensures reported == old(reported) && animationGoal == old(animationGoal)
    {
      isDragging := true;
      lastAngle := sample;
    }

    /** `handlePointerMove`: while dragging, turn by the wrap-corrected
        difference from the previous sample and remember the new sample. */
    method PointerMove(sample: real)
      requires Valid()
      modifies this
      ensures Valid()
      ensures !old(isDragging) ==> unchanged(this)
      ensures old(isDragging) ==>
        && isDragging
        && lastAngle == sample
        && rotation == old(rotation) + WrapDelta(sample - old(lastAngle))
        && currentPosition == (if rotation == old(rotation) then old(currentPosition)
                               else PositionFromAngle(rotation))
        && reported == (if currentPosition == old(currentPosition) then old(reported)
                        else old(reported) + [currentPosition])
        && animationGoal == old(animationGoal)
    {
      if !isDragging {
        return;
      }
      var delta := WrapDelta(sample - lastAngle);
      SetRotation(rotation + delta);
      lastAngle := sample;
    }

    /** `handlePointerUp` (also pointer cancel): end the drag and spring to
        the snapped rotation. */
    method PointerUp()
      requires Valid()
      modifies this
      ensures Valid()
      ensures !old(isDragging) ==> unchanged(this)
      ensures old(isDragging) ==>
        && !isDragging
        && animationGoal == Some(Snap(old(rotation)))
        && rotation == old(rotation) && currentPosition == old(currentPosition)
        && reported == old(reported) && lastAngle == old(lastAngle)
    {
      if !isDragging {
        return;
      }
      isDragging := false;
      var targetRotation := SnapToNearest(rotation);
      SnapRestsOnReportedPosition(rotation);
      animationGoal := Some(targetRotation);
    }

    /** The `targetPosition` effect.  An absent or empty target, or the
        position the dial already reports, does nothing; otherwise the
        spring is aimed at the forward goal computed from the live
        rotation. */
    method SyncTarget(target: Option<string>)
      requires Valid()
      requires target.Some? && target.value != "" && target.value != currentPosition ==>
                 target.value in POSITION_ANGLES
      modifies this
      ensures Valid()
      ensures (target.None? || target.value == "" || target.value == old(currentPosition)) ==>
                unchanged(this)
      ensures target.Some? && target.value != "" && target.value != old(currentPosition) ==>
        && animationGoal == Some(NavigationGoal(old(rotation), target.value))
        && old(rotation) < animationGoal.value <= old(rotation) + 360.0
        && PositionFromAngle(animationGoal.value) == target.value
        && rotation == old(rotation) && currentPosition == old(currentPosition)
        && reported == old(reported) && isDragging == old(isDragging)
        && lastAngle == old(lastAngle)
    {
      if target.None? || target.value == "" || target.value == currentPosition {
        return;
      }
      var goal := NavigationGoal(rotation, target.value);
      NavigationGoalIsForward(rotation, target.value);
      animationGoal := Some(goal);
    }

    /** `handleLabelClick`: spring to the label's canonical angle itself,
        in turn zero, whichever way that is from the live rotation. */
    method LabelClick(l: string)
      requires Valid()
      requires l in POSITION_ANGLES
      modifies this
      ensures Valid()
      ensures animationGoal == Some(POSITION_ANGLES[l])
      ensures rotation == old(rotation) && currentPosition == old(currentPosition)
      ensures reported == old(reported) && isDragging == old(isDragging)
      ensures lastAngle == old(lastAngle)
    {
      CanonicalAngleReportsItsLabel(l, 0);
      NormalizeInRange(POSITION_ANGLES[l]);
      animationGoal := Some(POSITION_ANGLES[l]);
    }

    /** One frame of the running spring, at a rotation the engine chooses. */
    method AnimationFrame(value: real)
      requires Valid()
      requires animationGoal.Some?
      modifies this
      ensures Valid()
      ensures rotation == value
      ensures currentPosition == if value == old(rotation) then old(currentPosition)
                                 else PositionFromAngle(value)
      ensures reported == if currentPosition == old(currentPosition) then old(reported)
                          else old(reported) + [currentPosition]
      ensures animationGoal == old(animationGoal)
      ensures isDragging == old(isDragging) && lastAngle == old(lastAngle)
    {
      SetRotation(value);
    }

    /** The spring comes to rest on its goal: the dial then points exactly at
        the canonical angle of the position it reports (unless it still holds
        an unknown initial label because the goal is the rotation it had). */
    method AnimationSettles()
      requires Valid()
      requires animationGoal.Some?
      modifies this
      ensures Valid()
      ensures rotation == old(animationGoal).value && animationGoal == None
      ensures currentPosition == if rotation == old(rotation) then old(currentPosition)
                                 else PositionFromAngle(rotation)
      ensures currentPosition in POSITION_ANGLES ==> Normalize(rotation) == POSITION_ANGLES[currentPosition]
      ensures reported == if currentPosition == old(currentPosition) then old(reported)
                          else old(reported) + [currentPosition]
      ensures isDragging == old(isDragging) && lastAngle == old(lastAngle)
    {
      SetRotation(animationGoal.value);
      animationGoal := None;
    }
  }

  /** Dial at Grade, one drag step of +100 degrees, release and settle: the
      dial rests at 90 and the host heard exactly one report, Diagnose. */
  method DragAndReleaseScenario() returns (rest: real, reports: seq<string>)
    ensures rest == 90.0
    ensures reports == [DIAGNOSE]
  {
    var dial := new RotatableDial(GRADE);
    dial.PointerDown(0.0);
    dial.PointerMove(100.0);
    NormalizeInRange(100.0);
    dial.PointerUp();
    NormalizeInRange(100.0);
    dial.AnimationSettles();
    NormalizeInRange(90.0);
    rest, reports := dial.rotation, dial.reported;
  }

  /** Dial mounted on a label it does not know, so at rotation 0: a drag
      step of zero and a spring to Grade (angle 0) leave the rotation where
      it was, the listener never runs, and nothing is reported. */
  method UnknownLabelScenario() returns (position: string, reports: seq<string>)
    ensures position == "Idle"
    ensures reports == []
  {
    var dial := new RotatableDial("Idle");
    dial.PointerDown(10.0);
    dial.PointerMove(10.0);
    dial.PointerUp();
    dial.LabelClick(GRADE);
    dial.AnimationSettles();
    position, reports := dial.currentPosition, dial.reported;
  }

  /** Dial at Grade, host asks for Remediate: the goal is 180, reached
      forward.  With spring frames at 30, 90 and 150, passing 90 reports
      Diagnose, then settling reports Remediate, and Practice is not
      reported along these frames. */
  method ForwardNavigationScenario() returns (goal: real, reports: seq<string>)
    ensures goal == 180.0
    ensures reports == [DIAGNOSE, REMEDIATE]
  {
    var dial := new RotatableDial(GRADE);
    NormalizeInRange(0.0);
    dial.SyncTarget(Some(REMEDIATE));
    goal := dial.animationGoal.value;
    NormalizeInRange(30.0);
    dial.AnimationFrame(30.0);
    NormalizeInRange(90.0);
    dial.AnimationFrame(90.0);
    NormalizeInRange(150.0);
    dial.AnimationFrame(150.0);
    NormalizeInRange(180.0);
    dial.AnimationSettles();
    reports := dial.reported;
  }
}
