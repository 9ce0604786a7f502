/** The pure angle logic of the rotatable dial
    (v2/src/components/molecules/RotatableDial.tsx): the four named
    positions, the sector a rotation points into, the snap performed on
    release, the wrap correction of a drag step and the forward-only goal of
    a host navigation request. */
module DialGeometry {
  import opened Angles

  const GRADE: string := "Grade"
  const DIAGNOSE: string := "Diagnose"
  const REMEDIATE: string := "Remediate"
  const PRACTICE: string := "Practice"

  /** A named dial position and its canonical angle, in degrees clockwise
      from 12 o'clock. */
  datatype Position = Position(name: string, angle: real)

  /** `POSITIONS`: the four stops in clockwise order. */
  const POSITIONS: seq<Position> := [
    Position(GRADE, 0.0),
    Position(DIAGNOSE, 90.0),
    Position(REMEDIATE, 180.0),
    Position(PRACTICE, 270.0)
  ]

  /** `POSITION_ANGLES`: label to canonical angle. */
  const POSITION_ANGLES: map<string, real> :=
    map[GRADE := 0.0, DIAGNOSE := 90.0, REMEDIATE := 180.0, PRACTICE := 270.0]

  /** The two tables describe the same four stops, and every canonical angle
      is a direction in [0, 360). */
  lemma PositionTablesAgree()
    ensures |POSITIONS| == |POSITION_ANGLES| == 4
    ensures forall i :: 0 <= i < |POSITIONS| ==>
      POSITIONS[i].name in POSITION_ANGLES && POSITION_ANGLES[POSITIONS[i].name] == POSITIONS[i].angle
    ensures forall l :: l in POSITION_ANGLES ==>
      (exists i :: 0 <= i < |POSITIONS| && POSITIONS[i].name == l)
    ensures forall l :: l in POSITION_ANGLES ==> 0.0 <= POSITION_ANGLES[l] < 360.0
  {
    assert POSITION_ANGLES.Keys == {GRADE, DIAGNOSE, REMEDIATE, PRACTICE};
    assert POSITIONS[0].name == GRADE && POSITIONS[1].name == DIAGNOSE;
    assert POSITIONS[2].name == REMEDIATE && POSITIONS[3].name == PRACTICE;
  }

  // ---------------------------------------------------------------------
  // getPositionFromAngle

  /** `getPositionFromAngle`: the stop whose 90-degree sector contains the
      direction of `angle`.  Sectors are half-open upward:
      [315, 45) Grade, [45, 135) Diagnose, [135, 225) Remediate,
      [225, 315) Practice. */
  function PositionFromAngle(angle: real): (p: string)
    ensures p in POSITION_ANGLES
  {
    var n := Normalize(angle);
    if n >= 315.0 || n < 45.0 then GRADE
    else if n >= 45.0 && n < 135.0 then DIAGNOSE
    else if n >= 135.0 && n < 225.0 then REMEDIATE
    else PRACTICE
  }

  /** The position depends on the angle only modulo 360. */
  lemma {:induction false} PositionFromAnglePeriodic(a: real, k: int)
    ensures PositionFromAngle(a + 360.0 * (k as real)) == PositionFromAngle(a)
  {
    TurnsShift(a, k);
  }

  /** Reference description of the sectors: `angle` reports label `l` exactly
      when it lies in [c - 45, c + 45) modulo 360, for `c` its canonical
      angle. */
  lemma {:induction false} PositionSectors(angle: real, l: string)
    requires l in POSITION_ANGLES
    ensures PositionFromAngle(angle) == l <==>
            Normalize(angle - POSITION_ANGLES[l] + 45.0) < 90.0
  {
    var n, t := Normalize(angle), Turns(angle);
    var c := POSITION_ANGLES[l];
    var x := n - c + 45.0;
    assert angle - c + 45.0 == x + 360.0 * (t as real);
    if x < 0.0 {
      NormalizeUnique(angle - c + 45.0, x + 360.0, t - 1);
    } else if x < 360.0 {
      NormalizeUnique(angle - c + 45.0, x, t);
    } else {
      NormalizeUnique(angle - c + 45.0, x - 360.0, t + 1);
    }
  }

  /** Every canonical angle, plus any number of whole turns, reports its own
      label. */
  lemma {:induction false} CanonicalAngleReportsItsLabel(l: string, k: int)
    requires l in POSITION_ANGLES
    ensures PositionFromAngle(POSITION_ANGLES[l] + 360.0 * (k as real)) == l
  {
    NormalizeInRange(POSITION_ANGLES[l]);
    PositionFromAnglePeriodic(POSITION_ANGLES[l], k);
  }

  // ---------------------------------------------------------------------
  // snapToNearest

  /** Where a direction `n` in [0, 360) snaps to, as an offset from the start
      of its turn.  The search keeps the first of [0, 90, 180, 270] at the
      least circular distance, so the ties at 45, 135 and 225 go down; at 315
      the tie goes to 0, whose nearest copy is the one a full turn up. */
  function SnapOffset(n: real): (s: real)
    requires 0.0 <= n < 360.0
    ensures s in {0.0, 90.0, 180.0, 270.0, 360.0}
    ensures -45.0 <= s - n <= 45.0
  {
    if n <= 45.0 then 0.0
    else if n <= 135.0 then 90.0
    else if n <= 225.0 then 180.0
    else if n < 315.0 then 270.0
    else 360.0
  }

  /** Reference definition of `snapToNearest`: the snap offset of the
      direction, kept in the turn of `angle`. */
  function Snap(angle: real): real {
    360.0 * (Turns(angle) as real) + SnapOffset(Normalize(angle))
  }

  /** `r` is a whole number of right angles. */
  predicate IsRightAngleMultiple(r: real) {
    r == 90.0 * ((r / 90.0).Floor as real)
  }

  /** The snapped rotation is a multiple of 90 and lies within 45 degrees of
      the rotation it came from. */
  lemma {:induction false} SnapIsNearRightAngle(angle: real)
    ensures IsRightAngleMultiple(Snap(angle))
    ensures -45.0 <= Snap(angle) - angle <= 45.0
  {
    var t, s := Turns(angle), SnapOffset(Normalize(angle));
    var q: int := if s == 0.0 then 0 else if s == 90.0 then 1 else if s == 180.0 then 2
                  else if s == 270.0 then 3 else 4;
    assert Snap(angle) / 90.0 == (4 * t + q) as real;
    FloorIs(Snap(angle) / 90.0, 4 * t + q);
  }

  /** The direction of a snapped rotation is one of the canonical angles. */
  lemma {:induction false} SnapDirection(angle: real)
    ensures Normalize(Snap(angle)) ==
      (if SnapOffset(Normalize(angle)) == 360.0 then 0.0 else SnapOffset(Normalize(angle)))
    ensures Turns(Snap(angle)) ==
      Turns(angle) + (if SnapOffset(Normalize(angle)) == 360.0 then 1 else 0)
  {
    var t, s := Turns(angle), SnapOffset(Normalize(angle));
    if s == 360.0 {
      NormalizeUnique(Snap(angle), 0.0, t + 1);
    } else {
      NormalizeUnique(Snap(angle), s, t);
    }
  }

  /** Snapping an already snapped rotation changes nothing. */
  lemma {:induction false} SnapIdempotent(angle: real)
    ensures Snap(Snap(angle)) == Snap(angle)
  {
    SnapDirection(angle);
  }

  /** A snapped rotation rests exactly on the canonical angle of the
      position it reports. */
  lemma {:induction false} SnapRestsOnReportedPosition(angle: real)
    ensures Normalize(Snap(angle)) == POSITION_ANGLES[PositionFromAngle(Snap(angle))]
  {
    SnapDirection(angle);
  }

  /** Snapping keeps the reported position, except at the three exact sector
      boundaries 45, 135 and 225: sectors are half-open upward while the
      snap breaks those ties downward, so the position reported before the
      snap is one stop ahead of the one reported after it. */
  lemma {:induction false} SnapKeepsPositionOffBoundaries(angle: real)
    ensures Normalize(angle) !in {45.0, 135.0, 225.0} ==>
      PositionFromAngle(Snap(angle)) == PositionFromAngle(angle)
    ensures Normalize(angle) == 45.0 ==>
      PositionFromAngle(angle) == DIAGNOSE && PositionFromAngle(Snap(angle)) == GRADE
    ensures Normalize(angle) == 135.0 ==>
      PositionFromAngle(angle) == REMEDIATE && PositionFromAngle(Snap(angle)) == DIAGNOSE
    ensures Normalize(angle) == 225.0 ==>
      PositionFromAngle(angle) == PRACTICE && PositionFromAngle(Snap(angle)) == REMEDIATE
  {
    SnapDirection(angle);
  }

  /** Distance between two directions around the circle, as the source's
      loop measures it. */
  ghost function CircularDistance(n: real, p: real): real {
    var d := Abs(n - p);
    if d > 180.0 then 360.0 - d else d
  }

  /** The first of [0, 90, 180, 270] at the least circular distance from
      `n` is the snap offset of `n`, taken modulo 360. */
  lemma NearestStopIsSnapOffset(n: real, nearest: real)
    requires 0.0 <= n < 360.0
    requires nearest in {0.0, 90.0, 180.0, 270.0}
    requires CircularDistance(n, nearest) <= CircularDistance(n, 0.0)
    requires CircularDistance(n, nearest) <= CircularDistance(n, 90.0)
    requires CircularDistance(n, nearest) <= CircularDistance(n, 180.0)
    requires CircularDistance(n, nearest) <= CircularDistance(n, 270.0)
    requires nearest > 0.0 ==> CircularDistance(n, nearest) < CircularDistance(n, 0.0)
    requires nearest > 90.0 ==> CircularDistance(n, nearest) < CircularDistance(n, 90.0)
    requires nearest > 180.0 ==> CircularDistance(n, nearest) < CircularDistance(n, 180.0)
    ensures nearest == (if SnapOffset(n) == 360.0 then 0.0 else SnapOffset(n))
  {
    var d0, d1, d2, d3 := CircularDistance(n, 0.0), CircularDistance(n, 90.0),
                          CircularDistance(n, 180.0), CircularDistance(n, 270.0);
    assert d0 == (if n <= 180.0 then n else 360.0 - n);
    assert d1 == (if n <= 270.0 then Abs(n - 90.0) else 450.0 - n);
    assert d2 == Abs(n - 180.0);
    assert d3 == (if n >= 90.0 then Abs(n - 270.0) else n + 90.0);
  }

  /** Of the three copies of the nearest stop, only one lies within 45
      degrees of `angle` (the others are at least 315 away), and it is the
      snapped rotation. */
  lemma ClosestCandidateIsSnap(angle: real, nearest: real, candidates: seq<real>, closest: real)
    requires nearest == (if SnapOffset(Normalize(angle)) == 360.0 then 0.0 else SnapOffset(Normalize(angle)))
    requires candidates == [360.0 * (Turns(angle) as real) + nearest,
                            360.0 * (Turns(angle) as real) + nearest - 360.0,
                            360.0 * (Turns(angle) as real) + nearest + 360.0]
    requires closest in candidates
    requires forall k :: 0 <= k < |candidates| ==> Abs(angle - closest) <= Abs(angle - candidates[k])
    ensures closest == Snap(angle)
  {
    var winner := if SnapOffset(Normalize(angle)) == 360.0 then 2 else 0;
    assert candidates[winner] == Snap(angle);
    assert Abs(angle - candidates[winner]) <= 45.0;
  }

  /** The first loop of `snapToNearest`: the nearest of [0, 90, 180, 270]
      to the direction `normalized`, keeping the earlier entry on a tie
      (the search starts from 0 at its wrap-around distance). */
  method NearestStop(normalized: real) returns (nearest: real)
    requires 0.0 <= normalized < 360.0
    ensures nearest == (if SnapOffset(normalized) == 360.0 then 0.0 else SnapOffset(normalized))
  {
    var positions := [0.0, 90.0, 180.0, 270.0];
    nearest := positions[0];
    var minDiff := if normalized < 360.0 - normalized then normalized else 360.0 - normalized;
    var i := 0;
    while i < |positions|
      invariant 0 <= i <= |positions|
      invariant nearest in positions
      invariant forall k :: i <= k < |positions| ==> nearest <= positions[k]
      invariant minDiff == CircularDistance(normalized, nearest)
      invariant forall k :: 0 <= k < i ==> minDiff <= CircularDistance(normalized, positions[k])
      invariant forall k :: 0 <= k < i && positions[k] < nearest ==>
                  minDiff < CircularDistance(normalized, positions[k])
    {
      var diff := Abs(normalized - positions[i]);
      if diff > 180.0 {
        diff := 360.0 - diff;
      }
      if diff < minDiff {
        minDiff := diff;
        nearest := positions[i];
      }
      i := i + 1;
    }
    assert positions[0] == 0.0 && positions[1] == 90.0 && positions[2] == 180.0 && positions[3] == 270.0;
    NearestStopIsSnapOffset(normalized, nearest);
  }

  /** The second loop of `snapToNearest`: among the copies of `nearest` in
      the turn of `angle` and in the turns either side, the first one
      nearest to `angle`. */
  method ClosestCopy(angle: real, nearest: real) returns (closestCandidate: real)
    requires nearest == (if SnapOffset(Normalize(angle)) == 360.0 then 0.0 else SnapOffset(Normalize(angle)))
    ensures closestCandidate == Snap(angle)
  {
    var currentRound := 360.0 * (Turns(angle) as real);
    var candidates := [currentRound + nearest, currentRound + nearest - 360.0, currentRound + nearest + 360.0];
    closestCandidate := candidates[0];
    var minCandidateDiff := Abs(angle - candidates[0]);
    var j := 0;
    while j < |candidates|
      invariant 0 <= j <= |candidates|
      invariant closestCandidate in candidates
      invariant minCandidateDiff == Abs(angle - closestCandidate)
      invariant forall k :: 0 <= k < j ==> minCandidateDiff <= Abs(angle - candidates[k])
    {
      var diff := Abs(angle - candidates[j]);
      if diff < minCandidateDiff {
        minCandidateDiff := diff;
        closestCandidate := candidates[j];
      }
      j := j + 1;
    }
    ClosestCandidateIsSnap(angle, nearest, candidates, closestCandidate);
  }

  /** `snapToNearest`: the nearest stop to the direction of `angle`, placed
      in whichever turn brings it closest to `angle`. */
  method SnapToNearest(angle: real) returns (r: real)
    ensures r == Snap(angle)
    ensures IsRightAngleMultiple(r) && -45.0 <= r - angle <= 45.0
  {
    var normalized := Normalize(angle);
    var nearest := NearestStop(normalized);
    r := ClosestCopy(angle, nearest);
    SnapIsNearRightAngle(angle);
  }

  // ---------------------------------------------------------------------
  // Drag steps and host navigation

  /** The wrap correction of `handlePointerMove`: a jump of more than 180
      degrees either way is taken the other way round. */
  function WrapDelta(delta: real): (d: real)
    ensures d - delta in {-360.0, 0.0, 360.0}
    ensures -180.0 <= delta <= 180.0 ==> d == delta
    ensures -540.0 <= delta <= 540.0 ==> -180.0 <= d <= 180.0
  {
    var d1 := if delta > 180.0 then delta - 360.0 else delta;
    if d1 < -180.0 then d1 + 360.0 else d1
  }

  /** Samples from the pointer lie in [-90, 270] (an `atan2` angle turned by
      90 degrees), so every corrected drag step is at most half a turn. */
  lemma DragStepIsAtMostHalfTurn(last: real, sample: real)
    requires -90.0 <= last <= 270.0 && -90.0 <= sample <= 270.0
    ensures -180.0 <= WrapDelta(sample - last) <= 180.0
  {
  }

  /** The animation goal of a host navigation request: turn forward from
      `rotation` by `targetAngle - direction`, plus a full turn when that is
      not positive. */
  function NavigationGoal(rotation: real, target: string): (goal: real)
    requires target in POSITION_ANGLES
  {
    var delta := POSITION_ANGLES[target] - Normalize(rotation);
    rotation + (if delta <= 0.0 then delta + 360.0 else delta)
  }

  /** The goal lies strictly ahead of the rotation, at most one full turn
      on, and points exactly at the target's canonical angle. */
  lemma {:induction false} NavigationGoalIsForward(rotation: real, target: string)
    requires target in POSITION_ANGLES
    ensures rotation < NavigationGoal(rotation, target) <= rotation + 360.0
    ensures Normalize(NavigationGoal(rotation, target)) == POSITION_ANGLES[target]
    ensures PositionFromAngle(NavigationGoal(rotation, target)) == target
  {
    var t, c := Turns(rotation), POSITION_ANGLES[target];
    var g := NavigationGoal(rotation, target);
    if c - Normalize(rotation) <= 0.0 {
      NormalizeUnique(g, c, t + 1);
    } else {
      NormalizeUnique(g, c, t);
    }
    CanonicalAngleReportsItsLabel(target, 0);
    NormalizeInRange(c);
  }

  /** The goal is the only rotation in (rotation, rotation + 360] pointing at
      the target.  So a request recomputed from any live rotation on the way
      to an earlier goal (within the last turn before it) yields that same
      goal. */
  lemma {:induction false} NavigationGoalUnique(rotation: real, target: string, g: real)
    requires target in POSITION_ANGLES
    requires rotation < g <= rotation + 360.0
    requires Normalize(g) == POSITION_ANGLES[target]
    ensures g == NavigationGoal(rotation, target)
  {
    NavigationGoalIsForward(rotation, target);
    var goal := NavigationGoal(rotation, target);
    var k1, k2 := Turns(g), Turns(goal);
    assert g == 360.0 * (k1 as real) + POSITION_ANGLES[target];
    assert goal == 360.0 * (k2 as real) + POSITION_ANGLES[target];
    assert -360.0 < 360.0 * ((k1 - k2) as real) < 360.0;
    assert k1 == k2;
  }
}
