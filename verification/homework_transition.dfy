/** The before/after toggle of the homework section
    (v2/src/components/organisms/HomeworkOpportunitySection.tsx).  A
    progress value in [0, 1] moves between "current way" (0) and "better
    way" (1) over 7.5 seconds, lighting comparison rows as it goes.  A
    toggle reverses a running transition from the progress reached so far.
    Every start and finish of a transition bumps a token; each frame or
    media callback carries the token of the transition that created it and
    does nothing once the token has moved on.

    Frame scheduling is explicit: a callback is a `FrameLoop` value holding
    what the source's closure captures, and the caller invokes
    `TimerTick` / `VideoTick` / `StartPlayback` / `SeekAndStart` with it and
    with the time or media position the browser would supply. */
module HomeworkTransition {
  import opened Wrappers
  import ComparisonTable

  const TRANSITION_DURATION_MS: int := 7500
  const TRANSITION_DURATION_S: real := 7.5
  const PROGRESS_EPSILON: real := 0.001
  /** The `1e-6` added before flooring in `updateActiveCount`. */
  const COUNT_NUDGE: real := 0.000001

  datatype Direction = Forward | Reverse

  /** `clampProgress`: `Math.min(1, Math.max(0, value))`. */
  function ClampProgress(value: real): (r: real)
    ensures 0.0 <= r <= 1.0
    ensures 0.0 <= value <= 1.0 ==> r == value
    ensures value < 0.0 ==> r == 0.0
    ensures value > 1.0 ==> r == 1.0
  {
    var low := if 0.0 > value then 0.0 else value;
    if 1.0 < low then 1.0 else low
  }

  /** Clamping twice is clamping once. */
  lemma ClampIdempotent(value: real)
    ensures ClampProgress(ClampProgress(value)) == ClampProgress(value)
  {
  }

  /** The row count `updateActiveCount` computes for a progress value:
      `floor(progress * COMPARISON_COUNT + 1e-6)` bounded to
      [0, COMPARISON_COUNT]. */
  function ActiveCountFor(progress: real): (n: int)
    ensures 0 <= n <= ComparisonTable.COMPARISON_COUNT
  {
    var raw := (progress * (ComparisonTable.COMPARISON_COUNT as real) + COUNT_NUDGE).Floor;
    var upper := if ComparisonTable.COMPARISON_COUNT < raw then ComparisonTable.COMPARISON_COUNT else raw;
    if 0 > upper then 0 else upper
  }

  /** No row is lit at progress 0, all four at progress 1. */
  lemma ActiveCountEnds()
    ensures ActiveCountFor(0.0) == 0
    ensures ActiveCountFor(1.0) == 4
  {
    assert (0.0 * 4.0 + COUNT_NUDGE).Floor == 0;
    assert (1.0 * 4.0 + COUNT_NUDGE).Floor == 4;
  }

  /** More progress never lights fewer rows. */
  lemma ActiveCountMonotone(p: real, q: real)
    requires p <= q
    ensures ActiveCountFor(p) <= ActiveCountFor(q)
  {
    assert p * 4.0 <= q * 4.0;
  }

  /** Row `i` (0-based) is lit exactly when the progress has reached
      (i + 1) / 4, less the 1e-6 nudge. */
  lemma RowLitThreshold(p: real, i: int)
    requires 0.0 <= p <= 1.0 && 0 <= i < 4
    ensures i < ActiveCountFor(p) <==> p * 4.0 + COUNT_NUDGE >= (i + 1) as real
  {
  }

  /** `getProgressFromVideo`: the progress a media position stands for.
      Forward media runs 0 to 1 over its 7.5 seconds; reverse media runs 1
      to 0.  Without a media element the stored progress is kept. */
  function ProgressFromVideo(direction: Direction, currentTime: Option<real>, stored: real): (p: real)
    ensures currentTime.Some? ==> 0.0 <= p <= 1.0
    ensures currentTime.None? ==> p == stored
  {
    match currentTime
    case None => stored
    case Some(t) =>
      ClampProgress(if direction == Forward then t / TRANSITION_DURATION_S
                    else 1.0 - t / TRANSITION_DURATION_S)
  }

  /** The media position the transition effect seeks to before playing
      from `progress` (before the seek clamps it to the clip). */
  function SeekTime(direction: Direction, progress: real): real {
    if direction == Forward then progress * TRANSITION_DURATION_S
    else (1.0 - progress) * TRANSITION_DURATION_S
  }

  /** Reading the progress back from the seek position gives the progress
      the seek started from, in either direction. */
  lemma {:induction false} SeekTimeRoundTrip(direction: Direction, progress: real, stored: real)
    requires 0.0 <= progress <= 1.0
    ensures ProgressFromVideo(direction, Some(SeekTime(direction, progress)), stored) == progress
  {
    var t := SeekTime(direction, progress);
    if direction == Forward {
      assert t / TRANSITION_DURATION_S == progress;
    } else {
      assert 1.0 - t / TRANSITION_DURATION_S == progress;
    }
  }

  /** The timer path's progress after `elapsed` milliseconds from
      `start`. */
  function TimerProgress(direction: Direction, start: real, elapsed: int): (p: real)
    ensures 0.0 <= p <= 1.0
  {
    var delta := (elapsed as real) / (TRANSITION_DURATION_MS as real);
    ClampProgress(if direction == Forward then start + delta else start - delta)
  }

  /** Has a transition in `direction` reached its end? */
  predicate AtEnd(direction: Direction, progress: real) {
    (direction == Forward && progress >= 1.0 - PROGRESS_EPSILON)
    || (direction == Reverse && progress <= PROGRESS_EPSILON)
  }

  /** From any start in [0, 1], a timer transition reaches its end once
      7.5 seconds have passed. */
  lemma TimerTransitionEnds(direction: Direction, start: real, elapsed: int)
    requires 0.0 <= start <= 1.0
    requires elapsed >= TRANSITION_DURATION_MS
    ensures TimerProgress(direction, start, elapsed) == (if direction == Forward then 1.0 else 0.0)
    ensures AtEnd(direction, TimerProgress(direction, start, elapsed))
  {
    assert (elapsed as real) / 7500.0 >= 1.0;
  }

  /** What a frame or media callback captured when its transition's effect
      ran: the token, the direction, the progress to start from and, for
      the timer path, the start time in milliseconds. */
  datatype FrameLoop = FrameLoop(token: nat, direction: Direction, startProgress: real, startTime: int)

  class HomeworkOpportunity {
    /** `isBetterWay` state. */
    var isBetterWay: bool
    /** `activeCount` state, mirrored by `activeCountRef`. */
    var activeCount: int
    /** How many times `setActiveCount` has been called. */
    var activeCountWrites: nat
    /** `transitionDirection` state; `None` is `null`. */
    var transitionDirection: Option<Direction>
    /** `supportsWebM`; `None` until detection has run. */
    var supportsWebM: Option<bool>
    /** `visibleDirection` state. */
    var visibleDirection: Direction
    /** `progressRef`. */
    var progress: real
    /** `pendingSeekRef`. */
    var pendingSeek: real
    /** `transitionTokenRef`. */
    var token: nat
    /** The frame callback `rafRef` refers to, if one is requested. */
    var scheduledFrame: Option<FrameLoop>
    /** Every callback the component has created so far. */
    ghost var issued: set<FrameLoop>

    /** The row count matches the progress, which stays in [0, 1]. */
    ghost predicate CountMatchesProgress()
      reads this
    {
      0.0 <= progress <= 1.0 && activeCount == ActiveCountFor(progress)
    }

    /** The invariant the handlers keep: the Better Way flag follows the
        running direction; at rest the progress sits at the end that flag
        names; a requested frame belongs to the current transition; and
        a callback carrying the current token was created for the running
        transition, from a progress in [0, 1]. */
    ghost predicate Valid()
      reads this
    {
      && CountMatchesProgress()
      && 0.0 <= pendingSeek <= 1.0
      && (transitionDirection.Some? ==> isBetterWay == (transitionDirection.value == Forward))
      && (transitionDirection.None? ==> progress == if isBetterWay then 1.0 else 0.0)
      && (scheduledFrame.Some? ==> scheduledFrame.value in issued && scheduledFrame.value.token == token)
      && (forall l :: l in issued ==> l.token <= token)
      && (forall l :: l in issued && l.token == token ==>
            transitionDirection == Some(l.direction) && 0.0 <= l.startProgress <= 1.0)
    }

    /** Mounting: Current Way, progress 0, no transition. */
    constructor ()
      ensures Valid()
      ensures !isBetterWay && activeCount == 0 && activeCountWrites == 0
      ensures transitionDirection == None && supportsWebM == None && visibleDirection == Forward
      ensures progress == 0.0 && pendingSeek == 0.0 && token == 0
      ensures scheduledFrame == None && issued == {}
    {
      isBetterWay := false;
      activeCount := 0;
      activeCountWrites := 0;
      transitionDirection := None;
      supportsWebM := None;
      visibleDirection := Forward;
      progress := 0.0;
      pendingSeek := 0.0;
      token := 0;
      scheduledFrame := None;
      issued := {};
      new;
      ActiveCountEnds();
    }

    /** The detection effect: record whether the browser can play the
        alpha-channel clips (`canPlayType` is the caller's input). */
    method DetectWebM(canPlay: bool)
      requires Valid()
      modifies this
      ensures Valid()
      ensures supportsWebM == Some(canPlay)
      ensures isBetterWay == old(isBetterWay) && progress == old(progress) && token == old(token)
      ensures transitionDirection == old(transitionDirection) && scheduledFrame == old(scheduledFrame)
      ensures activeCount == old(activeCount) && activeCountWrites == old(activeCountWrites)
      ensures pendingSeek == old(pendingSeek) && visibleDirection == old(visibleDirection)
      ensures issued == old(issued)
    {
      supportsWebM := Some(canPlay);
    }

    /** `stopRaf`: cancel the requested frame. */
    method StopRaf()
      requires Valid()
      modifies this`scheduledFrame
      ensures Valid()
      ensures scheduledFrame == None
    {
      scheduledFrame := None;
    }

    /** `setProgress` with `updateActiveCount`: store the clamped progress
        and write the row count only when it changes.  It is a step inside
        the handlers, which restore `Valid()` around it: at rest, a progress
        other than the resting end breaks the invariant until the handler
        finishes. */
    method SetProgress(value: real)
      modifies this`progress, this`activeCount, this`activeCountWrites
      ensures progress == ClampProgress(value)
      ensures activeCount == ActiveCountFor(progress)
      ensures activeCountWrites == old(activeCountWrites) + (if activeCount == old(activeCount) then 0 else 1)
    {
      var clamped := ClampProgress(value);
      progress := clamped;
      var nextCount := ActiveCountFor(clamped);
      if nextCount != activeCount {
        activeCount := nextCount;
        activeCountWrites := activeCountWrites + 1;
      }
    }

    /** `finalizeTransition`: stop, bump the token and rest at the end the
        direction was heading for. */
    method FinalizeTransition(direction: Direction)
      requires Valid()
      modifies this
      ensures Valid()
      ensures token == old(token) + 1
      ensures progress == (if direction == Forward then 1.0 else 0.0)
      ensures isBetterWay == (direction == Forward)
      ensures transitionDirection == None && scheduledFrame == None
      ensures visibleDirection == direction
      ensures activeCountWrites == old(activeCountWrites) + (if activeCount == old(activeCount) then 0 else 1)
      ensures supportsWebM == old(supportsWebM) && pendingSeek == old(pendingSeek)
      ensures issued == old(issued)
    {
      StopRaf();
      token := token + 1;
      var finalProgress := if direction == Forward then 1.0 else 0.0;
      SetProgress(finalProgress);
      isBetterWay := finalProgress == 1.0;
      transitionDirection := None;
      visibleDirection := direction;
    }

    /** `startTransition`: stop, bump the token, set the direction and the
        Better Way flag at once, and start from the clamped progress. */
    method StartTransition(direction: Direction, fromProgress: real)
      requires Valid()
      modifies this
      ensures Valid()
      ensures token == old(token) + 1
      ensures transitionDirection == Some(direction)
      ensures isBetterWay == (direction == Forward)
      ensures progress == ClampProgress(fromProgress) && pendingSeek == progress
      ensures scheduledFrame == None
      ensures activeCountWrites == old(activeCountWrites) + (if activeCount == old(activeCount) then 0 else 1)
      ensures supportsWebM == old(supportsWebM) && visibleDirection == old(visibleDirection)
      ensures issued == old(issued)
    {
      StopRaf();
      token := token + 1;
      var clamped := ClampProgress(fromProgress);
      transitionDirection := Some(direction);
      isBetterWay := direction == Forward;
      SetProgress(clamped);
      pendingSeek := clamped;
    }

    /** `handleToggle`.  At rest it starts Forward from 0 (showing Current
        Way) or Reverse from 1 (showing Better Way).  During a transition it
        flips the direction and restarts from the live progress: the stored
        progress on the timer path, the media position (`videoTime`, `None`
        when there is no media element) on the media path. */
    method HandleToggle(videoTime: Option<real>)
      requires Valid()
      modifies this
      ensures Valid()
      ensures token == old(token) + 1 && scheduledFrame == None
      ensures old(transitionDirection).None? ==>
        && transitionDirection == Some(if old(isBetterWay) then Reverse else Forward)
        && progress == (if old(isBetterWay) then 1.0 else 0.0)
      ensures old(transitionDirection) == Some(Forward) ==> transitionDirection == Some(Reverse)
      ensures old(transitionDirection) == Some(Reverse) ==> transitionDirection == Some(Forward)
      ensures old(transitionDirection).Some? && old(supportsWebM) != Some(true) ==>
                progress == old(progress)
      ensures old(transitionDirection).Some? && old(supportsWebM) == Some(true) ==>
                progress == ProgressFromVideo(old(transitionDirection).value, videoTime, old(progress))
      ensures isBetterWay == (transitionDirection == Some(Forward))
      ensures pendingSeek == progress
      ensures activeCountWrites == old(activeCountWrites) + (if activeCount == old(activeCount) then 0 else 1)
      ensures supportsWebM == old(supportsWebM) && visibleDirection == old(visibleDirection)
      ensures issued == old(issued)
    {
      var currentProgress :=
        if transitionDirection.Some? then
          (if supportsWebM == Some(true) then ProgressFromVideo(transitionDirection.value, videoTime, progress)
           else progress)
        else if isBetterWay then 1.0 else 0.0;
      var nextDirection :=
        if transitionDirection == Some(Forward) then Reverse
        else if transitionDirection == Some(Reverse) then Forward
        else if isBetterWay then Reverse
        else Forward;
      StartTransition(nextDirection, currentProgress);
    }

    /** The idle effect: with no transition, set the progress to the end
        the Better Way flag names.  Under the invariant it is already
        there, so nothing changes (and no row count is written). */
    method IdleEffect()
      requires Valid()
      modifies this
      ensures Valid()
      ensures unchanged(this)
    {
      if transitionDirection.None? {
        var targetProgress := if isBetterWay then 1.0 else 0.0;
        SetProgress(targetProgress);
      }
    }

    /** The transition effect, run when the direction (or media support)
        changes.  With no transition it does nothing.  Otherwise it
        captures the token, direction and pending start progress.  On the
        timer path it requests the first frame at once; on the media path,
        which needs the active media element (`hasActiveVideo`), it cancels
        any requested frame and waits for the media to seek. */
    method BeginTransitionLoop(now: int, hasActiveVideo: bool) returns (loop: Option<FrameLoop>)
      requires Valid()
      modifies this
      ensures Valid()
      ensures old(transitionDirection).None? ==> loop.None? && unchanged(this)
      ensures old(transitionDirection).Some? && (old(supportsWebM) == Some(true) ==> hasActiveVideo) ==>
        loop == Some(FrameLoop(token, old(transitionDirection).value, pendingSeek, now))
      ensures old(transitionDirection).Some? && old(supportsWebM) == Some(true) && !hasActiveVideo ==>
        loop.None? && unchanged(this)
      ensures issued == old(issued) + (if loop.Some? then {loop.value} else {})
      ensures old(supportsWebM) != Some(true) && loop.Some? ==> scheduledFrame == loop
      ensures old(supportsWebM) == Some(true) && loop.Some? ==> scheduledFrame == None
      ensures token == old(token) && progress == old(progress) && isBetterWay == old(isBetterWay)
      ensures transitionDirection == old(transitionDirection) && activeCount == old(activeCount)
      ensures visibleDirection == old(visibleDirection) && pendingSeek == old(pendingSeek)
      ensures supportsWebM == old(supportsWebM) && activeCountWrites == old(activeCountWrites)
    {
      if transitionDirection.None? {
        return None;
      }
      var l := FrameLoop(token, transitionDirection.value, pendingSeek, now);
      if supportsWebM != Some(true) {
        issued := issued + {l};
        scheduledFrame := Some(l);
        return Some(l);
      }
      if !hasActiveVideo {
        return None;
      }
      issued := issued + {l};
      StopRaf();
      return Some(l);
    }

    /** One timer frame (`tick(now)`).  A callback whose token is stale
        returns at once.  Otherwise the progress becomes the clamped start
        progress moved by elapsed / 7500 in the loop's direction; at the
        end the transition is finalized, and otherwise the next frame is
        requested. */
    method TimerTick(loop: FrameLoop, now: int)
      requires Valid()
      requires loop in issued
      modifies this
      ensures Valid()
      ensures issued == old(issued)
      ensures loop.token != old(token) ==> unchanged(this)
      ensures loop.token == old(token) ==>
        var p := TimerProgress(loop.direction, loop.startProgress, now - loop.startTime);
        var written := if ActiveCountFor(p) == old(activeCount) then 0 else 1;
        && supportsWebM == old(supportsWebM) && pendingSeek == old(pendingSeek)
        && if AtEnd(loop.direction, p) then
          && token == old(token) + 1
          && progress == (if loop.direction == Forward then 1.0 else 0.0)
          && isBetterWay == (loop.direction == Forward)
          && transitionDirection == None && scheduledFrame == None
          && visibleDirection == loop.direction
          && activeCountWrites == old(activeCountWrites) + written
               + (if activeCount == ActiveCountFor(p) then 0 else 1)
        else
          && token == old(token) && progress == p
          && isBetterWay == old(isBetterWay)
          && transitionDirection == old(transitionDirection)
          && scheduledFrame == Some(loop)
          && visibleDirection == old(visibleDirection)
          && activeCountWrites == old(activeCountWrites) + written
    {
      if token != loop.token {
        return;
      }
      var elapsed := now - loop.startTime;
      var delta := (elapsed as real) / (TRANSITION_DURATION_MS as real);
      var nextProgress := if loop.direction == Forward then loop.startProgress + delta
                          else loop.startProgress - delta;
      var clampedNext := ClampProgress(nextProgress);
      SetProgress(clampedNext);
      if (loop.direction == Forward && clampedNext >= 1.0 - PROGRESS_EPSILON)
         || (loop.direction == Reverse && clampedNext <= PROGRESS_EPSILON) {
        FinalizeTransition(loop.direction);
        return;
      }
      scheduledFrame := Some(loop);
    }

    /** `seekAndStart`, run once the media has its metadata: a stale call
        returns at once; otherwise playback starts now if the media needs no
        seek and is ready (`readyNow`), or later on its `seeked` event. */
    method SeekAndStart(loop: FrameLoop, readyNow: bool)
      requires Valid()
      requires loop in issued
      modifies this
      ensures Valid()
      ensures issued == old(issued)
      ensures loop.token != old(token) || !readyNow ==> unchanged(this)
      ensures loop.token == old(token) && readyNow ==>
        visibleDirection == loop.direction && scheduledFrame == Some(loop)
      ensures token == old(token) && progress == old(progress) && isBetterWay == old(isBetterWay)
      ensures transitionDirection == old(transitionDirection) && activeCount == old(activeCount)
      ensures activeCountWrites == old(activeCountWrites)
      ensures supportsWebM == old(supportsWebM) && pendingSeek == old(pendingSeek)
    {
      if token != loop.token {
        return;
      }
      if readyNow {
        StartPlayback(loop);
      }
    }

    /** `startPlayback`: a stale call returns at once; otherwise the
        loop's media becomes the visible one and its first frame is
        requested. */
    method StartPlayback(loop: FrameLoop)
      requires Valid()
      requires loop in issued
      modifies this
      ensures Valid()
      ensures loop.token != old(token) ==> unchanged(this)
      ensures loop.token == old(token) ==>
        visibleDirection == loop.direction && scheduledFrame == Some(loop)
      ensures token == old(token) && progress == old(progress) && isBetterWay == old(isBetterWay)
      ensures transitionDirection == old(transitionDirection) && activeCount == old(activeCount)
      ensures activeCountWrites == old(activeCountWrites)
      ensures supportsWebM == old(supportsWebM) && pendingSeek == old(pendingSeek)
      ensures issued == old(issued)
    {
      if token != loop.token {
        return;
      }
      visibleDirection := loop.direction;
      scheduledFrame := Some(loop);
    }

    /** One media frame: like `TimerTick`, but the progress is read from
        the media position (`videoTime`, `None` when the element is gone). */
    method VideoTick(loop: FrameLoop, videoTime: Option<real>)
      requires Valid()
      requires loop in issued
      modifies this
      ensures Valid()
      ensures issued == old(issued)
      ensures loop.token != old(token) ==> unchanged(this)
      ensures loop.token == old(token) ==>
        var p := ProgressFromVideo(loop.direction, videoTime, old(progress));
        var written := if ActiveCountFor(p) == old(activeCount) then 0 else 1;
        && supportsWebM == old(supportsWebM) && pendingSeek == old(pendingSeek)
        && if AtEnd(loop.direction, p) then
          && token == old(token) + 1
          && progress == (if loop.direction == Forward then 1.0 else 0.0)
          && isBetterWay == (loop.direction == Forward)
          && transitionDirection == None && scheduledFrame == None
          && visibleDirection == loop.direction
          && activeCountWrites == old(activeCountWrites) + written
               + (if activeCount == ActiveCountFor(p) then 0 else 1)
        else
          && token == old(token) && progress == p
          && isBetterWay == old(isBetterWay)
          && transitionDirection == old(transitionDirection)
          && scheduledFrame == Some(loop)
          && visibleDirection == old(visibleDirection)
          && activeCountWrites == old(activeCountWrites) + written
    {
      if token != loop.token {
        return;
      }
      var p := ProgressFromVideo(loop.direction, videoTime, progress);
      SetProgress(p);
      if (loop.direction == Forward && p >= 1.0 - PROGRESS_EPSILON)
         || (loop.direction == Reverse && p <= PROGRESS_EPSILON) {
        FinalizeTransition(loop.direction);
        return;
      }
      scheduledFrame := Some(loop);
    }

    /** Unmounting cancels the requested frame. */
    method Unmount()
      requires Valid()
      modifies this
      ensures Valid()
      ensures issued == old(issued)
      ensures scheduledFrame == None
      ensures token == old(token) && progress == old(progress) && isBetterWay == old(isBetterWay)
      ensures transitionDirection == old(transitionDirection) && visibleDirection == old(visibleDirection)
      ensures supportsWebM == old(supportsWebM) && pendingSeek == old(pendingSeek)
      ensures activeCount == old(activeCount) && activeCountWrites == old(activeCountWrites)
    {
      StopRaf();
    }
  }

  /** A forward transition on the timer path, interrupted after 3 seconds
      (progress 0.4) and reversed: the reverse starts from 0.4, and a later
      frame of the forward loop, even one past the forward end, changes
      nothing. */
  method InterruptScenario() returns (atToggle: real, afterStaleFrame: real, betterWay: bool)
    ensures atToggle == 0.4 && afterStaleFrame == 0.4 && !betterWay
  {
    var section := new HomeworkOpportunity();
    section.DetectWebM(false);
    section.HandleToggle(None);
    var forward := section.BeginTransitionLoop(1000, false);
    assert forward == Some(FrameLoop(section.token, Forward, 0.0, 1000));
    assert TimerProgress(Forward, 0.0, 3000) == 0.4;
    assert !AtEnd(Forward, 0.4);
    section.TimerTick(forward.value, 4000);
    assert section.progress == 0.4;
    section.HandleToggle(None);
    atToggle := section.progress;
    var reverse := section.BeginTransitionLoop(4000, false);
    assert reverse == Some(FrameLoop(section.token, Reverse, 0.4, 4000));
    section.TimerTick(forward.value, 9000);
    afterStaleFrame, betterWay := section.progress, section.isBetterWay;
  }
}
