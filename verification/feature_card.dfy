/** A falling feature card (v2/src/components/molecules/FeatureCard.tsx):
    its landed/falling state and landing timer, and the wiggles it starts
    on click, key press, hover and a change of `wiggleKey`.  Wiggle
    animations are modelled only by the list of wiggles started; the
    wobble duration and the keyframes are presentation.  Times are the
    integer milliseconds `Date.now()` would return. */
module Cards {
  import opened Wrappers

  /** The hover throttle, in milliseconds. */
  const HOVER_THROTTLE_MS: int := 300
  /** The drop animation's duration, in seconds. */
  const DROP_SECONDS: real := 2.5

  datatype Variant = Falling | Static

  /** A wiggle animation the card started: a click wiggle, or a hover
      wiggle accepted at time `at`. */
  datatype Wiggle = ClickWiggle | HoverWiggle(at: int)

  /** The times of the hover wiggles, in the order they were started. */
  function HoverTimes(ws: seq<Wiggle>): (hs: seq<int>)
    ensures |hs| <= |ws|
    ensures forall t :: t in hs <==> HoverWiggle(t) in ws
  {
    if ws == [] then []
    else
      var rest := HoverTimes(ws[..|ws| - 1]);
      assert ws == ws[..|ws| - 1] + [ws[|ws| - 1]];
      if ws[|ws| - 1].HoverWiggle? then rest + [ws[|ws| - 1].at] else rest
  }

  lemma HoverTimesAppend(ws: seq<Wiggle>, w: Wiggle)
    ensures HoverTimes(ws + [w]) == if w.HoverWiggle? then HoverTimes(ws) + [w.at] else HoverTimes(ws)
  {
    assert (ws + [w])[..|ws + [w]| - 1] == ws;
  }

  /** Each accepted hover comes at least the throttle after the one
      before, the first one at least the throttle after time 0 (the ref's
      initial value). */
  predicate ThrottledGaps(hs: seq<int>) {
    && (|hs| > 0 ==> hs[0] >= HOVER_THROTTLE_MS)
    && forall i :: 0 < i < |hs| ==> hs[i] - hs[i - 1] >= HOVER_THROTTLE_MS
  }

  /** Throttled gaps add up: any two accepted hovers, whatever the clock
      did in between, are apart by the throttle times their distance in
      the list; in particular they are increasing and at least 300 ms
      apart. */
  lemma {:induction false} ThrottledGapsAccumulate(hs: seq<int>, i: int, j: int)
    requires ThrottledGaps(hs)
    requires 0 <= i < j < |hs|
    ensures hs[j] - hs[i] >= HOVER_THROTTLE_MS * (j - i)
    ensures hs[j] - hs[i] >= HOVER_THROTTLE_MS
    decreases j - i
  {
    if j > i + 1 {
      ThrottledGapsAccumulate(hs, i, j - 1);
    }
  }

  class FeatureCard {
    const variant: Variant
    /** The fall delay, in seconds. */
    const delay: real
    const interactive: bool
    /** Whether the parent passed `onWiggle`. */
    const hasOnWiggle: bool

    var isLanded: bool
    var isFalling: bool
    /** The pending landing timeout, as its due time in milliseconds
        after mounting. */
    var landingTimer: Option<real>
    /** `lastHoverWiggleAt.current` */
    var lastHoverWiggleAt: int
    /** Every wiggle the card started, oldest first. */
    var wiggles: seq<Wiggle>
    /** How many times the card called `onWiggle`. */
    var onWiggleCalls: nat

    /** Landed and falling are opposites; a static card is landed and
        schedules nothing; a pending timer belongs to a falling card and is
        due at the end of the drop; the accepted hovers are throttled and
        the last one is the remembered time.  A card without handlers
        never hovers and never calls its parent. */
    ghost predicate Valid()
      reads this
    {
      && isLanded == !isFalling
      && (variant == Static ==> isLanded && landingTimer == None)
      && (landingTimer.Some? ==> !isLanded && landingTimer.value == (delay + DROP_SECONDS) * 1000.0)
      && ThrottledGaps(HoverTimes(wiggles))
      && lastHoverWiggleAt == (if HoverTimes(wiggles) == [] then 0
                               else HoverTimes(wiggles)[|HoverTimes(wiggles)| - 1])
      && (!interactive ==> lastHoverWiggleAt == 0 && onWiggleCalls == 0)
    }

    /** Mounting: a static card starts landed, a falling card starts
        falling and schedules its landing at `(delay + 2.5) * 1000` ms. */
    constructor (variant: Variant, delay: real, interactive: bool, hasOnWiggle: bool)
      ensures Valid()
      ensures this.variant == variant && this.delay == delay
      ensures this.interactive == interactive && this.hasOnWiggle == hasOnWiggle
      ensures isLanded == (variant == Static) && isFalling == (variant == Falling)
      ensures landingTimer == if variant == Static then None else Some((delay + DROP_SECONDS) * 1000.0)
      ensures lastHoverWiggleAt == 0 && wiggles == [] && onWiggleCalls == 0
    {
      this.variant := variant;
      this.delay := delay;
      this.interactive := interactive;
      this.hasOnWiggle := hasOnWiggle;
      isLanded := variant == Static;
      isFalling := variant != Static;
      landingTimer := if variant == Static then None else Some((delay + DROP_SECONDS) * 1000.0);
      lastHoverWiggleAt := 0;
      wiggles := [];
      onWiggleCalls := 0;
    }

    /** The landing timeout fires: the card is landed and no longer
        falling. */
    method LandingTimerFires()
      requires Valid()
      modifies this
      ensures Valid()
      ensures old(landingTimer).None? ==> unchanged(this)
      ensures old(landingTimer).Some? ==> isLanded && !isFalling && landingTimer == None
      ensures wiggles == old(wiggles) && onWiggleCalls == old(onWiggleCalls)
      ensures lastHoverWiggleAt == old(lastHoverWiggleAt)
    {
      if landingTimer.None? {
        return;
      }
      isLanded := true;
      isFalling := false;
      landingTimer := None;
    }

    /** `handleWiggle`: hand the click to the parent when it listens,
        otherwise start a click wiggle here. */
    method HandleWiggle()
      requires Valid() && interactive
      modifies this`wiggles, this`onWiggleCalls
      ensures Valid()
      ensures hasOnWiggle ==> onWiggleCalls == old(onWiggleCalls) + 1 && wiggles == old(wiggles)
      ensures !hasOnWiggle ==> wiggles == old(wiggles) + [ClickWiggle] && onWiggleCalls == old(onWiggleCalls)
    {
      if hasOnWiggle {
        onWiggleCalls := onWiggleCalls + 1;
        return;
      }
      HoverTimesAppend(wiggles, ClickWiggle);
      wiggles := wiggles + [ClickWiggle];
    }

    /** A click: only an interactive card has the handler. */
    method Click()
      requires Valid()
      modifies this`wiggles, this`onWiggleCalls
      ensures Valid()
      ensures !interactive ==> unchanged(this)
      ensures interactive && hasOnWiggle ==> onWiggleCalls == old(onWiggleCalls) + 1 && wiggles == old(wiggles)
      ensures interactive && !hasOnWiggle ==> wiggles == old(wiggles) + [ClickWiggle] && onWiggleCalls == old(onWiggleCalls)
    {
      if interactive {
        HandleWiggle();
      }
    }

    /** A key press: Enter or Space on an interactive card acts as a
        click; every other key does nothing. */
    method KeyDown(key: string)
      requires Valid()
      modifies this`wiggles, this`onWiggleCalls
      ensures Valid()
      ensures !(interactive && (key == "Enter" || key == " ")) ==> unchanged(this)
      ensures interactive && (key == "Enter" || key == " ") ==>
        if hasOnWiggle then onWiggleCalls == old(onWiggleCalls) + 1 && wiggles == old(wiggles)
        else wiggles == old(wiggles) + [ClickWiggle] && onWiggleCalls == old(onWiggleCalls)
    {
      if interactive && (key == "Enter" || key == " ") {
        HandleWiggle();
      }
    }

    /** `handleHoverWiggle` (hover start or touch start) at time `now`: on
        an interactive card, a hover less than 300 ms after the last
        accepted one is ignored and leaves the remembered time alone;
        otherwise it is remembered and starts a hover wiggle. */
    method HoverStart(now: int)
      requires Valid()
      modifies this`wiggles, this`lastHoverWiggleAt
      ensures Valid()
      ensures !(interactive && now - old(lastHoverWiggleAt) >= HOVER_THROTTLE_MS) ==> unchanged(this)
      ensures interactive && now - old(lastHoverWiggleAt) >= HOVER_THROTTLE_MS ==>
        lastHoverWiggleAt == now && wiggles == old(wiggles) + [HoverWiggle(now)]
    {
      if !interactive || now - lastHoverWiggleAt < HOVER_THROTTLE_MS {
        return;
      }
      HoverTimesAppend(wiggles, HoverWiggle(now));
      lastHoverWiggleAt := now;
      wiggles := wiggles + [HoverWiggle(now)];
    }

    /** The `wiggleKey` effect, run with the prop's new value: zero or no
        key starts nothing, any other key a click wiggle. */
    method WiggleKeyChanged(wiggleKey: Option<int>)
      requires Valid()
      modifies this`wiggles
      ensures Valid()
      ensures (wiggleKey.None? || wiggleKey.value == 0) ==> wiggles == old(wiggles)
      ensures wiggleKey.Some? && wiggleKey.value != 0 ==> wiggles == old(wiggles) + [ClickWiggle]
    {
      if wiggleKey.None? || wiggleKey.value == 0 {
        return;
      }
      HoverTimesAppend(wiggles, ClickWiggle);
      wiggles := wiggles + [ClickWiggle];
    }

    /** Unmounting clears the landing timeout. */
    method Unmount()
      requires Valid()
      modifies this`landingTimer
      ensures Valid()
      ensures landingTimer == None
    {
      landingTimer := None;
    }
  }

  /** Two hovers 100 ms apart on a fresh card: the first, at 1000 ms, is
      accepted and the second is swallowed by the throttle; a click with a
      listening parent goes to the parent and starts no wiggle. */
  method HoverThrottleScenario() returns (wiggles: seq<Wiggle>, remembered: int, calls: nat)
    ensures wiggles == [HoverWiggle(1000)]
    ensures remembered == 1000
    ensures calls == 1
  {
    var card := new FeatureCard(Falling, 0.4, true, true);
    card.HoverStart(1000);
    assert card.wiggles == [HoverWiggle(1000)] && card.lastHoverWiggleAt == 1000;
    card.HoverStart(1100);
    assert card.wiggles == [HoverWiggle(1000)] && card.lastHoverWiggleAt == 1000;
    card.Click();
    wiggles, remembered, calls := card.wiggles, card.lastHoverWiggleAt, card.onWiggleCalls;
  }
}
