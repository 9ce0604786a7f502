/** The preview window's title-bar buttons
    (v2/src/components/molecules/PreviewWindow.tsx): the close button shakes
    the window for 350 ms, ignoring clicks while it shakes, and the
    maximize button toggles.  `window.setTimeout` is modelled by a table of
    pending timeouts from their ids to their due times; the clock is an
    input. */
module Preview {
  import opened Wrappers

  /** How long the shake lasts, in milliseconds. */
  const SHAKE_MS: int := 350

  class PreviewWindow {
    var isShaking: bool
    var isMaximized: bool
    /** `shakeTimeoutRef.current`: the id of the last shake timeout set,
        kept (as in the component) after it has fired. */
    var shakeTimeoutRef: Option<nat>
    /** Pending timeouts: id to due time. */
    var timers: map<nat, int>
    /** The id the next `setTimeout` will return. */
    var nextTimerId: nat
    var mounted: bool

    /** Every id handed out is below `nextTimerId`; at most one timeout is
        pending and it is the one the ref holds; while mounted the window
        shakes exactly when that timeout is pending, and nothing is pending
        once it is unmounted. */
    ghost predicate Valid()
      reads this
    {
      && (forall id :: id in timers ==> id < nextTimerId)
      && (shakeTimeoutRef.Some? ==> shakeTimeoutRef.value < nextTimerId)
      && (forall id :: id in timers ==> shakeTimeoutRef == Some(id))
      && (mounted ==> (isShaking <==> timers != map[]))
      && (!mounted ==> timers == map[])
    }

    /** Mounting: neither shaking nor maximized, no timeout. */
    constructor ()
      ensures Valid()
      ensures mounted && !isShaking && !isMaximized
      ensures shakeTimeoutRef == None && timers == map[] && nextTimerId == 1
    {
      isShaking := false;
      isMaximized := false;
      shakeTimeoutRef := None;
      timers := map[];
      nextTimerId := 1;
      mounted := true;
    }

    /** `handleCloseClick` at time `now`: ignored while shaking; otherwise
        start shaking, clear the timeout the ref holds, and set exactly one
        new timeout, due 350 ms later, which the ref now holds. */
    method CloseClick(now: int)
      requires Valid() && mounted
      modifies this
      ensures Valid() && mounted
      ensures old(isShaking) ==> unchanged(this)
      ensures !old(isShaking) ==>
        && isShaking
        && shakeTimeoutRef == Some(old(nextTimerId))
        && timers == map[old(nextTimerId) := now + SHAKE_MS]
        && nextTimerId == old(nextTimerId) + 1
        && isMaximized == old(isMaximized)
    {
      if isShaking {
        return;
      }
      isShaking := true;
      if shakeTimeoutRef.Some? {
        timers := timers - {shakeTimeoutRef.value};
      }
      assert timers == map[];
      var id := nextTimerId;
      nextTimerId := nextTimerId + 1;
      timers := timers[id := now + SHAKE_MS];
      shakeTimeoutRef := Some(id);
    }

    /** A pending timeout fires: the shake ends.  The ref keeps the spent
        id. */
    method ShakeTimerFires(id: nat)
      requires Valid() && mounted
      requires id in timers
      modifies this
      ensures Valid() && mounted
      ensures !isShaking && timers == map[]
      ensures isMaximized == old(isMaximized) && shakeTimeoutRef == old(shakeTimeoutRef)
      ensures nextTimerId == old(nextTimerId)
    {
      timers := timers - {id};
      assert timers == map[];
      isShaking := false;
    }

    /** `handleMaximizeClick`: toggle maximized. */
    method MaximizeClick()
      requires Valid() && mounted
      modifies this`isMaximized
      ensures Valid()
      ensures isMaximized == !old(isMaximized)
    {
      isMaximized := !isMaximized;
    }

    /** Unmounting clears the timeout the ref holds, so nothing is left
        pending. */
    method Unmount()
      requires Valid() && mounted
      modifies this
      ensures Valid() && !mounted
      ensures timers == map[]
      ensures isShaking == old(isShaking) && isMaximized == old(isMaximized)
      ensures shakeTimeoutRef == old(shakeTimeoutRef) && nextTimerId == old(nextTimerId)
    {
      if shakeTimeoutRef.Some? {
        timers := timers - {shakeTimeoutRef.value};
      }
      assert timers == map[];
      mounted := false;
    }
  }

  /** Two maximize clicks restore the window; a second close click during
      the shake is ignored, so one timeout is pending, due 350 ms after the
      first click. */
  method PreviewScenario() returns (maximized: bool, shaking: bool, pending: map<nat, int>)
    ensures !maximized && shaking
    ensures pending == map[1 := 1350]
  {
    var w := new PreviewWindow();
    w.MaximizeClick();
    w.CloseClick(1000);
    w.CloseClick(1100);
    w.MaximizeClick();
    maximized, shaking, pending := w.isMaximized, w.isShaking, w.timers;
  }
}
