/** Scroll-position memory: `useScrollRestoration` puts the window back at the
    remembered offset once per mount, after a 50 ms timeout that can be
    cancelled; `useScrollCapture` reports the offset at most once per
    animation frame. Timers and frames are explicit steps here: a pending
    timeout or frame is state, and its firing is an event. */
module ScrollRestoration {
  import opened Wrappers
  import opened GalleryContext

  /** The browser window's vertical scroll offset. */
  class Viewport {
    var scrollY: int

    constructor (scrollY: int)
      ensures this.scrollY == scrollY
    {
      this.scrollY := scrollY;
    }
  }

  // ---------------------------------------------------------------------------
  // Restoration

  /** The hook's `hasRestoredRef`, the offset of the restore its pending
      timeout will perform (if one is pending), and the window's offset. */
  datatype Restoration = Restoration(hasRestored: bool, timeout: Option<int>, viewportTop: int)

  /** The `clearTimeout` cleanup, run before the effect runs again and on unmount. */
  function CancelTimeout(r: Restoration): (r': Restoration)
    ensures r'.timeout == None
    ensures r'.hasRestored == r.hasRestored && r'.viewportTop == r.viewportTop
  {
    r.(timeout := None)
  }

  /** The restoring effect, run on mount and whenever `shouldRestore`,
      `scrollPosition` or the photo count changes: after cleaning up the
      previous run it schedules a restore exactly when there is something to
      restore and this mount has not restored yet. */
  function RestoreEffect(r: Restoration, shouldRestore: bool, scrollPosition: int): (r': Restoration)
    ensures r'.timeout.Some? <==> shouldRestore && scrollPosition > 0 && !r.hasRestored
    ensures r'.timeout.Some? ==> r'.timeout.value == scrollPosition
    ensures r'.hasRestored == r.hasRestored && r'.viewportTop == r.viewportTop
  {
    var cleaned := CancelTimeout(r);
    if shouldRestore && scrollPosition > 0 && !cleaned.hasRestored then
      cleaned.(timeout := Some(scrollPosition))
    else
      cleaned
  }

  /** The re-arming effect, run on mount and whenever `shouldRestore` changes:
      the flag is cleared exactly when `shouldRestore` is false. */
  function ResetEffect(r: Restoration, shouldRestore: bool): (r': Restoration)
    ensures r'.hasRestored == (r.hasRestored && shouldRestore)
    ensures r'.timeout == r.timeout && r'.viewportTop == r.viewportTop
  {
    if !shouldRestore then r.(hasRestored := false) else r
  }

  /** The pending timeout fires: the window jumps to the remembered offset and
      only then is the flag set. With nothing pending nothing happens. */
  function TimeoutFires(r: Restoration): (r': Restoration)
    ensures r.timeout.Some? ==> r'.viewportTop == r.timeout.value && r'.hasRestored && r'.timeout == None
    ensures r.timeout.None? ==> r' == r
  {
    match r.timeout
    case Some(top) => Restoration(true, None, top)
    case None => r
  }

  /** The list view is unmounted (its pending timeout is cleared) and mounted
      again with a fresh `hasRestoredRef`. */
  function Remount(r: Restoration): (r': Restoration)
    ensures !r'.hasRestored && r'.timeout == None && r'.viewportTop == r.viewportTop
  {
    Restoration(false, None, r.viewportTop)
  }

  datatype RestoreEvent =
    | EffectRuns(shouldRestore: bool, scrollPosition: int)
    | ResetEffectRuns(shouldRestore: bool)
    | Fires
    | Unmounts
    | Remounts
    | UserScrolls(top: int)

  function RestoreStep(r: Restoration, e: RestoreEvent): Restoration
  {
    match e
    case EffectRuns(shouldRestore, scrollPosition) => RestoreEffect(r, shouldRestore, scrollPosition)
    case ResetEffectRuns(shouldRestore) => ResetEffect(r, shouldRestore)
    case Fires => TimeoutFires(r)
    case Unmounts => CancelTimeout(r)
    case Remounts => Remount(r)
    case UserScrolls(top) => r.(viewportTop := top)
  }

  /** Whether the event is a timeout that actually moves the window. */
  predicate Restores(r: Restoration, e: RestoreEvent)
  {
    e.Fires? && r.timeout.Some?
  }

  /** How many of the events restore the window. */
  function RestoreCount(r: Restoration, events: seq<RestoreEvent>): nat
    decreases |events|
  {
    if events == [] then 0
    else (if Restores(r, events[0]) then 1 else 0) + RestoreCount(RestoreStep(r, events[0]), events[1..])
  }

  /** A restore is pending only for a positive offset on a mount that has not restored. */
  predicate RestoreInv(r: Restoration)
  {
    r.timeout.Some? ==> !r.hasRestored && r.timeout.value > 0
  }

  lemma RestoreStepKeepsInv(r: Restoration, e: RestoreEvent)
    requires RestoreInv(r)
    ensures RestoreInv(RestoreStep(r, e))
  {
  }

  /** The events that re-arm the guard: `shouldRestore` turning false, or a new mount. */
  predicate ReArms(e: RestoreEvent)
  {
    e == ResetEffectRuns(false) || e.Remounts?
  }

  /** Between two re-armings the window is restored at most once, and not at
      all once the flag is set. */
  lemma {:induction false} AtMostOneRestore(r: Restoration, events: seq<RestoreEvent>)
    requires RestoreInv(r)
    requires forall i :: 0 <= i < |events| ==> !ReArms(events[i])
    ensures RestoreCount(r, events) <= if r.hasRestored then 0 else 1
    decreases |events|
  {
    if events != [] {
      var r' := RestoreStep(r, events[0]);
      RestoreStepKeepsInv(r, events[0]);
      assert forall i :: 0 <= i < |events[1..]| ==> !ReArms(events[1..][i]) by {
        forall i | 0 <= i < |events[1..]| ensures !ReArms(events[1..][i]) {
          assert events[1..][i] == events[i + 1];
        }
      }
      AtMostOneRestore(r', events[1..]);
      assert !ReArms(events[0]);
      if Restores(r, events[0]) {
        assert r'.hasRestored;
      } else if r.hasRestored {
        assert r'.hasRestored;
      }
    }
  }

  /** A restore cleared before its timeout fires never moves the window and
      leaves the guard unset, so a later mount or run may still restore. */
  lemma CancelledRestoreNeverScrolls(r: Restoration)
    requires RestoreInv(r) && r.timeout.Some?
    ensures var c := TimeoutFires(CancelTimeout(r));
      c.viewportTop == r.viewportTop && !c.hasRestored && c.timeout == None
  {
  }

  /** Coming back to the grid, which passes `photos.length > 0` and the
      remembered `scrollPosition`: both effects run on mount, and when the
      timeout fires the window is at the remembered offset. */
  lemma BackNavigationRestores(r: Restoration, g: GalleryState)
    requires |g.photos| > 0 && g.scrollPosition > 0
    ensures var mounted := ResetEffect(RestoreEffect(Remount(r), |g.photos| > 0, g.scrollPosition), |g.photos| > 0);
      && mounted.timeout == Some(g.scrollPosition)
      && TimeoutFires(mounted).viewportTop == g.scrollPosition && TimeoutFires(mounted).hasRestored
  {
  }

  /** `useScrollRestoration`'s state: the ref, the pending timeout, the window. */
  class ScrollRestorationHook {
    var hasRestoredRef: bool
    var timeout: Option<int>
    const window: Viewport

    function Model(): Restoration
      reads this, window
    {
      Restoration(hasRestoredRef, timeout, window.scrollY)
    }

    constructor (window: Viewport)
      ensures this.window == window
      ensures Model() == Restoration(false, None, window.scrollY)
    {
      this.window := window;
      hasRestoredRef := false;
      timeout := None;
    }

    method RunRestoreEffect(shouldRestore: bool, scrollPosition: int)
      modifies this
      ensures Model() == RestoreEffect(old(Model()), shouldRestore, scrollPosition)
    {
      timeout := None;
      if shouldRestore && scrollPosition > 0 && !hasRestoredRef {
        timeout := Some(scrollPosition);
      }
    }

    method RunResetEffect(shouldRestore: bool)
      modifies this
      ensures Model() == ResetEffect(old(Model()), shouldRestore)
    {
      if !shouldRestore {
        hasRestoredRef := false;
      }
    }

    /** The 50 ms timeout fires: `scrollTo`, then the flag. */
    method OnTimeout()
      modifies this, window
      ensures Model() == TimeoutFires(old(Model()))
    {
      if timeout.Some? {
        window.scrollY := timeout.value;
        hasRestoredRef := true;
        timeout := None;
      }
    }

    method Cleanup()
      modifies this
      ensures Model() == CancelTimeout(old(Model()))
    {
      timeout := None;
    }
  }

  // ---------------------------------------------------------------------------
  // Capture

  /** `useScrollCapture`'s `ticking` flag and the number of animation-frame
      callbacks it has requested that have not run yet. */
  datatype Capture = Capture(ticking: bool, framesPending: nat)

  const InitialCapture: Capture := Capture(false, 0)

  /** A scroll event requests a frame only when none is outstanding. */
  function CaptureScroll(c: Capture): (c': Capture)
    ensures c.ticking ==> c' == c
    ensures !c.ticking ==> c'.ticking && c'.framesPending == c.framesPending + 1
  {
    if !c.ticking then Capture(true, c.framesPending + 1) else c
  }

  /** A requested frame runs: it reports the offset and lowers the flag. */
  function FrameRuns(c: Capture): (c': Capture)
    requires c.framesPending > 0
    ensures !c'.ticking && c'.framesPending == c.framesPending - 1
  {
    Capture(false, c.framesPending - 1)
  }

  datatype CaptureEvent = Scrolled | FrameDue

  function CaptureStep(c: Capture, e: CaptureEvent): Capture
  {
    match e
    case Scrolled => CaptureScroll(c)
    case FrameDue => if c.framesPending > 0 then FrameRuns(c) else c
  }

  function RunCapture(c: Capture, events: seq<CaptureEvent>): Capture
    decreases |events|
  {
    if events == [] then c else RunCapture(CaptureStep(c, events[0]), events[1..])
  }

  /** `ticking` is true exactly while one frame is requested. */
  predicate CaptureInv(c: Capture)
  {
    c.framesPending == if c.ticking then 1 else 0
  }

  /** From a fresh hook, whatever scroll events and frames come, at most one
      frame callback is ever pending. */
  lemma {:induction false} AtMostOneFramePending(c: Capture, events: seq<CaptureEvent>)
    requires CaptureInv(c)
    ensures CaptureInv(RunCapture(c, events)) && RunCapture(c, events).framesPending <= 1
    decreases |events|
  {
    if events != [] {
      AtMostOneFramePending(CaptureStep(c, events[0]), events[1..]);
    }
  }

  /** `useScrollCapture(onScrollCapture)` with `onScrollCapture` the gallery's
      `setScrollPosition`. */
  class ScrollCaptureHook {
    var ticking: bool
    var framesPending: nat
    const window: Viewport
    const ctx: GalleryProvider

    function Model(): Capture
      reads this
    {
      Capture(ticking, framesPending)
    }

    constructor (window: Viewport, ctx: GalleryProvider)
      ensures this.window == window && this.ctx == ctx
      ensures Model() == InitialCapture
    {
      this.window := window;
      this.ctx := ctx;
      ticking := false;
      framesPending := 0;
    }

    method HandleScroll()
      modifies this
      ensures Model() == CaptureScroll(old(Model()))
    {
      if !ticking {
        framesPending := framesPending + 1;
        ticking := true;
      }
    }

    /** The frame callback reports the window's current offset to the gallery. */
    method OnAnimationFrame()
      requires framesPending > 0
      modifies this, ctx
      ensures Model() == FrameRuns(old(Model()))
      ensures ctx.state == UpdateScrollPosition(old(ctx.state), window.scrollY)
    {
      ctx.SetScrollPosition(window.scrollY);
      ticking := false;
      framesPending := framesPending - 1;
    }
  }
}
