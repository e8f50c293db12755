/** The gallery grid: `loadPhotos` and the handlers around it, over the shared
    gallery state and the component's own page cursor (`currentPageRef`).
    One call of `loadPhotos` is two atomic steps: `Begin` (the gate and the
    writes before the `await`) and `Complete` (what follows the fetch, given
    its outcome: the photos, or `None` when it threw). */
module PhotoGrid {
  import opened Wrappers
  import opened PhotoService
  import opened GalleryContext
  import opened InfiniteScroll

  /** Photos asked for per page; a shorter page ends the listing. */
  const PageSize: int := 20
  /** The `threshold` the grid passes to the infinite-scroll hook. */
  const GridScrollThreshold: int := 1000
  const PhotosFailedMessage: string := "Failed to load photos. Please try again."

  /** The arguments of an outstanding `loadPhotos` call. */
  datatype Request = Request(page: int, isInitial: bool)

  /** The shared gallery record, the component's `currentPageRef`, and the
      list fetch that has been issued and not answered yet. */
  datatype Grid = Grid(gallery: GalleryState, pageRef: int, pending: Option<Request>)

  const InitialGrid: Grid := Grid(InitialState, 1, None)

  /** The first half of `loadPhotos(pageNum, isInitial)`: a call while loading
      does nothing; otherwise `loading` is set, `error` cleared and the fetch
      of `pageNum` issued. */
  function Begin(m: Grid, pageNum: int, isInitial: bool): (r: Grid)
    ensures m.gallery.loading ==> r == m
    ensures !m.gallery.loading ==>
      && r.gallery.loading && r.gallery.error == None
      && r.pending == Some(Request(pageNum, isInitial)) && r.pageRef == m.pageRef
      && Agree(m.gallery, r.gallery, {Photos, CurrentPage, HasMore, ScrollPosition})
  {
    if m.gallery.loading then m
    else Grid(UpdateError(UpdateLoading(m.gallery, true), None), m.pageRef, Some(Request(pageNum, isInitial)))
  }

  /** The second half of `loadPhotos`, once the fetch of the pending request
      has settled. */
  function Complete(m: Grid, response: Option<seq<Photo>>): (r: Grid)
    requires m.pending.Some?
    // `finally`: loading ends whatever the outcome
    ensures !r.gallery.loading && r.pending == None
    ensures r.gallery.scrollPosition == m.gallery.scrollPosition
    // `catch`: the message is shown, the list, its end flag and both cursors stay
    ensures response.None? ==>
      && r.gallery.error == Some(PhotosFailedMessage)
      && Agree(m.gallery, r.gallery, {Photos, CurrentPage, HasMore})
      && r.pageRef == m.pageRef
    ensures response.Some? ==> r.gallery.error == m.gallery.error
    // a short page ends the listing; a full one leaves the flag as it was
    ensures response.Some? ==> (r.gallery.hasMore <==> m.gallery.hasMore && |response.value| >= PageSize)
    // an empty page changes neither the list nor the cursors
    ensures response == Some([]) ==>
      Agree(m.gallery, r.gallery, {Photos, CurrentPage}) && r.pageRef == m.pageRef
    // a non-empty page replaces (initial load) or extends the list, and both cursors reach its number
    ensures response.Some? && |response.value| > 0 ==>
      && r.gallery.photos == (if m.pending.value.isInitial then response.value else m.gallery.photos + response.value)
      && r.gallery.currentPage == m.pending.value.page
      && r.pageRef == m.pending.value.page
  {
    var req := m.pending.value;
    match response
    case None =>
      Grid(UpdateLoading(UpdateError(m.gallery, Some(PhotosFailedMessage)), false), m.pageRef, None)
    case Some(newPhotos) =>
      var g := if |newPhotos| < PageSize then UpdateHasMore(m.gallery, false) else m.gallery;
      if |newPhotos| > 0 then
        var g' := if req.isInitial then UpdatePhotos(g, newPhotos) else AppendPhotos(g, newPhotos);
        Grid(UpdateLoading(UpdateCurrentPage(g', req.page), false), req.page, None)
      else
        Grid(UpdateLoading(UpdateHasMore(g, false), false), m.pageRef, None)
  }

  /** `handleLoadMore`: the cursor moves on first, then that page is loaded. */
  function HandleLoadMore(m: Grid): (r: Grid)
    ensures r.pageRef == m.pageRef + 1
    ensures !m.gallery.loading ==>
      && r.pending == Some(Request(m.pageRef + 1, false)) && r.gallery.loading && r.gallery.error == None
      && Agree(m.gallery, r.gallery, {Photos, CurrentPage, HasMore, ScrollPosition})
    ensures m.gallery.loading ==> r.gallery == m.gallery && r.pending == m.pending
  {
    Begin(m.(pageRef := m.pageRef + 1), m.pageRef + 1, false)
  }

  /** The Try Again handler: cursor back to 1, error cleared, listing re-opened,
      and an initial load of page 1. */
  function TryAgain(m: Grid): (r: Grid)
    ensures r.pageRef == 1 && r.gallery.hasMore && r.gallery.error == None
    ensures Agree(m.gallery, r.gallery, {Photos, CurrentPage, ScrollPosition})
    ensures !m.gallery.loading ==> r.pending == Some(Request(1, true)) && r.gallery.loading
    ensures m.gallery.loading ==> r.pending == m.pending && r.gallery.loading
  {
    Begin(Grid(UpdateHasMore(UpdateError(m.gallery, None), true), 1, m.pending), 1, true)
  }

  /** The initial-load effect: only an empty list triggers a load of page 1,
      and only when nothing is loading already. */
  function InitialLoad(m: Grid): (r: Grid)
    ensures |m.gallery.photos| > 0 || m.gallery.loading ==> r == m
    ensures |m.gallery.photos| == 0 && !m.gallery.loading ==>
      && r.pending == Some(Request(1, true)) && r.gallery.loading && r.gallery.error == None
      && Agree(m.gallery, r.gallery, {Photos, CurrentPage, HasMore, ScrollPosition})
    ensures r.pageRef == m.pageRef && r.gallery.photos == m.gallery.photos
  {
    if |m.gallery.photos| == 0 then Begin(m, 1, true) else m
  }

  /** A window scroll event, through the infinite-scroll hook to `handleLoadMore`. */
  function HandleScroll(m: Grid, innerHeight: int, scrollTop: int, offsetHeight: int): (r: Grid)
    ensures (r.pageRef == m.pageRef + 1) <==>
      NearBottom(innerHeight, scrollTop, offsetHeight, GridScrollThreshold) && m.gallery.hasMore && !m.gallery.loading
    ensures r.pageRef == m.pageRef + 1 ==> r == HandleLoadMore(m) && r.pending == Some(Request(m.pageRef + 1, false))
    ensures r.pageRef != m.pageRef + 1 ==> r == m
  {
    if ShouldLoadMore(innerHeight, scrollTop, offsetHeight, Some(GridScrollThreshold), m.gallery.hasMore, m.gallery.loading)
    then HandleLoadMore(m)
    else m
  }

  /** Navigating away and back, as written: the grid is mounted again and its
      `useRef(1)` starts over at page 1, while the list it resumes lives on in
      the shared state. */
  function RemountAsWritten(m: Grid): (r: Grid)
    ensures r.pageRef == 1 && r.gallery == m.gallery && r.pending == m.pending
  {
    m.(pageRef := 1)
  }

  /** Navigating away and back, with the cursor taken from the shared state. */
  function Remount(m: Grid): (r: Grid)
    ensures r.pageRef == m.gallery.currentPage && r.gallery == m.gallery && r.pending == m.pending
  {
    m.(pageRef := m.gallery.currentPage)
  }

  // ---------------------------------------------------------------------------
  // What the grid renders

  datatype GridView =
    | ErrorScreen(message: string)
    | FirstPageSpinner
    | Listing(photos: seq<Photo>, loadingMore: bool, noMorePhotos: bool, errorLine: Option<string>)

  /** The render branch: an error with no photos is the Try Again screen; an
      empty list that is loading is a spinner; otherwise the photos, a bottom
      spinner while loading, the end notice and the error line. */
  function View(g: GalleryState): (v: GridView)
    ensures v.ErrorScreen? <==> Truthy(g.error) && g.photos == []
    ensures v.ErrorScreen? ==> v.message == g.error.value
    ensures v.FirstPageSpinner? <==> !Truthy(g.error) && g.photos == [] && g.loading
    ensures v.Listing? ==>
      && v.photos == g.photos && v.loadingMore == g.loading
      && (v.noMorePhotos <==> !g.hasMore && |g.photos| > 0)
      && (v.errorLine.Some? <==> Truthy(g.error))
      && (v.errorLine.Some? ==> v.errorLine == g.error)
  {
    if Truthy(g.error) && |g.photos| == 0 then ErrorScreen(g.error.value)
    else if |g.photos| == 0 && g.loading then FirstPageSpinner
    else Listing(g.photos, g.loading, !g.hasMore && |g.photos| > 0, if Truthy(g.error) then g.error else None)
  }

  // ---------------------------------------------------------------------------
  // Event traces

  datatype GridEvent =
    | InitialLoadRuns
    | Scrolled(innerHeight: int, scrollTop: int, offsetHeight: int)
    | TryAgainClicked
    | PhotosArrived(response: Option<seq<Photo>>)
    | ScrollCaptured(position: int)
    | Remounted

  /** One event, as written. The Try Again button exists only on the error
      screen, a fetch can only be answered once it has been issued, and a new
      mount starts its cursor over at 1. */
  function Step(m: Grid, e: GridEvent): (r: Grid)
    ensures e.TryAgainClicked? && !View(m.gallery).ErrorScreen? ==> r == m
    ensures e.PhotosArrived? && m.pending.None? ==> r == m
    ensures e.Remounted? ==> r.pageRef == 1 && r.gallery == m.gallery && r.pending == m.pending
    ensures e.ScrollCaptured? ==> r.gallery.scrollPosition == e.position && Agree(m.gallery, r.gallery, Others(ScrollPosition))
  {
    match e
    case InitialLoadRuns => InitialLoad(m)
    case Scrolled(innerHeight, scrollTop, offsetHeight) => HandleScroll(m, innerHeight, scrollTop, offsetHeight)
    case TryAgainClicked => if View(m.gallery).ErrorScreen? then TryAgain(m) else m
    case PhotosArrived(response) => if m.pending.Some? then Complete(m, response) else m
    case ScrollCaptured(position) => m.(gallery := UpdateScrollPosition(m.gallery, position))
    case Remounted => RemountAsWritten(m)
  }

  function Run(m: Grid, events: seq<GridEvent>): Grid
    decreases |events|
  {
    if events == [] then m else Run(Step(m, events[0]), events[1..])
  }

  /** The grid's invariant: `loading` is set exactly while one list fetch is
      outstanding, cursors stay positive, and an initial load is only ever in
      flight for an empty list. */
  predicate Valid(m: Grid)
  {
    && m.pageRef >= 1 && m.gallery.currentPage >= 1
    && (m.pending.Some? <==> m.gallery.loading)
    && (m.pending.Some? ==> m.pending.value.page >= 1)
    && (m.pending.Some? && m.pending.value.isInitial ==> m.gallery.photos == [])
  }

  lemma InitialGridValid()
    ensures Valid(InitialGrid) && View(InitialGrid.gallery) == Listing([], false, false, None)
    ensures Resumable(InitialGrid)
  {
  }

  lemma StepKeepsValid(m: Grid, e: GridEvent)
    requires Valid(m)
    ensures Valid(Step(m, e))
  {
  }

  lemma {:induction false} RunKeepsValid(m: Grid, events: seq<GridEvent>)
    requires Valid(m)
    ensures Valid(Run(m, events))
    decreases |events|
  {
    if events != [] {
      StepKeepsValid(m, events[0]);
      RunKeepsValid(Step(m, events[0]), events[1..]);
    }
  }

  /** While a fetch is outstanding nothing but its answer changes the list or
      the request: at most one list fetch is ever in flight. */
  lemma NoSecondFetchWhileLoading(m: Grid, e: GridEvent)
    requires Valid(m) && m.gallery.loading && !e.PhotosArrived?
    ensures Step(m, e).pending == m.pending && Step(m, e).gallery.photos == m.gallery.photos
  {
  }

  lemma StepExtendsPhotos(m: Grid, e: GridEvent)
    requires Valid(m)
    ensures m.gallery.photos <= Step(m, e).gallery.photos
  {
    if e.PhotosArrived? && m.pending.Some? && e.response.Some? && |e.response.value| > 0 {
      var r := Step(m, e);
      if m.pending.value.isInitial {
        assert m.gallery.photos == [];
      } else {
        assert r.gallery.photos == m.gallery.photos + e.response.value;
      }
    }
  }

  /** Photos are never lost or reordered: every later list starts with every
      earlier one. */
  lemma {:induction false} PhotosOnlyExtend(m: Grid, events: seq<GridEvent>)
    requires Valid(m)
    ensures m.gallery.photos <= Run(m, events).gallery.photos
    decreases |events|
  {
    if events != [] {
      var m' := Step(m, events[0]);
      StepExtendsPhotos(m, events[0]);
      StepKeepsValid(m, events[0]);
      PhotosOnlyExtend(m', events[1..]);
    }
  }

  /** The only step that turns `hasMore` back on is a Try Again click on the
      error screen. */
  lemma OnlyTryAgainReopens(m: Grid, e: GridEvent)
    requires !m.gallery.hasMore && Step(m, e).gallery.hasMore
    ensures e.TryAgainClicked? && View(m.gallery).ErrorScreen?
  {
  }

  /** Once the listing has ended it stays ended through any events that do not
      include a Try Again click. */
  lemma {:induction false} EndOfListPersists(m: Grid, events: seq<GridEvent>)
    requires !m.gallery.hasMore
    requires forall i :: 0 <= i < |events| ==> !events[i].TryAgainClicked?
    ensures !Run(m, events).gallery.hasMore
    decreases |events|
  {
    if events != [] {
      var m' := Step(m, events[0]);
      if m'.gallery.hasMore {
        OnlyTryAgainReopens(m, events[0]);
      }
      assert forall i :: 0 <= i < |events[1..]| ==> !events[1..][i].TryAgainClicked? by {
        forall i | 0 <= i < |events[1..]| ensures !events[1..][i].TryAgainClicked? {
          assert events[1..][i] == events[i + 1];
        }
      }
      EndOfListPersists(m', events[1..]);
    }
  }

  lemma ScrollAfterEndIsIgnored(m: Grid, innerHeight: int, scrollTop: int, offsetHeight: int)
    requires !m.gallery.hasMore
    ensures Step(m, Scrolled(innerHeight, scrollTop, offsetHeight)) == m
  {
  }

  /** `handleLoadMore` advances the cursor before the fetch, and a failed or
      empty answer does not move it back: the next load asks for the page
      after the one that failed. */
  lemma FailedLoadMoreKeepsCursorAdvanced(m: Grid, response: Option<seq<Photo>>)
    requires !m.gallery.loading
    requires response.None? || response == Some([])
    ensures Complete(HandleLoadMore(m), response).pageRef == m.pageRef + 1
    ensures Complete(HandleLoadMore(m), response).gallery.currentPage == m.gallery.currentPage
    ensures Complete(HandleLoadMore(m), response).gallery.photos == m.gallery.photos
    ensures HandleLoadMore(Complete(HandleLoadMore(m), response)).pending == Some(Request(m.pageRef + 2, false))
  {
  }

  /** Two full pages, loaded the way the component loads them, give forty
      photos in order with the cursor on page 2. */
  lemma TwoFullPages(page1: seq<Photo>, page2: seq<Photo>, innerHeight: int, scrollTop: int, offsetHeight: int)
    requires |page1| == 20 && |page2| == 20
    requires NearBottom(innerHeight, scrollTop, offsetHeight, 1000)
    ensures var m := Run(InitialGrid, [InitialLoadRuns, PhotosArrived(Some(page1)),
                                       Scrolled(innerHeight, scrollTop, offsetHeight), PhotosArrived(Some(page2))]);
      m.gallery.photos == page1 + page2 && m.gallery.currentPage == 2 && m.pageRef == 2
      && m.gallery.hasMore && !m.gallery.loading
  {
    var m1 := Step(InitialGrid, InitialLoadRuns);
    assert m1.pending == Some(Request(1, true));
    var m2 := Step(m1, PhotosArrived(Some(page1)));
    assert m2.gallery.photos == page1 && m2.pageRef == 1 && m2.gallery.hasMore && !m2.gallery.loading;
    var m3 := Step(m2, Scrolled(innerHeight, scrollTop, offsetHeight));
    assert m3.pending == Some(Request(2, false));
    var m4 := Step(m3, PhotosArrived(Some(page2)));
    assert m4.gallery.photos == page1 + page2 && m4.pageRef == 2 && m4.gallery.currentPage == 2;
    var events := [InitialLoadRuns, PhotosArrived(Some(page1)),
                   Scrolled(innerHeight, scrollTop, offsetHeight), PhotosArrived(Some(page2))];
    assert Run(m4, events[4..]) == m4;
    assert Run(m3, events[3..]) == Run(m4, events[4..]);
    assert Run(m2, events[2..]) == Run(m3, events[3..]);
    assert Run(m1, events[1..]) == Run(m2, events[2..]);
  }

  // ---------------------------------------------------------------------------
  // Resuming after a round trip to a photo's detail view

  /** As written, the first load after coming back asks for page 2 again
      although the shared list already holds it, so its photos are appended a
      second time. */
  lemma RemountAsWrittenReloadsPageTwo(m: Grid, innerHeight: int, scrollTop: int, offsetHeight: int, page2: seq<Photo>)
    requires Valid(m) && !m.gallery.loading && m.gallery.hasMore && m.gallery.currentPage >= 2
    requires NearBottom(innerHeight, scrollTop, offsetHeight, 1000)
    requires |page2| > 0
    ensures var r := HandleScroll(RemountAsWritten(m), innerHeight, scrollTop, offsetHeight);
      && r.pending == Some(Request(2, false)) && 2 <= m.gallery.currentPage
      && Complete(r, Some(page2)).gallery.photos == m.gallery.photos + page2
      && Complete(r, Some(page2)).gallery.currentPage == 2
  {
  }

  /** With the cursor taken from the shared state the next load asks for the
      page after the last one loaded, and the cursor never goes back. */
  lemma RemountResumesAfterLastPage(m: Grid, innerHeight: int, scrollTop: int, offsetHeight: int)
    requires Valid(m) && !m.gallery.loading && m.gallery.hasMore
    requires NearBottom(innerHeight, scrollTop, offsetHeight, 1000)
    ensures Valid(Remount(m))
    ensures HandleScroll(Remount(m), innerHeight, scrollTop, offsetHeight).pending
         == Some(Request(m.gallery.currentPage + 1, false))
  {
  }

  /** Running two event sequences one after the other is running their concatenation. */
  lemma {:induction false} RunConcat(m: Grid, a: seq<GridEvent>, b: seq<GridEvent>)
    ensures Run(m, a + b) == Run(Run(m, a), b)
    decreases |a|
  {
    if a == [] {
      assert a + b == b;
    } else {
      assert (a + b)[0] == a[0];
      assert (a + b)[1..] == a[1..] + b;
      RunConcat(Step(m, a[0]), a[1..], b);
    }
  }

  /** As written, over whole traces: two full pages, a round trip to the detail
      view, and one more scroll to the bottom ask for page 2 again, and the
      same twenty photos end up in the list twice. */
  lemma RemountedTraceAppendsPageTwice(page1: seq<Photo>, page2: seq<Photo>,
                                       innerHeight: int, scrollTop: int, offsetHeight: int)
    requires |page1| == 20 && |page2| == 20
    requires NearBottom(innerHeight, scrollTop, offsetHeight, 1000)
    ensures var m := Run(InitialGrid, [InitialLoadRuns, PhotosArrived(Some(page1)),
                                       Scrolled(innerHeight, scrollTop, offsetHeight), PhotosArrived(Some(page2)),
                                       Remounted, Scrolled(innerHeight, scrollTop, offsetHeight)]);
      && m.pending == Some(Request(2, false))
      && Step(m, PhotosArrived(Some(page2))).gallery.photos == page1 + page2 + page2
  {
    var first := [InitialLoadRuns, PhotosArrived(Some(page1)),
                  Scrolled(innerHeight, scrollTop, offsetHeight), PhotosArrived(Some(page2))];
    var back := [Remounted, Scrolled(innerHeight, scrollTop, offsetHeight)];
    TwoFullPages(page1, page2, innerHeight, scrollTop, offsetHeight);
    RunConcat(InitialGrid, first, back);
    assert first + back == [InitialLoadRuns, PhotosArrived(Some(page1)),
                             Scrolled(innerHeight, scrollTop, offsetHeight), PhotosArrived(Some(page2)),
                             Remounted, Scrolled(innerHeight, scrollTop, offsetHeight)];
    var m4 := Run(InitialGrid, first);
    var m5 := Step(m4, Remounted);
    var m6 := Step(m5, Scrolled(innerHeight, scrollTop, offsetHeight));
    assert m6.pending == Some(Request(2, false));
    assert Run(m6, back[2..]) == m6;
    assert Run(m5, back[1..]) == Run(m6, back[2..]);
  }

  /** One event with the corrected remount. */
  function StepCorrected(m: Grid, e: GridEvent): (r: Grid)
    ensures r.gallery == Step(m, e).gallery && r.pending == Step(m, e).pending
    ensures r.pageRef != Step(m, e).pageRef ==> e.Remounted? && r.pageRef == m.gallery.currentPage
  {
    if e.Remounted? then Remount(m) else Step(m, e)
  }

  function RunCorrected(m: Grid, events: seq<GridEvent>): Grid
    decreases |events|
  {
    if events == [] then m else RunCorrected(StepCorrected(m, events[0]), events[1..])
  }

  /** What the corrected grid keeps besides `Valid`: an empty list is still on
      page 1, the cursor is never behind the last page loaded, and an
      outstanding load-more asks for a page after it. */
  predicate Resumable(m: Grid)
  {
    && Valid(m)
    && (m.gallery.photos == [] ==> m.gallery.currentPage == 1)
    && m.pageRef >= m.gallery.currentPage
    && (m.pending.Some? && !m.pending.value.isInitial ==> m.pending.value.page > m.gallery.currentPage)
  }

  lemma StepCorrectedKeepsResumable(m: Grid, e: GridEvent)
    requires Resumable(m)
    ensures Resumable(StepCorrected(m, e))
  {
    StepKeepsValid(m, e);
  }

  /** With the corrected remount, whatever the events, an outstanding
      load-more and the next one both ask for a page above the shared
      `currentPage`. */
  lemma {:induction false} RunCorrectedNeverReloadsAPage(m: Grid, events: seq<GridEvent>)
    requires Resumable(m)
    ensures var r := RunCorrected(m, events);
      && Resumable(r)
      && (!r.gallery.loading ==> HandleLoadMore(r).pending.value.page > r.gallery.currentPage)
    decreases |events|
  {
    if events != [] {
      StepCorrectedKeepsResumable(m, events[0]);
      RunCorrectedNeverReloadsAPage(StepCorrected(m, events[0]), events[1..]);
    }
  }

  // ---------------------------------------------------------------------------
  // The component

  /** `PhotoGrid`: the gallery context it reads and writes, its page cursor
      ref, and the fetch it is awaiting. */
  class PhotoGrid {
    const ctx: GalleryProvider
    var currentPageRef: int
    var pending: Option<Request>

    function Model(): Grid
      reads this, ctx
    {
      Grid(ctx.state, currentPageRef, pending)
    }

    constructor (ctx: GalleryProvider)
      ensures this.ctx == ctx
      ensures Model() == Grid(ctx.state, 1, None)
    {
      this.ctx := ctx;
      currentPageRef := 1;
      pending := None;
    }

    method LoadPhotos(pageNum: int, isInitial: bool)
      modifies this, ctx
      ensures Model() == Begin(old(Model()), pageNum, isInitial)
    {
      if ctx.state.loading {
        return;
      }
      ctx.SetLoading(true);
      ctx.SetError(None);
      pending := Some(Request(pageNum, isInitial));
    }

    /** The rest of `loadPhotos` once `fetchPhotos(pageNum, 20)` has settled. */
    method ReceivePhotos(response: Option<seq<Photo>>)
      requires pending.Some?
      modifies this, ctx
      ensures Model() == Complete(old(Model()), response)
    {
      var req := pending.value;
      match response {
        case None =>
          ctx.SetError(Some(PhotosFailedMessage));
        case Some(newPhotos) =>
          if |newPhotos| < PageSize {
            ctx.SetHasMore(false);
          }
          if |newPhotos| > 0 {
            if req.isInitial {
              ctx.SetPhotos(newPhotos);
            } else {
              ctx.AddPhotos(newPhotos);
            }
            currentPageRef := req.page;
            ctx.SetCurrentPage(req.page);
          } else {
            ctx.SetHasMore(false);
          }
      }
      ctx.SetLoading(false);
      pending := None;
    }

    method OnLoadMore()
      modifies this, ctx
      ensures Model() == HandleLoadMore(old(Model()))
    {
      currentPageRef := currentPageRef + 1;
      LoadPhotos(currentPageRef, false);
    }

    method OnTryAgain()
      modifies this, ctx
      ensures Model() == TryAgain(old(Model()))
    {
      currentPageRef := 1;
      ctx.SetError(None);
      ctx.SetHasMore(true);
      LoadPhotos(1, true);
    }

    method RunInitialLoadEffect()
      modifies this, ctx
      ensures Model() == InitialLoad(old(Model()))
    {
      if |ctx.state.photos| == 0 {
        LoadPhotos(1, true);
      }
    }

    /** The infinite-scroll hook's `handleScroll`, reading the window's sizes. */
    method OnWindowScroll(innerHeight: int, scrollTop: int, offsetHeight: int)
      modifies this, ctx
      ensures Model() == HandleScroll(old(Model()), innerHeight, scrollTop, offsetHeight)
    {
      if ShouldLoadMore(innerHeight, scrollTop, offsetHeight, Some(GridScrollThreshold), ctx.state.hasMore, ctx.state.loading) {
        OnLoadMore();
      }
    }

    /** The grid is mounted again over the same context. */
    method OnRemount()
      modifies this
      ensures Model() == Remount(old(Model()))
    {
      currentPageRef := ctx.state.currentPage;
    }
  }
}
