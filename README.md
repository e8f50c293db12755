# Photo gallery: a Dafny model

This project models the core of a React photo gallery built on the Lorem Picsum API:

- the service functions that build request and image URLs and turn fetch outcomes into a list of photos or one photo;
- the gallery context: the shared record held by the provider, its single-field setters and its reset;
- the grid component's paged loading;
- the infinite-scroll trigger;
- scroll-position restore and capture;
- the photo detail view.

Each source file is one module:

| module | models |
|---|---|
| `Wrappers` (`wrappers.dfy`) | `Option`, `Result`, and JavaScript truthiness of an optional string (`null` and `""` are falsy) |
| `PhotoService` (`photo_service.dfy`) | `src/services/photoService.ts` |
| `GalleryContext` (`gallery_context.dfy`) | `src/contexts/PhotoGalleryContext.tsx` |
| `InfiniteScroll` (`infinite_scroll.dfy`) | `src/hooks/useInfiniteScroll.ts` |
| `ScrollRestoration` (`scroll_restoration.dfy`) | `src/hooks/useScrollRestoration.ts` |
| `PhotoGrid` (`photo_grid.dfy`) | `src/components/PhotoGrid.tsx` |
| `PhotoDetails` (`photo_details.dfy`) | `src/components/PhotoDetails.tsx` |

Two forms are used.

- **Pure functions on datatypes.** Every state change is first written as a function from the old state to the new one. Its contract says which fields change, to what, and which stay unchanged. `GalleryContext.Agree` names the fields that stay unchanged.
- **Classes.** The objects the app mutates are classes whose methods perform the same writes in the source's order:
  - the provider's `useState` cell (`GalleryProvider`);
  - the grid's `currentPageRef` and its outstanding fetch (`PhotoGrid`);
  - the two hooks' refs and flags;
  - the window's scroll offset (`Viewport`);
  - the detail view's state cells.

  Each method is proved to produce exactly the new state that its pure function gives.

Asynchrony is modelled as explicit steps.

- One call of `loadPhotos` or `loadPhoto` is two steps. `Begin` (or `LoadPhoto`) covers the gate and the writes before the `await`. `Complete` (or `PhotoFetched`) covers what follows once the fetch settles. The completion step receives the fetch's outcome as an `Option`, where `None` means the fetch threw.
- A pending 50 ms timeout and a requested animation frame are state. Their firing is an event.
- Event traces (`Step`/`Run`, `RestoreStep`, `CaptureStep`, `DetailStep`) let lemmas state what holds after any sequence of user and network events. The grid's `Step` follows the code as written, including its remount. `StepCorrected`/`RunCorrected` run the same events with the corrected remount of the finding below. The class method `PhotoGrid.PhotoGrid.OnRemount` performs the corrected remount; a remount as written is a fresh `PhotoGrid` built by its constructor.

The network is a parameter. `FetchPhotos` and `FetchPhotoById` take a function from the requested URL to the response it gets: a network error, or an HTTP status flag with an optional JSON body.

The code departs from what a reader might expect of a paged gallery in several ways. The model follows the code in each:

- `addPhotos` does not filter repeated photo identifiers (`GalleryContext.AppendTwiceKeepsBothCopies`).
- The page cursor moves forward before the fetch, and a failed or empty page does not move it back (`PhotoGrid.FailedLoadMoreKeepsCursorAdvanced`).
- Try Again turns `hasMore` back on.
- When the first page is short but not empty, the end-of-list flag is set and the photos are still shown.

## Model

| member | source | states |
|---|---|---|
| `PhotoService.GetPhotoUrl` | src/services/photoService.ts:31-33 | an image URL starts with the API base, `/id/`, the id and a `/`; `PhotoUrlRoundTrip` reads the size back out of the rest |
| `PhotoService.GetThumbnailUrl` | src/services/photoService.ts:35-37 | a thumbnail URL is an image URL of that id; `ThumbnailUrlSize` gives its size |
| `PhotoService.GetFullSizeUrl` | src/services/photoService.ts:39-41 | a full-size URL is an image URL of that id; `FullSizeUrlSize` gives its size |
| `PhotoService.ListRequestUrl` | src/services/photoService.ts:7 | the list request goes to `/v2/list?page=` under the base; `ListRequestUrlRoundTrip` reads page and limit back |
| `PhotoService.DetailRequestUrl` | src/services/photoService.ts:20 | the detail request goes to `/id/<id>/` under the base; `DetailRequestUrlRoundTrip` reads the id back |
| `PhotoService.Settle` | src/services/photoService.ts:8-11 | a response yields a value exactly when it arrived, is ok and its body parses, and the value is that body |
| `PhotoService.IntToStringRoundTrip` | src/services/photoService.ts:32 | reading back the decimal numeral of any integer gives that integer; for integers below 10^21 in magnitude this numeral is what the template literal prints |
| `PhotoService.PhotoUrlRoundTrip` | src/services/photoService.ts:31-33 | an image URL is the API base, `/id/`, the id, the width and the height; parsing it back returns the id and the passed size, or 400 × 300 when none is given |
| `PhotoService.ThumbnailUrlSize` | src/services/photoService.ts:35-37 | a thumbnail URL names the id at 300 × 200 |
| `PhotoService.FullSizeUrlSize` | src/services/photoService.ts:39-41 | a full-size URL names the id at the passed size, or at 800 × 600 when none is given |
| `PhotoService.ListRequestUrlRoundTrip` | src/services/photoService.ts:5-7 | the list request URL carries the page and the limit, defaulting to 1 and 20, and both can be read back from it |
| `PhotoService.DetailRequestUrlRoundTrip` | src/services/photoService.ts:18-20 | the detail request URL is `/id/<id>/info` under the base; the id can be read back from it, and it is never mistaken for an image URL |
| `PhotoService.FetchPhotos` | src/services/photoService.ts:5-16 | asks for the list URL of the page and limit; yields photos exactly when the response arrived, is ok and has a JSON body, and then yields that body; fails on a network error or a non-ok status |
| `PhotoService.FetchPhotoById` | src/services/photoService.ts:18-29 | the same for the detail URL of the id and a single photo |
| `GalleryContext.UpdatePhotos` | src/contexts/PhotoGalleryContext.tsx:44-46 | `setPhotos` replaces the list and leaves every other field unchanged |
| `GalleryContext.AppendPhotos` | src/contexts/PhotoGalleryContext.tsx:48-50 | `addPhotos` keeps the old photos as a prefix, in order, followed by exactly the new ones; every other field is unchanged |
| `GalleryContext.UpdateCurrentPage` | src/contexts/PhotoGalleryContext.tsx:52-54 | sets `currentPage` only |
| `GalleryContext.UpdateHasMore` | src/contexts/PhotoGalleryContext.tsx:56-58 | sets `hasMore` only |
| `GalleryContext.UpdateScrollPosition` | src/contexts/PhotoGalleryContext.tsx:60-62 | sets `scrollPosition` only |
| `GalleryContext.UpdateLoading` | src/contexts/PhotoGalleryContext.tsx:64-66 | sets `loading` only |
| `GalleryContext.UpdateError` | src/contexts/PhotoGalleryContext.tsx:68-70 | sets `error` only |
| `GalleryContext.ResetState` | src/contexts/PhotoGalleryContext.tsx:72-74 | whatever the previous state, the result is the initial record: no photos, page 1, more to come, offset 0, not loading, no error |
| `GalleryContext.SettersIdempotent` | src/contexts/PhotoGalleryContext.tsx:44-74 | applying a setter twice with the same value, or resetting twice, is the same as doing it once |
| `GalleryContext.AppendTwiceKeepsBothCopies` | src/contexts/PhotoGalleryContext.tsx:48-50 | adding the same photos twice keeps both copies |
| `GalleryContext.GalleryProvider.constructor` | src/contexts/PhotoGalleryContext.tsx:26-42 | the provider's state starts as the initial record |
| `GalleryContext.GalleryProvider.SetPhotos` | src/contexts/PhotoGalleryContext.tsx:44-46 | the state becomes `UpdatePhotos` of the old state |
| `GalleryContext.GalleryProvider.AddPhotos` | src/contexts/PhotoGalleryContext.tsx:48-50 | the state becomes `AppendPhotos` of the old state |
| `GalleryContext.GalleryProvider.SetCurrentPage` | src/contexts/PhotoGalleryContext.tsx:52-54 | the state becomes `UpdateCurrentPage` of the old state |
| `GalleryContext.GalleryProvider.SetHasMore` | src/contexts/PhotoGalleryContext.tsx:56-58 | the state becomes `UpdateHasMore` of the old state |
| `GalleryContext.GalleryProvider.SetScrollPosition` | src/contexts/PhotoGalleryContext.tsx:60-62 | the state becomes `UpdateScrollPosition` of the old state |
| `GalleryContext.GalleryProvider.SetLoading` | src/contexts/PhotoGalleryContext.tsx:64-66 | the state becomes `UpdateLoading` of the old state |
| `GalleryContext.GalleryProvider.SetError` | src/contexts/PhotoGalleryContext.tsx:68-70 | the state becomes `UpdateError` of the old state |
| `GalleryContext.GalleryProvider.Reset` | src/contexts/PhotoGalleryContext.tsx:72-74 | the state becomes the initial record |
| `GalleryContext.UsePhotoGallery` | src/contexts/PhotoGalleryContext.tsx:105-111 | fails, with the provider-missing message, exactly when there is no enclosing provider; otherwise returns that provider |
| `InfiniteScroll.ShouldLoadMore` | src/hooks/useInfiniteScroll.ts:14-25 | fires exactly when the viewport's bottom is within the threshold of the document's bottom (1000 when omitted), more pages exist and none is loading; never fires at the end of the list or while loading |
| `InfiniteScroll.FiresFurtherDown` | src/hooks/useInfiniteScroll.ts:18-19 | scrolling further down never switches the trigger off |
| `InfiniteScroll.FiresWithLargerThreshold` | src/hooks/useInfiniteScroll.ts:18-19 | a larger threshold fires wherever a smaller one does |
| `InfiniteScroll.OmittedThresholdIs1000` | src/hooks/useInfiniteScroll.ts:14 | omitting the threshold is the same as passing 1000 |
| `ScrollRestoration.CancelTimeout` | src/hooks/useScrollRestoration.ts:17 | the effect's cleanup drops the pending restore and changes nothing else |
| `ScrollRestoration.RestoreEffect` | src/hooks/useScrollRestoration.ts:6-19 | after cleaning up, a restore to `scrollPosition` is scheduled exactly when restoring is wanted, the offset is positive and this mount has not restored |
| `ScrollRestoration.ResetEffect` | src/hooks/useScrollRestoration.ts:22-26 | the restored flag survives exactly when `shouldRestore` holds |
| `ScrollRestoration.TimeoutFires` | src/hooks/useScrollRestoration.ts:9-15 | a pending restore moves the window to its offset and sets the flag; with none pending nothing happens |
| `ScrollRestoration.Remount` | src/hooks/useScrollRestoration.ts:4 | a new mount starts with the flag clear and nothing pending, and the window where it was |
| `ScrollRestoration.RestoreStepKeepsInv` | src/hooks/useScrollRestoration.ts:7-15 | every event keeps this invariant: a restore is pending only for a positive offset on a mount that has not restored |
| `ScrollRestoration.AtMostOneRestore` | src/hooks/useScrollRestoration.ts:4-26 | between two re-armings (`shouldRestore` false, or a new mount), any sequence of events moves the window back at most once, and never once the flag is set |
| `ScrollRestoration.CancelledRestoreNeverScrolls` | src/hooks/useScrollRestoration.ts:9-17 | a restore cleared before it fires neither moves the window nor sets the flag |
| `ScrollRestoration.BackNavigationRestores` | src/hooks/useScrollRestoration.ts:3-26 | mounting the grid over a non-empty list with a positive remembered offset schedules that offset, and the timeout puts the window there |
| `ScrollRestoration.ScrollRestorationHook.constructor` | src/hooks/useScrollRestoration.ts:4 | the ref starts false, with no timeout |
| `ScrollRestoration.ScrollRestorationHook.RunRestoreEffect` | src/hooks/useScrollRestoration.ts:6-19 | the hook's state and the window become `RestoreEffect` of the old ones |
| `ScrollRestoration.ScrollRestorationHook.RunResetEffect` | src/hooks/useScrollRestoration.ts:22-26 | they become `ResetEffect` of the old ones |
| `ScrollRestoration.ScrollRestorationHook.OnTimeout` | src/hooks/useScrollRestoration.ts:9-15 | `scrollTo` and then the flag: they become `TimeoutFires` of the old ones |
| `ScrollRestoration.ScrollRestorationHook.Cleanup` | src/hooks/useScrollRestoration.ts:17 | they become `CancelTimeout` of the old ones |
| `ScrollRestoration.CaptureScroll` | src/hooks/useScrollRestoration.ts:35-43 | a scroll event requests one frame and raises `ticking` when none is outstanding, and is ignored otherwise |
| `ScrollRestoration.FrameRuns` | src/hooks/useScrollRestoration.ts:37-40 | a requested frame runs and lowers `ticking` |
| `ScrollRestoration.AtMostOneFramePending` | src/hooks/useScrollRestoration.ts:33-43 | from a fresh hook, whatever scroll events and frames come, `ticking` holds exactly while one frame is pending, so at most one is ever pending |
| `ScrollRestoration.ScrollCaptureHook.constructor` | src/hooks/useScrollRestoration.ts:33 | `ticking` starts false with no frame pending |
| `ScrollRestoration.ScrollCaptureHook.HandleScroll` | src/hooks/useScrollRestoration.ts:35-43 | the hook's state becomes `CaptureScroll` of the old one |
| `ScrollRestoration.ScrollCaptureHook.OnAnimationFrame` | src/hooks/useScrollRestoration.ts:37-40 | the frame reports the window's current offset to the gallery's `scrollPosition`, and the hook's state becomes `FrameRuns` of the old one |
| `PhotoGrid.Begin` | src/components/PhotoGrid.tsx:23-27 | a call while loading changes nothing; otherwise loading is set, the error is cleared, the fetch of that page is issued, and photos, page, end flag and offset are unchanged |
| `PhotoGrid.Complete` | src/components/PhotoGrid.tsx:29-55 | loading always ends. A failure shows the message and keeps the list, the end flag and both cursors. A page shorter than 20 ends the listing. An empty page keeps the list and the cursors. A non-empty page replaces the list (initial load) or extends it, and moves both cursors to its number |
| `PhotoGrid.HandleLoadMore` | src/components/PhotoGrid.tsx:70-73 | the cursor moves on by one even when the load is refused. When not loading, that page is fetched as a non-initial load, loading is set and the error cleared, and photos, page, end flag and offset are unchanged. While loading, nothing else changes |
| `PhotoGrid.TryAgain` | src/components/PhotoGrid.tsx:88-93 | the cursor goes back to 1, the error is cleared and the listing re-opened; when not loading, an initial load of page 1 is issued |
| `PhotoGrid.InitialLoad` | src/components/PhotoGrid.tsx:59-63 | a non-empty list, or a load already running, changes nothing. Otherwise page 1 is fetched as an initial load, loading is set and the error cleared, and the other fields are unchanged |
| `PhotoGrid.HandleScroll` | src/components/PhotoGrid.tsx:75-80 | a scroll loads exactly when the viewport is within 1000 pixels of the bottom, more pages exist and nothing is loading. It then acts as `handleLoadMore` and asks for the page after the cursor; otherwise it changes nothing |
| `PhotoGrid.RemountAsWritten` | src/components/PhotoGrid.tsx:21 | a new mount restarts the cursor at 1 over the same shared list |
| `PhotoGrid.Remount` | src/components/PhotoGrid.tsx:21 | corrected: a new mount takes its cursor from the shared `currentPage` |
| `PhotoGrid.Step` | src/components/PhotoGrid.tsx:21-93 | one event of the grid as written: Try Again acts only on the error screen, an answer only for an issued fetch, a new mount restarts the cursor at 1, and a captured scroll sets only the offset |
| `PhotoGrid.View` | src/components/PhotoGrid.tsx:82-141 | the Try Again screen exactly when there is an error and no photo; a spinner exactly when the list is empty, loading and error-free; otherwise the photos, the bottom spinner while loading, the end notice exactly when the listing ended with photos shown, and the error line, showing that error, exactly when there is one |
| `PhotoGrid.InitialGridValid` | src/components/PhotoGrid.tsx:21 | the first mount satisfies the grid invariant and its corrected strengthening, and shows an empty listing |
| `PhotoGrid.StepKeepsValid` | src/components/PhotoGrid.tsx:23-93 | every event keeps the invariant: loading exactly while one fetch is outstanding, positive cursors, and an initial load only for an empty list |
| `PhotoGrid.RunKeepsValid` | src/components/PhotoGrid.tsx:23-93 | the invariant holds after any sequence of events |
| `PhotoGrid.NoSecondFetchWhileLoading` | src/components/PhotoGrid.tsx:24 | while a fetch is outstanding no other event issues a request or changes the list |
| `PhotoGrid.StepExtendsPhotos` | src/components/PhotoGrid.tsx:38-43 | no event drops or reorders photos |
| `PhotoGrid.PhotosOnlyExtend` | src/components/PhotoGrid.tsx:38-43 | after any sequence of events the earlier list is a prefix of the later one |
| `PhotoGrid.OnlyTryAgainReopens` | src/components/PhotoGrid.tsx:88-93 | the only event that turns `hasMore` back on is a Try Again click on the error screen |
| `PhotoGrid.EndOfListPersists` | src/components/PhotoGrid.tsx:34-48 | once the listing has ended, it stays ended through any events without Try Again |
| `PhotoGrid.ScrollAfterEndIsIgnored` | src/components/PhotoGrid.tsx:75-80 | after the end of the list a scroll changes nothing |
| `PhotoGrid.FailedLoadMoreKeepsCursorAdvanced` | src/components/PhotoGrid.tsx:70-73 | after a failed or empty load-more, the list and the shared page are unchanged, but the next load-more asks for the page after the one that failed |
| `PhotoGrid.TwoFullPages` | src/components/PhotoGrid.tsx:59-73 | the initial load, a full first page, a scroll near the bottom and a full second page give both pages in order, with both cursors on page 2 and more to come |
| `PhotoGrid.RemountAsWrittenReloadsPageTwo` | src/components/PhotoGrid.tsx:21 | as written, after coming back with two or more pages loaded, the next load-more asks for page 2 again and appends it to the list that already holds it |
| `PhotoGrid.RemountResumesAfterLastPage` | src/components/PhotoGrid.tsx:21 | with the corrected remount the invariant still holds, and the next load-more asks for the page after the last one loaded |
| `PhotoGrid.RemountedTraceAppendsPageTwice` | src/components/PhotoGrid.tsx:21 | as written, over a whole trace: two full pages, a round trip to the detail view and one more scroll ask for page 2 again, and its photos end up in the list twice |
| `PhotoGrid.StepCorrected` | src/components/PhotoGrid.tsx:21 | corrected: the shared state and the outstanding fetch are those of `Step` on every event; the cursor differs only on a remount, where it is the shared `currentPage` |
| `PhotoGrid.StepCorrectedKeepsResumable` | src/components/PhotoGrid.tsx:21-93 | with the corrected remount, every event keeps the invariant together with: an empty list is on page 1, the cursor is never behind the last page loaded, and an outstanding load-more asks for a later page |
| `PhotoGrid.RunCorrectedNeverReloadsAPage` | src/components/PhotoGrid.tsx:21-93 | with the corrected remount, after any events the cursor is never behind the shared `currentPage`, and an outstanding or next load-more asks for a page above it |
| `PhotoGrid.PhotoGrid.constructor` | src/components/PhotoGrid.tsx:21 | a mount over the context has the cursor at 1 and no fetch outstanding |
| `PhotoGrid.PhotoGrid.LoadPhotos` | src/components/PhotoGrid.tsx:23-27 | the context's state and the component's fields become `Begin` of the old ones |
| `PhotoGrid.PhotoGrid.ReceivePhotos` | src/components/PhotoGrid.tsx:29-55 | they become `Complete` of the old ones with the fetch's outcome |
| `PhotoGrid.PhotoGrid.OnLoadMore` | src/components/PhotoGrid.tsx:70-73 | they become `HandleLoadMore` of the old ones |
| `PhotoGrid.PhotoGrid.OnTryAgain` | src/components/PhotoGrid.tsx:88-93 | they become `TryAgain` of the old ones |
| `PhotoGrid.PhotoGrid.RunInitialLoadEffect` | src/components/PhotoGrid.tsx:59-63 | they become `InitialLoad` of the old ones |
| `PhotoGrid.PhotoGrid.OnWindowScroll` | src/components/PhotoGrid.tsx:75-80 | they become `HandleScroll` of the old ones |
| `PhotoGrid.PhotoGrid.OnRemount` | src/components/PhotoGrid.tsx:21 | they become the corrected `Remount` of the old ones |
| `PhotoDetails.LoadPhoto` | src/components/PhotoDetails.tsx:15-25 | a missing or empty id shows "Photo ID is required", ends loading and issues no fetch; otherwise loading is set, the error cleared and one fetch issued; photo and image flag are unchanged |
| `PhotoDetails.PhotoFetched` | src/components/PhotoDetails.tsx:26-33 | loading ends; a fetched photo is stored; a failure shows the failure message and keeps the photo shown before |
| `PhotoDetails.ImageSettled` | src/components/PhotoDetails.tsx:93-94 | the image's load or error handler clears its loading flag only |
| `PhotoDetails.View` | src/components/PhotoDetails.tsx:39-61 | the spinner exactly while loading; otherwise the error view exactly when there is an error or no photo, showing the error or "Photo not found"; otherwise the stored photo |
| `PhotoDetails.DetailStep` | src/components/PhotoDetails.tsx:15-94 | one event of the detail view: an answer with no fetch outstanding is ignored, only a completion changes the photo, and only the image's handlers change its flag |
| `PhotoDetails.ImageLoadingNeverReturns` | src/components/PhotoDetails.tsx:13 | once the image has settled its spinner never returns, not even when the route's id changes |
| `PhotoDetails.PhotoComesFromAFetch` | src/components/PhotoDetails.tsx:26-27 | starting with no photo, any photo shown later is one that a fetch returned |
| `PhotoDetails.PhotoStaysUntilFetched` | src/components/PhotoDetails.tsx:26-29 | the photo changes only through a completion that stores another one |
| `PhotoDetails.MissingIdShowsError` | src/components/PhotoDetails.tsx:17-21 | a route without an id, or with an empty one, shows the missing-id error and issues no fetch |
| `PhotoDetails.FailedFetchShowsError` | src/components/PhotoDetails.tsx:28-29 | a failed fetch for a valid id shows the failure message, whatever was shown before |
| `PhotoDetails.FetchedPhotoIsShown` | src/components/PhotoDetails.tsx:26-27 | a successful fetch for a valid id shows the fetched photo |
| `PhotoDetails.PhotoDetailsView.constructor` | src/components/PhotoDetails.tsx:10-13 | no photo, loading, no error, image loading, nothing in flight |
| `PhotoDetails.PhotoDetailsView.RunLoadEffect` | src/components/PhotoDetails.tsx:15-37 | the component's state becomes `LoadPhoto` of the old one |
| `PhotoDetails.PhotoDetailsView.ReceivePhoto` | src/components/PhotoDetails.tsx:26-33 | it becomes `PhotoFetched` of the old one with the fetch's outcome |
| `PhotoDetails.PhotoDetailsView.OnImageSettled` | src/components/PhotoDetails.tsx:93-94 | it becomes `ImageSettled` of the old one |

## Left out

- The browser's `fetch`, `response.json()` and `console.error` are left out. The network is a function parameter, a JSON body is either the expected value or absent, and logging has no effect on state.
- The JSON body is not validated. A body that is not a list of photos is not modelled.
- Event-listener registration and removal are left out (`useInfiniteScroll.ts` lines 27-33, `useScrollRestoration.ts` lines 45-49). Each scroll event is delivered to the current handler.
- Real timing is left out: the 50 ms delay and the animation-frame schedule. Firing is an event that can come at any point.
- React's scheduling is left out: render batching, stale closures, and which effects re-run after a render. Each effect run is an explicit event. In particular, the initial-load effect re-runs whenever `loadPhotos` gets a new identity because `loading` changed, which happens after an empty or failed first page; the model lets that re-run happen as one more `InitialLoadRuns` event.
- PhotoGrid.Complete: a fetch that settles after its grid was unmounted writes the cursor of the unmounted instance. The model applies it to the current cursor.
- PhotoDetails.PhotoFetched: no check is made that an answer belongs to the current `id`, as in the source. Overlapping fetches are counted (`inFlight`), but their order of arrival is not tied to their ids.
- PhotoService.IntToStringRoundTrip: numbers are integers. JavaScript's formatting of fractions, `NaN` and infinities is not modelled, and neither is its formatting of integers of magnitude 10^21 or more, which it prints in exponent notation (`1e+21`). Pixel offsets are integers too.
- PhotoService.PhotoUrlRoundTrip, PhotoService.ThumbnailUrlSize, PhotoService.FullSizeUrlSize, PhotoService.DetailRequestUrlRoundTrip: URLs can be read back only for ids without `/`. The source does not escape ids, so an id containing `/` gives an ambiguous URL.
- `window.scrollTo` is modelled as setting the offset exactly. The browser's clamping to the document height is left out.
- The hook's return value `hasRestoredRef.current` (`useScrollRestoration.ts` line 28) is left out, because its caller ignores it.
- ScrollRestoration.AtMostOneFramePending: it covers one subscription. A frame requested before the effect re-subscribes, which then runs along with one from the new subscription, is not modelled.
- Rendering is left out: markup, CSS, `PhotoCard`, `LoadingSpinner`, the router in `App.tsx`, and the detail view's author, size and link fields. The image `src` is covered by `FullSizeUrlSize`.
- `src/types/Photo.ts` is not part of this model. `Photo` carries the fields the code and the Lorem Picsum API use: id, author, width, height, url and download URL.

## Findings

| source | as written | input that shows it | evidently intended | confidence | as-written member | corrected member |
|---|---|---|---|---|---|---|
| src/components/PhotoGrid.tsx:21 | the page cursor is a component-local `useRef(1)`, while the list it pages through lives in the shared context and survives navigation | load two full pages, open a photo's detail view, come back and scroll to the bottom: `handleLoadMore` requests page 2 again and `addPhotos` appends its 20 photos a second time | the remounted grid resumes from the shared `currentPage`, so the next request is for page `currentPage + 1` | not executed | `PhotoGrid.RemountAsWrittenReloadsPageTwo` (with `PhotoGrid.RemountAsWritten`, used by `PhotoGrid.Step`, and `PhotoGrid.RemountedTraceAppendsPageTwice`) | `PhotoGrid.RemountResumesAfterLastPage` and `PhotoGrid.RunCorrectedNeverReloadsAPage` (with `PhotoGrid.Remount`, used by `PhotoGrid.StepCorrected` and `PhotoGrid.PhotoGrid.OnRemount`) |
