/** The gallery's shared list state: the record held by the context provider,
    its single-field updaters and reset, the provider's `useState` cell, and
    the hook that reads it. */
module GalleryContext {
  import opened Wrappers
  import opened PhotoService

  datatype GalleryState = GalleryState(
    photos: seq<Photo>,
    currentPage: int,
    hasMore: bool,
    scrollPosition: int,
    loading: bool,
    error: Option<string>)

  const InitialState: GalleryState := GalleryState([], 1, true, 0, false, None)

  /** The record's fields, to say which of them an update leaves alone. */
  datatype Field = Photos | CurrentPage | HasMore | ScrollPosition | Loading | Error

  /** `s` and `t` agree on every field in `keep`. */
  predicate Agree(s: GalleryState, t: GalleryState, keep: set<Field>)
  {
    && (Photos in keep ==> s.photos == t.photos)
    && (CurrentPage in keep ==> s.currentPage == t.currentPage)
    && (HasMore in keep ==> s.hasMore == t.hasMore)
    && (ScrollPosition in keep ==> s.scrollPosition == t.scrollPosition)
    && (Loading in keep ==> s.loading == t.loading)
    && (Error in keep ==> s.error == t.error)
  }

  /** Every field but `f`. */
  function Others(f: Field): set<Field>
  {
    {Photos, CurrentPage, HasMore, ScrollPosition, Loading, Error} - {f}
  }

  // The updaters `prev => ({...prev, field})` passed to `setState`.

  function UpdatePhotos(s: GalleryState, photos: seq<Photo>): (r: GalleryState)
    ensures r.photos == photos && Agree(s, r, Others(Photos))
  {
    s.(photos := photos)
  }

  /** `addPhotos`: the new photos follow the old ones, in order, none dropped. */
  function AppendPhotos(s: GalleryState, photos: seq<Photo>): (r: GalleryState)
    ensures |r.photos| == |s.photos| + |photos|
    ensures r.photos[..|s.photos|] == s.photos && r.photos[|s.photos|..] == photos
    ensures Agree(s, r, Others(Photos))
  {
    s.(photos := s.photos + photos)
  }

  function UpdateCurrentPage(s: GalleryState, page: int): (r: GalleryState)
    ensures r.currentPage == page && Agree(s, r, Others(CurrentPage))
  {
    s.(currentPage := page)
  }

  function UpdateHasMore(s: GalleryState, hasMore: bool): (r: GalleryState)
    ensures r.hasMore == hasMore && Agree(s, r, Others(HasMore))
  {
    s.(hasMore := hasMore)
  }

  function UpdateScrollPosition(s: GalleryState, position: int): (r: GalleryState)
    ensures r.scrollPosition == position && Agree(s, r, Others(ScrollPosition))
  {
    s.(scrollPosition := position)
  }

  function UpdateLoading(s: GalleryState, loading: bool): (r: GalleryState)
    ensures r.loading == loading && Agree(s, r, Others(Loading))
  {
    s.(loading := loading)
  }

  function UpdateError(s: GalleryState, error: Option<string>): (r: GalleryState)
    ensures r.error == error && Agree(s, r, Others(Error))
  {
    s.(error := error)
  }

  /** `resetState` forgets the state it is applied to. */
  function ResetState(s: GalleryState): (r: GalleryState)
    ensures r.photos == [] && r.currentPage == 1 && r.hasMore && r.scrollPosition == 0
    ensures !r.loading && r.error == None
  {
    InitialState
  }

  /** Setting a field to the value it already has from the same setter changes
      nothing: each setter is idempotent. */
  lemma SettersIdempotent(s: GalleryState, photos: seq<Photo>, page: int, hasMore: bool,
                          position: int, loading: bool, error: Option<string>)
    ensures UpdatePhotos(UpdatePhotos(s, photos), photos) == UpdatePhotos(s, photos)
    ensures UpdateCurrentPage(UpdateCurrentPage(s, page), page) == UpdateCurrentPage(s, page)
    ensures UpdateHasMore(UpdateHasMore(s, hasMore), hasMore) == UpdateHasMore(s, hasMore)
    ensures UpdateScrollPosition(UpdateScrollPosition(s, position), position) == UpdateScrollPosition(s, position)
    ensures UpdateLoading(UpdateLoading(s, loading), loading) == UpdateLoading(s, loading)
    ensures UpdateError(UpdateError(s, error), error) == UpdateError(s, error)
    ensures ResetState(ResetState(s)) == ResetState(s)
  {
  }

  /** `addPhotos` is the one updater that is not idempotent: appending twice
      keeps both copies, since nothing filters repeated identifiers. */
  lemma AppendTwiceKeepsBothCopies(s: GalleryState, photos: seq<Photo>)
    ensures AppendPhotos(AppendPhotos(s, photos), photos).photos == s.photos + photos + photos
  {
  }

  /** The `useState` cell of `PhotoGalleryProvider`; each setter replaces the
      record by the updater applied to it. */
  class GalleryProvider {
    var state: GalleryState

    constructor ()
      ensures state == InitialState
    {
      state := InitialState;
    }

    method SetPhotos(photos: seq<Photo>)
      modifies this
      ensures state == UpdatePhotos(old(state), photos)
    {
      state := UpdatePhotos(state, photos);
    }

    method AddPhotos(photos: seq<Photo>)
      modifies this
      ensures state == AppendPhotos(old(state), photos)
    {
      state := AppendPhotos(state, photos);
    }

    method SetCurrentPage(page: int)
      modifies this
      ensures state == UpdateCurrentPage(old(state), page)
    {
      state := UpdateCurrentPage(state, page);
    }

    method SetHasMore(hasMore: bool)
      modifies this
      ensures state == UpdateHasMore(old(state), hasMore)
    {
      state := UpdateHasMore(state, hasMore);
    }

    method SetScrollPosition(position: int)
      modifies this
      ensures state == UpdateScrollPosition(old(state), position)
    {
      state := UpdateScrollPosition(state, position);
    }

    method SetLoading(loading: bool)
      modifies this
      ensures state == UpdateLoading(old(state), loading)
    {
      state := UpdateLoading(state, loading);
    }

    method SetError(error: Option<string>)
      modifies this
      ensures state == UpdateError(old(state), error)
    {
      state := UpdateError(state, error);
    }

    method Reset()
      modifies this
      ensures state == ResetState(old(state))
    {
      state := ResetState(state);
    }
  }

  const MissingProviderMessage: string := "usePhotoGallery must be used within a PhotoGalleryProvider"

  /** `usePhotoGallery`: the context value of the nearest provider (`None` when
      the component is not inside one), or the error it throws. */
  function UsePhotoGallery(context: Option<GalleryProvider>): (r: Result<GalleryProvider, string>)
    ensures r.Failure? <==> context.None?
    ensures r.Failure? ==> r.error == MissingProviderMessage
    ensures r.Success? ==> r.value == context.value
  {
    match context
    case None => Failure(MissingProviderMessage)
    case Some(provider) => Success(provider)
  }
}
