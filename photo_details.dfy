/** The photo detail view: the load effect keyed by the route's `id`, its
    loading and error states, which view it renders, and the image's own
    loading flag. A fetch is a begin step (the effect) and a completion step
    that receives the fetch's outcome. */
module PhotoDetails {
  import opened Wrappers
  import opened PhotoService

  const MissingIdMessage: string := "Photo ID is required"
  const LoadFailedMessage: string := "Failed to load photo details. Please try again."
  const NotFoundMessage: string := "Photo not found"

  /** The component's four `useState` cells, and how many detail fetches it
      has issued that have not completed. */
  datatype Details = Details(
    photo: Option<Photo>,
    loading: bool,
    error: Option<string>,
    imageLoading: bool,
    inFlight: nat)

  const InitialDetails: Details := Details(None, true, None, true, 0)

  /** `loadPhoto`, run on mount and whenever `id` changes; `None` is a route
      without the parameter. A falsy id fails at once without a fetch;
      otherwise the view goes back to loading and a fetch is issued. */
  function LoadPhoto(d: Details, id: Option<string>): (d': Details)
    ensures !Truthy(id) ==>
      d'.error == Some(MissingIdMessage) && !d'.loading && d'.inFlight == d.inFlight
    ensures Truthy(id) ==>
      d'.loading && d'.error == None && d'.inFlight == d.inFlight + 1
    ensures d'.photo == d.photo && d'.imageLoading == d.imageLoading
  {
    if !Truthy(id) then
      d.(error := Some(MissingIdMessage), loading := false)
    else
      d.(loading := true, error := None, inFlight := d.inFlight + 1)
  }

  /** A detail fetch settles: a photo is stored, a failure sets the message and
      keeps the photo shown before; either way loading ends. No check is made
      that the answer is for the current `id`. */
  function PhotoFetched(d: Details, response: Option<Photo>): (d': Details)
    requires d.inFlight > 0
    ensures !d'.loading && d'.inFlight == d.inFlight - 1
    ensures response.Some? ==> d'.photo == response && d'.error == d.error
    ensures response.None? ==> d'.photo == d.photo && d'.error == Some(LoadFailedMessage)
    ensures d'.imageLoading == d.imageLoading
  {
    match response
    case Some(p) => d.(photo := Some(p), loading := false, inFlight := d.inFlight - 1)
    case None => d.(error := Some(LoadFailedMessage), loading := false, inFlight := d.inFlight - 1)
  }

  /** The image's `onLoad` or `onError`. */
  function ImageSettled(d: Details): (d': Details)
    ensures !d'.imageLoading
    ensures d'.photo == d.photo && d'.loading == d.loading && d'.error == d.error && d'.inFlight == d.inFlight
  {
    d.(imageLoading := false)
  }

  datatype DetailView = Spinner | ErrorView(message: string) | PhotoView(photo: Photo)

  /** The render branch: the spinner while loading; otherwise an error or a
      missing photo shows the error view, with its message or "Photo not
      found"; otherwise the photo. */
  function View(d: Details): (v: DetailView)
    ensures v.Spinner? <==> d.loading
    ensures v.ErrorView? <==> !d.loading && (Truthy(d.error) || d.photo.None?)
    ensures v.ErrorView? ==> v.message == if Truthy(d.error) then d.error.value else "Photo not found"
    ensures v.PhotoView? ==> d.photo == Some(v.photo) && !Truthy(d.error)
  {
    if d.loading then Spinner
    else if Truthy(d.error) || d.photo.None? then
      ErrorView(if Truthy(d.error) then d.error.value else NotFoundMessage)
    else PhotoView(d.photo.value)
  }

  datatype DetailEvent = IdChanged(id: Option<string>) | Fetched(response: Option<Photo>) | ImageDone

  /** One event. An answer arrives only for a fetch that was issued; only a
      completion changes the photo, and only the image's handlers its flag. */
  function DetailStep(d: Details, e: DetailEvent): (r: Details)
    ensures e.Fetched? && d.inFlight == 0 ==> r == d
    ensures !e.Fetched? ==> r.photo == d.photo
    ensures !e.ImageDone? ==> r.imageLoading == d.imageLoading
  {
    match e
    case IdChanged(id) => LoadPhoto(d, id)
    case Fetched(response) => if d.inFlight > 0 then PhotoFetched(d, response) else d
    case ImageDone => ImageSettled(d)
  }

  function RunDetails(d: Details, events: seq<DetailEvent>): Details
    decreases |events|
  {
    if events == [] then d else RunDetails(DetailStep(d, events[0]), events[1..])
  }

  /** Once the image has loaded or failed, its spinner never comes back, not
      even when the route's `id` changes. */
  lemma {:induction false} ImageLoadingNeverReturns(d: Details, events: seq<DetailEvent>)
    requires !d.imageLoading
    ensures !RunDetails(d, events).imageLoading
    decreases |events|
  {
    if events != [] {
      ImageLoadingNeverReturns(DetailStep(d, events[0]), events[1..]);
    }
  }

  /** The photo shown is always one that a fetch returned: the state never
      holds a photo that no completion stored. */
  lemma {:induction false} PhotoComesFromAFetch(d: Details, events: seq<DetailEvent>)
    requires d.photo.None?
    ensures var p := RunDetails(d, events).photo;
      p.Some? ==> exists i :: 0 <= i < |events| && events[i] == Fetched(p)
    decreases |events|
  {
    if events != [] {
      var d' := DetailStep(d, events[0]);
      var p := RunDetails(d, events).photo;
      if d'.photo.None? {
        PhotoComesFromAFetch(d', events[1..]);
        if p.Some? {
          var i :| 0 <= i < |events[1..]| && events[1..][i] == Fetched(p);
          assert events[i + 1] == Fetched(p);
        }
      } else {
        assert events[0] == Fetched(d'.photo);
        PhotoStaysUntilFetched(d', events[1..]);
        if p.Some? && p != d'.photo {
          var i :| 0 <= i < |events[1..]| && events[1..][i] == Fetched(p);
          assert events[i + 1] == Fetched(p);
        }
      }
    }
  }

  /** The photo changes only through a completion that stores another one. */
  lemma {:induction false} PhotoStaysUntilFetched(d: Details, events: seq<DetailEvent>)
    ensures var p := RunDetails(d, events).photo;
      p == d.photo || exists i :: 0 <= i < |events| && events[i] == Fetched(p)
    decreases |events|
  {
    if events != [] {
      var d' := DetailStep(d, events[0]);
      var p := RunDetails(d, events).photo;
      PhotoStaysUntilFetched(d', events[1..]);
      if p != d'.photo {
        var i :| 0 <= i < |events[1..]| && events[1..][i] == Fetched(p);
        assert events[i + 1] == Fetched(p);
      } else if p != d.photo {
        assert events[0] == Fetched(p);
      }
    }
  }

  /** Opening a route without an id shows its error and issues no fetch. */
  lemma MissingIdShowsError(d: Details)
    ensures View(LoadPhoto(d, None)) == ErrorView(MissingIdMessage)
    ensures View(LoadPhoto(d, Some(""))) == ErrorView(MissingIdMessage)
    ensures LoadPhoto(d, None).inFlight == d.inFlight
  {
  }

  /** A failed fetch after a valid id shows the failure message, whatever
      photo was shown before. */
  lemma FailedFetchShowsError(d: Details, id: string)
    requires id != ""
    ensures View(PhotoFetched(LoadPhoto(d, Some(id)), None)) == ErrorView(LoadFailedMessage)
  {
  }

  /** A successful fetch after a valid id shows the fetched photo. */
  lemma FetchedPhotoIsShown(d: Details, id: string, p: Photo)
    requires id != ""
    ensures View(PhotoFetched(LoadPhoto(d, Some(id)), Some(p))) == PhotoView(p)
  {
  }

  /** `PhotoDetails`'s state cells and its outstanding fetches. */
  class PhotoDetailsView {
    var photo: Option<Photo>
    var loading: bool
    var error: Option<string>
    var imageLoading: bool
    var inFlight: nat

    function Model(): Details
      reads this
    {
      Details(photo, loading, error, imageLoading, inFlight)
    }

    constructor ()
      ensures Model() == InitialDetails
    {
      photo, loading, error, imageLoading, inFlight := None, true, None, true, 0;
    }

    /** The effect on `[id]`: the missing-id short cut, or the state writes
        before the `await`. */
    method RunLoadEffect(id: Option<string>)
      modifies this
      ensures Model() == LoadPhoto(old(Model()), id)
    {
      if !Truthy(id) {
        error := Some(MissingIdMessage);
        loading := false;
        return;
      }
      loading := true;
      error := None;
      inFlight := inFlight + 1;
    }

    /** The `try`/`catch`/`finally` after the `await` of `fetchPhotoById`. */
    method ReceivePhoto(response: Option<Photo>)
      requires inFlight > 0
      modifies this
      ensures Model() == PhotoFetched(old(Model()), response)
    {
      match response {
        case Some(p) => photo := Some(p);
        case None => error := Some(LoadFailedMessage);
      }
      loading := false;
      inFlight := inFlight - 1;
    }

    method OnImageSettled()
      modifies this
      ensures Model() == ImageSettled(old(Model()))
    {
      imageLoading := false;
    }

  }
}
