/** The infinite-scroll trigger: on each window scroll event, whether the hook
    calls `onLoadMore`. Pixel offsets are integers. */
module InfiniteScroll {
  import opened Wrappers

  /** The hook's `threshold` when its caller passes none. */
  const DefaultThreshold: int := 1000

  /** The bottom of the viewport (`innerHeight + scrollTop`) has come within
      `threshold` pixels of the bottom of the document (`offsetHeight`). */
  predicate NearBottom(innerHeight: int, scrollTop: int, offsetHeight: int, threshold: int)
  {
    innerHeight + scrollTop >= offsetHeight - threshold
  }

  /** `handleScroll`: fires near the bottom, only while more pages exist and
      none is loading; an omitted `threshold` is 1000. */
  function ShouldLoadMore(innerHeight: int, scrollTop: int, offsetHeight: int, threshold: Option<int>,
                          hasMore: bool, loading: bool): (fire: bool)
    ensures fire <==> NearBottom(innerHeight, scrollTop, offsetHeight, threshold.GetOr(1000)) && hasMore && !loading
    ensures !hasMore || loading ==> !fire
  {
    NearBottom(innerHeight, scrollTop, offsetHeight, threshold.GetOr(DefaultThreshold)) && hasMore && !loading
  }

  /** Scrolling further down never switches the trigger off. */
  lemma FiresFurtherDown(innerHeight: int, scrollTop: int, scrollTop': int, offsetHeight: int,
                         threshold: Option<int>, hasMore: bool, loading: bool)
    requires scrollTop <= scrollTop'
    requires ShouldLoadMore(innerHeight, scrollTop, offsetHeight, threshold, hasMore, loading)
    ensures ShouldLoadMore(innerHeight, scrollTop', offsetHeight, threshold, hasMore, loading)
  {
  }

  /** A larger threshold fires wherever a smaller one does. */
  lemma FiresWithLargerThreshold(innerHeight: int, scrollTop: int, offsetHeight: int,
                                 threshold: int, threshold': int, hasMore: bool, loading: bool)
    requires threshold <= threshold'
    requires ShouldLoadMore(innerHeight, scrollTop, offsetHeight, Some(threshold), hasMore, loading)
    ensures ShouldLoadMore(innerHeight, scrollTop, offsetHeight, Some(threshold'), hasMore, loading)
  {
  }

  /** Leaving the threshold out is the same as passing 1000. */
  lemma OmittedThresholdIs1000(innerHeight: int, scrollTop: int, offsetHeight: int, hasMore: bool, loading: bool)
    ensures ShouldLoadMore(innerHeight, scrollTop, offsetHeight, None, hasMore, loading)
        == ShouldLoadMore(innerHeight, scrollTop, offsetHeight, Some(1000), hasMore, loading)
  {
  }
}
