/**
 * The Genkit flow `searchYoutube` (src/ai/flows/youtube-search.ts): the same search as
 * the server action, always for music, with a thumbnail taken only from the `default`
 * size, and a different failure policy: a missing key throws, and a failed API call
 * yields an empty list instead of an error. Its `formatDuration` and its separator
 * loop are the same code as the action's and are shared with it.
 */
module YoutubeFlow {
  import opened Wrappers
  import opened SearchActions

  const MissingKeyMessage := "YOUTUBE_API_KEY environment variable not set."

  /** The flow's answer: `{ results }`, or the error it throws. */
  datatype FlowOutcome = FlowResults(results: seq<YoutubeResult>) | FlowThrew(message: string)

  /** The request of the flow: `query + " music"` in category `10`, fifteen videos. */
  function FlowQueryParams(key: string, query: string): QueryParams {
    QueryParams(key, ["snippet"], query + " music", ["video"], 15, Some("10"))
  }

  /** The flow asks exactly what a `youtubeMusic` search of the action asks. */
  lemma FlowQueryIsMusicSearch(key: string, query: string)
    ensures IsQueryFor(FlowQueryParams(key, query), key, query, YoutubeMusic)
    ensures forall p :: IsQueryFor(p, key, query, YoutubeMusic) ==> p == FlowQueryParams(key, query)
  {
  }

  /** `item.snippet?.thumbnails?.default?.url || ''`. */
  function FlowThumbnail(t: Thumbnails): string {
    OrElse(t.defaultUrl, "")
  }

  /**
   * A flow result and an action result for the same video agree in everything but the
   * thumbnail, and they agree there too when the video has no `high` or `medium` image.
   */
  lemma FlowMatchesAction(items: seq<VideoItem>, j: nat)
    requires j < |items|
    ensures |ResultsWith(items, FlowThumbnail)| == |ResultsWith(items, Thumbnail)| == |items|
    ensures var f := ResultsWith(items, FlowThumbnail)[j];
      var a := ResultsWith(items, Thumbnail)[j];
      f == a.(thumbnail := f.thumbnail) && f.thumbnail == FlowThumbnail(items[j].thumbnails) &&
      (!Truthy(items[j].thumbnails.highUrl) && !Truthy(items[j].thumbnails.mediumUrl) ==> f == a)
  {
    ResultsWithAt(items, FlowThumbnail, j);
    ResultsWithAt(items, Thumbnail, j);
  }

  /**
   * `searchYoutubeFlow({ query })`. A missing key throws before any request; after that
   * the flow never fails: a thrown API call gives no results, like a search that found
   * no videos.
   */
  method SearchYoutubeFlow(query: string, apiKey: Option<string>,
                           searchItems: Response<Option<seq<Option<string>>>>,
                           videoItems: Response<Option<seq<VideoItem>>>)
    returns (outcome: FlowOutcome, searchRequest: Option<QueryParams>, videoRequest: Option<seq<string>>)
    ensures outcome.FlowThrew? <==> !Truthy(apiKey)
    ensures !Truthy(apiKey) ==> outcome == FlowThrew(MissingKeyMessage) && searchRequest.None? && videoRequest.None?
    ensures Truthy(apiKey) ==> searchRequest == Some(FlowQueryParams(apiKey.value, query))
    ensures Truthy(apiKey) && searchItems.Threw? ==> outcome == FlowResults([]) && videoRequest.None?
    ensures Truthy(apiKey) && searchItems.Returned? ==>
      var ids := VideoIds(searchItems.value.GetOr([]));
      (ids == [] ==> outcome == FlowResults([]) && videoRequest.None?) &&
      (ids != [] ==>
        videoRequest == Some(ids) &&
        (videoItems.Threw? ==> outcome == FlowResults([])) &&
        (videoItems.Returned? ==> outcome == FlowResults(ResultsWith(videoItems.value.GetOr([]), FlowThumbnail))))
  {
    if !Truthy(apiKey) {
      return FlowThrew(MissingKeyMessage), None, None;
    }
    searchRequest := Some(FlowQueryParams(apiKey.value, query));
    if searchItems.Threw? {
      return FlowResults([]), searchRequest, None;
    }
    var ids := VideoIds(searchItems.value.GetOr([]));
    if |ids| == 0 {
      return FlowResults([]), searchRequest, None;
    }
    videoRequest := Some(ids);
    if videoItems.Threw? {
      return FlowResults([]), searchRequest, videoRequest;
    }
    var results := NormaliseItems(videoItems.value.GetOr([]), FlowThumbnail);
    outcome := FlowResults(results);
  }
}
