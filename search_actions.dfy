/**
 * The server action behind the search page (src/app/search/actions.ts): it asks the
 * YouTube Data API for videos matching a query and normalises each video into a
 * `YoutubeResult`. The two API calls are inputs here: what `search.list` and
 * `videos.list` return, or that they threw.
 */
module SearchActions {
  import opened Wrappers
  import opened Strings
  import opened IsoDuration
  import opened Clock

  /** JavaScript truthiness of an optional string: present and not empty. */
  predicate Truthy(v: Option<string>) {
    v.Some? && v.value != ""
  }

  /** `v || fallback`. */
  function OrElse(v: Option<string>, fallback: string): string {
    if Truthy(v) then v.value else fallback
  }

  /** `snippet.thumbnails`: the URLs of the `high`, `medium` and `default` sizes, where present. */
  datatype Thumbnails = Thumbnails(highUrl: Option<string>, mediumUrl: Option<string>, defaultUrl: Option<string>)

  /** An item of the `videos.list` response. */
  datatype VideoItem = VideoItem(
    id: Option<string>,
    title: Option<string>,
    channelTitle: Option<string>,
    thumbnails: Thumbnails,
    duration: Option<string>)

  datatype YoutubeResult = YoutubeResult(id: string, title: string, artist: string, thumbnail: string, duration: string)

  // ---------------------------------------------------------------- artist and title

  /** The separators tried, in this order, between artist and title. */
  const Separators: seq<string> := [" - ", " – ", " -- "]

  /** The position in `seps`, from `k` on, of the first separator that `s` contains. */
  function FirstSeparator(s: string, seps: seq<string>, k: nat): (r: Option<nat>)
    requires k <= |seps|
    ensures r.Some? ==> k <= r.value < |seps| && Contains(s, seps[r.value]) &&
                        forall x :: k <= x < r.value ==> !Contains(s, seps[x])
    ensures r.None? ==> forall x :: k <= x < |seps| ==> !Contains(s, seps[x])
    decreases |seps| - k
  {
    if k == |seps| then None
    else if Contains(s, seps[k]) then Some(k)
    else FirstSeparator(s, seps, k + 1)
  }

  /**
   * Artist and title of a video: the first two pieces of the title split at the first
   * separator of the list it contains; the channel and the whole title when it
   * contains none.
   */
  function ArtistTitle(artistTitle: string, channelArtist: string): (string, string) {
    match FirstSeparator(artistTitle, Separators, 0)
    case None => (channelArtist, artistTitle)
    case Some(k) => Split2(artistTitle, Separators[k])
  }

  /** The separator loop: the first separator the title includes splits it, then `break`. */
  method SplitArtistTitle(artistTitle: string, channelArtist: string) returns (artist: string, title: string)
    ensures (artist, title) == ArtistTitle(artistTitle, channelArtist)
  {
    artist, title := channelArtist, artistTitle;
    for k := 0 to |Separators|
      invariant forall x :: 0 <= x < k ==> !Contains(artistTitle, Separators[x])
      invariant artist == channelArtist && title == artistTitle
    {
      if Contains(artistTitle, Separators[k]) {
        var pieces := Split2(artistTitle, Separators[k]);
        artist, title := pieces.0, pieces.1;
        break;
      }
    }
  }

  /**
   * With a separator, the artist is the text before its first occurrence and the title
   * the text after it, both free of that separator, and every separator earlier in the
   * list is absent from the whole title. Without one, the channel is the artist and
   * the title is kept whole.
   */
  lemma ArtistTitlePieces(s: string, channelArtist: string)
    ensures var (artist, title) := ArtistTitle(s, channelArtist);
      match FirstSeparator(s, Separators, 0)
      case None => artist == channelArtist && title == s
      case Some(k) =>
        var sep := Separators[k];
        var i := IndexOf(s, sep);
        artist == s[..i] && OccursAt(s, sep, i) && !Contains(artist, sep) &&
        title == s[i + |sep|..i + |sep| + |title|] && !Contains(title, sep) &&
        forall x :: 0 <= x < k ==> !Contains(s, Separators[x])
  {
    match FirstSeparator(s, Separators, 0)
    case None =>
    case Some(k) =>
      Split2First(s, Separators[k]);
      Split2Second(s, Separators[k]);
  }

  /** Strip `" - Topic"` from an artist name: `replace` with a string pattern, first occurrence only. */
  function StripTopic(artist: string): string {
    ReplaceFirst(artist, " - Topic", "")
  }

  /**
   * The `" - Topic"` strip can only touch a channel name: an artist cut from a title
   * never contains `" - "`, because either `" - "` was the separator and the artist is
   * what precedes its first occurrence, or it is absent from the whole title.
   */
  lemma TopicOnlyInChannelNames(s: string, channelArtist: string)
    requires FirstSeparator(s, Separators, 0).Some?
    ensures StripTopic(Trim(ArtistTitle(s, channelArtist).0)) == Trim(ArtistTitle(s, channelArtist).0)
  {
    var k := FirstSeparator(s, Separators, 0).value;
    var a := ArtistTitle(s, channelArtist).0;
    ArtistTitlePieces(s, channelArtist);
    assert !Contains(a, " - ") by {
      if k != 0 {
        assert !Contains(s, " - ");
        if Contains(a, " - ") {
          ContainsSlice(s, 0, IndexOf(s, Separators[k]), " - ");
        }
      } else {
        assert !Contains(a, Separators[0]);
      }
    }
    TrimIsSlice(a);
    var b := LeadingWhitespace(a);
    if Contains(Trim(a), " - Topic") {
      ContainsSlice(a, b, b + |Trim(a)|, " - Topic");
      TopicHoldsDash(a);
    }
  }

  /** A text containing `" - Topic"` contains `" - "`. */
  lemma TopicHoldsDash(a: string)
    requires Contains(a, " - Topic")
    ensures Contains(a, " - ")
  {
    ContainsIff(a, " - Topic");
    var i: nat :| OccursAt(a, " - Topic", i);
    forall x | 0 <= x < 3 ensures a[i + x] == " - "[x] {
      assert a[i..i + 8][x] == " - Topic"[x];
    }
    assert OccursAt(a, " - ", i);
    ContainsIff(a, " - ");
  }

  // ---------------------------------------------------------------- one result

  /** `thumbnails?.high?.url || thumbnails?.medium?.url || thumbnails?.default?.url || ''`. */
  function Thumbnail(t: Thumbnails): string {
    OrElse(t.highUrl, OrElse(t.mediumUrl, OrElse(t.defaultUrl, "")))
  }

  /**
   * The thumbnail is the first size that has a URL, in the order high, medium,
   * default; it is empty exactly when none has.
   */
  lemma ThumbnailFallback(t: Thumbnails)
    ensures var r := Thumbnail(t);
      (r == "" <==> !Truthy(t.highUrl) && !Truthy(t.mediumUrl) && !Truthy(t.defaultUrl)) &&
      (Truthy(t.highUrl) ==> r == t.highUrl.value) &&
      (!Truthy(t.highUrl) && Truthy(t.mediumUrl) ==> r == t.mediumUrl.value) &&
      (!Truthy(t.highUrl) && !Truthy(t.mediumUrl) && Truthy(t.defaultUrl) ==> r == t.defaultUrl.value)
  {
  }

  /** The duration text: `formatDuration` of the reported duration, `"0:00"` when there is none. */
  function DurationText(duration: Option<string>): string {
    if Truthy(duration) then FormatDuration(duration.value) else "0:00"
  }

  /** The result built for a video, given the two pieces the separator loop produced. */
  function ResultFrom(item: VideoItem, pieces: (string, string), thumbnail: string): YoutubeResult {
    YoutubeResult(OrElse(item.id, ""), Trim(pieces.1), StripTopic(Trim(pieces.0)), thumbnail,
      DurationText(item.duration))
  }

  /** The result built for a video with the given thumbnail. */
  function ResultOf(item: VideoItem, thumbnail: string): YoutubeResult {
    ResultFrom(item, ArtistTitle(OrElse(item.title, "Unknown"), OrElse(item.channelTitle, "Unknown Artist")),
      thumbnail)
  }

  /** The `map` callback over the videos, with the thumbnail each caller picks. */
  method MapItem(item: VideoItem, thumbnail: string) returns (r: YoutubeResult)
    ensures r == ResultOf(item, thumbnail)
  {
    var artist, title := SplitArtistTitle(OrElse(item.title, "Unknown"), OrElse(item.channelTitle, "Unknown Artist"));
    r := ResultFrom(item, (artist, title), thumbnail);
  }

  /** The duration text always reads back as a number of seconds. */
  lemma DurationTextIsClock(duration: Option<string>)
    ensures ParseClock(DurationText(duration)).Some?
  {
    if !Truthy(duration) {
      MssRoundTrip(0);
      assert Mss(0) == "0:00";
    }
  }

  /**
   * Every result has a title without whitespace at either end and a duration that is a
   * well-formed `m:ss` text; it keeps the video id and the thumbnail it was given.
   */
  lemma ResultShape(item: VideoItem, thumbnail: string)
    ensures var r := ResultOf(item, thumbnail);
      (r.title == [] || (!IsJsWhitespace(r.title[0]) && !IsJsWhitespace(r.title[|r.title| - 1]))) &&
      ParseClock(r.duration).Some? &&
      (Truthy(item.id) ==> r.id == item.id.value) && r.thumbnail == thumbnail
  {
    var pieces := ArtistTitle(OrElse(item.title, "Unknown"), OrElse(item.channelTitle, "Unknown Artist"));
    TrimSpec(pieces.1);
    DurationTextIsClock(item.duration);
  }

  // ---------------------------------------------------------------- the request

  datatype SearchKind = Youtube | YoutubeMusic

  /** The parameters of `search.list`. */
  datatype QueryParams = QueryParams(
    key: string,
    part: seq<string>,
    q: string,
    resultType: seq<string>,
    maxResults: nat,
    videoCategoryId: Option<string>)

  /**
   * The request the action makes: fifteen videos for the query; a `youtubeMusic` search
   * appends `" music"` and restricts to the Music category `10`, a `youtube` search
   * sends the query unchanged and sets no category.
   */
  predicate IsQueryFor(p: QueryParams, key: string, query: string, kind: SearchKind) {
    p.key == key && p.part == ["snippet"] && p.resultType == ["video"] && p.maxResults == 15 &&
    (kind == YoutubeMusic ==> p.q == query + " music" && p.videoCategoryId == Some("10")) &&
    (kind == Youtube ==> p.q == query && p.videoCategoryId.None?)
  }

  /** `queryParams`, with `videoCategoryId` added afterwards for a music search. */
  method BuildQueryParams(key: string, query: string, kind: SearchKind) returns (p: QueryParams)
    ensures IsQueryFor(p, key, query, kind)
  {
    p := QueryParams(key, ["snippet"], if kind == YoutubeMusic then query + " music" else query,
      ["video"], 15, None);
    if kind == YoutubeMusic {
      p := p.(videoCategoryId := Some("10"));
    }
  }

  /** The same query gives different texts for the two kinds, so they really ask for different things. */
  lemma KindsDiffer(p1: QueryParams, p2: QueryParams, key: string, query: string)
    requires IsQueryFor(p1, key, query, YoutubeMusic) && IsQueryFor(p2, key, query, Youtube)
    ensures p1.q != p2.q && p1.videoCategoryId != p2.videoCategoryId
  {
    assert |p1.q| == |p2.q| + 6;
  }

  /**
   * `items?.map(item => item.id?.videoId).filter(id => !!id) || []`: the video ids
   * that are present and not empty, in order.
   */
  function VideoIds(items: seq<Option<string>>): (r: seq<string>)
    ensures |r| <= |items|
    ensures forall x :: x in r <==> x != "" && Some(x) in items
  {
    if items == [] then []
    else (if Truthy(items[0]) then [items[0].value] else []) + VideoIds(items[1..])
  }

  /** The ids keep the items' order: the ids of two runs of items are those of each, in turn. */
  lemma {:induction false} VideoIdsInOrder(xs: seq<Option<string>>, ys: seq<Option<string>>)
    ensures VideoIds(xs + ys) == VideoIds(xs) + VideoIds(ys)
  {
    if xs == [] {
      assert xs + ys == ys;
    } else {
      assert (xs + ys)[0] == xs[0];
      assert (xs + ys)[1..] == xs[1..] + ys;
      VideoIdsInOrder(xs[1..], ys);
    }
  }

  // ---------------------------------------------------------------- the action

  /** What an API call gave back: its value, or an exception. */
  datatype Response<T> = Returned(value: T) | Threw

  /** `{ results }` or `{ error }`. */
  datatype ActionOutcome = Found(results: seq<YoutubeResult>) | Failed(error: string)

  const MissingKeyError := "Server configuration error: YouTube API key is missing."
  const FetchError := "Could not fetch results from YouTube."

  /** `xs.map(f)`. */
  function MapSeq<A, B>(xs: seq<A>, f: A -> B): seq<B> {
    if xs == [] then []
    else
      var n := |xs| - 1;
      MapSeq(xs[..n], f) + [f(xs[n])]
  }

  /** `MapSeq` gives one value per element, the value at `j` computed from the element at `j`. */
  lemma {:induction false} MapSeqAt<A, B>(xs: seq<A>, f: A -> B, j: nat)
    ensures |MapSeq(xs, f)| == |xs|
    ensures j < |xs| ==> MapSeq(xs, f)[j] == f(xs[j])
    decreases |xs|
  {
    if xs != [] {
      var n := |xs| - 1;
      MapSeqAt(xs[..n], f, j);
      if j < n {
        assert xs[..n][j] == xs[j];
      }
    }
  }

  /** The videos normalised in order, each with the thumbnail `pick` chooses from its sizes. */
  function ResultsWith(items: seq<VideoItem>, pick: Thumbnails -> string): seq<YoutubeResult> {
    MapSeq(items, (item: VideoItem) => ResultOf(item, pick(item.thumbnails)))
  }

  /** One result per video, the result at `j` built from the video at `j`. */
  lemma ResultsWithAt(items: seq<VideoItem>, pick: Thumbnails -> string, j: nat)
    ensures |ResultsWith(items, pick)| == |items|
    ensures j < |items| ==> ResultsWith(items, pick)[j] == ResultOf(items[j], pick(items[j].thumbnails))
  {
    MapSeqAt(items, (item: VideoItem) => ResultOf(item, pick(item.thumbnails)), j);
  }

  /** A `map` callback over the videos: each video normalised, with the thumbnail `pick` chooses. */
  method NormaliseItems(items: seq<VideoItem>, pick: Thumbnails -> string) returns (results: seq<YoutubeResult>)
    ensures results == ResultsWith(items, pick)
  {
    results := [];
    for i := 0 to |items|
      invariant results == ResultsWith(items[..i], pick)
    {
      var r := MapItem(items[i], pick(items[i].thumbnails));
      assert items[..i + 1][..i] == items[..i];
      results := results + [r];
    }
    assert items[..|items|] == items;
  }

  /**
   * `searchYoutubeAction(query, searchType)`. `searchItems` is the `search.list`
   * response's item ids (`None` when it has no `items`), `videoItems` the `videos.list`
   * response's items. Returns the outcome and the two requests made, if any.
   */
  method SearchYoutubeAction(query: string, kind: SearchKind, apiKey: Option<string>,
                             searchItems: Response<Option<seq<Option<string>>>>,
                             videoItems: Response<Option<seq<VideoItem>>>)
    returns (outcome: ActionOutcome, searchRequest: Option<QueryParams>, videoRequest: Option<seq<string>>)
    ensures !Truthy(apiKey) ==> outcome == Failed(MissingKeyError) && searchRequest.None? && videoRequest.None?
    ensures Truthy(apiKey) ==> searchRequest.Some? && IsQueryFor(searchRequest.value, apiKey.value, query, kind)
    ensures Truthy(apiKey) && searchItems.Threw? ==> outcome == Failed(FetchError) && videoRequest.None?
    ensures Truthy(apiKey) && searchItems.Returned? ==>
      var ids := VideoIds(searchItems.value.GetOr([]));
      (ids == [] ==> outcome == Found([]) && videoRequest.None?) &&
      (ids != [] ==>
        videoRequest == Some(ids) &&
        (videoItems.Threw? ==> outcome == Failed(FetchError)) &&
        (videoItems.Returned? ==> outcome == Found(ResultsWith(videoItems.value.GetOr([]), Thumbnail))))
  {
    searchRequest, videoRequest := None, None;
    if !Truthy(apiKey) {
      return Failed(MissingKeyError), None, None;
    }
    var params := BuildQueryParams(apiKey.value, query, kind);
    searchRequest := Some(params);
    if searchItems.Threw? {
      return Failed(FetchError), searchRequest, None;
    }
    var ids := VideoIds(searchItems.value.GetOr([]));
    if |ids| == 0 {
      return Found([]), searchRequest, None;
    }
    videoRequest := Some(ids);
    if videoItems.Threw? {
      return Failed(FetchError), searchRequest, videoRequest;
    }
    var results := NormaliseItems(videoItems.value.GetOr([]), Thumbnail);
    outcome := Found(results);
  }
}
