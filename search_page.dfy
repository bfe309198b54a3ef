/**
 * The search page (src/app/search/page.tsx): it sends a query of at least two
 * characters to the search action, keeps the results it gets back, and plays a
 * clicked result with all current results as the queue.
 */
module SearchPage {
  import opened Wrappers
  import opened Strings
  import opened Tracks
  import opened PlayerContext
  import opened PlayerProperties
  import opened SearchActions

  /**
   * `searchType`: `youtube` only when the stored `streamingServices.youtube` is exactly
   * `true`; a missing document, a missing flag and `false` all give `youtubeMusic`.
   */
  function SearchTypeFor(youtubeFlag: Option<bool>): (k: SearchKind)
    ensures k == Youtube <==> youtubeFlag == Some(true)
  {
    if youtubeFlag == Some(true) then Youtube else YoutubeMusic
  }

  /**
   * A query is sent only when its trimmed length is at least 2, counted as JavaScript
   * counts it, in UTF-16 code units.
   */
  predicate LongEnough(query: string) {
    Utf16Length(Trim(query)) >= 2
  }

  /**
   * A query of whitespace only is never sent, however long; a query of two or more
   * characters that neither starts nor ends with whitespace always is. A single
   * character is sent exactly when it is astral (an emoji, say), since JavaScript
   * counts it twice.
   */
  lemma MinLengthGate(query: string)
    ensures (forall k :: 0 <= k < |query| ==> IsJsWhitespace(query[k])) ==> !LongEnough(query)
    ensures |query| >= 2 && !IsJsWhitespace(query[0]) && !IsJsWhitespace(query[|query| - 1]) ==>
              LongEnough(query)
    ensures |query| == 1 && IsAstral(query[0]) ==> LongEnough(query)
    ensures |Trim(query)| == 1 && !IsAstral(Trim(query)[0]) ==> !LongEnough(query)
  {
    if |query| == 1 && IsAstral(query[0]) {
      assert !IsJsWhitespace(query[0]);
      TrimOfTrimmed(query);
      assert Utf16Length(query) == Utf16Length(query[..0]) + 2;
    }
    if |Trim(query)| == 1 {
      var t := Trim(query);
      assert Utf16Length(t) == Utf16Length(t[..0]) + (if IsAstral(t[0]) then 2 else 1);
    }
    TrimSpec(query);
    TrimIsSlice(query);
    if |query| >= 2 && !IsJsWhitespace(query[0]) && !IsJsWhitespace(query[|query| - 1]) {
      TrimOfTrimmed(query);
    }
    if Trim(query) != [] {
      assert Trim(query)[0] == query[LeadingWhitespace(query)];
    }
  }

  /** The song a result is played as. */
  function ToSong(r: YoutubeResult): Song {
    Song(r.id, r.artist, r.title, r.duration, "YouTube", "youtube", r.thumbnail, "youtube:" + r.id, true)
  }

  /**
   * A result's song keeps its id, plays on YouTube, and is never taken for a local
   * file, so playing it always adds it to the listening history. Different ids give
   * different sources.
   */
  lemma ToSongProperties(r: YoutubeResult, other: YoutubeResult)
    ensures var s := ToSong(r);
      s.id == r.id && s.fromYouTube && s.albumArt == r.thumbnail &&
      s.audioSrc[|"youtube:"|..] == r.id && RecordsHistory(s)
    ensures ToSong(r).audioSrc == ToSong(other).audioSrc ==> r.id == other.id
  {
    var s := ToSong(r);
    assert s.audioSrc[..5] == "youtu";
    assert !IsBlobUrl(s.audioSrc);
    if ToSong(r).audioSrc == ToSong(other).audioSrc {
      assert r.id == ToSong(r).audioSrc[8..] == ToSong(other).audioSrc[8..] == other.id;
    }
  }

  /** The queue `handlePlayYoutube` passes: every current result as a song, in order. */
  function ResultsQueue(results: seq<YoutubeResult>): (q: seq<Song>)
    ensures |q| == |results|
    ensures forall i :: 0 <= i < |results| ==> q[i] == ToSong(results[i])
  {
    if results == [] then [] else [ToSong(results[0])] + ResultsQueue(results[1..])
  }

  /** `handlePlayYoutube(ytResult)`: `playSong(song, playlist)`. */
  function HandlePlayYoutube(results: seq<YoutubeResult>, r: YoutubeResult): Command {
    PlaySongCommand(ToSong(r), Some(ResultsQueue(results)))
  }

  /**
   * Playing the result at `index` makes its song current and playing, with the whole
   * result list as the queue, in which the song sits at the same index.
   */
  lemma PlayResultQueuesAll(st: PlayerState, results: seq<YoutubeResult>, index: nat, shuffled: seq<Song>)
    requires index < |results|
    ensures var r := AfterCommand(st, HandlePlayYoutube(results, results[index]), shuffled);
      r.currentSong == Some(ToSong(results[index])) && r.isPlaying &&
      r.queue.playlist == ResultsQueue(results) && r.queue.playlist[index] == r.currentSong.value
  {
    PlaySongQueue(st, ToSong(results[index]), Some(ResultsQueue(results)), shuffled);
  }

  /** The page's state: the results on display. */
  class SearchView {
    var youtubeResults: seq<YoutubeResult>

    constructor ()
      ensures youtubeResults == []
    {
      youtubeResults := [];
    }

    /**
     * `handleYoutubeSearch(searchQuery, searchType)`: a query shorter than two UTF-16
     * code units after trimming clears the results and sends nothing; otherwise the request is
     * returned and the results stay until it settles.
     */
    method HandleYoutubeSearch(searchQuery: string, kind: SearchKind) returns (request: Option<(string, SearchKind)>)
      modifies this
      ensures request.Some? <==> LongEnough(searchQuery)
      ensures request.Some? ==> request.value == (searchQuery, kind) && youtubeResults == old(youtubeResults)
      ensures request.None? ==> youtubeResults == []
    {
      if Utf16Length(Trim(searchQuery)) < 2 {
        youtubeResults := [];
        return None;
      }
      request := Some((searchQuery, kind));
    }

    /** The effect for the page's `?q=` parameter: a non-empty initial query is searched at once. */
    method SearchInitialQuery(initialQuery: string, kind: SearchKind) returns (request: Option<(string, SearchKind)>)
      modifies this
      ensures initialQuery == "" ==> request.None? && youtubeResults == old(youtubeResults)
      ensures initialQuery != "" ==> (request.Some? <==> LongEnough(initialQuery))
      ensures request.Some? ==> request.value == (initialQuery, kind) && youtubeResults == old(youtubeResults)
      ensures initialQuery != "" && request.None? ==> youtubeResults == []
    {
      request := None;
      if initialQuery != "" {
        request := HandleYoutubeSearch(initialQuery, kind);
      }
    }

    /** The transition's continuation: an error empties the list, a success shows its results. */
    method SettleSearch(res: ActionOutcome)
      modifies this
      ensures youtubeResults == (if res.Failed? then [] else res.results)
    {
      if res.Failed? {
        youtubeResults := [];
      } else {
        youtubeResults := res.results;
      }
    }

    /** A click on the result at `index`. */
    method PlayResult(p: Player, index: nat, shuffled: seq<Song>)
      requires p.Valid() && index < |youtubeResults|
      requires multiset(shuffled) == multiset(ResultsQueue(youtubeResults))
      modifies p
      ensures p.State() == AfterCommand(old(p.State()), HandlePlayYoutube(youtubeResults, youtubeResults[index]), shuffled)
      ensures p.Valid()
    {
      p.Run(HandlePlayYoutube(youtubeResults, youtubeResults[index]), shuffled);
    }
  }
}
