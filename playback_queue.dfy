/**
 * The queue sheet (src/components/playback-queue.tsx): it lists the queue, plays a
 * row when it is clicked, loads the lyrics of a YouTube song while the sheet is open,
 * and on every animation frame marks the lyric line being sung.
 */
module PlaybackQueue {
  import opened Wrappers
  import opened Tracks
  import opened PlayerContext

  // ---------------------------------------------------------------- the active lyric line

  /**
   * `parseFloat(line.start) <= t`. A start that does not parse is `NaN`, and a
   * comparison with `NaN` is false.
   */
  predicate Qualifies(line: LyricLine, t: real) {
    line.start.Seconds? && line.start.value <= t
  }

  /**
   * `r` is the line to highlight at time `t`: the last line that has started, or -1
   * when none has. Being the last one, and not the first, is what a scan from the
   * end finds, whatever order the start times come in.
   */
  predicate IsActiveIndex(lines: seq<LyricLine>, t: real, r: int) {
    -1 <= r < |lines| &&
    (r >= 0 ==> Qualifies(lines[r], t)) &&
    forall j :: r < j < |lines| ==> !Qualifies(lines[j], t)
  }

  /** The search loop of `updateActiveLyric`: from the last line down, stop at the first that has started. */
  method FindActiveLyric(lines: seq<LyricLine>, t: real) returns (newIndex: int)
    ensures IsActiveIndex(lines, t, newIndex)
  {
    newIndex := -1;
    var i := |lines| - 1;
    while i >= 0
      invariant -1 <= i < |lines|
      invariant forall j :: i < j < |lines| ==> !Qualifies(lines[j], t)
    {
      if Qualifies(lines[i], t) {
        newIndex := i;
        break;
      }
      i := i - 1;
    }
  }

  /** At most one index fits: the highlighted line is determined by the lines and the time. */
  lemma ActiveIndexUnique(lines: seq<LyricLine>, t: real, r1: int, r2: int)
    requires IsActiveIndex(lines, t, r1) && IsActiveIndex(lines, t, r2)
    ensures r1 == r2
  {
  }

  /** Start times that all parse and never decrease, as the lyric scraper returns them. */
  predicate StartsSorted(lines: seq<LyricLine>) {
    (forall i :: 0 <= i < |lines| ==> lines[i].start.Seconds?) &&
    forall i, j :: 0 <= i < j < |lines| ==> lines[i].start.value <= lines[j].start.value
  }

  /**
   * For sorted start times the highlighted line is the one whose interval holds `t`:
   * it and every line before it have started, the next one has not.
   */
  lemma SortedActiveLine(lines: seq<LyricLine>, t: real, r: int)
    requires StartsSorted(lines) && IsActiveIndex(lines, t, r)
    ensures forall j :: 0 <= j <= r ==> Qualifies(lines[j], t)
    ensures r + 1 < |lines| ==> lines[r + 1].start.Seconds? && t < lines[r + 1].start.value
    ensures r == -1 ==> forall j :: 0 <= j < |lines| ==> lines[j].start.Seconds? && t < lines[j].start.value
  {
  }

  /**
   * `latestTime`: the YouTube player's position for a YouTube song, otherwise the audio
   * element's; 0 when that backend is missing.
   */
  function LatestTime(song: Option<Song>, b: Backends): real {
    if song.Some? && song.value.fromYouTube then
      if b.youtube.Some? then b.youtube.value.position else 0.0
    else if b.audio.Some? then b.audio.value.position
    else 0.0
  }

  /** The sheet's own state: `activeLyricIndex`, -1 until a line is found. */
  class QueueSheet {
    var activeLyricIndex: int

    constructor ()
      ensures activeLyricIndex == -1
    {
      activeLyricIndex := -1;
    }

    /**
     * One animation frame of `updateActiveLyric`. With no lyrics or a closed sheet the
     * frame only schedules the next one; otherwise the index becomes the line active
     * at the current backend's position.
     */
    method UpdateActiveLyric(p: Player)
      modifies this
      ensures (p.lyrics == [] || !p.isQueueOpen) ==> activeLyricIndex == old(activeLyricIndex)
      ensures p.lyrics != [] && p.isQueueOpen ==>
        IsActiveIndex(p.lyrics, LatestTime(p.currentSong, p.State().backends), activeLyricIndex)
    {
      if p.lyrics == [] || !p.isQueueOpen {
        return;
      }
      var latestTime := LatestTime(p.currentSong, p.State().backends);
      var newIndex := FindActiveLyric(p.lyrics, latestTime);
      activeLyricIndex := newIndex;
    }
  }

  // ---------------------------------------------------------------- the rows

  /** A row is highlighted when its song has the current song's id. */
  predicate RowHighlighted(currentSong: Option<Song>, song: Song) {
    currentSong.Some? && currentSong.value.id == song.id
  }

  /**
   * The highlighted rows are exactly the queue entries `playNext` could start from:
   * some row is highlighted iff the current id is in the queue, and the first
   * highlighted row is the index `findIndex` returns.
   */
  lemma HighlightMatchesFindIndex(currentSong: Song, playlist: seq<Song>)
    ensures var i := FindIndex(playlist, currentSong.id);
      (i == -1 <==> forall k :: 0 <= k < |playlist| ==> !RowHighlighted(Some(currentSong), playlist[k])) &&
      (i >= 0 ==> RowHighlighted(Some(currentSong), playlist[i]) &&
                  forall k :: 0 <= k < i ==> !RowHighlighted(Some(currentSong), playlist[k]))
  {
  }

  /** A queue row's click: `playSong(song)` with no list, for the row's own song. */
  method ClickRow(p: Player, index: nat)
    requires p.Valid() && index < |p.playlist|
    modifies p
    ensures p.State() == AfterPlaySong(old(p.State()), old(p.playlist)[index], None, [])
    ensures p.Valid()
  {
    p.PlaySong(p.playlist[index], None, []);
  }

  /**
   * Playing from the queue sheet throws the queue away: afterwards it holds only the
   * clicked song, in both orders, and that song is playing.
   */
  lemma ClickRowCollapsesQueue(st: PlayerState, song: Song)
    ensures var r := AfterPlaySong(st, song, None, []);
      r.queue.playlist == [song] && r.queue.shuffledPlaylist == [song] &&
      r.currentSong == Some(song) && r.isPlaying &&
      ActiveList(r.queue) == [song] && RowHighlighted(r.currentSong, song)
  {
  }

  // ---------------------------------------------------------------- the lyrics effect

  /** The video whose lyrics the effect fetches: the current song's id, for a YouTube song while the sheet is open. */
  function LyricsRequest(song: Option<Song>, isQueueOpen: bool): (r: Option<string>)
    ensures r.Some? <==> song.Some? && song.value.fromYouTube && isQueueOpen
    ensures r.Some? ==> r.value == song.value.id
  {
    if song.Some? && song.value.fromYouTube && isQueueOpen then Some(song.value.id) else None
  }

  /**
   * The view right after the effect runs: a fetch starts with no lyrics and the
   * loading flag set; without one the lyrics are only cleared.
   */
  function StartedLyrics(v: View, song: Option<Song>): View {
    if LyricsRequest(song, v.isQueueOpen).Some? then v.(isLyricsLoading := true, lyrics := [])
    else v.(lyrics := [])
  }

  /**
   * The view when the fetch settles: `result` is the fetched lines, or `None` for a
   * rejected fetch, which only logs. Loading ends either way (`finally`).
   */
  function SettledLyrics(v: View, result: Option<seq<LyricLine>>): View {
    var w := if result.Some? then v.(lyrics := result.value) else v;
    w.(isLyricsLoading := false)
  }

  /**
   * The lyrics effect clears the lyrics in every case, and leaves nothing else of the
   * view changed except the loading flag of a fetch it starts. Once that fetch
   * settles, loading is over and the lyrics are the fetched lines, or none when the
   * fetch failed.
   */
  lemma LyricsEffectOutcome(v: View, song: Option<Song>, result: Option<seq<LyricLine>>)
    ensures var s := StartedLyrics(v, song);
      s.lyrics == [] &&
      s == v.(lyrics := [], isLyricsLoading := s.isLyricsLoading) &&
      (LyricsRequest(song, v.isQueueOpen).Some? ==> s.isLyricsLoading) &&
      (LyricsRequest(song, v.isQueueOpen).None? ==> s.isLyricsLoading == v.isLyricsLoading)
    ensures LyricsRequest(song, v.isQueueOpen).Some? ==>
      var r := SettledLyrics(StartedLyrics(v, song), result);
      !r.isLyricsLoading && r.lyrics == (if result.Some? then result.value else []) &&
      r.isQueueOpen == v.isQueueOpen && r.showVideo == v.showVideo &&
      r.isFullScreenPlayerOpen == v.isFullScreenPlayerOpen
  {
  }

  /**
   * The lyrics effect, run when the song or the sheet's visibility changed. Returns the
   * id of the video whose lyrics are now being fetched, if any.
   */
  method RunLyricsEffect(p: Player) returns (request: Option<string>)
    requires p.Valid()
    modifies p
    ensures request == LyricsRequest(old(p.currentSong), old(p.isQueueOpen))
    ensures p.State() == old(p.State()).(view := StartedLyrics(old(p.State()).view, old(p.currentSong)))
    ensures p.Valid()
  {
    request := LyricsRequest(p.currentSong, p.isQueueOpen);
    if request.Some? {
      p.SetLyricsLoading(true);
      p.SetLyrics([]);
    } else {
      p.SetLyrics([]);
    }
  }

  /** The `then`/`catch`/`finally` of the fetch, whenever it settles. */
  method SettleLyricsFetch(p: Player, result: Option<seq<LyricLine>>)
    requires p.Valid()
    modifies p
    ensures p.State() == old(p.State()).(view := SettledLyrics(old(p.State()).view, result))
    ensures p.Valid()
  {
    if result.Some? {
      p.SetLyrics(result.value);
    }
    p.SetLyricsLoading(false);
  }
}
