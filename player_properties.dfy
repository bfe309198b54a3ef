/**
 * What the commands and effects of the player provider promise, stated over the
 * step functions that the `Player` methods are proved to follow.
 */
module PlayerProperties {
  import opened Wrappers
  import opened Tracks
  import opened PlayerContext

  // ---------------------------------------------------------------- toggleLoop

  /** `toggleLoop` goes none → playlist → song → none: three presses return to the start, fewer do not. */
  lemma LoopCycle(m: LoopMode)
    ensures NextLoopMode(NoLoop) == LoopPlaylist && NextLoopMode(LoopPlaylist) == LoopSong &&
            NextLoopMode(LoopSong) == NoLoop
    ensures NextLoopMode(m) != m && NextLoopMode(NextLoopMode(m)) != m
    ensures NextLoopMode(NextLoopMode(NextLoopMode(m))) == m
  {
  }

  // ---------------------------------------------------------------- playSong

  /**
   * `playSong(song, list)` always makes `song` current and playing, records it as the
   * history rules say, keeps both modes of the queue, and leaves the view, the lyrics
   * and the revoked URLs as they were.
   */
  lemma PlaySongStarts(st: PlayerState, song: Song, newPlaylist: Option<seq<Song>>,
                       shuffled: seq<Song>)
    ensures var r := AfterPlaySong(st, song, newPlaylist, shuffled);
      r.currentSong == Some(song) && r.isPlaying &&
      r.listeningHistory == HistoryAfter(st.listeningHistory, song) &&
      r.queue.shuffle == st.queue.shuffle && r.queue.loop == st.queue.loop &&
      r.view == st.view && r.backends.revoked == st.backends.revoked
  {
  }

  /**
   * The three queue rules of `playSong`: an absent or empty list makes both queues
   * `[song]`; a non-empty list that differs replaces the queue, and the shuffled queue
   * only while shuffle is on; the current queue passed back changes nothing.
   */
  lemma PlaySongQueue(st: PlayerState, song: Song, newPlaylist: Option<seq<Song>>,
                      shuffled: seq<Song>)
    ensures var q := AfterPlaySong(st, song, newPlaylist, shuffled).queue;
      ((newPlaylist.None? || newPlaylist.value == []) ==>
        q.playlist == [song] && q.shuffledPlaylist == [song]) &&
      ((newPlaylist.Some? && newPlaylist.value != [] && newPlaylist.value != st.queue.playlist) ==>
        q.playlist == newPlaylist.value &&
        q.shuffledPlaylist == (if st.queue.shuffle then shuffled else st.queue.shuffledPlaylist)) &&
      ((newPlaylist == Some(st.queue.playlist) && st.queue.playlist != []) ==> q == st.queue)
  {
  }

  /** A regenerated shuffled queue holds exactly the songs of the new queue. */
  lemma PlaySongShufflesNewQueue(st: PlayerState, song: Song, newPlaylist: Option<seq<Song>>,
                                 shuffled: seq<Song>)
    requires newPlaylist.Some? ==> multiset(shuffled) == multiset(newPlaylist.value)
    requires st.queue.shuffle && newPlaylist.Some? && newPlaylist.value != [] &&
             newPlaylist.value != st.queue.playlist
    ensures var q := AfterPlaySong(st, song, newPlaylist, shuffled).queue;
      multiset(q.shuffledPlaylist) == multiset(q.playlist)
  {
  }

  /**
   * The replaced song is silenced first: a YouTube song through `stopVideo`, any other
   * by pausing the audio element. The other backend is left alone.
   */
  lemma PlaySongStopsPrevious(st: PlayerState, song: Song, newPlaylist: Option<seq<Song>>,
                              shuffled: seq<Song>)
    ensures var b := AfterPlaySong(st, song, newPlaylist, shuffled).backends;
      var a := st.backends.audio;
      var y := st.backends.youtube;
      (OnYoutube(st.currentSong, st.backends) ==>
        b.youtube == Some(y.value.(state := Stopped)) && b.audio == a) &&
      (!OnYoutube(st.currentSong, st.backends) ==>
        b.youtube == y && (a.Some? ==> b.audio == Some(a.value.(playing := false))) &&
        (a.None? ==> b.audio.None?))
  {
  }

  // ---------------------------------------------------------------- playNext

  /** No current song, an empty active list, or a current song missing from it: `playNext` does nothing. */
  lemma PlayNextNoOp(st: PlayerState)
    requires st.currentSong.None? || ActiveList(st.queue) == [] ||
             (st.queue.loop != LoopSong && FindIndex(ActiveList(st.queue), st.currentSong.value.id) == -1)
    ensures AfterPlayNext(st) == st
  {
  }

  /**
   * With `loop === 'song'`, `playNext` keeps the song, the queue, `isPlaying` and the
   * history, and restarts the active backend at position 0.
   */
  lemma PlayNextRepeatsSong(st: PlayerState)
    requires st.currentSong.Some? && ActiveList(st.queue) != [] && st.queue.loop == LoopSong
    ensures var r := AfterPlayNext(st);
      var a := st.backends.audio;
      var y := st.backends.youtube;
      r.currentSong == st.currentSong && r.isPlaying == st.isPlaying &&
      r.queue == st.queue && r.listeningHistory == st.listeningHistory &&
      (OnYoutube(st.currentSong, st.backends) ==>
        r.backends.youtube == Some(y.value.(position := 0.0, state := Playing)) &&
        r.backends.audio == a) &&
      (!OnYoutube(st.currentSong, st.backends) && a.Some? ==>
        r.backends.audio == Some(a.value.(position := 0.0, playing := true)) &&
        r.backends.youtube == y)
  {
  }

  /** Away from the end of the active list, `playNext` plays the following entry. */
  lemma PlayNextAdvances(st: PlayerState)
    requires st.currentSong.Some? && st.queue.loop != LoopSong
    requires var i := FindIndex(ActiveList(st.queue), st.currentSong.value.id);
      0 <= i && i + 1 < |ActiveList(st.queue)|
    ensures var active := ActiveList(st.queue);
      var i := FindIndex(active, st.currentSong.value.id);
      var r := AfterPlayNext(st);
      r.currentSong == Some(active[i + 1]) && r.isPlaying
  {
  }

  /** At the last entry with `loop === 'playlist'`, `playNext` wraps to the first. */
  lemma PlayNextWraps(st: PlayerState)
    requires st.currentSong.Some? && ActiveList(st.queue) != [] && st.queue.loop == LoopPlaylist
    requires FindIndex(ActiveList(st.queue), st.currentSong.value.id) == |ActiveList(st.queue)| - 1
    ensures var r := AfterPlayNext(st);
      r.currentSong == Some(ActiveList(st.queue)[0]) && r.isPlaying
  {
  }

  /** At the last entry with `loop === 'none'`, `playNext` only stops: the song stays current. */
  lemma PlayNextStopsAtEnd(st: PlayerState)
    requires st.currentSong.Some? && ActiveList(st.queue) != [] && st.queue.loop == NoLoop
    requires FindIndex(ActiveList(st.queue), st.currentSong.value.id) == |ActiveList(st.queue)| - 1
    ensures AfterPlayNext(st) == st.(isPlaying := false)
  {
  }

  /**
   * Playing a song with the current queue passed back leaves the queue alone in any
   * state that keeps the invariant: a non-empty queue compares equal to itself, and
   * an empty one leaves no active list to pick a song from.
   */
  lemma {:induction false} ReplayKeepsQueue(st: PlayerState, song: Song)
    requires Consistent(st)
    requires ActiveList(st.queue) != []
    ensures AfterPlaySong(st, song, Some(st.queue.playlist), st.queue.playlist).queue == st.queue
  {
    assert st.queue.playlist != [];
    PlaySongQueue(st, song, Some(st.queue.playlist), st.queue.playlist);
  }

  /** `playNext` never replaces the queue or its shuffled copy, and never changes a mode. */
  lemma {:induction false} PlayNextKeepsQueue(st: PlayerState)
    requires Consistent(st)
    ensures AfterPlayNext(st).queue == st.queue
  {
    var active := ActiveList(st.queue);
    if st.currentSong.Some? && active != [] && st.queue.loop != LoopSong {
      var i := FindIndex(active, st.currentSong.value.id);
      if i != -1 {
        if i + 1 < |active| {
          ReplayKeepsQueue(st, active[i + 1]);
        } else if st.queue.loop == LoopPlaylist {
          ReplayKeepsQueue(st, active[0]);
        }
      }
    }
  }

  // ---------------------------------------------------------------- playPrev

  /**
   * `playPrev` plays entry `(i - 1 + n) mod n` of the active list in every loop mode,
   * so the first entry goes to the last.
   */
  lemma PlayPrevSelects(st: PlayerState)
    requires st.currentSong.Some? && FindIndex(ActiveList(st.queue), st.currentSong.value.id) >= 0
    ensures var active := ActiveList(st.queue);
      var i := FindIndex(active, st.currentSong.value.id);
      var r := AfterPlayPrev(st);
      r.isPlaying &&
      (i == 0 ==> r.currentSong == Some(active[|active| - 1])) &&
      (i > 0 ==> r.currentSong == Some(active[i - 1]))
  {
  }

  /** `playPrev` does nothing without a current song, with an empty active list, or when the song is not in it. */
  lemma PlayPrevNoOp(st: PlayerState)
    requires st.currentSong.None? || ActiveList(st.queue) == [] ||
             FindIndex(ActiveList(st.queue), st.currentSong.value.id) == -1
    ensures AfterPlayPrev(st) == st
  {
  }

  /** `playPrev` never replaces the queue or its shuffled copy. */
  lemma {:induction false} PlayPrevKeepsQueue(st: PlayerState)
    requires Consistent(st)
    ensures AfterPlayPrev(st).queue == st.queue
  {
    var active := ActiveList(st.queue);
    if st.currentSong.Some? && active != [] {
      var i := FindIndex(active, st.currentSong.value.id);
      if i != -1 {
        ReplayKeepsQueue(st, active[PrevIndex(i, |active|)]);
      }
    }
  }

  // ---------------------------------------------------------------- togglePlay, closePlayer, full screen

  /** `togglePlay` flips `isPlaying` only while a song is loaded, and pressing it twice restores the state. */
  lemma TogglePlayFlips(st: PlayerState)
    ensures var r := AfterTogglePlay(st);
      (st.currentSong.Some? ==> r.isPlaying == !st.isPlaying && r == st.(isPlaying := r.isPlaying)) &&
      (st.currentSong.None? ==> r == st) &&
      AfterTogglePlay(r) == st
  {
  }

  /**
   * After `closePlayer` nothing is current or playing, the full-screen view is closed,
   * both backends are silent, and exactly a local file's URL has been revoked.
   */
  lemma CloseStopsEverything(st: PlayerState)
    ensures var r := AfterClosePlayer(st);
      var b := r.backends;
      var local := st.currentSong.Some? && IsBlobUrl(st.currentSong.value.audioSrc);
      r.currentSong.None? && !r.isPlaying && !r.view.isFullScreenPlayerOpen &&
      (b.audio.Some? ==> !b.audio.value.playing) &&
      (b.youtube.Some? ==> b.youtube.value.state == Stopped) &&
      (local ==> b.revoked == st.backends.revoked + [st.currentSong.value.audioSrc]) &&
      (!local ==> b.revoked == st.backends.revoked) &&
      r.queue == st.queue && r.listeningHistory == st.listeningHistory
  {
  }

  /** Closing an already closed player changes nothing; in particular no URL is revoked twice. */
  lemma CloseIsIdempotent(st: PlayerState)
    ensures AfterClosePlayer(AfterClosePlayer(st)) == AfterClosePlayer(st)
  {
  }

  /** Opening the full-screen view returns to the artwork; closing it keeps the view choice. */
  lemma FullScreenToggle(st: PlayerState)
    requires st.currentSong.Some?
    ensures var v := AfterToggleFullScreen(st).view;
      v.isFullScreenPlayerOpen == !st.view.isFullScreenPlayerOpen &&
      (!st.view.isFullScreenPlayerOpen ==> !v.showVideo) &&
      (st.view.isFullScreenPlayerOpen ==> v.showVideo == st.view.showVideo)
  {
  }

  // ---------------------------------------------------------------- the routing effect

  /** For a YouTube song the audio element is paused and the YouTube player mirrors `isPlaying`. */
  lemma RoutingYoutubeSong(st: PlayerState)
    requires st.currentSong.Some? && st.currentSong.value.fromYouTube
    ensures var b := AfterRouting(st).backends;
      var a := st.backends.audio;
      (b.audio.Some? <==> a.Some?) &&
      (b.audio.Some? ==> !b.audio.value.playing && b.audio.value.src == a.value.src) &&
      (st.backends.youtube.Some? ==>
        (b.youtube.Some? && b.youtube.value.state == (if st.isPlaying then Playing else Paused))) &&
      b.revoked == st.backends.revoked
  {
  }

  /**
   * For any other song the YouTube player is stopped and the audio element plays its
   * source exactly while `isPlaying`. The source is reassigned only when it differs,
   * which reloads it from position 0 with its duration unknown, and the old one is
   * revoked exactly when it was a local file's URL. An unchanged source keeps its
   * position and duration.
   */
  lemma RoutingAudioSong(st: PlayerState)
    requires st.currentSong.Some? && !st.currentSong.value.fromYouTube && st.backends.audio.Some?
    ensures var b := AfterRouting(st).backends;
      var oldSrc := st.backends.audio.value.src;
      var src := st.currentSong.value.audioSrc;
      b.audio.Some? && b.audio.value.src == src && b.audio.value.playing == st.isPlaying &&
      (st.backends.youtube.Some? ==> (b.youtube.Some? && b.youtube.value.state == Stopped)) &&
      (oldSrc != src ==> b.audio.value.position == 0.0 && b.audio.value.duration == NaN) &&
      (oldSrc == src ==> b.audio.value.position == st.backends.audio.value.position &&
                         b.audio.value.duration == st.backends.audio.value.duration) &&
      (oldSrc != src && IsBlobUrl(oldSrc) ==> b.revoked == st.backends.revoked + [oldSrc]) &&
      (!(oldSrc != src && IsBlobUrl(oldSrc)) ==> b.revoked == st.backends.revoked)
  {
  }

  /** With no song the audio element is paused and emptied, which resets its position and duration. */
  lemma RoutingNoSong(st: PlayerState)
    requires st.currentSong.None? && st.backends.audio.Some?
    ensures var b := AfterRouting(st).backends;
      b.audio.Some? && !b.audio.value.playing && b.audio.value.src == "" &&
      b.audio.value.position == 0.0 && b.audio.value.duration == NaN &&
      b.revoked == st.backends.revoked
  {
  }

  /**
   * Running the routing effect again changes nothing: in this model, where `src` reads
   * back exactly as it was assigned, a second run revokes no URL and reloads no source.
   */
  lemma RoutingIsIdempotent(st: PlayerState)
    ensures AfterRouting(AfterRouting(st)) == AfterRouting(st)
  {
  }

  // ---------------------------------------------------------------- the loop effect

  /** The audio element loops exactly while the loop mode is `song`, and re-running the effect changes nothing. */
  lemma LoopFlagMirrorsMode(st: PlayerState)
    ensures var r := AfterLoopFlag(st);
      var a := r.backends.audio;
      (a.Some? <==> st.backends.audio.Some?) &&
      (a.Some? ==> (a.value.loop <==> st.queue.loop == LoopSong)) &&
      AfterLoopFlag(r) == r
  {
  }

  // ---------------------------------------------------------------- playback quality

  /** The four recognised settings map to their levels; anything else, including a missing one, to `default`. */
  lemma QualityLevels(setting: Option<string>)
    ensures YoutubeQuality(Some("very-high")) == "highres" && YoutubeQuality(Some("high")) == "hd1080" &&
            YoutubeQuality(Some("standard")) == "hd720" && YoutubeQuality(Some("low")) == "large"
    ensures setting !in [Some("very-high"), Some("high"), Some("standard"), Some("low")] ==>
              YoutubeQuality(setting) == "default"
  {
  }

  /**
   * Without stored settings: audio on wifi is `automatic`, which the switch does not
   * name, so it plays at `default`; cellular audio and all video play at `hd720`; an
   * unknown connection has no entry and plays at `default`.
   */
  lemma DefaultQuality(showVideo: bool)
    ensures YoutubeQuality(QualitySetting(None, false, Wifi)) == "default"
    ensures YoutubeQuality(QualitySetting(None, false, Cellular)) == "hd720"
    ensures YoutubeQuality(QualitySetting(None, true, Wifi)) == "hd720"
    ensures YoutubeQuality(QualitySetting(None, true, Cellular)) == "hd720"
    ensures YoutubeQuality(QualitySetting(None, showVideo, UnknownConnection)) == "default"
  {
  }
}
