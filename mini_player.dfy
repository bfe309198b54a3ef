/**
 * The mini player bar (src/components/player.tsx): its progress readout, refreshed on
 * every animation frame from whichever backend plays the song, and the swipe-down
 * gesture that closes the player.
 */
module MiniPlayer {
  import opened Wrappers
  import opened Clock
  import opened Tracks
  import opened PlayerContext
  import opened TimeDisplay

  /** Positions and durations as backends report them: never negative. */
  predicate MediaTimes(b: Backends) {
    (b.audio.Some? ==> b.audio.value.position >= 0.0 && IsMediaTime(b.audio.value.duration)) &&
    (b.youtube.Some? ==> b.youtube.value.position >= 0.0)
  }

  /** `audioElement?.duration` is truthy: an element whose duration is a number other than 0. */
  predicate HasAudioDuration(b: Backends) {
    b.audio.Some? && b.audio.value.duration.Seconds? && b.audio.value.duration.value != 0.0
  }

  /** The YouTube branch of a frame applies: a YouTube song and a player to ask. */
  predicate AsksYoutube(song: Option<Song>, b: Backends) {
    song.Some? && song.value.fromYouTube && b.youtube.Some?
  }

  /** A touch move's new delta: the downward distance, or the old delta for a move upwards or level. */
  function MoveDelta(start: real, delta: real, y: real): (r: real)
    ensures r == delta || (r == y - start && r > 0.0)
  {
    if y - start > 0.0 then y - start else delta
  }

  /** The delta after a run of touch moves, the last one at the end. */
  function DeltaAfterMoves(start: real, delta: real, ys: seq<real>): real
    decreases |ys|
  {
    if ys == [] then delta
    else MoveDelta(start, DeltaAfterMoves(start, delta, ys[..|ys| - 1]), ys[|ys| - 1])
  }

  /** Move `i` is the last one of `ys` that went below `start`. */
  predicate LastDownwardMove(start: real, ys: seq<real>, i: int) {
    0 <= i < |ys| && ys[i] - start > 0.0 && forall j :: i < j < |ys| ==> ys[j] - start <= 0.0
  }

  /**
   * After a gesture that began with no delta, the delta is the distance of the last move
   * that went down, or 0 when none did: it never goes negative, and moving back up does
   * not undo a swipe.
   */
  lemma {:induction false} DeltaIsLastDownwardMove(start: real, ys: seq<real>)
    ensures DeltaAfterMoves(start, 0.0, ys) >= 0.0
    ensures (forall i :: 0 <= i < |ys| ==> ys[i] - start <= 0.0) ==> DeltaAfterMoves(start, 0.0, ys) == 0.0
    ensures forall i :: LastDownwardMove(start, ys, i) ==> DeltaAfterMoves(start, 0.0, ys) == ys[i] - start
    decreases |ys|
  {
    if ys != [] {
      var init := ys[..|ys| - 1];
      DeltaIsLastDownwardMove(start, init);
      forall i | 0 <= i < |init| ensures init[i] == ys[i] { }
      forall i | LastDownwardMove(start, ys, i)
        ensures DeltaAfterMoves(start, 0.0, ys) == ys[i] - start
      {
        if i < |init| {
          assert LastDownwardMove(start, init, i);
        }
      }
    }
  }

  /** A gesture closes the player when its recorded delta is over this many pixels. */
  const CloseThreshold := 20.0

  /**
   * `displayDuration || "0:00"`: the song's own duration unless it is `0:00`, then the
   * measured one; with no song, or an empty text, `0:00`.
   */
  function ShownDuration(song: Option<Song>, measured: string): (r: string)
    ensures song.Some? && song.value.duration != "0:00" && song.value.duration != "" ==> r == song.value.duration
    ensures song.Some? && song.value.duration == "0:00" && measured != "" ==> r == measured
    ensures song.None? || song.value.duration == "" || (song.value.duration == "0:00" && measured == "") ==>
              r == "0:00"
    ensures r != ""
  {
    var displayDuration := if song.None? then None
      else if song.value.duration != "0:00" then Some(song.value.duration)
      else Some(measured);
    if displayDuration.None? || displayDuration.value == "" then "0:00" else displayDuration.value
  }

  class MiniPlayerBar {
    var progress: real
    var duration: string
    var currentTime: string
    var touchStartY: real
    var touchDeltaY: real

    /** The delta is never negative, so the bar is only ever pushed down. */
    predicate Valid()
      reads this
    {
      touchDeltaY >= 0.0
    }

    constructor ()
      ensures progress == 0.0 && duration == "0:00" && currentTime == "0:00"
      ensures touchStartY == 0.0 && touchDeltaY == 0.0 && Valid()
    {
      progress, duration, currentTime := 0.0, "0:00", "0:00";
      touchStartY, touchDeltaY := 0.0, 0.0;
    }

    /**
     * One frame of `updateProgress`. For a YouTube song with a player attached the player
     * is asked for its duration (`ytDuration`), and nothing changes unless it is positive;
     * otherwise the audio element is read when its duration is a number other than 0.
     * The texts are `formatTime` of the position and the duration.
     */
    method UpdateProgress(song: Option<Song>, b: Backends, ytDuration: real)
      requires MediaTimes(b) && Valid()
      modifies this
      ensures touchStartY == old(touchStartY) && touchDeltaY == old(touchDeltaY) && Valid()
      ensures AsksYoutube(song, b) && ytDuration > 0.0 ==>
        progress == Percent(b.youtube.value.position, ytDuration) &&
        currentTime == FormatTime(Seconds(b.youtube.value.position)) &&
        duration == FormatTime(Seconds(ytDuration))
      ensures !AsksYoutube(song, b) && HasAudioDuration(b) ==>
        progress == Percent(b.audio.value.position, b.audio.value.duration.value) &&
        currentTime == FormatTime(Seconds(b.audio.value.position)) &&
        duration == FormatTime(b.audio.value.duration)
      ensures (AsksYoutube(song, b) && ytDuration <= 0.0) || (!AsksYoutube(song, b) && !HasAudioDuration(b)) ==>
        progress == old(progress) && duration == old(duration) && currentTime == old(currentTime)
    {
      if AsksYoutube(song, b) {
        var ytCurrentTime := b.youtube.value.position;
        if ytDuration > 0.0 {
          Show(Percent(ytCurrentTime, ytDuration), ytCurrentTime, Seconds(ytDuration));
        }
      } else if HasAudioDuration(b) {
        var a := b.audio.value;
        Show(Percent(a.position, a.duration.value), a.position, a.duration);
      }
    }

    /** The three `set` calls of a frame that read a backend. */
    method Show(percent: real, position: real, total: TimeValue)
      requires position >= 0.0 && IsMediaTime(total)
      modifies this
      ensures progress == percent && currentTime == FormatTime(Seconds(position)) && duration == FormatTime(total)
      ensures touchStartY == old(touchStartY) && touchDeltaY == old(touchDeltaY)
    {
      progress := percent;
      currentTime := FormatTime(Seconds(position));
      duration := FormatTime(total);
    }

    /** The effect on a new current song: progress and the swipe delta go back to 0. */
    method ResetForSong()
      requires Valid()
      modifies this
      ensures progress == 0.0 && touchDeltaY == 0.0 && Valid()
      ensures duration == old(duration) && currentTime == old(currentTime) && touchStartY == old(touchStartY)
    {
      progress := 0.0;
      touchDeltaY := 0.0;
    }

    /** `handleProgressChange`: the slider's value is passed to `seek` and shown. */
    method ProgressChange(value: real) returns (seekTo: real)
      requires Valid()
      modifies this
      ensures seekTo == value && progress == value && Valid()
      ensures duration == old(duration) && currentTime == old(currentTime)
      ensures touchStartY == old(touchStartY) && touchDeltaY == old(touchDeltaY)
    {
      seekTo := value;
      progress := value;
    }

    /** `handleTouchStart`: the finger's height is remembered. */
    method TouchStart(clientY: real)
      requires Valid()
      modifies this
      ensures touchStartY == clientY && touchDeltaY == old(touchDeltaY) && Valid()
      ensures progress == old(progress) && duration == old(duration) && currentTime == old(currentTime)
    {
      touchStartY := clientY;
    }

    /** `handleTouchMove`: a move downwards records its distance from the start; any other keeps the delta. */
    method TouchMove(clientY: real)
      requires Valid()
      modifies this
      ensures touchDeltaY == MoveDelta(touchStartY, old(touchDeltaY), clientY) && Valid()
      ensures clientY - touchStartY > 0.0 ==> touchDeltaY == clientY - touchStartY
      ensures clientY - touchStartY <= 0.0 ==> touchDeltaY == old(touchDeltaY)
      ensures touchStartY == old(touchStartY)
      ensures progress == old(progress) && duration == old(duration) && currentTime == old(currentTime)
    {
      var deltaY := clientY - touchStartY;
      if deltaY > 0.0 {
        touchDeltaY := deltaY;
      }
    }

    /**
     * `handleTouchEnd`: a delta over the threshold closes the player; either way the
     * start and the delta go back to 0.
     */
    method TouchEnd(p: Player)
      requires Valid() && p.Valid()
      modifies this, p
      ensures old(touchDeltaY) > CloseThreshold ==> p.State() == AfterClosePlayer(old(p.State()))
      ensures old(touchDeltaY) <= CloseThreshold ==> p.State() == old(p.State())
      ensures touchStartY == 0.0 && touchDeltaY == 0.0 && Valid() && p.Valid()
      ensures progress == old(progress) && duration == old(duration) && currentTime == old(currentTime)
    {
      if touchDeltaY > CloseThreshold {
        p.ClosePlayer();
      }
      touchStartY := 0.0;
      touchDeltaY := 0.0;
    }
  }

  /** A swipe that closes the player leaves no song, nothing playing and the full-screen view closed. */
  lemma SwipeCloses(st: PlayerState)
    ensures var r := AfterClosePlayer(st);
      r.currentSong.None? && !r.isPlaying && !r.view.isFullScreenPlayerOpen
  {
  }
}
