/**
 * The full-screen player sheet (src/components/full-screen-player.tsx): a progress
 * slider that follows and seeks the audio element, and the time and duration readouts.
 */
module FullScreenPlayer {
  import opened Wrappers
  import opened Clock
  import opened Tracks
  import opened PlayerContext
  import opened TimeDisplay

  /** The duration a song carries when it has none of its own, as local files do. */
  const UnknownDuration := "N/A"

  /**
   * `displayDuration`: the measured duration for a song whose own is `N/A`, the song's
   * own otherwise, and `undefined` (`None`) with no song.
   */
  function DisplayDuration(song: Option<Song>, measured: string): (r: Option<string>)
    ensures r.None? <==> song.None?
    ensures song.Some? && song.value.duration == UnknownDuration ==> r == Some(measured)
    ensures song.Some? && song.value.duration != UnknownDuration ==> r == Some(song.value.duration)
  {
    if song.None? then None
    else if song.value.duration == UnknownDuration then Some(measured)
    else Some(song.value.duration)
  }

  /** `displayDuration || "0:00"`, the text under the slider. */
  function ShownDuration(song: Option<Song>, measured: string): (r: string)
    ensures r != ""
    ensures DisplayDuration(song, measured).Some? && DisplayDuration(song, measured).value != "" ==>
      r == DisplayDuration(song, measured).value
    ensures DisplayDuration(song, measured).None? || DisplayDuration(song, measured).value == "" ==> r == "0:00"
  {
    var d := DisplayDuration(song, measured);
    if d.None? || d.value == "" then "0:00" else d.value
  }

  /**
   * A song whose duration is `N/A` shows the measured one, which once the audio element
   * has reported a number is that number of seconds in `m:ss`.
   */
  lemma UnknownDurationShowsMeasured(song: Song, audioDuration: real)
    requires song.duration == UnknownDuration && audioDuration >= 0.0
    ensures var shown := ShownDuration(Some(song), FormatTime(Seconds(audioDuration)));
      ParseClock(shown) == Some(audioDuration.Floor as nat)
  {
  }

  class FullScreenView {
    var progress: real
    var duration: string
    var currentTime: string

    constructor ()
      ensures progress == 0.0 && duration == "0:00" && currentTime == "0:00"
    {
      progress, duration, currentTime := 0.0, "0:00", "0:00";
    }

    /**
     * `onTimeUpdate`, on the element's `timeupdate`: the position as `m:ss`, and the
     * position as a percentage of a known, non-zero duration.
     */
    method OnTimeUpdate(p: Player)
      requires p.audio.None? || p.audio.value.position >= 0.0
      modifies this
      ensures p.audio.Some? ==> currentTime == FormatTime(Seconds(p.audio.value.position))
      ensures p.audio.Some? && p.audio.value.duration.Seconds? && p.audio.value.duration.value != 0.0 ==>
        progress == Percent(p.audio.value.position, p.audio.value.duration.value)
      ensures p.audio.None? || p.audio.value.duration.NaN? || p.audio.value.duration.value == 0.0 ==>
        progress == old(progress)
      ensures p.audio.None? ==> currentTime == old(currentTime)
      ensures duration == old(duration)
    {
      if p.audio.Some? {
        var a := p.audio.value;
        if a.duration.Seconds? && a.duration.value != 0.0 {
          progress := Percent(a.position, a.duration.value);
        }
        currentTime := FormatTime(Seconds(a.position));
      }
    }

    /** The effect on a new current song: progress goes back to 0. */
    method ResetForSong()
      modifies this
      ensures progress == 0.0 && duration == old(duration) && currentTime == old(currentTime)
    {
      progress := 0.0;
    }

    /** `onLoadedData`, on `loadedmetadata` and `durationchange`: the element's duration as `m:ss`. */
    method OnLoadedData(p: Player)
      requires p.audio.None? || IsMediaTime(p.audio.value.duration)
      modifies this
      ensures p.audio.Some? ==> duration == FormatTime(p.audio.value.duration)
      ensures p.audio.None? ==> duration == old(duration)
      ensures progress == old(progress) && currentTime == old(currentTime)
    {
      if p.audio.Some? {
        duration := FormatTime(p.audio.value.duration);
      }
    }

    /**
     * `handleProgressChange`: the slider's percentage `value` moves the audio element to
     * that fraction of its duration and is shown. Without an element nothing happens.
     * While the duration is `NaN` the new time is `NaN`, which the element refuses with a
     * `TypeError` before the progress is set, so nothing changes either.
     */
    method HandleProgressChange(p: Player, value: real)
      requires p.Valid()
      modifies this, p
      ensures old(p.audio).Some? && old(p.audio).value.duration.Seconds? ==>
        p.State() == old(p.State()).(backends := old(p.State()).backends.(audio :=
          Some(old(p.audio).value.(position := value / 100.0 * old(p.audio).value.duration.value))))
      ensures old(p.audio).Some? && old(p.audio).value.duration.Seconds? ==> progress == value
      ensures old(p.audio).None? || old(p.audio).value.duration.NaN? ==>
        p.State() == old(p.State()) && progress == old(progress)
      ensures duration == old(duration) && currentTime == old(currentTime) && p.Valid()
    {
      if p.audio.Some? {
        var d := p.audio.value.duration;
        if d.Seconds? {
          var newTime := value / 100.0 * d.value;
          progress := value;
          p.SetAudioPosition(newTime);
          assert newTime == value / 100.0 * old(p.audio).value.duration.value;
          assert p.State() == old(p.State()).(backends := old(p.State()).backends.(audio :=
            Some(old(p.audio).value.(position := value / 100.0 * old(p.audio).value.duration.value))));
        }
      }
    }
  }
}
