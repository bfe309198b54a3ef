/**
 * The song list of an album or playlist page (src/components/playlist-content.tsx):
 * a click on a row either pauses and resumes the current song or plays the clicked
 * one with the whole list as the queue.
 */
module PlaylistContent {
  import opened Wrappers
  import opened Tracks
  import opened PlayerContext
  import opened PlayerProperties

  /** `song.id === currentSong?.id`. */
  predicate IsActive(song: Song, currentSong: Option<Song>) {
    currentSong.Some? && song.id == currentSong.value.id
  }

  /** `handlePlayClick`: `togglePlay()` for the current song, `playSong(song, songs)` for any other. */
  function HandlePlayClick(songs: seq<Song>, currentSong: Option<Song>, song: Song): Command {
    if IsActive(song, currentSong) then TogglePlayCommand
    else PlaySongCommand(song, Some(songs))
  }

  /** `isCurrentlyPlaying`: the row's song is current and playing. */
  predicate RowIsPlaying(song: Song, currentSong: Option<Song>, isPlaying: bool) {
    IsActive(song, currentSong) && isPlaying
  }

  /** What the first cell of a row shows: a pause icon while it plays, its 1-based position otherwise. */
  datatype RowMarker = PauseIcon | Position(n: nat)

  function RowMarkerFor(index: nat, isCurrentlyPlaying: bool): RowMarker {
    if isCurrentlyPlaying then PauseIcon else Position(index + 1)
  }

  /** The rows that show a number number them 1, 2, ... in list order: distinct and one-based. */
  lemma RowNumbers(i: nat, j: nat, pi: bool, pj: bool)
    ensures RowMarkerFor(i, pi).Position? <==> !pi
    ensures RowMarkerFor(i, pi).Position? ==> RowMarkerFor(i, pi).n == i + 1 >= 1
    ensures RowMarkerFor(i, pi).Position? && RowMarkerFor(j, pj).Position? && i != j ==>
              RowMarkerFor(i, pi) != RowMarkerFor(j, pj)
  {
  }

  /**
   * Clicking the current song's row only toggles playback: the song, the queue and
   * the history stay, and a second click undoes the first.
   */
  lemma ClickActiveRowToggles(st: PlayerState, songs: seq<Song>, index: nat, shuffled: seq<Song>)
    requires index < |songs| && IsActive(songs[index], st.currentSong)
    ensures var c := HandlePlayClick(songs, st.currentSong, songs[index]);
      var r := AfterCommand(st, c, shuffled);
      c == TogglePlayCommand &&
      r == st.(isPlaying := !st.isPlaying) &&
      AfterCommand(r, HandlePlayClick(songs, r.currentSong, songs[index]), shuffled) == st
  {
  }

  /**
   * Clicking any other row plays it with the displayed list as the queue. This holds
   * both when the list differs from the queue (it replaces it) and when it is equal
   * (nothing changes).
   */
  lemma ClickOtherRowPlaysList(st: PlayerState, songs: seq<Song>, index: nat, shuffled: seq<Song>)
    requires index < |songs| && !IsActive(songs[index], st.currentSong)
    ensures var c := HandlePlayClick(songs, st.currentSong, songs[index]);
      var r := AfterCommand(st, c, shuffled);
      c == PlaySongCommand(songs[index], Some(songs)) &&
      r.currentSong == Some(songs[index]) && r.isPlaying && r.queue.playlist == songs &&
      RowIsPlaying(songs[index], r.currentSong, r.isPlaying)
  {
    PlaySongQueue(st, songs[index], Some(songs), shuffled);
  }

  /** After any row click, playback runs exactly when that row was not the one playing. */
  lemma ClickFlipsRowPlaying(st: PlayerState, songs: seq<Song>, index: nat, shuffled: seq<Song>)
    requires index < |songs|
    ensures var r := AfterCommand(st, HandlePlayClick(songs, st.currentSong, songs[index]), shuffled);
      r.isPlaying == !RowIsPlaying(songs[index], st.currentSong, st.isPlaying)
  {
  }

  /** The rendered rows: for each song, whether it is marked as playing. */
  function PlayingRows(songs: seq<Song>, currentSong: Option<Song>, isPlaying: bool): (r: seq<bool>)
    ensures |r| == |songs|
    ensures forall i :: 0 <= i < |songs| ==> (r[i] <==> RowIsPlaying(songs[i], currentSong, isPlaying))
  {
    if songs == [] then []
    else [RowIsPlaying(songs[0], currentSong, isPlaying)] + PlayingRows(songs[1..], currentSong, isPlaying)
  }

  /**
   * While paused no row is marked; while playing, exactly the rows carrying the current
   * song's id are, and the first of them is the index `playNext` counts from.
   */
  lemma PlayingRowsMatchCurrent(songs: seq<Song>, currentSong: Option<Song>, isPlaying: bool)
    ensures var r := PlayingRows(songs, currentSong, isPlaying);
      (!isPlaying || currentSong.None? ==> forall i :: 0 <= i < |r| ==> !r[i]) &&
      (isPlaying && currentSong.Some? ==>
        var k := FindIndex(songs, currentSong.value.id);
        (k == -1 <==> forall i :: 0 <= i < |r| ==> !r[i]) &&
        (k >= 0 ==> r[k] && forall i :: 0 <= i < k ==> !r[i]))
  {
    var r := PlayingRows(songs, currentSong, isPlaying);
    if isPlaying && currentSong.Some? {
      var k := FindIndex(songs, currentSong.value.id);
      if k >= 0 {
        assert r[k];
      }
    }
  }
}
