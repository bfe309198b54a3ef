/**
 * An album or playlist card (src/components/album-artwork.tsx): its play button starts
 * the album from the first song, and a click on the card either navigates to the
 * album page or, in selection mode, reports the card as selected or deselected.
 */
module AlbumArtwork {
  import opened Wrappers
  import opened Strings
  import opened Tracks
  import opened PlayerContext
  import opened PlayerProperties

  /** The play button is disabled when the album carries no songs. */
  predicate PlayDisabled(album: Album) {
    album.songs.None? || album.songs.value == []
  }

  /** `handlePlay`: `playSong(songs[0], songs)` when there is a song, nothing otherwise. */
  function HandlePlay(album: Album): Option<Command> {
    if album.songs.Some? && |album.songs.value| > 0 then
      Some(PlaySongCommand(album.songs.value[0], album.songs))
    else None
  }

  /** The button issues a command exactly when it is enabled. */
  lemma PlayButtonEnabledIffCommand(album: Album)
    ensures HandlePlay(album).None? <==> PlayDisabled(album)
  {
  }

  /** Playing an album starts its first song with the album as the queue. */
  lemma PlayStartsFirstSong(st: PlayerState, album: Album, shuffled: seq<Song>)
    requires !PlayDisabled(album)
    ensures var c := HandlePlay(album).value;
      var songs := album.songs.value;
      var r := AfterCommand(st, c, shuffled);
      r.currentSong == Some(songs[0]) && r.isPlaying && r.queue.playlist == songs
  {
    PlaySongQueue(st, album.songs.value[0], album.songs, shuffled);
  }

  /** The album page: `/playlist/${album.id}`. */
  function Href(id: string): string {
    "/playlist/" + id
  }

  /** The link carries the album id whole, so different albums link to different pages. */
  lemma HrefRecoversId(id: string, other: string)
    ensures StartsWith(Href(id), "/playlist/") && Href(id)[|"/playlist/"|..] == id
    ensures Href(id) == Href(other) ==> id == other
  {
    assert Href(id)[..10] == "/playlist/";
    if Href(id) == Href(other) {
      assert id == Href(id)[10..] == Href(other)[10..] == other;
    }
  }

  /** What a click on the card leads to. */
  datatype CardClick =
    | Navigate(href: string)                // the card is a link
    | ReportSelection(id: string, selected: bool)  // `onSelect(album.id, !isSelected)`
    | Ignored                               // selection mode without an `onSelect`

  /**
   * `handleSelect` together with the card's wrapper: outside selection mode the card is
   * a link to the album page and `onSelect` is never called; in selection mode the
   * default action is prevented and the inverted selection is reported.
   */
  function HandleSelect(album: Album, isSelectionMode: bool, isSelected: bool, hasOnSelect: bool): (r: CardClick)
    ensures r.ReportSelection? <==> isSelectionMode && hasOnSelect
    ensures r.Navigate? <==> !isSelectionMode
  {
    if !isSelectionMode then Navigate(Href(album.id))
    else if hasOnSelect then ReportSelection(album.id, !isSelected)
    else Ignored
  }

  /** A report names this card and flips its state; a navigation goes to this card's page. */
  lemma SelectReportsThisCard(album: Album, isSelectionMode: bool, isSelected: bool, hasOnSelect: bool)
    ensures var r := HandleSelect(album, isSelectionMode, isSelected, hasOnSelect);
      (r.ReportSelection? ==> r.id == album.id && r.selected == !isSelected) &&
      (r.Navigate? ==> r.href == Href(album.id) && Href(album.id)[10..] == album.id)
  {
    HrefRecoversId(album.id, album.id);
  }
}
