/**
 * The records every part of the player passes around: a `Song` and an `Album` as
 * the shared type declarations give them (src/lib/types.ts), the media time values
 * the browser reports, and the listening-history entry text.
 */
module Tracks {
  import opened Strings
  import opened Wrappers

  /**
   * A track. `fromYouTube` is the optional `isFromYouTube` flag; an absent flag is
   * read as `false` everywhere it is tested.
   */
  datatype Song = Song(
    id: string,
    artist: string,
    title: string,
    duration: string,
    album: string,
    albumId: string,
    albumArt: string,
    audioSrc: string,
    fromYouTube: bool)

  /** An album or playlist card. `songs` is `None` when the record carries no list. */
  datatype Album = Album(
    id: string,
    name: string,
    artist: string,
    albumArt: string,
    songs: Option<seq<Song>>)

  /**
   * A time or duration in seconds as a media element reports it: `NaN` before the
   * media's metadata is known, otherwise a non-negative number of seconds.
   */
  datatype TimeValue = NaN | Seconds(value: real)

  /** An object URL made for a local file: `src.startsWith("blob:")`. */
  predicate IsBlobUrl(src: string) {
    StartsWith(src, "blob:")
  }

  /** The listening-history line for a song: `${title} - ${artist}`. */
  function HistoryEntry(song: Song): string {
    song.title + " - " + song.artist
  }
}
