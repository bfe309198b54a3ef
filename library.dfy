/**
 * The library page (src/app/library/page.tsx): importing files from the device as
 * session-only songs, and the multi-select used to delete playlists.
 */
module Library {
  import opened Wrappers
  import opened Strings
  import opened Tracks
  import opened PlayerContext

  /** A picked file: its name, its MIME type, and the object URL `URL.createObjectURL` gives it. */
  datatype LocalFile = LocalFile(name: string, mimeType: string, objectUrl: string)

  /** Only audio and video files become songs. */
  predicate IsMediaFile(f: LocalFile) {
    StartsWith(f.mimeType, "audio/") || StartsWith(f.mimeType, "video/")
  }

  /**
   * `/\.[^/.]+$/` matches at `i`: a dot, then at least one character, none of them a
   * slash or a dot, up to the end of the name.
   */
  predicate ExtensionAt(name: string, i: int) {
    0 <= i < |name| - 1 && name[i] == '.' &&
    forall k :: i < k < |name| ==> name[k] != '/' && name[k] != '.'
  }

  /** The pattern matches in at most one place. */
  lemma ExtensionUnique(name: string, i: int, j: int)
    requires ExtensionAt(name, i) && ExtensionAt(name, j)
    ensures i == j
  {
  }

  /** The match, looking from index `k` down, when nothing after `k` is a slash or a dot; -1 if none. */
  function ExtensionFrom(name: string, k: int): (r: int)
    requires -1 <= k < |name|
    requires forall j :: k < j < |name| ==> name[j] != '/' && name[j] != '.'
    ensures r == -1 || ExtensionAt(name, r)
    ensures r == -1 ==> forall i :: 0 <= i <= k ==> !ExtensionAt(name, i)
    decreases k + 1
  {
    if k < 0 then -1
    else if name[k] == '.' then (if k < |name| - 1 then k else -1)
    else if name[k] == '/' then -1
    else ExtensionFrom(name, k - 1)
  }

  /** `name.replace(/\.[^/.]+$/, "")`: the name without its last extension, if it has one. */
  function StripExtension(name: string): (r: string)
    ensures forall i :: ExtensionAt(name, i) ==> r == name[..i]
    ensures (forall i :: 0 <= i < |name| ==> !ExtensionAt(name, i)) ==> r == name
  {
    var i := ExtensionFrom(name, |name| - 1);
    if i == -1 then name else name[..i]
  }

  /** Only the final extension goes, and a name without one is kept whole. */
  lemma StripExtensionExamples()
    ensures StripExtension("a.b.mp3") == "a.b"
    ensures StripExtension("noext") == "noext"
    ensures StripExtension("track.") == "track."
  {
    assert ExtensionAt("a.b.mp3", 3);
    var n := "noext";
    forall i | 0 <= i < |n| ensures !ExtensionAt(n, i) {
      assert n[i] != '.';
    }
    var t := "track.";
    forall i | 0 <= i < |t| ensures !ExtensionAt(t, i) {
      assert i < 5 ==> t[i] != '.';
    }
  }

  /** `local-{name}-{index}`. */
  function LocalId(name: string, index: nat): string {
    "local-" + name + "-" + NatToString(index)
  }

  /** The song made from the media file at position `index` of the filtered list. */
  function ImportedSong(f: LocalFile, index: nat): Song {
    Song(LocalId(f.name, index), "Unknown Artist", StripExtension(f.name), "N/A", "Local Files", "local",
      "https://picsum.photos/seed/local-default/400/400", f.objectUrl, false)
  }

  /** `files.filter(IsMediaFile)`. */
  function MediaFiles(files: seq<LocalFile>): (r: seq<LocalFile>)
    ensures |r| <= |files|
    ensures forall f :: f in r <==> f in files && IsMediaFile(f)
    decreases |files|
  {
    if files == [] then []
    else
      var rest := MediaFiles(files[..|files| - 1]);
      var f := files[|files| - 1];
      assert forall g :: g in files <==> g in files[..|files| - 1] || g == f;
      if IsMediaFile(f) then rest + [f] else rest
  }

  /** `.map((file, index) => …)` over the media files from position `from`. */
  function SongsFrom(media: seq<LocalFile>, from: nat): (r: seq<Song>)
    ensures |r| == |media|
    decreases |media|
  {
    if media == [] then []
    else SongsFrom(media[..|media| - 1], from) + [ImportedSong(media[|media| - 1], from + |media| - 1)]
  }

  lemma {:induction false} SongsFromAt(media: seq<LocalFile>, from: nat, k: nat)
    requires k < |media|
    ensures SongsFrom(media, from)[k] == ImportedSong(media[k], from + k)
    decreases |media|
  {
    if k < |media| - 1 {
      SongsFromAt(media[..|media| - 1], from, k);
    }
  }

  /** The songs a pick of files turns into. */
  function ImportFiles(files: seq<LocalFile>): seq<Song> {
    SongsFrom(MediaFiles(files), 0)
  }

  /**
   * Every imported song is the media file at its own position after filtering: its
   * id ends in that position, its title is the name without the extension, and the
   * fixed fields are those of a local file. Its source is the file's object URL, so
   * playing it is never recorded in the history.
   */
  lemma ImportedSongFields(files: seq<LocalFile>, k: nat)
    requires k < |ImportFiles(files)|
    requires forall f :: f in files ==> IsBlobUrl(f.objectUrl)
    ensures var media := MediaFiles(files);
      var s := ImportFiles(files)[k];
      IsMediaFile(media[k]) && media[k] in files &&
      s.id == LocalId(media[k].name, k) && s.title == StripExtension(media[k].name) &&
      s.artist == "Unknown Artist" && s.album == "Local Files" && s.albumId == "local" &&
      s.duration == "N/A" && s.audioSrc == media[k].objectUrl && !s.fromYouTube &&
      !RecordsHistory(s)
  {
    var media := MediaFiles(files);
    assert media[k] in media;
    SongsFromAt(media, 0, k);
  }

  /** The index can be read back from an id: nothing in a number is a dash. */
  lemma {:induction false} LocalIdIndex(name1: string, i1: nat, name2: string, i2: nat)
    requires LocalId(name1, i1) == LocalId(name2, i2)
    ensures i1 == i2 && name1 == name2
  {
    var d1, d2 := NatToString(i1), NatToString(i2);
    var s := LocalId(name1, i1);
    NoDashInNumber(i1);
    NoDashInNumber(i2);
    var p1, p2 := 6 + |name1|, 6 + |name2|;
    assert s[p1] == '-' && s[p2] == '-';
    assert d1 == s[p1 + 1..] == d2;
    NatToStringInjective(i1, i2);
    assert name1 == s[6..p1] == name2;
  }

  lemma {:induction false} NoDashInNumber(n: nat)
    ensures forall k :: 0 <= k < |NatToString(n)| ==> NatToString(n)[k] != '-'
    decreases n
  {
    if n >= 10 {
      NoDashInNumber(n / 10);
    }
  }

  lemma ImportedId(files: seq<LocalFile>, k: nat)
    requires k < |ImportFiles(files)|
    ensures k < |MediaFiles(files)| && ImportFiles(files)[k].id == LocalId(MediaFiles(files)[k].name, k)
  {
    SongsFromAt(MediaFiles(files), 0, k);
  }

  /** Within one pick the ids are distinct, whatever the file names. */
  lemma ImportedIdsDistinct(files: seq<LocalFile>, j: nat, k: nat)
    requires j < k < |ImportFiles(files)|
    ensures ImportFiles(files)[j].id != ImportFiles(files)[k].id
  {
    var media := MediaFiles(files);
    ImportedId(files, j);
    ImportedId(files, k);
    if LocalId(media[j].name, j) == LocalId(media[k].name, k) {
      LocalIdIndex(media[j].name, j, media[k].name, k);
    }
  }

  /**
   * A pick of one media file gives one song with position 0. Positions restart on every
   * pick, so picking the same file twice appends the same song, id and all, twice.
   */
  lemma SinglePick(f: LocalFile)
    requires IsMediaFile(f)
    ensures ImportFiles([f]) == [ImportedSong(f, 0)]
    ensures ImportFiles([f])[0].id == LocalId(f.name, 0)
  {
    assert [f][..0] == [];
  }

  /** The local files tab: `localSongs`, the songs imported this session. */
  class LocalFilesTab {
    var localSongs: seq<Song>

    constructor ()
      ensures localSongs == []
    {
      localSongs := [];
    }

    /**
     * `handleFileSelect`: no file list does nothing; otherwise the imported songs are
     * appended after the earlier ones. Returns the count the toast reports.
     */
    method HandleFileSelect(files: Option<seq<LocalFile>>) returns (added: nat)
      modifies this
      ensures files.None? ==> localSongs == old(localSongs) && added == 0
      ensures files.Some? ==> (localSongs == old(localSongs) + ImportFiles(files.value) &&
        added == |ImportFiles(files.value)|)
      ensures |old(localSongs)| <= |localSongs| && localSongs[..|old(localSongs)|] == old(localSongs)
    {
      if files.None? {
        return 0;
      }
      var newSongs := ImportFiles(files.value);
      localSongs := localSongs + newSongs;
      added := |newSongs|;
    }
  }

  /** The page's selection: whether selection mode is on, and the ids picked so far. */
  class LibraryPage {
    var isSelectionMode: bool
    var selectedPlaylists: seq<string>

    /** A selection exists only in selection mode. */
    predicate Valid()
      reads this
    {
      !isSelectionMode ==> selectedPlaylists == []
    }

    constructor ()
      ensures !isSelectionMode && selectedPlaylists == [] && Valid()
    {
      isSelectionMode, selectedPlaylists := false, [];
    }

    /** `handleToggleSelectionMode`: the mode flips and the selection is cleared either way. */
    method ToggleSelectionMode()
      requires Valid()
      modifies this
      ensures isSelectionMode == !old(isSelectionMode) && selectedPlaylists == [] && Valid()
    {
      isSelectionMode := !isSelectionMode;
      selectedPlaylists := [];
    }

    /** `handlePlaylistSelect`: selecting appends the id; deselecting removes every copy of it. */
    method PlaylistSelect(playlistId: string, isSelected: bool)
      requires Valid() && isSelectionMode
      modifies this
      ensures isSelected ==> selectedPlaylists == old(selectedPlaylists) + [playlistId]
      ensures !isSelected ==> selectedPlaylists == Without(old(selectedPlaylists), playlistId)
      ensures isSelectionMode && Valid()
    {
      if isSelected {
        selectedPlaylists := selectedPlaylists + [playlistId];
      } else {
        selectedPlaylists := Without(selectedPlaylists, playlistId);
      }
    }

    /**
     * `handleDeleteSelected`: with nothing selected it only warns (`None`); otherwise the
     * selected ids are passed to `deletePlaylists`, selection mode ends and the selection
     * is cleared.
     */
    method DeleteSelected() returns (deleted: Option<seq<string>>)
      requires Valid()
      modifies this
      ensures old(selectedPlaylists) == [] ==> (deleted.None? &&
        selectedPlaylists == old(selectedPlaylists) && isSelectionMode == old(isSelectionMode))
      ensures old(selectedPlaylists) != [] ==> (deleted == Some(old(selectedPlaylists)) &&
        selectedPlaylists == [] && !isSelectionMode)
      ensures Valid()
    {
      if selectedPlaylists == [] {
        return None;
      }
      deleted := Some(selectedPlaylists);
      isSelectionMode := false;
      selectedPlaylists := [];
    }
  }

  /**
   * Selecting and then deselecting an id leaves a selection without it, and the other
   * ids keep their places.
   */
  lemma SelectThenDeselect(sel: seq<string>, id: string)
    ensures Without(sel + [id], id) == Without(sel, id)
    ensures forall x :: x in Without(sel + [id], id) <==> x in sel && x != id
  {
    assert (sel + [id])[..|sel + [id]| - 1] == sel;
    WithoutSpec(sel, id);
  }
}
