/**
 * The playback state machine of the player provider (src/context/player-context.tsx).
 *
 * `Player` holds one field per state variable of the provider, plus the two playback
 * backends: the HTML audio element and the embedded YouTube player, each reduced to
 * the few properties the provider reads and writes. `revoked` lists, in order, the
 * object URLs handed to `URL.revokeObjectURL`.
 *
 * React's `setState` is batched: every command reads the state it was created with
 * and the new values appear together afterwards. Each command is therefore a method
 * whose new state is a pure step function of the old one (`AfterPlaySong`,
 * `AfterPlayNext`, ...); the properties of the commands are lemmas about those
 * functions. Effects are the methods `SyncBackends`, `SyncLoopFlag` and
 * `ApplyQuality`, which the runtime calls after a render in which their
 * dependencies changed.
 *
 * The snapshot `PlayerState` groups the fields as the commands use them: the queue
 * and its modes, the view flags with the lyrics, and the backends.
 */
module PlayerContext {
  import opened Wrappers
  import opened Strings
  import opened Tracks

  datatype LoopMode = NoLoop | LoopPlaylist | LoopSong

  /** One caption line; `start` is the `parseFloat` of its start text. */
  datatype LyricLine = LyricLine(start: TimeValue, dur: string, text: string)

  /** The audio element: its `src`, whether it is playing, `currentTime`, `loop` and `duration`. */
  datatype AudioElement = AudioElement(
    src: string, playing: bool, position: real, loop: bool, duration: TimeValue)

  datatype YoutubeState = Unstarted | Playing | Paused | Stopped

  /** The YouTube player: its state after the last command, its position and its quality. */
  datatype YoutubePlayer = YoutubePlayer(state: YoutubeState, position: real, quality: string)

  /** The queue in natural and in shuffled order, and the two modes that walk it. */
  datatype Queue = Queue(playlist: seq<Song>, shuffledPlaylist: seq<Song>, shuffle: bool, loop: LoopMode)

  /** Which sheets are open, which view the full-screen player shows, and the lyrics. */
  datatype View = View(isFullScreenPlayerOpen: bool, isQueueOpen: bool, showVideo: bool,
                       lyrics: seq<LyricLine>, isLyricsLoading: bool)

  /** The two backends (`null` is `None`) and the URLs revoked so far. */
  datatype Backends = Backends(audio: Option<AudioElement>, youtube: Option<YoutubePlayer>,
                               revoked: seq<string>)

  datatype PlayerState = PlayerState(
    currentSong: Option<Song>,
    isPlaying: bool,
    queue: Queue,
    listeningHistory: seq<string>,
    view: View,
    backends: Backends)

  /** The listening history keeps at most this many entries. */
  const HistoryLimit := 20

  /** The state once the provider has mounted: a fresh, empty audio element and no YouTube player yet. */
  function InitialState(): PlayerState {
    PlayerState(None, false, Queue([], [], false, NoLoop), [], View(false, false, false, [], false),
      Backends(Some(AudioElement("", false, 0.0, false, NaN)), None, []))
  }

  // ---------------------------------------------------------------- history

  predicate NoDups(s: seq<string>) {
    forall i, j :: 0 <= i < j < |s| ==> s[i] != s[j]
  }

  /** `[...new Set(s)]`: the first occurrence of every element, in order. */
  function Distinct(s: seq<string>): seq<string>
    decreases |s|
  {
    if s == [] then []
    else
      var d := Distinct(s[..|s| - 1]);
      var x := s[|s| - 1];
      if x in d then d else d + [x]
  }

  /** `Distinct` keeps every element once and adds none. */
  lemma {:induction false} DistinctSpec(s: seq<string>)
    ensures NoDups(Distinct(s))
    ensures forall x :: x in Distinct(s) <==> x in s
    decreases |s|
  {
    if s != [] {
      DistinctSpec(s[..|s| - 1]);
      assert s == s[..|s| - 1] + [s[|s| - 1]];
    }
  }

  /** The elements of `s` other than `e`, in order. */
  function Without(s: seq<string>, e: string): seq<string>
    decreases |s|
  {
    if s == [] then []
    else
      var x := s[|s| - 1];
      Without(s[..|s| - 1], e) + (if x == e then [] else [x])
  }

  lemma {:induction false} WithoutSpec(s: seq<string>, e: string)
    ensures forall x :: x in Without(s, e) <==> x in s && x != e
    decreases |s|
  {
    if s != [] {
      WithoutSpec(s[..|s| - 1], e);
      assert s == s[..|s| - 1] + [s[|s| - 1]];
    }
  }

  /** `s.slice(0, n)`. */
  function Take<T>(s: seq<T>, n: nat): (r: seq<T>)
    ensures |r| <= n && |r| <= |s|
    ensures r == s[..|r|]
    ensures |s| <= n ==> r == s
  {
    if |s| <= n then s else s[..n]
  }

  /** Playing a song is recorded in the history when its source is set and is not a local file. */
  predicate RecordsHistory(song: Song) {
    song.audioSrc != "" && !IsBlobUrl(song.audioSrc)
  }

  /** `[...new Set([entry, ...prev])].slice(0, 20)`. */
  function PushHistory(prev: seq<string>, entry: string): seq<string> {
    Take(Distinct([entry] + prev), HistoryLimit)
  }

  /** The history after `playSong(song)`. */
  function HistoryAfter(prev: seq<string>, song: Song): seq<string> {
    if RecordsHistory(song) then PushHistory(prev, HistoryEntry(song)) else prev
  }

  /** Putting a new element in front of a list without duplicates: it stays first and leaves the list otherwise. */
  lemma {:induction false} DistinctCons(e: string, h: seq<string>)
    requires NoDups(h)
    ensures Distinct([e] + h) == [e] + Without(h, e)
    decreases |h|
  {
    if h == [] {
      assert [e] + h == [e];
      assert [e][..0] == [];
    } else {
      var front := h[..|h| - 1];
      var x := h[|h| - 1];
      assert NoDups(front);
      DistinctCons(e, front);
      var s := [e] + h;
      assert s[..|s| - 1] == [e] + front;
      var d := [e] + Without(front, e);
      assert Distinct(s) == if x in d then d else d + [x];
      if x != e {
        XNotInFront(h);
        WithoutSpec(front, e);
        assert x !in d;
      }
    }
  }

  /** The last element of a list without duplicates is not among the ones before it. */
  lemma XNotInFront(h: seq<string>)
    requires NoDups(h) && h != []
    ensures h[|h| - 1] !in h[..|h| - 1]
  {
    var front := h[..|h| - 1];
    forall k | 0 <= k < |front| ensures front[k] != h[|h| - 1] {
      assert front[k] == h[k];
    }
  }

  lemma TakeNoDups(s: seq<string>, n: nat)
    requires NoDups(s)
    ensures NoDups(Take(s, n))
  {
  }

  /**
   * After `playSong(song)` the history has at most 20 entries and no duplicates. When
   * the song is recorded, the history is its entry followed by the old history with
   * that entry removed, cut to 20; otherwise it is unchanged.
   */
  lemma HistoryAfterPlay(prev: seq<string>, song: Song)
    requires |prev| <= HistoryLimit && NoDups(prev)
    ensures var h := HistoryAfter(prev, song);
      |h| <= HistoryLimit && NoDups(h) &&
      (RecordsHistory(song) ==>
        h == Take([HistoryEntry(song)] + Without(prev, HistoryEntry(song)), HistoryLimit) &&
        h[0] == HistoryEntry(song)) &&
      (!RecordsHistory(song) ==> h == prev)
  {
    if RecordsHistory(song) {
      var e := HistoryEntry(song);
      DistinctCons(e, prev);
      DistinctSpec([e] + prev);
      TakeNoDups(Distinct([e] + prev), HistoryLimit);
      assert Take([e] + Without(prev, e), HistoryLimit)[0] == e;
    }
  }

  // ---------------------------------------------------------------- queue

  /** `list.findIndex(s => s.id === id)`. */
  function FindIndex(list: seq<Song>, id: string): (r: int)
    ensures -1 <= r < |list|
    ensures r == -1 <==> forall k :: 0 <= k < |list| ==> list[k].id != id
    ensures r >= 0 ==> list[r].id == id && forall k :: 0 <= k < r ==> list[k].id != id
  {
    if list == [] then -1
    else if list[0].id == id then 0
    else
      var r := FindIndex(list[1..], id);
      if r == -1 then -1 else r + 1
  }

  /** The list `playNext` and `playPrev` walk: the shuffled one while shuffle is on. */
  function ActiveList(q: Queue): seq<Song> {
    if q.shuffle then q.shuffledPlaylist else q.playlist
  }

  /**
   * The queue after `playSong(song, newPlaylist)`: a non-empty list that differs from
   * the current queue replaces it (and its shuffled copy only while shuffle is on); an
   * equal list changes nothing; an absent or empty list makes the queue `[song]`.
   * `shuffled` is the order `Math.random` produced for `newPlaylist`.
   */
  function QueueAfterPlay(q: Queue, song: Song, newPlaylist: Option<seq<Song>>,
                          shuffled: seq<Song>): Queue
  {
    if newPlaylist.Some? && newPlaylist.value != [] then
      if newPlaylist.value != q.playlist then
        q.(playlist := newPlaylist.value,
           shuffledPlaylist := if q.shuffle then shuffled else q.shuffledPlaylist)
      else q
    else q.(playlist := [song], shuffledPlaylist := [song])
  }

  // ---------------------------------------------------------------- backends

  function PauseAudio(a: Option<AudioElement>): Option<AudioElement> {
    if a.Some? then Some(a.value.(playing := false)) else None
  }

  function SetYoutube(y: Option<YoutubePlayer>, state: YoutubeState): Option<YoutubePlayer> {
    if y.Some? then Some(y.value.(state := state)) else None
  }

  /** Whether the current song plays through the YouTube player. */
  predicate OnYoutube(song: Option<Song>, b: Backends) {
    song.Some? && song.value.fromYouTube && b.youtube.Some?
  }

  /** `youtubePlayer.stopVideo()` for a YouTube song, otherwise `audioElement.pause()`. */
  function StopForSwitch(song: Option<Song>, b: Backends): Backends {
    if OnYoutube(song, b) then b.(youtube := SetYoutube(b.youtube, Stopped))
    else b.(audio := PauseAudio(b.audio))
  }

  /** `seekTo(0)` and `playVideo()` on the YouTube player, or the same on the audio element. */
  function Restart(song: Option<Song>, b: Backends): Backends {
    if OnYoutube(song, b) then b.(youtube := Some(b.youtube.value.(position := 0.0, state := Playing)))
    else if b.audio.Some? then b.(audio := Some(b.audio.value.(position := 0.0, playing := true)))
    else b
  }

  /** What `closePlayer` does to the backends: both silenced, a local file's URL revoked. */
  function Closed(song: Option<Song>, b: Backends): Backends {
    var revoke := song.Some? && IsBlobUrl(song.value.audioSrc);
    Backends(PauseAudio(b.audio), SetYoutube(b.youtube, Stopped),
      if revoke then b.revoked + [song.value.audioSrc] else b.revoked)
  }

  /** `audio.src = src`: the element loads the new source from its start, its duration not yet known. */
  function Reloaded(a: AudioElement, src: string): AudioElement {
    a.(src := src, position := 0.0, duration := NaN)
  }

  /**
   * The routing effect: a YouTube song plays on the YouTube player with the audio
   * element paused; any other song plays on the audio element with the YouTube
   * player stopped, reassigning `src` only when it differs and revoking an old local
   * URL first; with no song, the audio element is paused and emptied. Assigning `src`
   * reloads the element: its position goes back to 0 and its duration is `NaN` until
   * the new media's metadata arrives.
   */
  function Routed(song: Option<Song>, isPlaying: bool, b: Backends): Backends {
    if song.Some? && song.value.fromYouTube then
      b.(audio := PauseAudio(b.audio),
         youtube := SetYoutube(b.youtube, if isPlaying then Playing else Paused))
    else if b.audio.Some? && song.Some? then
      var a := b.audio.value;
      var src := song.value.audioSrc;
      var loaded := if a.src != src then Reloaded(a, src) else a;
      Backends(Some(loaded.(playing := isPlaying)), SetYoutube(b.youtube, Stopped),
        if a.src != src && IsBlobUrl(a.src) then b.revoked + [a.src] else b.revoked)
    else if b.audio.Some? then
      b.(audio := Some(Reloaded(b.audio.value, "").(playing := false)),
         youtube := SetYoutube(b.youtube, Stopped))
    else b.(youtube := SetYoutube(b.youtube, Stopped))
  }

  // ---------------------------------------------------------------- commands

  /** The first step of `playSong`: the replaced song's backend is stopped. */
  function Silenced(st: PlayerState): PlayerState {
    st.(backends := StopForSwitch(st.currentSong, st.backends))
  }

  /** `setCurrentSong(song); setIsPlaying(true)`. */
  function Started(st: PlayerState, song: Song): PlayerState {
    st.(currentSong := Some(song), isPlaying := true)
  }

  function WithQueue(st: PlayerState, song: Song, newPlaylist: Option<seq<Song>>,
                     shuffled: seq<Song>): PlayerState
  {
    st.(queue := QueueAfterPlay(st.queue, song, newPlaylist, shuffled))
  }

  function WithHistory(st: PlayerState, song: Song): PlayerState {
    st.(listeningHistory := HistoryAfter(st.listeningHistory, song))
  }

  /**
   * `playSong(song, newPlaylist)`: stops whatever is sounding, makes `song` current and
   * playing, applies the queue rules and records the song in the history, in that order.
   */
  function AfterPlaySong(st: PlayerState, song: Song, newPlaylist: Option<seq<Song>>,
                         shuffled: seq<Song>): PlayerState
  {
    WithHistory(WithQueue(Started(Silenced(st), song), song, newPlaylist, shuffled), song)
  }

  /** `playNext()`. The current queue is passed back, so it is never replaced. */
  function AfterPlayNext(st: PlayerState): PlayerState {
    var active := ActiveList(st.queue);
    if st.currentSong.None? || active == [] then st
    else if st.queue.loop == LoopSong then st.(backends := Restart(st.currentSong, st.backends))
    else
      var i := FindIndex(active, st.currentSong.value.id);
      if i == -1 then st
      else if i + 1 < |active| then
        AfterPlaySong(st, active[i + 1], Some(st.queue.playlist), st.queue.playlist)
      else if st.queue.loop == LoopPlaylist then
        AfterPlaySong(st, active[0], Some(st.queue.playlist), st.queue.playlist)
      else st.(isPlaying := false)
  }

  /** The index `playPrev` moves to: `(i - 1 + n) % n`, both operands non-negative. */
  function PrevIndex(i: nat, n: nat): (r: nat)
    requires i < n
    ensures r < n
    ensures r == if i == 0 then n - 1 else i - 1
  {
    (i - 1 + n) % n
  }

  /** `playPrev()`: the previous song of the active list, wrapping at the start in every loop mode. */
  function AfterPlayPrev(st: PlayerState): PlayerState {
    var active := ActiveList(st.queue);
    if st.currentSong.None? || active == [] then st
    else
      var i := FindIndex(active, st.currentSong.value.id);
      if i == -1 then st
      else AfterPlaySong(st, active[PrevIndex(i, |active|)], Some(st.queue.playlist), st.queue.playlist)
  }

  function AfterTogglePlay(st: PlayerState): PlayerState {
    if st.currentSong.Some? then st.(isPlaying := !st.isPlaying) else st
  }

  /** `closePlayer()`: both backends silenced, a local file's URL revoked, nothing current. */
  function AfterClosePlayer(st: PlayerState): PlayerState {
    st.(currentSong := None, isPlaying := false,
        view := st.view.(isFullScreenPlayerOpen := false),
        backends := Closed(st.currentSong, st.backends))
  }

  /** `toggleFullScreenPlayer()`: opening the view also switches back to the artwork. */
  function AfterToggleFullScreen(st: PlayerState): PlayerState {
    if st.currentSong.None? then st
    else
      var v := st.view;
      st.(view := v.(isFullScreenPlayerOpen := !v.isFullScreenPlayerOpen,
                     showVideo := if !v.isFullScreenPlayerOpen then false else v.showVideo))
  }

  /** The updater `toggleLoop` passes to `setLoop`. */
  function NextLoopMode(m: LoopMode): LoopMode {
    match m
    case NoLoop => LoopPlaylist
    case LoopPlaylist => LoopSong
    case LoopSong => NoLoop
  }

  /** `onStateChange` of the YouTube player: state 0 (ended) plays the next song. */
  function AfterYoutubeStateChange(st: PlayerState, data: int): PlayerState {
    if data == 0 then AfterPlayNext(st) else st
  }

  /** A call a component makes on the context. */
  datatype Command =
    | PlaySongCommand(song: Song, list: Option<seq<Song>>)
    | TogglePlayCommand
    | ClosePlayerCommand
    | PlayNextCommand
    | PlayPrevCommand

  /** `shuffled` is a possible `Math.random` order of the list a `playSong` call passes. */
  predicate ShuffleFits(c: Command, shuffled: seq<Song>) {
    c.PlaySongCommand? && c.list.Some? ==> multiset(shuffled) == multiset(c.list.value)
  }

  function AfterCommand(st: PlayerState, c: Command, shuffled: seq<Song>): PlayerState {
    match c
    case PlaySongCommand(song, list) => AfterPlaySong(st, song, list, shuffled)
    case TogglePlayCommand => AfterTogglePlay(st)
    case ClosePlayerCommand => AfterClosePlayer(st)
    case PlayNextCommand => AfterPlayNext(st)
    case PlayPrevCommand => AfterPlayPrev(st)
  }

  // ---------------------------------------------------------------- effects

  function AfterRouting(st: PlayerState): PlayerState {
    st.(backends := Routed(st.currentSong, st.isPlaying, st.backends))
  }

  /** The loop effect: the audio element loops by itself exactly while `loop === 'song'`. */
  function AfterLoopFlag(st: PlayerState): PlayerState {
    var b := st.backends;
    if b.audio.Some? then st.(backends := b.(audio := Some(b.audio.value.(loop := st.queue.loop == LoopSong))))
    else st
  }

  // ---------------------------------------------------------------- playback quality

  datatype Connection = Wifi | Cellular | UnknownConnection

  function ConnectionKey(c: Connection): string {
    match c
    case Wifi => "wifi"
    case Cellular => "cellular"
    case UnknownConnection => "unknown"
  }

  /** The stored quality settings: one record per media kind, keyed by connection type. */
  datatype PlaybackQuality = PlaybackQuality(audio: map<string, string>, video: map<string, string>)

  /** The settings used when the user document stores none. */
  const DefaultPlaybackQuality := PlaybackQuality(
    map["wifi" := "automatic", "cellular" := "standard"],
    map["wifi" := "standard", "cellular" := "standard"])

  /** `playbackQualitySettings[video or audio][connectionType]`; `None` is `undefined`. */
  function QualitySetting(stored: Option<PlaybackQuality>, showVideo: bool, conn: Connection)
    : Option<string>
  {
    var q := stored.GetOr(DefaultPlaybackQuality);
    var group := if showVideo then q.video else q.audio;
    var k := ConnectionKey(conn);
    if k in group then Some(group[k]) else None
  }

  /** The `switch` from a quality setting to a YouTube quality level. */
  function YoutubeQuality(setting: Option<string>): (r: string)
    ensures r in ["highres", "hd1080", "hd720", "large", "default"]
  {
    match setting
    case Some("very-high") => "highres"
    case Some("high") => "hd1080"
    case Some("standard") => "hd720"
    case Some("low") => "large"
    case _ => "default"
  }

  /** The quality effect: sets the YouTube player's quality from the settings in force. */
  function AfterQualityEffect(st: PlayerState, stored: Option<PlaybackQuality>, conn: Connection)
    : PlayerState
  {
    var b := st.backends;
    if b.youtube.Some? then
      st.(backends := b.(youtube := Some(b.youtube.value.(
        quality := YoutubeQuality(QualitySetting(stored, st.view.showVideo, conn))))))
    else st
  }

  // ---------------------------------------------------------------- invariant

  /**
   * What every command keeps: the history is capped and free of duplicates, only a
   * loaded song can be playing, and a shuffled queue exists only beside a queue.
   */
  predicate Consistent(st: PlayerState) {
    |st.listeningHistory| <= HistoryLimit && NoDups(st.listeningHistory) &&
    (st.isPlaying ==> st.currentSong.Some?) &&
    (st.queue.playlist == [] ==> st.queue.shuffledPlaylist == [])
  }

  lemma PlaySongKeepsConsistent(st: PlayerState, song: Song, newPlaylist: Option<seq<Song>>,
                                shuffled: seq<Song>)
    requires Consistent(st)
    ensures Consistent(AfterPlaySong(st, song, newPlaylist, shuffled))
  {
    HistoryAfterPlay(st.listeningHistory, song);
  }

  // ---------------------------------------------------------------- the provider

  class Player {
    var currentSong: Option<Song>
    var isPlaying: bool
    var playlist: seq<Song>
    var shuffledPlaylist: seq<Song>
    var shuffle: bool
    var loop: LoopMode
    var listeningHistory: seq<string>
    var isFullScreenPlayerOpen: bool
    var isQueueOpen: bool
    var showVideo: bool
    var lyrics: seq<LyricLine>
    var isLyricsLoading: bool
    var audio: Option<AudioElement>
    var youtube: Option<YoutubePlayer>
    var revoked: seq<string>

    function State(): PlayerState
      reads this
    {
      PlayerState(currentSong, isPlaying, Queue(playlist, shuffledPlaylist, shuffle, loop),
        listeningHistory, View(isFullScreenPlayerOpen, isQueueOpen, showVideo, lyrics, isLyricsLoading),
        Backends(audio, youtube, revoked))
    }

    predicate Valid()
      reads this
    {
      Consistent(State())
    }

    /** The provider after mounting, with its audio element created. */
    constructor ()
      ensures State() == InitialState() && Valid()
    {
      currentSong, isPlaying, playlist, shuffledPlaylist := None, false, [], [];
      shuffle, loop, listeningHistory := false, NoLoop, [];
      isFullScreenPlayerOpen, isQueueOpen, showVideo := false, false, false;
      lyrics, isLyricsLoading := [], false;
      audio := Some(AudioElement("", false, 0.0, false, NaN));
      youtube, revoked := None, [];
    }

    /** `playSong(song, newPlaylist)`; `shuffled` is the random order of `newPlaylist`. */
    method PlaySong(song: Song, newPlaylist: Option<seq<Song>>, shuffled: seq<Song>)
      requires Valid()
      requires newPlaylist.Some? ==> multiset(shuffled) == multiset(newPlaylist.value)
      modifies this
      ensures State() == AfterPlaySong(old(State()), song, newPlaylist, shuffled)
      ensures Valid()
    {
      ghost var st := State();
      StopCurrentBackend();
      Start(song);
      ApplyQueue(song, newPlaylist, shuffled);
      RecordHistory(song);
      PlaySongKeepsConsistent(st, song, newPlaylist, shuffled);
    }

    /** `youtubePlayer.stopVideo()` for a YouTube song, `audioElement.pause()` otherwise. */
    method StopCurrentBackend()
      modifies this
      ensures State() == Silenced(old(State()))
    {
      if currentSong.Some? && currentSong.value.fromYouTube && youtube.Some? {
        SetYoutubeState(Stopped);
      } else {
        PauseAudioElement();
      }
    }

    /** `audioElement.pause()` when there is an audio element. */
    method PauseAudioElement()
      modifies this
      ensures State() == old(State()).(backends := old(State()).backends.(audio := PauseAudio(old(audio))))
    {
      if audio.Some? {
        audio := Some(audio.value.(playing := false));
      }
    }

    /** `playVideo()`, `pauseVideo()` or `stopVideo()` when there is a YouTube player. */
    method SetYoutubeState(state: YoutubeState)
      modifies this
      ensures State() == old(State()).(backends := old(State()).backends.(youtube := SetYoutube(old(youtube), state)))
    {
      if youtube.Some? {
        youtube := Some(youtube.value.(state := state));
      }
    }

    method Start(song: Song)
      modifies this
      ensures State() == Started(old(State()), song)
    {
      currentSong, isPlaying := Some(song), true;
    }

    /** The queue rules of `playSong`. */
    method ApplyQueue(song: Song, newPlaylist: Option<seq<Song>>, shuffled: seq<Song>)
      modifies this
      ensures State() == WithQueue(old(State()), song, newPlaylist, shuffled)
    {
      if newPlaylist.Some? && newPlaylist.value != [] {
        if newPlaylist.value != playlist {
          playlist := newPlaylist.value;
          if shuffle {
            shuffledPlaylist := shuffled;
          }
        }
      } else {
        playlist, shuffledPlaylist := [song], [song];
      }
    }

    /** The history update of `playSong`. */
    method RecordHistory(song: Song)
      modifies this
      ensures State() == WithHistory(old(State()), song)
    {
      listeningHistory := HistoryAfter(listeningHistory, song);
    }

    method PlayNext()
      requires Valid()
      modifies this
      ensures State() == AfterPlayNext(old(State()))
      ensures Valid()
    {
      var active := if shuffle then shuffledPlaylist else playlist;
      if currentSong.None? || |active| == 0 {
        return;
      }
      if loop == LoopSong {
        RestartCurrent();
        return;
      }
      var i := FindIndex(active, currentSong.value.id);
      if i != -1 {
        var next := i + 1;
        if next >= |active| {
          if loop == LoopPlaylist {
            next := 0;
          } else {
            isPlaying := false;
            return;
          }
        }
        PlaySong(active[next], Some(playlist), playlist);
      }
    }

    /** The `loop === 'song'` branch of `playNext`. */
    method RestartCurrent()
      requires Valid()
      modifies this
      ensures State() == old(State()).(backends := Restart(old(currentSong), old(State()).backends))
      ensures Valid()
    {
      if currentSong.Some? && currentSong.value.fromYouTube && youtube.Some? {
        youtube := Some(youtube.value.(position := 0.0, state := Playing));
      } else if audio.Some? {
        audio := Some(audio.value.(position := 0.0, playing := true));
      }
    }

    method PlayPrev()
      requires Valid()
      modifies this
      ensures State() == AfterPlayPrev(old(State()))
      ensures Valid()
    {
      var active := if shuffle then shuffledPlaylist else playlist;
      if currentSong.None? || |active| == 0 {
        return;
      }
      var i := FindIndex(active, currentSong.value.id);
      if i != -1 {
        var prev := PrevIndex(i, |active|);
        PlaySong(active[prev], Some(playlist), playlist);
      }
    }

    method TogglePlay()
      requires Valid()
      modifies this
      ensures State() == AfterTogglePlay(old(State()))
      ensures Valid()
    {
      if currentSong.Some? {
        isPlaying := !isPlaying;
      }
    }

    method ClosePlayer()
      requires Valid()
      modifies this
      ensures State() == AfterClosePlayer(old(State()))
      ensures Valid()
    {
      PauseAudioElement();
      SetYoutubeState(Stopped);
      if currentSong.Some? && IsBlobUrl(currentSong.value.audioSrc) {
        revoked := revoked + [currentSong.value.audioSrc];
      }
      currentSong := None;
      isPlaying := false;
      isFullScreenPlayerOpen := false;
    }

    method ToggleFullScreenPlayer()
      requires Valid()
      modifies this
      ensures State() == AfterToggleFullScreen(old(State()))
      ensures Valid()
    {
      if currentSong.Some? {
        if !isFullScreenPlayerOpen {
          showVideo := false;
        }
        isFullScreenPlayerOpen := !isFullScreenPlayerOpen;
      }
    }

    method ToggleQueue()
      requires Valid()
      modifies this
      ensures State() == old(State()).(view := old(State()).view.(isQueueOpen := !old(isQueueOpen)))
      ensures Valid()
    {
      isQueueOpen := !isQueueOpen;
    }

    /** Flips the flag only; the shuffled queue is not regenerated. */
    method ToggleShuffle()
      requires Valid()
      modifies this
      ensures State() == old(State()).(queue := old(State()).queue.(shuffle := !old(shuffle)))
      ensures Valid()
    {
      shuffle := !shuffle;
    }

    /** `setLoop` with the updater `NextLoopMode`. */
    method ToggleLoop()
      requires Valid()
      modifies this
      ensures State() == old(State()).(queue := old(State()).queue.(loop := NextLoopMode(old(loop))))
      ensures Valid()
    {
      loop := NextLoopMode(loop);
    }

    /** `setLyrics`, exposed to the queue sheet. */
    method SetLyrics(lines: seq<LyricLine>)
      requires Valid()
      modifies this
      ensures State() == old(State()).(view := old(State()).view.(lyrics := lines))
      ensures Valid()
    {
      lyrics := lines;
    }

    /** `setIsLyricsLoading`, exposed to the queue sheet. */
    method SetLyricsLoading(loading: bool)
      requires Valid()
      modifies this
      ensures State() == old(State()).(view := old(State()).view.(isLyricsLoading := loading))
      ensures Valid()
    {
      isLyricsLoading := loading;
    }

    /** `setYoutubePlayer`, called when the embedded player reports that it is ready. */
    method AttachYoutube(player: YoutubePlayer)
      requires Valid()
      modifies this
      ensures State() == old(State()).(backends := old(State()).backends.(youtube := Some(player)))
      ensures Valid()
    {
      youtube := Some(player);
    }

    method OnYoutubeStateChange(data: int)
      requires Valid()
      modifies this
      ensures State() == AfterYoutubeStateChange(old(State()), data)
      ensures Valid()
    {
      if data == 0 {
        PlayNext();
      }
    }

    /** A component's assignment `audioElement.currentTime = t` on the shared element. */
    method SetAudioPosition(t: real)
      requires Valid() && audio.Some?
      modifies this
      ensures State() == old(State()).(backends := old(State()).backends.(audio := Some(old(audio).value.(position := t))))
      ensures Valid()
    {
      audio := Some(audio.value.(position := t));
    }

    /** The context function a component calls. */
    method Run(c: Command, shuffled: seq<Song>)
      requires Valid() && ShuffleFits(c, shuffled)
      modifies this
      ensures State() == AfterCommand(old(State()), c, shuffled)
      ensures Valid()
    {
      match c
      case PlaySongCommand(song, list) => PlaySong(song, list, shuffled);
      case TogglePlayCommand => TogglePlay();
      case ClosePlayerCommand => ClosePlayer();
      case PlayNextCommand => PlayNext();
      case PlayPrevCommand => PlayPrev();
    }

    /** The audio element's `ended` listener. */
    method OnAudioEnded()
      requires Valid()
      modifies this
      ensures State() == AfterPlayNext(old(State()))
      ensures Valid()
    {
      PlayNext();
    }

    /** The routing effect, run after a render in which the song, `isPlaying` or a backend changed. */
    method SyncBackends()
      requires Valid()
      modifies this
      ensures State() == AfterRouting(old(State()))
      ensures Valid()
    {
      if currentSong.Some? && currentSong.value.fromYouTube {
        PauseAudioElement();
        SetYoutubeState(if isPlaying then Playing else Paused);
      } else {
        SetYoutubeState(Stopped);
        if audio.Some? && currentSong.Some? {
          var element := audio.value;
          if element.src != currentSong.value.audioSrc {
            if IsBlobUrl(element.src) {
              revoked := revoked + [element.src];
            }
            element := Reloaded(element, currentSong.value.audioSrc);
          }
          audio := Some(element.(playing := isPlaying));
        } else if audio.Some? {
          audio := Some(Reloaded(audio.value, "").(playing := false));
        }
      }
    }

    /** The loop effect, run after a render in which `loop` or the audio element changed. */
    method SyncLoopFlag()
      requires Valid()
      modifies this
      ensures State() == AfterLoopFlag(old(State()))
      ensures Valid()
    {
      if audio.Some? {
        audio := Some(audio.value.(loop := loop == LoopSong));
      }
    }

    /** The quality effect for the stored settings (`None` when the user document has none). */
    method ApplyQuality(stored: Option<PlaybackQuality>, conn: Connection)
      requires Valid()
      modifies this
      ensures State() == AfterQualityEffect(old(State()), stored, conn)
      ensures Valid()
    {
      if youtube.Some? {
        var quality := YoutubeQuality(QualitySetting(stored, showVideo, conn));
        youtube := Some(youtube.value.(quality := quality));
      }
    }
  }
}
