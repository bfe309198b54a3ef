# Spoton web player, modelled in Dafny

This project models the core of the Spoton web music player: the playback provider
that every screen talks to, and the screens and server code that drive it. Each module
follows one source file.

- **`PlayerContext`**: the player provider (`src/context/player-context.tsx`).
  - It is a class `Player` whose fields are the provider's state variables. The audio
    element and the YouTube player are `Option` records.
  - Every command is a method proved against a pure step function on a `PlayerState`
    value. The commands are `playSong`, `playNext`, `playPrev`, `togglePlay`,
    `closePlayer`, the toggles, the `ended` listener, the YouTube state callback and
    the effects (backend routing, loop flag, YouTube quality).
- **`PlayerProperties`**: what those commands promise, as lemmas over the step
  functions. These cover the queue rules, the end-of-list behaviour per loop mode, the
  listening history without duplicates, the revoking of local files' URLs, and
  idempotence of the effects.
- **`PlaybackQueue`**: the queue sheet (`src/components/playback-queue.tsx`). This
  covers the active-lyric scan (a `while` loop proved against its specification), the
  row highlighting and clicks, and the lyrics effect.
- **`PlaylistContent`** and **`AlbumArtwork`**: a playlist's rows and an album card.
  These issue commands to the player (the `Command` datatype).
- **`SearchActions`**, **`IsoDuration`** and **`YoutubeFlow`**: the YouTube search
  server action (`src/app/search/actions.ts`), its ISO 8601 duration formatter, and
  the Genkit flow that repeats it (`src/ai/flows/youtube-search.ts`). The API's
  responses are inputs. The flow's own `formatDuration` has the same text as the
  action's, so `IsoDuration` models both.
- **`SearchPage`**: the search page (`src/app/search/page.tsx`). This covers the
  search type, the two-character gate and turning results into a queue.
- **`Equaliser`**: the equaliser dialog (`src/components/equaliser-dialog.tsx`).
- **`TimeDisplay`**, **`MiniPlayer`** and **`FullScreenPlayer`**: the `m:ss` time
  formatter, the mini player bar (`src/components/player.tsx`) with its swipe-to-close
  gesture, and the full-screen player (`src/components/full-screen-player.tsx`).
- **`Library`**: the library page (`src/app/library/page.tsx`). This covers importing
  local media files as songs, and selecting and deleting playlists.
- **`Settings`**: the settings page (`src/app/settings/page.tsx`). This covers the
  defaults, the merge of a stored document, each change handler and the database
  write it makes, and the notification-permission request.
- **`AppShell`**: the application frame (`src/components/app-shell.tsx`). This covers
  the active-link test, the navigation lists, and which pages get the player.
- **Helper modules:**
  - `Wrappers` (`Option`);
  - `Strings` (`indexOf`, `includes`, `split`, `trim`, `replace`, number text);
  - `Clock` (the `m:ss` text, with a parser that inverts it);
  - `Tracks` (`Song` and `Album`, from `src/lib/types.ts`).

Several things outside the program are passed in as parameters or inputs:

- the shuffled order that `Math.random` produces;
- the network connection type;
- the YouTube Data API responses;
- the stored user document;
- the browser's answer to a permission request.

## Model

| member | source | states |
|---|---|---|
| PlayerContext.Player.constructor | src/context/player-context.tsx:62-105 | The provider starts with no song, not playing, empty queues, no loop, shuffle off and an empty history. Its backends are the fresh, empty audio element the mount effect creates (lines 103-105) and no YouTube player |
| PlayerContext.Player.PlaySong | src/context/player-context.tsx:138-170 | `playSong` moves the player to exactly the state the `playSong` step function gives, and keeps the state invariant (history bounded and duplicate-free) |
| PlayerContext.Player.StopCurrentBackend | src/context/player-context.tsx:139-143 | The first step of `playSong` silences the replaced song on its own backend |
| PlayerContext.Player.Start | src/context/player-context.tsx:145-146 | `setCurrentSong(song)` and `setIsPlaying(true)` |
| PlayerContext.Player.ApplyQueue | src/context/player-context.tsx:148-160 | The queue update of `playSong` |
| PlayerContext.Player.RecordHistory | src/context/player-context.tsx:162-164 | The history update of `playSong` |
| PlayerContext.Player.PlayNext | src/context/player-context.tsx:172-201 | `playNext` follows its step function and keeps the invariant |
| PlayerContext.Player.RestartCurrent | src/context/player-context.tsx:176-185 | With `loop === 'song'` the active backend is sought to 0 and played; nothing else changes |
| PlayerContext.Player.PlayPrev | src/context/player-context.tsx:267-276 | `playPrev` follows its step function and keeps the invariant |
| PlayerContext.Player.TogglePlay | src/context/player-context.tsx:261-265 | `togglePlay` flips `isPlaying`, but only with a current song |
| PlayerContext.Player.ClosePlayer | src/context/player-context.tsx:278-287 | `closePlayer` follows its step function and keeps the invariant |
| PlayerContext.Player.ToggleFullScreenPlayer | src/context/player-context.tsx:289-296 | `toggleFullScreenPlayer` follows its step function |
| PlayerContext.Player.ToggleQueue | src/context/player-context.tsx:298-300 | Only `isQueueOpen` flips |
| PlayerContext.Player.ToggleShuffle | src/context/player-context.tsx:302-304 | Only `shuffle` flips |
| PlayerContext.Player.ToggleLoop | src/context/player-context.tsx:306-312 | Only the loop mode advances, to the next mode of the cycle |
| PlayerContext.Player.SetLyrics | src/context/player-context.tsx:29-57 | The `setLyrics` the context exposes replaces only the lyrics |
| PlayerContext.Player.SetLyricsLoading | src/context/player-context.tsx:29-57 | The `setIsLyricsLoading` the context exposes changes only the loading flag |
| PlayerContext.Player.AttachYoutube | src/context/player-context.tsx:352-357 | `onPlayerReady` stores the YouTube player and changes nothing else |
| PlayerContext.Player.OnYoutubeStateChange | src/context/player-context.tsx:359-364 | State code 0 (ended) runs `playNext`; any other code changes nothing |
| PlayerContext.Player.SetAudioPosition | src/context/player-context.tsx:29-57 | Assigning the audio element's `currentTime` changes only its position |
| PlayerContext.Player.Run | src/context/player-context.tsx:29-57 | Every command a component can issue through the context moves the player as that command's step function says |
| PlayerContext.Player.OnAudioEnded | src/context/player-context.tsx:99-115 | The audio element's `ended` listener runs `playNext` |
| PlayerContext.Player.SyncBackends | src/context/player-context.tsx:230-259 | The routing effect follows its step function; reassigning `src` reloads the element from position 0 with its duration unknown |
| PlayerContext.Player.SyncLoopFlag | src/context/player-context.tsx:207-211 | The loop effect sets `audio.loop` |
| PlayerContext.Player.ApplyQuality | src/context/player-context.tsx:213-228 | The quality effect sets the YouTube playback quality for the current media kind and connection |
| PlayerContext.DistinctSpec | src/context/player-context.tsx:163 | `[...new Set(xs)]` has no duplicates and holds exactly the elements of `xs` |
| PlayerContext.WithoutSpec | src/context/player-context.tsx:163 | Removing an entry keeps exactly the other elements |
| PlayerContext.DistinctCons | src/context/player-context.tsx:163 | Deduplicating `[e, ...h]`, where `h` has no duplicates, is `e` followed by `h` without `e`: the song moves to the front |
| PlayerContext.Take | src/context/player-context.tsx:163 | `slice(0, n)` is the longest prefix of length at most `n`, and the whole list when it is short enough |
| PlayerContext.TakeNoDups | src/context/player-context.tsx:163 | Truncating keeps a list duplicate-free |
| PlayerContext.HistoryAfterPlay | src/context/player-context.tsx:162-164 | A song with a non-blob source goes to the front of the history, without duplicates and within 20 entries; any other song leaves the history unchanged |
| PlayerContext.FindIndex | src/context/player-context.tsx:187 | `findIndex` gives the first entry with the id, or -1 exactly when no entry has it |
| PlayerContext.PrevIndex | src/context/player-context.tsx:273 | `(i - 1 + n) % n` is a valid index: the previous one, or the last when `i` is 0 |
| PlayerContext.YoutubeQuality | src/context/player-context.tsx:217-224 | The quality passed to YouTube is always one of the five levels |
| PlayerContext.PlaySongKeepsConsistent | src/context/player-context.tsx:138-170 | `playSong` keeps the history invariant |
| PlayerProperties.LoopCycle | src/context/player-context.tsx:306-312 | The loop mode moves none → playlist → song → none; three presses return to the start, and one or two never do |
| PlayerProperties.PlaySongStarts | src/context/player-context.tsx:145-146 | After `playSong` the song is current and playing; the history follows the history rule; the modes, the view and the revoked URLs are unchanged |
| PlayerProperties.PlaySongQueue | src/context/player-context.tsx:148-160 | No list or an empty one queues only the song. A different list replaces the queue, and the shuffled copy only while shuffle is on. The same list changes nothing |
| PlayerProperties.PlaySongShufflesNewQueue | src/context/player-context.tsx:151-155 | A regenerated shuffled queue is a permutation of the new queue |
| PlayerProperties.PlaySongStopsPrevious | src/context/player-context.tsx:139-143 | The previous YouTube song is stopped, or else the audio element is paused; the other backend is untouched |
| PlayerProperties.PlayNextNoOp | src/context/player-context.tsx:174-189 | Without a song or an active list, or, outside loop-song mode, when the song is not in that list, `playNext` changes nothing. In loop-song mode the song restarts even if it is not in the list (see `PlayNextRepeatsSong`) |
| PlayerProperties.PlayNextRepeatsSong | src/context/player-context.tsx:176-185 | `loop === 'song'` keeps the song, the queue and the history, and restarts the active backend from 0 |
| PlayerProperties.PlayNextAdvances | src/context/player-context.tsx:187-199 | Before the end of the active list, `playNext` plays the following entry |
| PlayerProperties.PlayNextWraps | src/context/player-context.tsx:191-199 | At the end with the playlist loop, `playNext` plays the first entry |
| PlayerProperties.PlayNextStopsAtEnd | src/context/player-context.tsx:191-197 | At the end with no loop, `playNext` only sets `isPlaying` to false |
| PlayerProperties.ReplayKeepsQueue | src/context/player-context.tsx:149-150 | Passing the current queue back to `playSong` leaves it as it is |
| PlayerProperties.PlayNextKeepsQueue | src/context/player-context.tsx:172-201 | `playNext` never replaces the queue or the shuffled copy |
| PlayerProperties.PlayPrevSelects | src/context/player-context.tsx:271-275 | `playPrev` plays the previous entry, and from the first entry the last one, in every loop mode |
| PlayerProperties.PlayPrevNoOp | src/context/player-context.tsx:269-272 | Without a song or an active list, or when the song is not in that list, `playPrev` changes nothing |
| PlayerProperties.PlayPrevKeepsQueue | src/context/player-context.tsx:267-276 | `playPrev` never replaces the queue |
| PlayerProperties.TogglePlayFlips | src/context/player-context.tsx:261-265 | `togglePlay` flips `isPlaying` only while a song is loaded; two presses restore the state |
| PlayerProperties.CloseStopsEverything | src/context/player-context.tsx:278-287 | After `closePlayer` nothing is current or playing, full screen is closed and both backends are silent. The URL is revoked exactly when it was a local file's |
| PlayerProperties.CloseIsIdempotent | src/context/player-context.tsx:278-287 | Closing twice is closing once: no URL is revoked twice |
| PlayerProperties.FullScreenToggle | src/context/player-context.tsx:289-296 | The full-screen flag flips; opening it resets `showVideo` to false; closing keeps the choice |
| PlayerProperties.RoutingYoutubeSong | src/context/player-context.tsx:233-240 | For a YouTube song the audio element is paused and the YouTube player mirrors `isPlaying` |
| PlayerProperties.RoutingAudioSong | src/context/player-context.tsx:241-254 | For another song the YouTube player is stopped and the audio plays its source exactly while `isPlaying`. A changed source reloads from position 0 with its duration unknown, and a changed blob source is revoked first; an unchanged source keeps its position and duration |
| PlayerProperties.RoutingNoSong | src/context/player-context.tsx:255-258 | With no song the audio element is paused and emptied, which resets its position and duration |
| PlayerProperties.RoutingIsIdempotent | src/context/player-context.tsx:230-259 | Re-running the routing effect changes nothing more |
| PlayerProperties.LoopFlagMirrorsMode | src/context/player-context.tsx:207-211 | `audio.loop` holds exactly while the loop mode is `song` |
| PlayerProperties.QualityLevels | src/context/player-context.tsx:217-224 | The four named settings map to `highres`, `hd1080`, `hd720` and `large`, and everything else to `default` |
| PlayerProperties.DefaultQuality | src/context/player-context.tsx:85-88 | The default quality levels per media kind and connection, including `default` for automatic audio on wifi and for an unknown connection |
| PlaybackQueue.FindActiveLyric | src/components/playback-queue.tsx:59-65 | The backwards scan finds the last line that has started, or -1 when none has |
| PlaybackQueue.ActiveIndexUnique | src/components/playback-queue.tsx:59-65 | The highlighted line is determined by the lines and the time |
| PlaybackQueue.SortedActiveLine | src/components/playback-queue.tsx:59-65 | For sorted start times, the line whose interval holds the time is the one highlighted |
| PlaybackQueue.QueueSheet.constructor | src/components/playback-queue.tsx:33 | No lyric line is active at first |
| PlaybackQueue.QueueSheet.UpdateActiveLyric | src/components/playback-queue.tsx:49-69 | With lyrics and an open sheet, the index becomes the active line at the current backend's time; otherwise it is kept |
| PlaybackQueue.HighlightMatchesFindIndex | src/components/playback-queue.tsx:129 | A row is highlighted iff the current id is in the queue, and the first such row is the one `playNext` starts from |
| PlaybackQueue.ClickRow | src/components/playback-queue.tsx:131 | A row click is `playSong(song)` with no list |
| PlaybackQueue.ClickRowCollapsesQueue | src/components/playback-queue.tsx:131 | Playing from the queue sheet leaves a queue of just that song, playing and highlighted |
| PlaybackQueue.LyricsRequest | src/components/playback-queue.tsx:89-104 | Lyrics are fetched exactly for a YouTube song while the sheet is open, by that song's id |
| PlaybackQueue.LyricsEffectOutcome | src/components/playback-queue.tsx:89-104 | The effect clears the lyrics. A fetch shows loading until it settles, then the fetched lines, or none on failure |
| PlaybackQueue.RunLyricsEffect | src/components/playback-queue.tsx:89-104 | The effect's method issues that request and makes that change to the view |
| PlaybackQueue.SettleLyricsFetch | src/components/playback-queue.tsx:94-100 | The `then`/`catch`/`finally` of the fetch |
| PlaylistContent.RowNumbers | src/components/playlist-content.tsx:21 | A row shows a number exactly when it is not playing. The numbers are one-based and distinct |
| PlaylistContent.ClickActiveRowToggles | src/components/playlist-content.tsx:58-64 | Clicking the current song's row toggles play; clicking again restores the state |
| PlaylistContent.ClickOtherRowPlaysList | src/components/playlist-content.tsx:58-64 | Clicking another row plays it with the whole list as the queue |
| PlaylistContent.ClickFlipsRowPlaying | src/components/playlist-content.tsx:58-70 | Any click flips whether the clicked row shows as playing |
| PlaylistContent.PlayingRows | src/components/playlist-content.tsx:69-70 | One flag per row: the row is the current song and it is playing |
| PlaylistContent.PlayingRowsMatchCurrent | src/components/playlist-content.tsx:69-70 | While playing, the first row marked as playing is the current song's `findIndex`; nothing is marked otherwise |
| AlbumArtwork.PlayButtonEnabledIffCommand | src/components/album-artwork.tsx:34-40 | The play button sends a command exactly when it is enabled |
| AlbumArtwork.PlayStartsFirstSong | src/components/album-artwork.tsx:37-38 | Play starts the first song, with the album as the queue |
| AlbumArtwork.HrefRecoversId | src/components/album-artwork.tsx:50 | The card's link carries the id whole, so different albums link to different pages |
| AlbumArtwork.HandleSelect | src/components/album-artwork.tsx:42-48 | A click reports a selection exactly in selection mode with a handler, and navigates exactly outside selection mode |
| AlbumArtwork.SelectReportsThisCard | src/components/album-artwork.tsx:46 | A reported selection is this card's id with the flag inverted |
| SearchActions.FirstSeparator | src/app/search/actions.ts:71-77 | The first separator, in list order, that the title contains |
| SearchActions.SplitArtistTitle | src/app/search/actions.ts:67-77 | The separator loop produces the artist and title pair |
| SearchActions.ArtistTitlePieces | src/app/search/actions.ts:71-77 | Without a separator, the channel name and the whole title. Otherwise the text before the first separator and the piece after it, neither containing that separator |
| SearchActions.TopicOnlyInChannelNames | src/app/search/actions.ts:86 | The `" - Topic"` strip never changes an artist that was cut from a title |
| SearchActions.ThumbnailFallback | src/app/search/actions.ts:79-80 | The first thumbnail URL present, in the order high, medium, default; empty exactly when none is |
| SearchActions.MapItem | src/app/search/actions.ts:66-90 | The result built for one video |
| SearchActions.DurationTextIsClock | src/app/search/actions.ts:88 | Every result's duration is a well-formed `m:ss` text |
| SearchActions.ResultShape | src/app/search/actions.ts:83-89 | The title is trimmed and the duration is a clock; a present id is kept |
| SearchActions.BuildQueryParams | src/app/search/actions.ts:40-50 | The search query for the kind: a music search appends " music" and category 10 |
| SearchActions.KindsDiffer | src/app/search/actions.ts:43-50 | The two kinds never send the same query |
| SearchActions.VideoIds | src/app/search/actions.ts:54 | Exactly the present, non-empty ids |
| SearchActions.VideoIdsInOrder | src/app/search/actions.ts:54 | The ids keep the items' order: the ids of two runs of items are those of the first, then those of the second |
| SearchActions.MapSeqAt | src/app/search/actions.ts:66 | `map` gives one value per element, in order |
| SearchActions.ResultsWithAt | src/app/search/actions.ts:66-90 | One result per video, in order |
| SearchActions.NormaliseItems | src/app/search/actions.ts:66-90 | The `map` over the videos as a loop |
| SearchActions.SearchYoutubeAction | src/app/search/actions.ts:30-98 | Covers every outcome: missing key, the query sent, a failed fetch, no ids, and the results of the second call |
| IsoDuration.FormatDuration | src/app/search/actions.ts:14-28 | The result always parses back as a clock, to the duration's total seconds; without "PT" it is `0:00` |
| IsoDuration.FormatDurationAtStart | src/app/search/actions.ts:15 | For a text that starts with "PT", the groups are read right after it |
| IsoDuration.TimeTextSeconds | src/app/search/actions.ts:18-22 | Hours, minutes and seconds written as designator groups are read back as 3600h + 60m + s |
| IsoDuration.FormatTimeDesignators | src/app/search/actions.ts:14-28 | Formatting such a text gives the `m:ss` of its total |
| IsoDuration.SecondsFromComponents | src/app/search/actions.ts:18-22 | The total is 3600 × hours + 60 × minutes + seconds |
| IsoDuration.DateComponentGivesZero | src/app/search/actions.ts:15-16 | A duration with a day part has no "PT" and shows `0:00` |
| IsoDuration.ExampleOf | src/app/search/actions.ts:14-28 | A designator text formats to the clock of its total |
| IsoDuration.Examples | src/app/search/actions.ts:14-28 | `PT1H5M` is `65:00`, `PT3M7S` is `3:07`, `PT45S` is `0:45` |
| Clock.TwoDigits | src/app/search/actions.ts:27 | Seconds padded to two digits read back as the same number |
| Clock.MssRoundTrip | src/app/search/actions.ts:24-27 | The `m:ss` text parses back to the seconds it shows |
| Clock.MssInjective | src/app/search/actions.ts:24-27 | Different totals give different texts |
| Clock.MssSecondsField | src/app/search/actions.ts:24-27 | The last two characters are the seconds modulo 60, after a colon |
| Strings.IndexOfFrom | src/app/search/actions.ts:73 | `indexOf` gives the first occurrence at or after the start, or -1 when there is none |
| Strings.Split2First | src/app/search/actions.ts:74 | The first piece of `split(sep, 2)` is the text before the first separator |
| Strings.Split2Second | src/app/search/actions.ts:74 | The second piece runs from after the separator to the next one, or to the end |
| Strings.TrimSpec | src/app/search/actions.ts:85-86 | `trim` keeps a contiguous piece, drops only whitespace, and leaves none at either end |
| Strings.Utf16Length | src/app/search/page.tsx:41 | `length` counts UTF-16 code units: at least one per character and at most two, exactly one each when no character is astral |
| Strings.NatToString | src/app/search/actions.ts:27 | Decimal digits without leading zeros |
| Strings.ParseNatToString | src/app/search/actions.ts:27 | Decimal text reads back to the number |
| Strings.NatToStringInjective | src/app/search/actions.ts:27 | Different numbers give different texts |
| YoutubeFlow.FlowQueryIsMusicSearch | src/ai/flows/youtube-search.ts:71-78 | The flow sends exactly the action's music search |
| YoutubeFlow.FlowMatchesAction | src/ai/flows/youtube-search.ts:92-113 | A flow result equals the action's result for the same video, except the thumbnail, which also agrees when there is no high or medium image |
| YoutubeFlow.SearchYoutubeFlow | src/ai/flows/youtube-search.ts:63-121 | Covers every outcome: a missing key throws, a failed fetch gives no results, otherwise the mapped videos |
| SearchPage.SearchTypeFor | src/app/search/page.tsx:38 | The search is of type `youtube` exactly when the stored flag is `true` |
| SearchPage.MinLengthGate | src/app/search/page.tsx:41 | A query of only whitespace is never sent; two characters or more, with no space at either end, always is; a single character is sent exactly when it is astral, since JavaScript counts it as two code units |
| SearchPage.ToSongProperties | src/app/search/page.tsx:83-93 | A result's song keeps its id and plays on YouTube. It is always recorded in the history, and different ids give different sources |
| SearchPage.ResultsQueue | src/app/search/page.tsx:94-104 | One song per result, in order |
| SearchPage.PlayResultQueuesAll | src/app/search/page.tsx:82-106 | Playing a result makes it current and playing, with all results as the queue and the song at its own index |
| SearchPage.SearchView.constructor | src/app/search/page.tsx:40-59 | No results at first |
| SearchPage.SearchView.HandleYoutubeSearch | src/app/search/page.tsx:40-59 | A request is made iff the trimmed query has at least two UTF-16 code units; otherwise the results are cleared |
| SearchPage.SearchView.SearchInitialQuery | src/app/search/page.tsx:61-65 | A non-empty initial query is searched through the same gate, with the same request and clearing; without one nothing happens |
| SearchPage.SearchView.SettleSearch | src/app/search/page.tsx:47-57 | An error clears the results; success shows the ones returned |
| SearchPage.SearchView.PlayResult | src/app/search/page.tsx:82-106 | The player moves as `playSong(song, playlist)` says |
| Equaliser.PresetsFitTheSliders | src/components/equaliser-dialog.tsx:27-35 | Every preset has ten gains, within the slider range −12 to 12 |
| Equaliser.PresetKeysDistinct | src/components/equaliser-dialog.tsx:118-124 | Preset names are distinct |
| Equaliser.PopIsVocalBoost | src/components/equaliser-dialog.tsx:29-34 | Pop and vocal boost have the same gains |
| Equaliser.BandLabels | src/components/equaliser-dialog.tsx:104 | A check of the label table at four bands: 32Hz, 500Hz, 1kHz, 16kHz |
| Equaliser.BandLabelsAreExact | src/components/equaliser-dialog.tsx:104 | A check over the ten fixed bands: each label reads back to its band frequency, in Hz below 1000 and in whole kHz from 1000 |
| Equaliser.EqualiserDialog.constructor | src/components/equaliser-dialog.tsx:46-47 | Local gains start as the given settings, with the default preset |
| Equaliser.EqualiserDialog.Resync | src/components/equaliser-dialog.tsx:49-51 | New settings replace the local gains |
| Equaliser.EqualiserDialog.SliderChange | src/components/equaliser-dialog.tsx:53-58 | Exactly one band changes, and the preset becomes default |
| Equaliser.EqualiserDialog.PresetChange | src/components/equaliser-dialog.tsx:60-64 | The gains become the preset's |
| Equaliser.EqualiserDialog.Reset | src/components/equaliser-dialog.tsx:71-74 | Every gain becomes 0 |
| Equaliser.EqualiserDialog.SaveChanges | src/components/equaliser-dialog.tsx:66-69 | The local gains are saved, valid, and the dialog closes, assuming the context supplies the callback, which as written it does not (see "Left out") |
| TimeDisplay.FloorSplit | src/components/player.tsx:50-51 | For a time that is not negative, minutes and seconds are those of its whole seconds |
| TimeDisplay.FormatTime | src/components/player.tsx:48-53 | `NaN` shows `0:00`; any other time shows the `m:ss` of its whole seconds, which parses back to them |
| TimeDisplay.FormatTimeShape | src/components/player.tsx:48-53 | The seconds field is two digits. Two times show the same text iff they have the same whole seconds |
| TimeDisplay.NaNLooksLikeZero | src/components/player.tsx:49 | An unknown duration looks like 0 |
| MiniPlayer.MoveDelta | src/components/player.tsx:104-109 | A move records its distance when it goes down, and keeps the delta otherwise |
| MiniPlayer.DeltaIsLastDownwardMove | src/components/player.tsx:100-109 | The swipe distance is that of the last downward move, never negative, and 0 when no move went down |
| MiniPlayer.ShownDuration | src/components/player.tsx:120 | The song's own duration, unless it is `0:00`, in which case the measured one; `0:00` when there is no song or the chosen text is empty |
| MiniPlayer.MiniPlayerBar.constructor | src/components/player.tsx:38-43 | Progress starts at 0, the times at `0:00`, and no gesture |
| MiniPlayer.MiniPlayerBar.UpdateProgress | src/components/player.tsx:55-70 | A YouTube song with a positive duration shows the player's percentage, and `formatTime` of its position and of that duration. Otherwise, with an audio duration, the same three values for the audio element. Otherwise nothing changes |
| MiniPlayer.MiniPlayerBar.ResetForSong | src/components/player.tsx:88-91 | A new song resets progress and the gesture |
| MiniPlayer.MiniPlayerBar.ProgressChange | src/components/player.tsx:94-98 | The slider value is shown and sent as the seek target, assuming the context supplies the callback, which as written it does not (see "Left out") |
| MiniPlayer.MiniPlayerBar.TouchStart | src/components/player.tsx:100-102 | The starting Y is recorded |
| MiniPlayer.MiniPlayerBar.TouchMove | src/components/player.tsx:104-109 | Only downward moves update the delta |
| MiniPlayer.MiniPlayerBar.TouchEnd | src/components/player.tsx:111-118 | A swipe of more than 20 pixels closes the player; the gesture resets |
| MiniPlayer.SwipeCloses | src/components/player.tsx:111-118 | After a closing swipe nothing plays and nothing is current |
| FullScreenPlayer.DisplayDuration | src/components/full-screen-player.tsx:84-86 | `N/A` shows the measured duration, and any other duration is shown as it is |
| FullScreenPlayer.ShownDuration | src/components/full-screen-player.tsx:126 | The display duration when it is non-empty, and `0:00` when there is no song or it is empty |
| FullScreenPlayer.UnknownDurationShowsMeasured | src/components/full-screen-player.tsx:84 | An `N/A` song shows the audio's measured seconds |
| FullScreenPlayer.FullScreenView.constructor | src/components/full-screen-player.tsx:35-37 | Progress 0, duration and current time `0:00` |
| FullScreenPlayer.FullScreenView.ResetForSong | src/components/full-screen-player.tsx:72-74 | A new song resets progress |
| FullScreenPlayer.FullScreenView.OnTimeUpdate | src/components/full-screen-player.tsx:46-51 | On `timeupdate` the current time shows the element's position as `m:ss`, and the progress is the position as a percentage of a known, non-zero duration |
| FullScreenPlayer.FullScreenView.OnLoadedData | src/components/full-screen-player.tsx:53-57 | The duration becomes the audio's formatted duration |
| FullScreenPlayer.FullScreenView.HandleProgressChange | src/components/full-screen-player.tsx:76-82 | The percentage seeks the audio to that fraction of its duration |
| Library.ExtensionUnique | src/app/library/page.tsx:33 | The extension pattern matches in at most one place |
| Library.ExtensionFrom | src/app/library/page.tsx:33 | The scan finds the match, or proves there is none |
| Library.StripExtension | src/app/library/page.tsx:33 | The name is cut at the extension's dot, or kept whole when there is no extension |
| Library.StripExtensionExamples | src/app/library/page.tsx:33 | `a.b.mp3` gives `a.b`; `noext` and `track.` are unchanged |
| Library.MediaFiles | src/app/library/page.tsx:28-29 | Exactly the audio and video files |
| Library.SongsFromAt | src/app/library/page.tsx:30-40 | Each song is built from the file at its own position |
| Library.ImportedSongFields | src/app/library/page.tsx:30-40 | Each imported song has the id, title, fixed fields and blob source the page gives, and is never recorded in the history |
| Library.LocalIdIndex | src/app/library/page.tsx:32 | A local id determines the file name and the position |
| Library.ImportedIdsDistinct | src/app/library/page.tsx:32 | One pick gives distinct ids |
| Library.SinglePick | src/app/library/page.tsx:24-48 | Picking one media file imports one song at position 0 |
| Library.LocalFilesTab.constructor | src/app/library/page.tsx:21 | No local songs at first |
| Library.LocalFilesTab.HandleFileSelect | src/app/library/page.tsx:24-48 | The imported songs are appended; earlier songs are kept; no files changes nothing |
| Library.LibraryPage.constructor | src/app/library/page.tsx:95-96 | Not in selection mode, nothing selected |
| Library.LibraryPage.ToggleSelectionMode | src/app/library/page.tsx:105-108 | The mode flips and the selection clears |
| Library.LibraryPage.PlaylistSelect | src/app/library/page.tsx:110-114 | Selecting appends the id; deselecting removes every copy of it |
| Library.LibraryPage.DeleteSelected | src/app/library/page.tsx:116-133 | Nothing selected means nothing happens. Otherwise the selection is deleted, then cleared, and selection mode ends, assuming the context supplies the callback, which as written it does not (see "Left out") |
| Library.SelectThenDeselect | src/app/library/page.tsx:110-114 | Deselecting undoes a selection |
| Settings.UpdateSetting | src/app/settings/page.tsx:93-96 | A write is made exactly when a document exists, and holds just the one key |
| Settings.Spread | src/app/settings/page.tsx:73-90 | `{...prev, ...stored}`: the union of the keys, and the stored value where there is one |
| Settings.PermissionText | src/app/settings/page.tsx:230-239 | The label for each permission state |
| Settings.ThemeFor | src/app/settings/page.tsx:112-116 | `dark` iff dark mode, `light` otherwise |
| Settings.SettingsPage.constructor | src/app/settings/page.tsx:35-65 | The page's default groups |
| Settings.SettingsPage.Load | src/app/settings/page.tsx:69-91 | A stored document is merged into or replaces each group; no document changes nothing |
| Settings.SettingsPage.ThemeChange | src/app/settings/page.tsx:112-116 | The theme changes, and is written |
| Settings.SettingsPage.NotificationPrefChange | src/app/settings/page.tsx:118-122 | One flag changes; the group is written |
| Settings.SettingsPage.StreamingServiceChange | src/app/settings/page.tsx:124-128 | One flag changes; the group is written |
| Settings.SettingsPage.PlaybackQualityChange | src/app/settings/page.tsx:130-144 | One quality entry changes; the group is written |
| Settings.SettingsPage.TrackTransitionChange | src/app/settings/page.tsx:146-150 | One flag changes; the group is written |
| Settings.SettingsPage.CrossfadeChange | src/app/settings/page.tsx:152-156 | The crossfade seconds change; the group is written |
| Settings.SettingsPage.ListeningControlChange | src/app/settings/page.tsx:158-162 | One flag changes; the group is written |
| Settings.SettingsPage.BalanceChange | src/app/settings/page.tsx:164-168 | The balance changes; the group is written |
| Settings.SettingsPage.RequestNotificationPermission | src/app/settings/page.tsx:171-204 | Unsupported or already granted: no change. Otherwise the browser's answer is stored, with success exactly on `granted` |
| Settings.LoadMergesAndReplaces | src/app/settings/page.tsx:73-90 | Listening controls merge key by key; the other flag groups are replaced; a missing group is kept; an empty document changes nothing |
| Settings.QualityChoiceReachesPlayer | src/app/settings/page.tsx:130-144 | A quality chosen for a kind and connection is the one the player uses for them, and leaves the other kind alone |
| Settings.StreamingSwitchLeavesSearchFlag | src/app/settings/page.tsx:124-128 | The streaming switch writes `youtubeMusic`, so the flag the search page reads never changes |
| AppShell.IsActive | src/components/app-shell.tsx:41-44 | `/` is active only on `/`; any other link is active on every path it prefixes |
| AppShell.PrefixMatchQuirk | src/components/app-shell.tsx:41-44 | `/search` also lights up on `/searchx` |
| AppShell.OneBottomLinkLit | src/components/app-shell.tsx:118-136 | At most one bottom-navigation link is lit |
| AppShell.SidebarLinks | src/components/app-shell.tsx:68-95 | Home always comes first; there are more links only when a user is signed in |
| AppShell.FrameFor | src/components/app-shell.tsx:50-139 | The login and sign-up pages get no shell; every other page gets the players exactly when a song is loaded |
| AppShell.NoPlayerOnSignIn | src/components/app-shell.tsx:50-52 | No player on login or sign-up |

## Left out

- Toasts, `console` logging, React transitions and the 500 ms search debounce are not
  modelled: they change no state the model holds.
- The `requestAnimationFrame` scheduling in the queue sheet and the mini player is not
  modelled; the model treats one frame as one method call.
- The connection type is a parameter (`Connection`); the `navigator.connection`
  listener that detects it is not modelled.
- The shuffled order is a parameter of `PlaySong`, required to be a permutation of the
  new queue; the random comparator is not modelled.
- `toggleShowVideo` and the seek to `currentTime` in `onPlayerReady` are not modelled:
  they depend on the YouTube iframe player's clock.
- A rejected `audio.play()` promise and the effects' unmount clean-up are not modelled.
- The routing effect's tests that the YouTube player has `playVideo` and `stopVideo`
  (player-context.tsx lines 233 and 241) are not modelled; an attached player is taken
  to have both.
- PlayerContext.Player.ApplyQuality: the quality effect's `getIframe` guard (line 214) is
  not modelled; the quality is set whenever a YouTube player is attached.
- PlayerContext.Player.SyncBackends: the `src` getter of a real audio element returns
  the resolved URL, so `''` or a relative source reads back as a different text. The
  model reads `src` back as it was assigned. In the source the `!==` test at line 243
  therefore fires again, and reloads the element, for a song whose `audioSrc` is `''`
  or relative; the model reloads only on a real change.
- PlayerProperties.RoutingIsIdempotent: holds only where `src` reads back as assigned,
  as just described. In the source a second run reloads a `''` or relative source.
- The memoised `currentTime` in the queue sheet is not modelled, because nothing
  reads it.
- A lyrics fetch that settles after the song has changed is not modelled; the model
  settles each fetch in order.
- `parseFloat` of a lyric start is modelled by the `TimeValue` datatype (`NaN` or
  seconds); numeric text parsing is not.
- The YouTube Data API and the lyrics scraper are not called; their responses are
  inputs.
- `JSON.stringify` equality of playlists is modelled as value equality; key order and
  absent-versus-false flags are not.
- `Infinity` and negative media times are not modelled.
- TimeDisplay.FormatTime: requires a `NaN` or a non-negative time and does not describe
  `Infinity`.
- MiniPlayer.MiniPlayerBar.UpdateProgress: requires every backend time to be such a
  value.
- FullScreenPlayer.FullScreenView.OnTimeUpdate: for a `NaN` or zero duration, the
  source sets the progress to `NaN` or `Infinity`. The model cannot hold those values in
  `progress`, so it leaves the progress unchanged there; the `currentTime` text is
  modelled in every case.
- FullScreenPlayer.FullScreenView.HandleProgressChange: a `NaN` duration is modelled as
  leaving everything unchanged, standing for the `TypeError` thrown by assigning a
  non-finite `currentTime`.
- Sign-in redirects on the library and settings pages and the shell's logout are not
  modelled; the signed-in state is an input.
- Several components read `seek`, `handleCreatePlaylist`, `deletePlaylists`,
  `equaliserSettings`, `setEqualiserSettings`, `isEqEnabled` and `toggleEq` from the
  player context. Neither the context's type (player-context.tsx lines 29-57) nor the
  value the provider passes down (lines 366-393) defines any of them, so in the source
  as written they are all `undefined`. The model treats them as callbacks and values
  that a complete context would supply. Each handler returns what it would pass on, and
  its contract describes the handler as it would behave with that callback present. In
  the source, calling an undefined callback throws a `TypeError` at the call, before the
  handler's remaining statements. Reading `equaliserSettings` fails earlier, during
  render (see `Settings.SettingsPage` below).
- MiniPlayer.MiniPlayerBar.ProgressChange: in the source `seek(newProgress)` (player.tsx
  line 96) throws before `setProgress` at line 97, so the progress is never shown. The
  model promises `progress == value` and returns the seek target.
- Library.LibraryPage.DeleteSelected: in the source `deletePlaylists(selectedPlaylists)`
  (library/page.tsx line 126) fails before the clears at lines 131-132. The model
  promises that the selection is cleared and selection mode ends.
- Equaliser.EqualiserDialog.SaveChanges: in the source `setEqualiserSettings(localSettings)`
  (equaliser-dialog.tsx line 67) throws before `onOpenChange(false)`, so the dialog stays
  open. The model promises that the gains are saved and the dialog closes.
- Equaliser.EqualiserDialog.constructor: in the source `equaliserSettings` is
  `undefined`, so `localSettings` starts `undefined` (line 46) and the slider reading
  `localSettings[index]` (lines 91-105) fails. These slider elements are built even while
  the dialog is closed, so the dialog's first render throws. The model requires ten gains
  within range.
- Settings.SettingsPage: two facts of the source make the page's handlers unreachable.
  (1) The page mounts `<EqualiserDialog>` unconditionally once loading ends
  (settings/page.tsx line 598, after the guard at line 206), and that dialog's render
  throws, as the `Equaliser.EqualiserDialog.constructor` line says. So the loaded page
  never commits a render, its load effect never runs, and no handler can be reached.
  (2) The initial state reads `Notification.permission` (line 36), guarded only by
  `typeof window`, so on a browser without the Notification API the page throws there.
  The "unsupported" branch that `RequestNotificationPermission` models therefore never
  runs. The model describes the page as if the dialog received settings and the API
  existed whenever the page renders.
- IsoDuration.DurationSeconds: the total uses unbounded integers. In the source,
  `parseInt` on a digit run above 2^53 loses precision, and past 10^21 the minutes from
  `Math.floor(totalSeconds / 60)` print in exponent form. Neither is modelled.
- `isEqEnabled` disabling the equaliser sliders is not modelled.
- Library.LibraryPage.PlaylistSelect: `PlaylistTabContent` takes no props
  (playlist-tab-content.tsx line 8), so the page's selection handler is never called in
  the source, and Delete stays disabled. The model describes the handler as written, as
  if a card reported a selection.
- `URL.createObjectURL` is modelled by the file's `objectUrl` field.
- The stored user document is assumed to be an object of scalar fields.
- Slider bounds are preconditions of the equaliser, crossfade and balance change
  handlers, as the sliders enforce: gains −12 to 12, crossfade 0 to 12 and balance −1
  to 1. The progress handlers (`MiniPlayer.MiniPlayerBar.ProgressChange`,
  `FullScreenPlayer.FullScreenView.HandleProgressChange`) carry no 0 to 100 bound, so
  their contracts also describe values the slider never sends.
- Equaliser.EqualiserDialog.Resync: the settings handed to the dialog are assumed to be
  ten gains within range.
- Library.SinglePick: picking the same files twice gives the same ids again. The model
  states distinct ids only within one pick.
