/**
 * The settings page (src/app/settings/page.tsx). Each group of settings is a record
 * held in page state; every handler builds a new record with one field changed, keeps
 * it, and writes the whole group to the user's document. Loading the document merges
 * some groups over what the page holds and replaces the others.
 */
module Settings {
  import opened Wrappers
  import opened PlayerContext

  /** A JSON scalar as a settings field holds it. */
  datatype Value = Flag(b: bool) | Number(x: real) | Text(s: string)

  /** One settings group: a JSON object of scalars. */
  type Group = map<string, Value>

  /** What `updateSetting` sends for a key. */
  datatype SettingValue = GroupValue(group: Group) | QualityValue(quality: PlaybackQuality) | ThemeValue(theme: string)

  /** The payload of `setDoc(userDocRef, { settings: { [key]: value } }, { merge: true })`. */
  datatype Write = Write(settings: map<string, SettingValue>)

  /** `updateSetting(key, value)`: no write without a document reference. */
  function UpdateSetting(hasDocRef: bool, key: string, value: SettingValue): (r: Option<Write>)
    ensures r.Some? <==> hasDocRef
    ensures r.Some? ==> r.value.settings.Keys == {key} && r.value.settings[key] == value
  {
    if hasDocRef then Some(Write(map[key := value])) else None
  }

  /** The groups a user document may store; an absent group is `None`. */
  datatype StoredQuality = StoredQuality(audio: Option<map<string, string>>, video: Option<map<string, string>>)
  datatype StoredSettings = StoredSettings(
    notifications: Option<Group>,
    playbackQuality: Option<StoredQuality>,
    streamingServices: Option<Group>,
    trackTransitions: Option<Group>,
    listeningControls: Option<Group>)

  /** `{ ...prev, ...stored }` where `stored` may be `undefined`. */
  function Spread<V>(prev: map<string, V>, stored: Option<map<string, V>>): (r: map<string, V>)
    ensures r.Keys == prev.Keys + (if stored.Some? then stored.value.Keys else {})
    ensures forall k :: k in r ==> r[k] == (if stored.Some? && k in stored.value then stored.value[k] else prev[k])
  {
    if stored.Some? then prev + stored.value else prev
  }

  const DefaultNotifications: Group := map["newReleases" := Flag(true), "playlistUpdates" := Flag(false)]
  const DefaultQuality := PlaybackQuality(
    map["wifi" := "automatic", "cellular" := "automatic"],
    map["wifi" := "standard", "cellular" := "standard"])
  const DefaultStreaming: Group := map["youtubeMusic" := Flag(true)]
  const DefaultTransitions: Group := map["gaplessPlayback" := Flag(true), "automix" := Flag(false), "crossfade" := Number(0.0)]
  const DefaultControls: Group := map["autoPlay" := Flag(true), "monoAudio" := Flag(false),
    "equaliserEnabled" := Flag(false), "volumeNormalization" := Flag(true), "balance" := Number(0.0)]

  /** The crossfade slider: whole seconds from 0 to 12. The balance slider: -1 to 1. */
  const MaxCrossfade := 12
  predicate IsBalance(x: real) { -1.0 <= x <= 1.0 }

  datatype MediaKind = AudioQuality | VideoQuality

  /** The outcome of asking for notification permission, as the toast reports it. */
  datatype PermissionToast = Unsupported | AlreadyEnabled | Enabled | PermissionDenied

  /** `getPermissionStatusText`. */
  function PermissionText(permission: string): (r: string)
    ensures permission == "granted" ==> r == "Permissions granted"
    ensures permission == "denied" ==> r == "Permissions denied"
    ensures permission != "granted" && permission != "denied" ==> r == "Enable browser notifications"
  {
    if permission == "granted" then "Permissions granted"
    else if permission == "denied" then "Permissions denied"
    else "Enable browser notifications"
  }

  /** The theme a switch position selects. */
  function ThemeFor(isDarkMode: bool): (r: string)
    ensures r == "dark" <==> isDarkMode
    ensures r == "light" <==> !isDarkMode
  {
    if isDarkMode then "dark" else "light"
  }

  /** The `youtube` flag the search page reads from `streamingServices`: `Some(b)` for a stored boolean. */
  function YoutubeFlag(services: Group): Option<bool> {
    if "youtube" in services && services["youtube"].Flag? then Some(services["youtube"].b) else None
  }

  /** The five groups the page holds in state. */
  datatype PageGroups = PageGroups(
    notifications: Group,
    quality: PlaybackQuality,
    streaming: Group,
    transitions: Group,
    controls: Group)

  const DefaultGroups := PageGroups(DefaultNotifications, DefaultQuality, DefaultStreaming,
    DefaultTransitions, DefaultControls)

  /**
   * The groups after the load effect reads a stored document: notifications, streaming
   * services and track transitions are replaced by the stored group; both quality groups
   * and the listening controls are merged over the page's, field by field; a group the
   * document lacks is left alone.
   */
  function AfterLoad(g: PageGroups, s: StoredSettings): PageGroups {
    PageGroups(
      s.notifications.GetOr(g.notifications),
      if s.playbackQuality.Some? then
        PlaybackQuality(Spread(g.quality.audio, s.playbackQuality.value.audio),
          Spread(g.quality.video, s.playbackQuality.value.video))
      else g.quality,
      s.streamingServices.GetOr(g.streaming),
      s.trackTransitions.GetOr(g.transitions),
      Spread(g.controls, s.listeningControls))
  }

  class SettingsPage {
    var notificationPrefs: Group
    var playbackQuality: PlaybackQuality
    var streamingServices: Group
    var trackTransitions: Group
    var listeningControls: Group
    var theme: string
    var notificationPermission: string
    /** Whether `userDocRef` exists: a user is signed in and the database is available. */
    var hasDocRef: bool

    /** The page as first rendered, before the document loads. */
    constructor (permission: string, theme0: string, signedIn: bool)
      ensures notificationPrefs == DefaultNotifications && playbackQuality == DefaultQuality
      ensures streamingServices == DefaultStreaming && trackTransitions == DefaultTransitions
      ensures listeningControls == DefaultControls
      ensures theme == theme0 && notificationPermission == permission && hasDocRef == signedIn
    {
      notificationPrefs, playbackQuality, streamingServices := DefaultNotifications, DefaultQuality, DefaultStreaming;
      trackTransitions, listeningControls := DefaultTransitions, DefaultControls;
      theme, notificationPermission, hasDocRef := theme0, permission, signedIn;
    }

    function Groups(): PageGroups
      reads this
    {
      PageGroups(notificationPrefs, playbackQuality, streamingServices, trackTransitions, listeningControls)
    }

    /** The load effect, run whenever the user document changes; `None` is a document without settings. */
    method Load(userData: Option<StoredSettings>)
      modifies this
      ensures userData.Some? ==> Groups() == AfterLoad(old(Groups()), userData.value)
      ensures userData.None? ==> Groups() == old(Groups())
      ensures theme == old(theme) && notificationPermission == old(notificationPermission) && hasDocRef == old(hasDocRef)
    {
      if userData.Some? {
        var g := AfterLoad(Groups(), userData.value);
        notificationPrefs, playbackQuality, streamingServices := g.notifications, g.quality, g.streaming;
        trackTransitions, listeningControls := g.transitions, g.controls;
      }
    }

    /** `handleThemeChange`: the theme switches and is written. */
    method ThemeChange(isDarkMode: bool) returns (write: Option<Write>)
      modifies this
      ensures theme == ThemeFor(isDarkMode)
      ensures write == UpdateSetting(hasDocRef, "theme", ThemeValue(ThemeFor(isDarkMode)))
      ensures notificationPrefs == old(notificationPrefs) && playbackQuality == old(playbackQuality)
      ensures streamingServices == old(streamingServices) && trackTransitions == old(trackTransitions)
      ensures listeningControls == old(listeningControls) && notificationPermission == old(notificationPermission)
      ensures hasDocRef == old(hasDocRef)
    {
      var newTheme := if isDarkMode then "dark" else "light";
      theme := newTheme;
      write := UpdateSetting(hasDocRef, "theme", ThemeValue(newTheme));
    }

    /** `handleNotificationPrefChange`: one preference changes and the group is written. */
    method NotificationPrefChange(pref: string, value: bool) returns (write: Option<Write>)
      requires pref in {"newReleases", "playlistUpdates"}
      modifies this
      ensures notificationPrefs == old(notificationPrefs)[pref := Flag(value)]
      ensures write == UpdateSetting(hasDocRef, "notifications", GroupValue(notificationPrefs))
      ensures playbackQuality == old(playbackQuality) && streamingServices == old(streamingServices)
      ensures trackTransitions == old(trackTransitions) && listeningControls == old(listeningControls)
      ensures theme == old(theme) && notificationPermission == old(notificationPermission) && hasDocRef == old(hasDocRef)
    {
      var newPrefs := notificationPrefs[pref := Flag(value)];
      notificationPrefs := newPrefs;
      write := UpdateSetting(hasDocRef, "notifications", GroupValue(newPrefs));
    }

    /** `handleStreamingServiceChange('youtubeMusic', value)`. */
    method StreamingServiceChange(service: string, value: bool) returns (write: Option<Write>)
      requires service == "youtubeMusic"
      modifies this
      ensures streamingServices == old(streamingServices)[service := Flag(value)]
      ensures write == UpdateSetting(hasDocRef, "streamingServices", GroupValue(streamingServices))
      ensures notificationPrefs == old(notificationPrefs) && playbackQuality == old(playbackQuality)
      ensures trackTransitions == old(trackTransitions) && listeningControls == old(listeningControls)
      ensures theme == old(theme) && notificationPermission == old(notificationPermission) && hasDocRef == old(hasDocRef)
    {
      var newServices := streamingServices[service := Flag(value)];
      streamingServices := newServices;
      write := UpdateSetting(hasDocRef, "streamingServices", GroupValue(newServices));
    }

    /**
     * `handlePlaybackQualityChange(type, connection, value)`: the one leaf
     * `[type][connection]` takes the value, and the whole quality record is written.
     */
    method PlaybackQualityChange(kind: MediaKind, connection: string, value: string) returns (write: Option<Write>)
      requires connection in {"wifi", "cellular"}
      modifies this
      ensures kind == AudioQuality ==> playbackQuality == old(playbackQuality).(audio := old(playbackQuality).audio[connection := value])
      ensures kind == VideoQuality ==> playbackQuality == old(playbackQuality).(video := old(playbackQuality).video[connection := value])
      ensures write == UpdateSetting(hasDocRef, "playbackQuality", QualityValue(playbackQuality))
      ensures notificationPrefs == old(notificationPrefs) && streamingServices == old(streamingServices)
      ensures trackTransitions == old(trackTransitions) && listeningControls == old(listeningControls)
      ensures theme == old(theme) && notificationPermission == old(notificationPermission) && hasDocRef == old(hasDocRef)
    {
      var newQuality := match kind
        case AudioQuality => playbackQuality.(audio := playbackQuality.audio[connection := value])
        case VideoQuality => playbackQuality.(video := playbackQuality.video[connection := value]);
      playbackQuality := newQuality;
      write := UpdateSetting(hasDocRef, "playbackQuality", QualityValue(newQuality));
    }

    /** `handleTrackTransitionChange`: gapless playback or automix. */
    method TrackTransitionChange(pref: string, value: bool) returns (write: Option<Write>)
      requires pref in {"gaplessPlayback", "automix"}
      modifies this
      ensures trackTransitions == old(trackTransitions)[pref := Flag(value)]
      ensures write == UpdateSetting(hasDocRef, "trackTransitions", GroupValue(trackTransitions))
      ensures notificationPrefs == old(notificationPrefs) && playbackQuality == old(playbackQuality)
      ensures streamingServices == old(streamingServices) && listeningControls == old(listeningControls)
      ensures theme == old(theme) && notificationPermission == old(notificationPermission) && hasDocRef == old(hasDocRef)
    {
      var newTransitions := trackTransitions[pref := Flag(value)];
      trackTransitions := newTransitions;
      write := UpdateSetting(hasDocRef, "trackTransitions", GroupValue(newTransitions));
    }

    /** `handleCrossfadeChange`: the slider's whole number of seconds. */
    method CrossfadeChange(value: int) returns (write: Option<Write>)
      requires 0 <= value <= MaxCrossfade
      modifies this
      ensures trackTransitions == old(trackTransitions)["crossfade" := Number(value as real)]
      ensures write == UpdateSetting(hasDocRef, "trackTransitions", GroupValue(trackTransitions))
      ensures notificationPrefs == old(notificationPrefs) && playbackQuality == old(playbackQuality)
      ensures streamingServices == old(streamingServices) && listeningControls == old(listeningControls)
      ensures theme == old(theme) && notificationPermission == old(notificationPermission) && hasDocRef == old(hasDocRef)
    {
      var newTransitions := trackTransitions["crossfade" := Number(value as real)];
      trackTransitions := newTransitions;
      write := UpdateSetting(hasDocRef, "trackTransitions", GroupValue(newTransitions));
    }

    /** `handleListeningControlChange`: any control but the balance. */
    method ListeningControlChange(control: string, value: bool) returns (write: Option<Write>)
      requires control in {"autoPlay", "monoAudio", "equaliserEnabled", "volumeNormalization"}
      modifies this
      ensures listeningControls == old(listeningControls)[control := Flag(value)]
      ensures write == UpdateSetting(hasDocRef, "listeningControls", GroupValue(listeningControls))
      ensures notificationPrefs == old(notificationPrefs) && playbackQuality == old(playbackQuality)
      ensures streamingServices == old(streamingServices) && trackTransitions == old(trackTransitions)
      ensures theme == old(theme) && notificationPermission == old(notificationPermission) && hasDocRef == old(hasDocRef)
    {
      var newControls := listeningControls[control := Flag(value)];
      listeningControls := newControls;
      write := UpdateSetting(hasDocRef, "listeningControls", GroupValue(newControls));
    }

    /** `handleBalanceChange`. */
    method BalanceChange(value: real) returns (write: Option<Write>)
      requires IsBalance(value)
      modifies this
      ensures listeningControls == old(listeningControls)["balance" := Number(value)]
      ensures write == UpdateSetting(hasDocRef, "listeningControls", GroupValue(listeningControls))
      ensures notificationPrefs == old(notificationPrefs) && playbackQuality == old(playbackQuality)
      ensures streamingServices == old(streamingServices) && trackTransitions == old(trackTransitions)
      ensures theme == old(theme) && notificationPermission == old(notificationPermission) && hasDocRef == old(hasDocRef)
    {
      var newControls := listeningControls["balance" := Number(value)];
      listeningControls := newControls;
      write := UpdateSetting(hasDocRef, "listeningControls", GroupValue(newControls));
    }

    /**
     * `handleNotificationPermission`, with `response` the browser's answer to the request.
     * Without notification support, or with permission already granted, nothing is asked.
     */
    method RequestNotificationPermission(supported: bool, response: string) returns (toast: PermissionToast)
      modifies this
      ensures !supported ==> toast == Unsupported && notificationPermission == old(notificationPermission)
      ensures supported && old(notificationPermission) == "granted" ==>
        toast == AlreadyEnabled && notificationPermission == old(notificationPermission)
      ensures supported && old(notificationPermission) != "granted" ==>
        notificationPermission == response && (toast == Enabled <==> response == "granted") &&
        (toast != Enabled ==> toast == PermissionDenied)
      ensures notificationPrefs == old(notificationPrefs) && playbackQuality == old(playbackQuality)
      ensures streamingServices == old(streamingServices) && trackTransitions == old(trackTransitions)
      ensures listeningControls == old(listeningControls) && theme == old(theme) && hasDocRef == old(hasDocRef)
    {
      if !supported {
        return Unsupported;
      }
      if notificationPermission == "granted" {
        return AlreadyEnabled;
      }
      notificationPermission := response;
      toast := if response == "granted" then Enabled else PermissionDenied;
    }
  }

  /**
   * Loading, group by group: a merged group keeps every field the document does not
   * store and takes every field it does; a replaced group keeps nothing of the page's.
   * So listening controls stored without `balance` keep the page's balance, while
   * transitions stored without `crossfade` lose it.
   */
  lemma LoadMergesAndReplaces(g: PageGroups, s: StoredSettings, k: string)
    ensures var r := AfterLoad(g, s);
      (s.listeningControls.Some? && k in g.controls && k !in s.listeningControls.value ==>
        k in r.controls && r.controls[k] == g.controls[k]) &&
      (s.listeningControls.Some? && k in s.listeningControls.value ==>
        k in r.controls && r.controls[k] == s.listeningControls.value[k]) &&
      (s.trackTransitions.Some? ==> r.transitions == s.trackTransitions.value) &&
      (s.notifications.Some? ==> r.notifications == s.notifications.value) &&
      (s.streamingServices.Some? ==> r.streaming == s.streamingServices.value) &&
      (s.playbackQuality.Some? && s.playbackQuality.value.video.None? ==> r.quality.video == g.quality.video)
    ensures AfterLoad(g, StoredSettings(None, None, None, None, None)) == g
  {
  }

  /**
   * A quality chosen on the settings page and written is what the player reads back for
   * that kind and connection, and what it asks the YouTube player for.
   */
  lemma QualityChoiceReachesPlayer(q: PlaybackQuality, conn: Connection, value: string)
    requires conn != UnknownConnection
    ensures var written := q.(video := q.video[ConnectionKey(conn) := value]);
      QualitySetting(Some(written), true, conn) == Some(value) &&
      QualitySetting(Some(written), false, conn) == QualitySetting(Some(q), false, conn)
    ensures var written := q.(audio := q.audio[ConnectionKey(conn) := value]);
      QualitySetting(Some(written), false, conn) == Some(value) &&
      QualitySetting(Some(written), true, conn) == QualitySetting(Some(q), true, conn)
    ensures value == "very-high" ==>
      YoutubeQuality(QualitySetting(Some(q.(video := q.video[ConnectionKey(conn) := value])), true, conn)) == "highres"
  {
  }

  /**
   * The streaming switch writes `youtubeMusic`, never the `youtube` flag the search page
   * reads, so flipping it leaves the kind of search unchanged; from the page's defaults
   * the flag is absent.
   */
  lemma StreamingSwitchLeavesSearchFlag(services: Group, value: bool)
    ensures YoutubeFlag(services["youtubeMusic" := Flag(value)]) == YoutubeFlag(services)
    ensures YoutubeFlag(DefaultStreaming) == None
  {
  }
}
