/**
 * The playback orchestration of js/player.js.
 *
 * `State` is the one shared aggregate the source keeps in `state`, `players` and `timers`:
 * the track registry, the filtered view, the session flags, the volume settings and the
 * persisted store they are mirrored to, the progress-timer handle, the main widget and the
 * background channels. Widgets are append-only command logs; callbacks scheduled with
 * `setTimeout` are kept as pending actions that `RunScheduled` fires in any order.
 */
module Player {
  import opened Options
  import opened Widget
  import opened Tracks
  import Navigation
  import RecentPlays
  import opened Volume

  const VIDEO_LOAD_DELAY: nat := 100
  const BG_MUSIC_SWITCH_DELAY: nat := 500
  const BG_MUSIC_INIT_DELAY: nat := 1000
  const DASHBOARD: string := "dashboard"
  /** The section whose background music is started once the channels are created. */
  const DEFAULT_SECTION: string := "dashboard"

  /** The widget's state-change notifications. */
  datatype PlayerEvent = Unstarted | Ended | Playing | Paused | Buffering | Cued

  /** A continuation handed to `setTimeout`. */
  datatype Action =
    | PlayMain                         // players.main.playVideo() after a load
    | ResumeBackground(section: string) // players.bg[section].playVideo() after a re-cue
    | InitBackground                   // initBackgroundPlayers(); playBackgroundMusic('dashboard')

  datatype Scheduled = Scheduled(action: Action, delayMs: nat)

  /** stopAllBackgroundMusic on the channel widgets: every ready channel gets `pauseVideo()`, the others nothing. */
  function PauseReady(logs: map<string, seq<Command>>, ready: set<string>): (r: map<string, seq<Command>>)
    ensures r.Keys == logs.Keys
  {
    map k | k in logs :: if k in ready then logs[k] + [Pause] else logs[k]
  }

  /** playBackgroundMusic on the channel widgets: stop all, then play `section` if it exists and is ready. */
  function ActivateLogs(logs: map<string, seq<Command>>, ready: set<string>, section: string): (r: map<string, seq<Command>>)
    ensures r.Keys == logs.Keys
  {
    var paused := PauseReady(logs, ready);
    if section in paused && section in ready then paused[section := paused[section] + [Play]] else paused
  }

  /**
   * Exclusive play: after activating a section, every other ready channel's last command is
   * a pause, and the activated channel's last command is a play exactly when it is ready.
   */
  lemma ActivateIsExclusive(logs: map<string, seq<Command>>, ready: set<string>, section: string)
    requires ready <= logs.Keys
    ensures var r := ActivateLogs(logs, ready, section);
            && (forall k :: k in ready && k != section ==> r[k] != [] && r[k][|r[k]| - 1] == Pause)
            && (section in ready ==> r[section] != [] && r[section][|r[section]| - 1] == Play)
            && (forall k :: k in logs && k !in ready ==> r[k] == logs[k])
  {
  }

  class State {
    // the track registry and the view the search narrows it to
    var registry: seq<Track>
    var filteredPlaylist: seq<nat>
    // the playback session
    var currentSongIndex: nat
    var hasMain: bool
    var playerReady: bool
    var isPlaying: bool
    var isRepeatOne: bool
    var recentPlays: seq<Track>
    var mainLog: seq<Command>
    // volume, mute and the store they are persisted to
    var volume: int
    var isMuted: bool
    var storage: map<string, Setting>
    // callbacks waiting on timers, and the progress poll
    var pending: seq<Scheduled>
    var progressTimer: Option<nat>
    var liveIntervals: set<nat>
    var nextTimerId: nat
    // background channels: what decides which exist, their widgets, their readiness
    const ownerSections: set<string>
    const characterMusic: map<string, string>
    var bgLogs: map<string, seq<Command>>
    var bgReady: set<string>
    var currentBgPlayer: Option<string>
    // the character age whose profile is shown
    var currentAge: string

    ghost predicate Valid()
      reads this
    {
      ViewValid() && WidgetValid() && LedgerValid() && TimersValid() && ChannelsValid() && PendingValid()
    }

    /** The view holds distinct registry positions. */
    ghost predicate ViewValid()
      reads this`filteredPlaylist, this`registry
    {
      && (forall i :: 0 <= i < |filteredPlaylist| ==> filteredPlaylist[i] < |registry|)
      && Navigation.Distinct(filteredPlaylist)
    }

    /**
     * The main widget is ready only once it exists and gets no command before; the volume is
     * in range; and the widget's output follows the stored settings once it is ready, while it
     * is never muted before.
     */
    ghost predicate WidgetValid()
      reads this`hasMain, this`playerReady, this`mainLog, this`volume, this`isMuted
    {
      && (playerReady ==> hasMain)
      && (!hasMain ==> mainLog == [])
      && 0 <= volume <= 100
      && (playerReady ==> AudioAfter(mainLog).muted == isMuted
                          && Output(AudioAfter(mainLog)) == (if isMuted then 0 else volume))
      && (!playerReady ==> !AudioAfter(mainLog).muted)
    }

    /** The ledger is within its cap and has one entry per media identifier. */
    ghost predicate LedgerValid()
      reads this`recentPlays
    {
      |recentPlays| <= RecentPlays.CAP && RecentPlays.DistinctIds(recentPlays)
    }

    /** At most one progress interval is alive, and it is the one whose handle is kept. */
    ghost predicate TimersValid()
      reads this`progressTimer, this`liveIntervals, this`nextTimerId
    {
      && liveIntervals == (if progressTimer.Some? then {progressTimer.value} else {})
      && 0 < nextTimerId
      && (forall t :: t in liveIntervals ==> 0 < t < nextTimerId)
    }

    /** Channels exist only for the dashboard and the owner's sections, and the active one is ready. */
    ghost predicate ChannelsValid()
      reads this`bgLogs, this`bgReady, this`currentBgPlayer
    {
      && bgLogs.Keys <= ownerSections + {DASHBOARD}
      && bgReady <= bgLogs.Keys
      && (currentBgPlayer.Some? ==> currentBgPlayer.value in bgReady)
    }

    ghost predicate PendingValid()
      reads this`pending, this`hasMain, this`bgLogs
    {
      forall k :: 0 <= k < |pending| ==> Runnable(pending[k].action)
    }

    /** A pending action only refers to widgets that exist. */
    predicate Runnable(a: Action)
      reads this`hasMain, this`bgLogs
    {
      match a
      case PlayMain => hasMain
      case ResumeBackground(section) => section in bgLogs
      case InitBackground => true
    }

    /**
     * The start-up state. `savedVolume` and `savedMuted` are what the store module read from
     * the persisted settings; `ownerSections` are the sections other than the dashboard that
     * the owner's data gives background music (the guide); `characterMusic` gives each age's
     * background-music identifier ("" or absent for none).
     */
    constructor (tracks: seq<Track>, savedVolume: int, savedMuted: bool, age: string,
                 ownerSections: set<string>, characterMusic: map<string, string>)
      requires 0 <= savedVolume <= 100
      ensures Valid()
      ensures registry == tracks && filteredPlaylist == [] && currentSongIndex == 0
      ensures !hasMain && !playerReady && !isPlaying && !isRepeatOne && recentPlays == []
      ensures volume == savedVolume && isMuted == savedMuted && storage == map[]
      ensures pending == [] && progressTimer == None && liveIntervals == {}
      ensures this.ownerSections == ownerSections && this.characterMusic == characterMusic
      ensures bgLogs == map[] && bgReady == {} && currentBgPlayer == None && currentAge == age
    {
      registry, filteredPlaylist, currentSongIndex := tracks, [], 0;
      hasMain, playerReady, isPlaying, isRepeatOne := false, false, false, false;
      recentPlays, mainLog := [], [];
      volume, isMuted, storage := savedVolume, savedMuted, map[];
      pending, progressTimer, liveIntervals, nextTimerId := [], None, {}, 1;
      this.ownerSections, this.characterMusic := ownerSections, characterMusic;
      bgLogs, bgReady, currentBgPlayer := map[], {}, None;
      currentAge := age;
    }

    // ---------------------------------------------------------------- start-up

    /**
     * The video API's ready callback (setupYouTubeReady). With a non-empty registry it
     * resolves every track's media identifier and cover (`extract` is the link parser and
     * `encode` is encodeURIComponent, both outside this model), creates the main widget and
     * shows the whole registry; in every case it schedules the background-channel start.
     */
    method OnYouTubeApiReady(extract: string -> Option<string>, encode: string -> string)
      requires Valid() && !hasMain
      modifies this`registry, this`hasMain, this`filteredPlaylist, this`pending
      ensures Valid()
      ensures |registry| == |old(registry)|
      ensures forall i :: 0 <= i < |registry| ==>
                registry[i] == Resolve(old(registry)[i], extract(old(registry)[i].link), encode)
      ensures hasMain == (|registry| > 0)
      ensures |registry| > 0 ==> filteredPlaylist == seq(|registry|, i => i)
      ensures |registry| == 0 ==> filteredPlaylist == old(filteredPlaylist)
      ensures pending == old(pending) + [Scheduled(InitBackground, BG_MUSIC_INIT_DELAY)]
    {
      if |registry| > 0 {
        var i := 0;
        while i < |registry|
          invariant 0 <= i <= |registry| == |old(registry)|
          invariant forall j :: 0 <= j < i ==>
                      registry[j] == Resolve(old(registry)[j], extract(old(registry)[j].link), encode)
          invariant forall j :: i <= j < |registry| ==> registry[j] == old(registry)[j]
          invariant unchanged(this`hasMain, this`filteredPlaylist, this`pending)
        {
          var item := registry[i];
          registry := registry[i := Resolve(item, extract(item.link), encode)];
          i := i + 1;
        }
        hasMain := true;
        filteredPlaylist := seq(|registry|, i => i);
      }
      pending := pending + [Scheduled(InitBackground, BG_MUSIC_INIT_DELAY)];
    }

    /** The main widget's ready callback: it becomes ready and gets the stored mute or volume. */
    method OnPlayerReady()
      requires Valid() && hasMain
      modifies this`playerReady, this`mainLog
      ensures Valid() && playerReady
      ensures mainLog == old(mainLog) + OnReady(isMuted, volume)
      ensures Output(AudioAfter(mainLog)) == if isMuted then 0 else volume
    {
      if !playerReady {
        OnReadyOutput(mainLog, isMuted, volume);
      } else if isMuted {
        ReapplyOutput(mainLog, true, volume);
      } else {
        OnReadyOutput(mainLog, false, volume);
      }
      playerReady := true;
      if isMuted {
        mainLog := mainLog + [Mute];
      } else {
        mainLog := mainLog + [Widget.SetVolume(volume)];
      }
    }

    // ---------------------------------------------------------------- playback session

    /**
     * The effect of a play request for registry position `index`: the index is recorded;
     * only when the widget is ready and the track has a media identifier does the widget get
     * a load, a play scheduled after the load delay, and the ledger the track; otherwise the
     * widget, the pending callbacks and the ledger are left alone.
     */
    twostate predicate PlayRequested(index: nat)
      reads this
    {
      && currentSongIndex == index
      && if old(hasMain && playerReady) && index < |registry| && HasId(registry[index]) then
           && mainLog == old(mainLog) + [Load(registry[index].youtubeId.value)]
           && pending == old(pending) + [Scheduled(PlayMain, VIDEO_LOAD_DELAY)]
           && recentPlays == RecentPlays.Add(old(recentPlays), registry[index])
         else
           && mainLog == old(mainLog) && pending == old(pending) && recentPlays == old(recentPlays)
    }

    method PlaySpecificSong(index: nat)
      requires Valid() && (playerReady ==> index < |registry|)
      modifies this`currentSongIndex, this`mainLog, this`pending, this`recentPlays
      ensures Valid() && PlayRequested(index)
    {
      currentSongIndex := index;
      if hasMain && playerReady && HasId(registry[index]) {
        var load := Load(registry[index].youtubeId.value);
        NonAudioKeepsAudio(mainLog, [load]);
        mainLog := mainLog + [load];
        assert WidgetValid();
        pending := pending + [Scheduled(PlayMain, VIDEO_LOAD_DELAY)];
        assert PendingValid();
        AddToRecentPlays(registry[index]);
      }
    }

    method AddToRecentPlays(song: Track)
      requires Valid()
      modifies this`recentPlays
      ensures Valid()
      ensures recentPlays == RecentPlays.Add(old(recentPlays), song)
    {
      RecentPlays.AddKeepsDistinct(recentPlays, song);
      recentPlays := RecentPlays.WithoutId(recentPlays, song.youtubeId);
      recentPlays := [song] + recentPlays;
      if |recentPlays| > RecentPlays.CAP {
        recentPlays := recentPlays[..|recentPlays| - 1];
      }
    }

    /** Plays the view entry after the current track (the view's first entry when the track is not in the view). */
    method PlayNext()
      requires Valid()
      modifies this`currentSongIndex, this`mainLog, this`pending, this`recentPlays
      ensures Valid()
      ensures filteredPlaylist == [] ==> unchanged(this)
      ensures filteredPlaylist != [] ==> PlayRequested(Navigation.NextIndex(filteredPlaylist, old(currentSongIndex)))
    {
      if |filteredPlaylist| == 0 {
        return;
      }
      var currentInFiltered := Navigation.FindPos(filteredPlaylist, currentSongIndex);
      var nextFilteredIndex := Navigation.JsRem(currentInFiltered + 1, |filteredPlaylist|);
      PlaySpecificSong(filteredPlaylist[nextFilteredIndex]);
    }

    /** Plays the view entry before the current track (position len - 2 when the track is not in the view). */
    method PlayPrev()
      requires Valid()
      modifies this`currentSongIndex, this`mainLog, this`pending, this`recentPlays
      ensures Valid()
      ensures filteredPlaylist == [] ==> unchanged(this)
      ensures filteredPlaylist != [] ==> PlayRequested(Navigation.PrevIndex(filteredPlaylist, old(currentSongIndex)))
    {
      if |filteredPlaylist| == 0 {
        return;
      }
      var currentInFiltered := Navigation.FindPos(filteredPlaylist, currentSongIndex);
      var prevFilteredIndex := Navigation.JsRem(currentInFiltered - 1 + |filteredPlaylist|, |filteredPlaylist|);
      PlaySpecificSong(filteredPlaylist[prevFilteredIndex]);
    }

    /** Plays the view entry at `position`, the position drawn at random by the caller. */
    method PlayShuffle(position: nat)
      requires Valid() && (filteredPlaylist != [] ==> position < |filteredPlaylist|)
      modifies this`currentSongIndex, this`mainLog, this`pending, this`recentPlays
      ensures Valid()
      ensures filteredPlaylist == [] ==> unchanged(this)
      ensures filteredPlaylist != [] ==> PlayRequested(Navigation.ShuffleIndex(filteredPlaylist, position))
    {
      if |filteredPlaylist| == 0 {
        return;
      }
      PlaySpecificSong(filteredPlaylist[position]);
    }

    /** Asks the widget to pause or play; `isPlaying` is left for the widget's confirmation. */
    method TogglePlay()
      requires Valid()
      modifies this`mainLog
      ensures Valid()
      ensures mainLog == if hasMain && playerReady then old(mainLog) + [if isPlaying then Pause else Play] else old(mainLog)
    {
      if !hasMain || !playerReady {
        return;
      }
      var c := if isPlaying then Pause else Play;
      NonAudioKeepsAudio(mainLog, [c]);
      mainLog := mainLog + [c];
    }

    method ToggleRepeat()
      modifies this`isRepeatOne
      ensures isRepeatOne == !old(isRepeatOne)
    {
      isRepeatOne := !isRepeatOne;
    }

    twostate predicate SessionUnchanged()
      reads this
    {
      && currentSongIndex == old(currentSongIndex) && mainLog == old(mainLog)
      && pending == old(pending) && recentPlays == old(recentPlays)
    }

    twostate predicate ProgressUnchanged()
      reads this
    {
      progressTimer == old(progressTimer) && liveIntervals == old(liveIntervals) && nextTimerId == old(nextTimerId)
    }

    /** The widget's state-change callback. Only PLAYING and PAUSED write `isPlaying`. */
    method OnPlayerStateChange(event: PlayerEvent)
      requires Valid() && hasMain
      modifies this`isPlaying, this`progressTimer, this`liveIntervals, this`nextTimerId
      modifies this`currentSongIndex, this`mainLog, this`pending, this`recentPlays
      ensures Valid()
      ensures match event
              case Playing =>
                isPlaying && progressTimer == Some(old(nextTimerId)) && liveIntervals == {old(nextTimerId)}
                && SessionUnchanged()
              case Paused =>
                !isPlaying && progressTimer == None && liveIntervals == {} && SessionUnchanged()
              case Ended =>
                && isPlaying == old(isPlaying) && ProgressUnchanged()
                && if isRepeatOne then
                     && mainLog == old(mainLog) + [SeekTo(0), Play] && currentSongIndex == old(currentSongIndex)
                     && pending == old(pending) && recentPlays == old(recentPlays)
                   else if filteredPlaylist == [] then
                     SessionUnchanged()
                   else
                     PlayRequested(Navigation.NextIndex(filteredPlaylist, old(currentSongIndex)))
              case _ => unchanged(this)
    {
      match event
      case Playing =>
        isPlaying := true;
        StartProgressLoop();
      case Paused =>
        isPlaying := false;
        StopProgressLoop();
      case Ended =>
        OnEnded();
      case _ =>
    }

    /** The end-of-track policy: repeat-one seeks to the start and plays again, otherwise the next track is played. */
    method OnEnded()
      requires Valid() && hasMain
      modifies this`currentSongIndex, this`mainLog, this`pending, this`recentPlays
      ensures Valid()
      ensures if isRepeatOne then
                && mainLog == old(mainLog) + [SeekTo(0), Play] && currentSongIndex == old(currentSongIndex)
                && pending == old(pending) && recentPlays == old(recentPlays)
              else if filteredPlaylist == [] then
                SessionUnchanged()
              else
                PlayRequested(Navigation.NextIndex(filteredPlaylist, old(currentSongIndex)))
    {
      if isRepeatOne {
        NonAudioKeepsAudio(mainLog, [SeekTo(0), Play]);
        mainLog := mainLog + [SeekTo(0), Play];
      } else {
        PlayNext();
      }
    }

    // ---------------------------------------------------------------- volume and mute

    method SaveVolumeSettings()
      modifies this`storage
      ensures storage == old(storage)[VOLUME_KEY := Number(volume)][MUTED_KEY := Flag(isMuted)]
    {
      storage := storage[VOLUME_KEY := Number(volume)];
      storage := storage[MUTED_KEY := Flag(isMuted)];
    }

    /** Stores the clamped volume, re-applies mute or volume on a ready widget, and persists both settings. */
    method SetVolume(value: int)
      requires Valid()
      modifies this`volume, this`mainLog, this`storage
      ensures Valid()
      ensures volume == Clamp(value) && 0 <= volume <= 100
      ensures mainLog == if playerReady then old(mainLog) + Reapply(isMuted, volume) else old(mainLog)
      ensures playerReady ==> Output(AudioAfter(mainLog)) == if isMuted then 0 else volume
      ensures storage == old(storage)[VOLUME_KEY := Number(volume)][MUTED_KEY := Flag(isMuted)]
    {
      volume := Clamp(value);
      if hasMain && playerReady {
        ReapplyOutput(mainLog, isMuted, volume);
        if isMuted {
          mainLog := mainLog + [Mute];
        } else {
          mainLog := mainLog + [UnMute, Widget.SetVolume(volume)];
        }
      }
      assert WidgetValid();
      SaveVolumeSettings();
    }

    /** Flips mute, keeps the volume, re-applies mute or volume on a ready widget, and persists both settings. */
    method ToggleMute()
      requires Valid()
      modifies this`isMuted, this`mainLog, this`storage
      ensures Valid()
      ensures isMuted == !old(isMuted)
      ensures mainLog == if playerReady then old(mainLog) + Reapply(isMuted, volume) else old(mainLog)
      ensures playerReady ==> Output(AudioAfter(mainLog)) == if isMuted then 0 else volume
      ensures storage == old(storage)[VOLUME_KEY := Number(volume)][MUTED_KEY := Flag(isMuted)]
    {
      isMuted := !isMuted;
      if hasMain && playerReady {
        ReapplyOutput(mainLog, isMuted, volume);
        if isMuted {
          mainLog := mainLog + [Mute];
        } else {
          mainLog := mainLog + [UnMute, Widget.SetVolume(volume)];
        }
      }
      assert WidgetValid();
      SaveVolumeSettings();
    }

    // ---------------------------------------------------------------- progress poll

    /** Clears the running interval, if any; with none it changes nothing. */
    method StopProgressLoop()
      requires Valid()
      modifies this`progressTimer, this`liveIntervals
      ensures Valid()
      ensures progressTimer == None && liveIntervals == {}
      ensures old(progressTimer) == None ==> unchanged(this)
    {
      if progressTimer.Some? {
        liveIntervals := liveIntervals - {progressTimer.value};
        progressTimer := None;
      }
    }

    /** Clears any running interval first, then starts a fresh one: exactly one is alive afterwards. */
    method StartProgressLoop()
      requires Valid()
      modifies this`progressTimer, this`liveIntervals, this`nextTimerId
      ensures Valid()
      ensures progressTimer == Some(old(nextTimerId)) && liveIntervals == {old(nextTimerId)}
      ensures nextTimerId == old(nextTimerId) + 1
      ensures old(progressTimer).Some? ==> old(progressTimer).value !in liveIntervals
    {
      StopProgressLoop();
      progressTimer := Some(nextTimerId);
      liveIntervals := liveIntervals + {nextTimerId};
      nextTimerId := nextTimerId + 1;
    }

    // ---------------------------------------------------------------- background channels

    /** The background-music identifier of an age's profile, or "" when it has none. */
    function DashboardMusic(age: string): (r: string)
      ensures age in characterMusic ==> r == characterMusic[age]
      ensures age !in characterMusic ==> r == ""
    {
      if age in characterMusic then characterMusic[age] else ""
    }

    /**
     * The channels the background start creates: the dashboard exactly when the current age
     * has background music, and the owner's sections.
     */
    function CreatedChannels(): (r: set<string>)
      reads this`currentAge
      ensures DASHBOARD in r <==> DashboardMusic(currentAge) != ""
      ensures r - {DASHBOARD} == ownerSections - {DASHBOARD}
    {
      (ownerSections - {DASHBOARD}) + (if DashboardMusic(currentAge) != "" then {DASHBOARD} else {})
    }

    /** A background channel's ready callback: it is marked ready and set to the default volume. */
    method OnBackgroundReady(section: string)
      requires Valid() && section in bgLogs
      modifies this`bgReady, this`bgLogs
      ensures Valid()
      ensures bgReady == old(bgReady) + {section}
      ensures bgLogs == old(bgLogs)[section := old(bgLogs)[section] + [Widget.SetVolume(DEFAULT_VOLUME)]]
    {
      bgReady := bgReady + {section};
      bgLogs := bgLogs[section := bgLogs[section] + [Widget.SetVolume(DEFAULT_VOLUME)]];
    }

    /** Pauses every ready channel and forgets the active one. */
    method StopAllBackgroundMusic()
      requires Valid()
      modifies this`bgLogs, this`currentBgPlayer
      ensures Valid()
      ensures bgLogs == PauseReady(old(bgLogs), bgReady)
      ensures currentBgPlayer == None
    {
      PauseReadyChannels();
      currentBgPlayer := None;
      assert ChannelsValid();
      assert PendingValid();
    }

    /** The loop of `stopAllBackgroundMusic`: every ready channel gets a pause, in any order. */
    method PauseReadyChannels()
      modifies this`bgLogs
      ensures bgLogs == PauseReady(old(bgLogs), bgReady)
    {
      var keys := bgLogs.Keys;
      while keys != {}
        invariant keys <= bgLogs.Keys == old(bgLogs).Keys
        invariant forall k :: k in keys ==> bgLogs[k] == old(bgLogs)[k]
        invariant forall k :: k in bgLogs && k !in keys ==> bgLogs[k] == PauseReady(old(bgLogs), bgReady)[k]
        decreases keys
      {
        var k :| k in keys;
        if k in bgReady {
          bgLogs := bgLogs[k := bgLogs[k] + [Pause]];
        }
        keys := keys - {k};
      }
    }

    /** Exclusive play: stops every channel, then plays `section` and makes it the active one if it exists and is ready. */
    method PlayBackgroundMusic(section: string)
      requires Valid()
      modifies this`bgLogs, this`currentBgPlayer
      ensures Valid()
      ensures bgLogs == ActivateLogs(old(bgLogs), bgReady, section)
      ensures currentBgPlayer == if section in bgReady then Some(section) else None
    {
      StopAllBackgroundMusic();
      if section in bgLogs && section in bgReady {
        bgLogs := bgLogs[section := bgLogs[section] + [Play]];
        currentBgPlayer := Some(section);
      }
    }

    /**
     * Creates the background channels: a fresh widget for each of `CreatedChannels()`, which
     * replaces an earlier widget of that section; the other channels stay, and readiness is
     * left as it was.
     */
    method InitBackgroundPlayers()
      requires Valid()
      modifies this`bgLogs
      ensures Valid()
      ensures bgLogs == old(bgLogs) + map s | s in CreatedChannels() :: []
      ensures DASHBOARD in bgLogs <==> DASHBOARD in old(bgLogs) || DashboardMusic(currentAge) != ""
      ensures forall s :: s in bgLogs && s != DASHBOARD ==> s in old(bgLogs) || s in ownerSections
    {
      bgLogs := bgLogs + map s | s in CreatedChannels() :: [];
      assert ChannelsValid();
      assert PendingValid();
    }

    /**
     * Re-cues the dashboard channel with the background music of `age`: only when that age has
     * an identifier and the channel exists. A ready channel is paused first; the channel is
     * cued and set to loop; a resume is scheduled only if the dashboard is the active channel.
     */
    method UpdateDashboardBgMusic(age: string)
      requires Valid()
      modifies this`bgLogs, this`pending
      ensures Valid()
      ensures var id := DashboardMusic(age);
              if id != "" && DASHBOARD in old(bgLogs) then
                && bgLogs == old(bgLogs)[DASHBOARD := old(bgLogs)[DASHBOARD]
                                          + (if DASHBOARD in bgReady then [Pause] else [])
                                          + [Cue(id), SetLoop(true)]]
                && pending == old(pending) + (if currentBgPlayer == Some(DASHBOARD)
                                              then [Scheduled(ResumeBackground(DASHBOARD), BG_MUSIC_SWITCH_DELAY)]
                                              else [])
              else
                bgLogs == old(bgLogs) && pending == old(pending)
    {
      var id := DashboardMusic(age);
      if id != "" && DASHBOARD in bgLogs {
        ghost var before := bgLogs[DASHBOARD];
        if DASHBOARD in bgReady {
          bgLogs := bgLogs[DASHBOARD := bgLogs[DASHBOARD] + [Pause]];
        }
        assert bgLogs[DASHBOARD] == before + (if DASHBOARD in bgReady then [Pause] else []);
        bgLogs := bgLogs[DASHBOARD := bgLogs[DASHBOARD] + [Cue(id), SetLoop(true)]];
        if currentBgPlayer == Some(DASHBOARD) {
          pending := pending + [Scheduled(ResumeBackground(DASHBOARD), BG_MUSIC_SWITCH_DELAY)];
        }
      }
    }

    // ---------------------------------------------------------------- timers firing

    /**
     * Fires the pending callback at position `k`. The delayed main play and the delayed
     * background resume call `playVideo()` without re-checking anything; the background start
     * creates a fresh channel for each of `CreatedChannels()` (replacing an earlier one, and
     * keeping the channels it does not create) and activates the default section.
     */
    method RunScheduled(k: nat)
      requires Valid() && k < |pending|
      modifies this`pending, this`mainLog, this`bgLogs, this`currentBgPlayer
      ensures Valid()
      ensures pending == old(pending[..k] + pending[k + 1..])
      ensures old(pending[k].action).PlayMain? ==>
                mainLog == old(mainLog) + [Play] && bgLogs == old(bgLogs) && currentBgPlayer == old(currentBgPlayer)
      ensures old(pending[k].action).ResumeBackground? ==>
                var section := old(pending[k].action).section;
                && bgLogs == old(bgLogs)[section := old(bgLogs)[section] + [Play]]
                && mainLog == old(mainLog) && currentBgPlayer == old(currentBgPlayer)
      ensures old(pending[k].action).InitBackground? ==>
                && bgLogs == ActivateLogs(old(bgLogs) + map s | s in CreatedChannels() :: [], bgReady, DEFAULT_SECTION)
                && (DASHBOARD in bgLogs <==> DASHBOARD in old(bgLogs) || DashboardMusic(currentAge) != "")
                && currentBgPlayer == (if DEFAULT_SECTION in bgReady then Some(DEFAULT_SECTION) else None)
                && mainLog == old(mainLog)
    {
      var action := pending[k].action;
      pending := pending[..k] + pending[k + 1..];
      assert forall j :: 0 <= j < |pending| ==> pending[j] in old(pending);
      match action
      case PlayMain =>
        NonAudioKeepsAudio(mainLog, [Play]);
        mainLog := mainLog + [Play];
      case ResumeBackground(section) =>
        bgLogs := bgLogs[section := bgLogs[section] + [Play]];
      case InitBackground =>
        InitBackgroundPlayers();
        PlayBackgroundMusic(DEFAULT_SECTION);
    }
  }
}
