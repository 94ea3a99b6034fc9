/** The playlist player (app/components/PlaylistPlayer.tsx): one engine reused for
    every track, the index of the active track, and the React state and refs its
    handlers update. Each handler, and each effect, is one atomic step; a state
    setter is an assignment. */
module PlaylistPlayer {
  import opened AudioEngine

  datatype Track = Track(title: string, file: string)

  /** Everything a handler can change, including the refs and the engine objects. */
  datatype PlayerState = PlayerState(
    activeIndex: nat,
    isPlaying: bool,
    isLoading: bool,
    currentTime: nat,
    totalDuration: nat,
    volume: Volume,
    shouldAutoPlay: bool,
    isDestroyed: bool,
    hasInitialized: bool,
    engine: Engine,
    engineRef: Engine?,
    readyVolume: Volume)

  /** The volume state starts at 0.8. */
  const InitialVolume: Volume := 80

  class Player {
    const tracks: seq<Track>

    var activeIndex: nat
    var isPlaying: bool
    var isLoading: bool
    /** Seconds; the engine's `timeupdate` overwrites it. */
    var currentTime: nat
    var totalDuration: nat
    var volume: Volume
    /** `shouldAutoPlayRef`: start playing when the next load is ready. */
    var shouldAutoPlay: bool
    /** `isDestroyedRef`: every engine event handler checks it first. */
    var isDestroyed: bool
    /** `hasInitializedRef`: the track-change effect skips its first run. */
    var hasInitialized: bool
    /** The engine the current handlers were registered on (`ws` in the effect). */
    var engine: Engine
    /** `wavesurferRef.current`: the engine, or null after teardown. */
    var engineRef: Engine?
    /** The `volume` the `ready` handler was created with: the engine effect
        lists only the display options as dependencies, so its handlers keep the
        value of `volume` from when the engine was created. */
    var readyVolume: Volume

    ghost function State(): PlayerState
      reads this
    {
      PlayerState(activeIndex, isPlaying, isLoading, currentTime, totalDuration, volume,
                  shouldAutoPlay, isDestroyed, hasInitialized, engine, engineRef, readyVolume)
    }

    /** The active index names a track; the engine reference is held exactly while
        the player is live, and then it is the engine whose listeners are attached. */
    ghost predicate Valid()
      reads this, engine
    {
      && |tracks| > 0
      && activeIndex < |tracks|
      && hasInitialized
      && (engineRef == null <==> isDestroyed)
      && (engineRef != null ==> engineRef == engine && engine.listening)
    }

    /** Mounting: the initial state, then the engine effect (create the engine,
        register the handlers, load the first track), then the first run of the
        track-change effect, which only records that it has run. */
    constructor Mount(tracks: seq<Track>)
      requires |tracks| > 0
      ensures Valid() && fresh(engine)
      ensures this.tracks == tracks
      ensures activeIndex == 0 && !isPlaying && isLoading
      ensures currentTime == 0 && totalDuration == 0 && volume == InitialVolume
      ensures !shouldAutoPlay && !isDestroyed && readyVolume == InitialVolume
      ensures engine.View() == EngineState([tracks[0].file], false, MediaDefaultVolume, true)
    {
      this.tracks := tracks;
      activeIndex, isPlaying, isLoading := 0, false, true;
      currentTime, totalDuration, volume := 0, 0, InitialVolume;
      shouldAutoPlay := false;
      isDestroyed := false;
      var ws := new Engine.Create();
      engine, engineRef := ws, ws;
      readyVolume := InitialVolume;
      hasInitialized := true;
      new;
      ws.Load(tracks[0].file);
    }

    /** The engine effect again after its teardown, when one of its display
        dependencies changed: a new engine with new handlers, loading the FIRST
        track whatever the active index is. No state setter is called. */
    method Setup()
      requires Valid() && isDestroyed
      modifies this
      ensures Valid() && fresh(engine)
      ensures State() == old(State()).(isDestroyed := false, engine := engine, engineRef := engine,
                                       readyVolume := old(volume))
      ensures engine.View() == EngineState([tracks[0].file], false, MediaDefaultVolume, true)
    {
      isDestroyed := false;
      var ws := new Engine.Create();
      engine, engineRef := ws, ws;
      readyVolume := volume;
      ws.Load(tracks[0].file);
    }

    /** The engine effect's cleanup. */
    method Teardown()
      requires Valid()
      modifies this, engine
      ensures Valid() && isDestroyed
      ensures State() == old(State()).(isDestroyed := true, engineRef := null)
      ensures engine.View() == old(engine.View()).(playing := false, listening := false)
    {
      isDestroyed := true;
      engineRef := null;
      engine.Release();
    }

    /** `ready`: the duration is known; start playing if a track change asked for it. */
    method OnReady(duration: nat)
      requires Valid()
      modifies this, engine
      ensures Valid()
      ensures old(isDestroyed) ==> State() == old(State()) && engine.View() == old(engine.View())
      ensures !old(isDestroyed) ==>
        && State() == old(State()).(isLoading := false, totalDuration := duration, shouldAutoPlay := false)
        && engine.View() == old(engine.View()).(volume := readyVolume,
                                                playing := old(shouldAutoPlay) || old(engine.playing))
    {
      if isDestroyed { return; }
      isLoading := false;
      totalDuration := duration;
      engine.SetVolume(readyVolume);
      if shouldAutoPlay {
        shouldAutoPlay := false;
        engine.Play();
      }
    }

    /** `play` */
    method OnPlay()
      requires Valid()
      modifies this, engine
      ensures Valid()
      ensures State() == if old(isDestroyed) then old(State()) else old(State()).(isPlaying := true)
      ensures engine.View() == if old(isDestroyed) then old(engine.View())
                               else old(engine.View()).(playing := true)
    {
      if !isDestroyed {
        engine.Report(true);
        isPlaying := true;
      }
    }

    /** `pause` */
    method OnPause()
      requires Valid()
      modifies this, engine
      ensures Valid()
      ensures State() == if old(isDestroyed) then old(State()) else old(State()).(isPlaying := false)
      ensures engine.View() == if old(isDestroyed) then old(engine.View())
                               else old(engine.View()).(playing := false)
    {
      if !isDestroyed {
        engine.Report(false);
        isPlaying := false;
      }
    }

    /** `finish`: the media has stopped at the end of the track; advance to the next
        track unless this was the last one. */
    method OnFinish()
      requires Valid()
      modifies this, engine
      ensures Valid()
      ensures old(isDestroyed) ==> State() == old(State()) && engine.View() == old(engine.View())
      ensures !old(isDestroyed) && old(activeIndex) + 1 < |tracks| ==>
        && State() == old(State()).(isPlaying := false, activeIndex := old(activeIndex) + 1,
                                    shouldAutoPlay := true, isLoading := true,
                                    currentTime := 0, totalDuration := 0)
        && engine.View() == old(engine.View()).(loads := old(engine.loads) + [tracks[activeIndex].file],
                                                playing := false)
      ensures !old(isDestroyed) && old(activeIndex) + 1 >= |tracks| ==>
        && State() == old(State()).(isPlaying := false)
        && engine.View() == old(engine.View()).(playing := false)
    {
      if isDestroyed { return; }
      engine.Report(false);
      isPlaying := false;
      var next := activeIndex + 1;
      if next < |tracks| {
        shouldAutoPlay := true;
        ChangeActiveIndex(next);
      }
    }

    /** `timeupdate` */
    method OnTimeUpdate(time: nat)
      requires Valid()
      modifies this
      ensures Valid()
      ensures State() == if old(isDestroyed) then old(State()) else old(State()).(currentTime := time)
    {
      if !isDestroyed { currentTime := time; }
    }

    /** `error`: a superseded load's `AbortError` is ignored; any other error ends
        the loading indicator. */
    method OnError(err: Failure)
      requires Valid()
      modifies this
      ensures Valid()
      ensures State() == if old(isDestroyed) || IsAbort(err) then old(State())
                         else old(State()).(isLoading := false)
    {
      if isDestroyed { return; }
      if IsAbort(err) { return; }
      isLoading := false;
    }

    /** The track-change effect, after its first run: reset the time display and
        load the active track, unless the engine is gone. (Its first run happens at
        mount, so `Valid` has `hasInitialized`.) */
    method TrackChangeEffect()
      requires Valid()
      modifies this, engine
      ensures Valid()
      ensures old(isDestroyed) ==> State() == old(State()) && engine.View() == old(engine.View())
      ensures !old(isDestroyed) ==>
        && State() == old(State()).(isLoading := true, currentTime := 0, totalDuration := 0)
        && engine.View() == old(engine.View()).(loads := old(engine.loads) + [tracks[activeIndex].file],
                                                playing := false)
    {
      var ws := engineRef;
      if ws == null || isDestroyed { return; }
      isLoading := true;
      currentTime := 0;
      totalDuration := 0;
      ws.Load(tracks[activeIndex].file);
    }

    /** `setActiveIndex(i)` with a new value, followed by the effect the change
        triggers. */
    method ChangeActiveIndex(i: nat)
      requires Valid() && i < |tracks| && i != activeIndex
      modifies this, engine
      ensures Valid()
      ensures old(isDestroyed) ==> State() == old(State()).(activeIndex := i) && engine.View() == old(engine.View())
      ensures !old(isDestroyed) ==>
        && State() == old(State()).(activeIndex := i, isLoading := true, currentTime := 0, totalDuration := 0)
        && engine.View() == old(engine.View()).(loads := old(engine.loads) + [tracks[i].file], playing := false)
    {
      activeIndex := i;
      TrackChangeEffect();
    }

    /** The play/pause button: flips the engine, never the state directly (the
        engine's `play`/`pause` events do that). */
    method TogglePlayPause()
      requires Valid()
      modifies this, engine
      ensures Valid() && State() == old(State())
      ensures engine.View() == if old(isDestroyed) then old(engine.View())
                               else old(engine.View()).(playing := !old(engine.playing))
    {
      if engineRef != null && !isDestroyed {
        engineRef.PlayPause();
      }
    }

    /** A click on track `index` of the list. */
    method SelectTrack(index: nat)
      requires Valid() && index < |tracks|
      modifies this, engine
      ensures Valid()
      ensures index == old(activeIndex) ==>
        && State() == old(State())
        && engine.View() == if old(isDestroyed) then old(engine.View())
                            else old(engine.View()).(playing := !old(engine.playing))
      ensures index != old(activeIndex) && old(isDestroyed) ==>
        && State() == old(State()).(shouldAutoPlay := true, activeIndex := index)
        && engine.View() == old(engine.View())
      ensures index != old(activeIndex) && !old(isDestroyed) ==>
        && State() == old(State()).(shouldAutoPlay := true, activeIndex := index,
                                    isLoading := true, currentTime := 0, totalDuration := 0)
        && engine.View() == old(engine.View()).(loads := old(engine.loads) + [tracks[index].file],
                                                playing := false)
    {
      if index == activeIndex {
        TogglePlayPause();
      } else {
        shouldAutoPlay := true;
        ChangeActiveIndex(index);
      }
    }

    /** The volume slider: the state always follows; the engine only while live. */
    method HandleVolumeChange(v: Volume)
      requires Valid()
      modifies this, engine
      ensures Valid()
      ensures State() == old(State()).(volume := v)
      ensures engine.View() == if old(isDestroyed) then old(engine.View())
                               else old(engine.View()).(volume := v)
    {
      volume := v;
      if engineRef != null && !isDestroyed {
        engineRef.SetVolume(v);
      }
    }

    /** The previous-track button: nothing at the first track; otherwise one track
        back, playing on only if it was playing. */
    method SkipPrev()
      requires Valid()
      modifies this, engine
      ensures Valid()
      ensures old(activeIndex) == 0 ==> State() == old(State()) && engine.View() == old(engine.View())
      ensures old(activeIndex) > 0 ==>
        && activeIndex == old(activeIndex) - 1
        && shouldAutoPlay == old(isPlaying)
        && (old(isDestroyed) ==>
              State() == old(State()).(activeIndex := activeIndex, shouldAutoPlay := shouldAutoPlay)
              && engine.View() == old(engine.View()))
        && (!old(isDestroyed) ==>
              State() == old(State()).(activeIndex := activeIndex, shouldAutoPlay := shouldAutoPlay,
                                       isLoading := true, currentTime := 0, totalDuration := 0)
              && engine.View() == old(engine.View()).(loads := old(engine.loads) + [tracks[activeIndex].file],
                                                      playing := false))
    {
      if activeIndex > 0 {
        shouldAutoPlay := isPlaying;
        ChangeActiveIndex(activeIndex - 1);
      }
    }

    /** The next-track button: nothing at the last track; otherwise one track on,
        playing on only if it was playing. */
    method SkipNext()
      requires Valid()
      modifies this, engine
      ensures Valid()
      ensures old(activeIndex) == |tracks| - 1 ==> State() == old(State()) && engine.View() == old(engine.View())
      ensures old(activeIndex) < |tracks| - 1 ==>
        && activeIndex == old(activeIndex) + 1
        && shouldAutoPlay == old(isPlaying)
        && (old(isDestroyed) ==>
              State() == old(State()).(activeIndex := activeIndex, shouldAutoPlay := shouldAutoPlay)
              && engine.View() == old(engine.View()))
        && (!old(isDestroyed) ==>
              State() == old(State()).(activeIndex := activeIndex, shouldAutoPlay := shouldAutoPlay,
                                       isLoading := true, currentTime := 0, totalDuration := 0)
              && engine.View() == old(engine.View()).(loads := old(engine.loads) + [tracks[activeIndex].file],
                                                      playing := false))
    {
      if activeIndex < |tracks| - 1 {
        shouldAutoPlay := isPlaying;
        ChangeActiveIndex(activeIndex + 1);
      }
    }
  }
}

/** Runs of the playlist player through auto-advance, the skip boundaries, a
    superseded load and teardown. */
module PlaylistScenarios {
  import opened AudioEngine
  import opened PlaylistPlayer

  /** Three tracks, the first playing, reaches its end: the player moves to the
      second track and starts it as soon as it is ready. */
  method AutoAdvance(a: Track, b: Track, c: Track)
  {
    var p := new Player.Mount([a, b, c]);
    p.OnReady(180);
    p.TogglePlayPause();
    p.OnPlay();
    assert p.isPlaying && p.engine.playing;
    p.OnFinish();
    assert p.activeIndex == 1 && !p.isPlaying && p.shouldAutoPlay;
    assert p.isLoading && p.currentTime == 0 && p.totalDuration == 0;
    assert p.engine.loads == [a.file, b.file];
    p.OnReady(200);
    assert p.engine.playing && !p.shouldAutoPlay && p.totalDuration == 200;
    p.OnPlay();
    assert p.isPlaying && p.activeIndex == 1;
  }

  /** At the end of the last track the player stops where it is; the play/pause
      button then starts the ended track again. */
  method LastTrackStops(a: Track, b: Track)
  {
    var p := new Player.Mount([a, b]);
    p.SkipNext();
    p.OnReady(100);
    p.OnPlay();
    p.OnFinish();
    assert p.activeIndex == 1 && !p.isPlaying && !p.shouldAutoPlay;
    assert p.engine.loads == [a.file, b.file] && !p.engine.playing;
    p.TogglePlayPause();
    assert p.engine.playing;
  }

  /** The skip buttons do nothing past either end, and carry the playing flag over. */
  method SkipsDoNotWrap(a: Track, b: Track)
  {
    var p := new Player.Mount([a, b]);
    p.SkipPrev();
    assert p.activeIndex == 0 && p.engine.loads == [a.file];
    p.OnReady(100);
    p.TogglePlayPause();
    p.OnPlay();
    p.SkipNext();
    assert p.activeIndex == 1 && p.shouldAutoPlay;
    p.SkipNext();
    assert p.activeIndex == 1 && p.engine.loads == [a.file, b.file];
  }

  /** Clicking the active track toggles playback and reloads nothing. */
  method SelectActiveTrack(a: Track, b: Track)
  {
    var p := new Player.Mount([a, b]);
    p.OnReady(100);
    p.OnTimeUpdate(42);
    p.SelectTrack(0);
    assert p.engine.playing && p.currentTime == 42 && p.totalDuration == 100;
    assert p.engine.loads == [a.file];
  }

  /** Two track changes in a row: the first load is cut short and reports an
      `AbortError`, which is ignored; the second one's `ready` starts it. */
  method SupersededLoad(a: Track, b: Track, c: Track)
  {
    var p := new Player.Mount([a, b, c]);
    p.OnReady(100);
    p.SelectTrack(1);
    p.SelectTrack(2);
    assert p.engine.loads == [a.file, b.file, c.file];
    p.OnError(Failure(true, "AbortError"));
    assert p.isLoading && p.activeIndex == 2;
    p.OnReady(300);
    assert !p.isLoading && p.totalDuration == 300 && p.engine.playing;
  }

  /** After teardown no engine event changes anything. */
  method EventsAfterTeardown(a: Track, b: Track)
  {
    var p := new Player.Mount([a, b]);
    p.Teardown();
    ghost var s := p.State();
    p.OnReady(100);
    p.OnPlay();
    p.OnFinish();
    p.OnTimeUpdate(5);
    p.OnError(Failure(true, "NetworkError"));
    p.TogglePlayPause();
    assert p.State() == s && !p.engine.listening && !p.engine.playing;
  }

  /** The `ready` handler applies the volume from when the engine was created, so
      a volume chosen on the slider is not kept by the next track's engine volume. */
  method VolumeAfterTrackChange(a: Track, b: Track)
  {
    var p := new Player.Mount([a, b]);
    p.OnReady(100);
    p.HandleVolumeChange(30);
    assert p.engine.volume == 30;
    p.SkipNext();
    p.OnReady(120);
    assert p.volume == 30 && p.engine.volume == InitialVolume;
  }

  /** Re-creating the engine (new display options) loads the first track again,
      while the active index and its title stay where they were. */
  method EngineRecreated(a: Track, b: Track)
  {
    var p := new Player.Mount([a, b]);
    p.SelectTrack(1);
    p.Teardown();
    p.Setup();
    assert p.activeIndex == 1 && p.engine.loads == [a.file];
  }
}
