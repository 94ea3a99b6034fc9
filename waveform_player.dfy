/** The single-track player (app/components/WaveformPlayer.tsx): the same engine
    lifecycle as the playlist player for one fixed source, with no track
    switching. Each handler, and the engine effect, is one atomic step. */
module WaveformPlayer {
  import opened AudioEngine

  datatype PlayerState = PlayerState(
    audioUrl: string,
    isPlaying: bool,
    isLoading: bool,
    currentTime: nat,
    totalDuration: nat,
    volume: Volume,
    isDestroyed: bool,
    engine: Engine,
    engineRef: Engine?)

  /** The volume state starts at 0.8 ... */
  const InitialVolume: Volume := 80
  /** ... and `ready` sets the engine to 0.8, whatever the slider says. */
  const ReadyVolume: Volume := 80

  class Player {
    /** The source the engine effect last ran with. */
    var audioUrl: string
    var isPlaying: bool
    var isLoading: bool
    var currentTime: nat
    var totalDuration: nat
    var volume: Volume
    /** `isDestroyedRef` */
    var isDestroyed: bool
    /** The engine the current handlers were registered on (`ws` in the effect). */
    var engine: Engine
    /** `wavesurferRef.current`: the engine, or null after teardown. */
    var engineRef: Engine?

    ghost function State(): PlayerState
      reads this
    {
      PlayerState(audioUrl, isPlaying, isLoading, currentTime, totalDuration, volume,
                  isDestroyed, engine, engineRef)
    }

    /** The engine reference is held exactly while the player is live, and then it
        is the engine whose listeners are attached. */
    ghost predicate Valid()
      reads this, engine
    {
      && (engineRef == null <==> isDestroyed)
      && (engineRef != null ==> engineRef == engine && engine.listening)
    }

    /** Mounting: the initial state, then the engine effect (create the engine,
        load the source, register the handlers). */
    constructor Mount(audioUrl: string)
      ensures Valid() && fresh(engine)
      ensures this.audioUrl == audioUrl
      ensures !isPlaying && isLoading && currentTime == 0 && totalDuration == 0
      ensures volume == InitialVolume && !isDestroyed
      ensures engine.View() == EngineState([audioUrl], false, MediaDefaultVolume, true)
    {
      this.audioUrl := audioUrl;
      isPlaying, isLoading := false, true;
      currentTime, totalDuration, volume := 0, 0, InitialVolume;
      isDestroyed := false;
      var ws := new Engine.Create();
      engine, engineRef := ws, ws;
      new;
      ws.Load(audioUrl);
    }

    /** The engine effect again after its teardown, for a new source (or new display
        options): a new engine loading `audioUrl`. No state setter is called, so the
        loading indicator, the times and the playing flag keep their old values. */
    method Setup(audioUrl: string)
      requires Valid() && isDestroyed
      modifies this
      ensures Valid() && fresh(engine)
      ensures State() == old(State()).(audioUrl := audioUrl, isDestroyed := false,
                                       engine := engine, engineRef := engine)
      ensures engine.View() == EngineState([audioUrl], false, MediaDefaultVolume, true)
    {
      this.audioUrl := audioUrl;
      isDestroyed := false;
      var ws := new Engine.Create();
      engine, engineRef := ws, ws;
      ws.Load(audioUrl);
    }

    /** The engine effect's cleanup. */
    method Teardown()
      requires Valid()
      modifies this, engine
      ensures Valid() && isDestroyed
      ensures State() == old(State()).(isDestroyed := true, engineRef := null)
      ensures engine.View() == old(engine.View()).(playing := false, listening := false)
    {
      isDestroyed := true;
      engineRef := null;
      engine.Release();
    }

    /** `ready`: the duration is known and the engine volume is forced to 0.8. */
    method OnReady(duration: nat)
      requires Valid()
      modifies this, engine
      ensures Valid()
      ensures old(isDestroyed) ==> State() == old(State()) && engine.View() == old(engine.View())
      ensures !old(isDestroyed) ==>
        && State() == old(State()).(isLoading := false, totalDuration := duration)
        && engine.View() == old(engine.View()).(volume := ReadyVolume)
    {
      if isDestroyed { return; }
      isLoading := false;
      totalDuration := duration;
      engine.SetVolume(ReadyVolume);
    }

    /** `play` */
    method OnPlay()
      requires Valid()
      modifies this, engine
      ensures Valid()
      ensures State() == if old(isDestroyed) then old(State()) else old(State()).(isPlaying := true)
      ensures engine.View() == if old(isDestroyed) then old(engine.View())
                               else old(engine.View()).(playing := true)
    {
      if !isDestroyed {
        engine.Report(true);
        isPlaying := true;
      }
    }

    /** `pause` */
    method OnPause()
      requires Valid()
      modifies this, engine
      ensures Valid()
      ensures State() == if old(isDestroyed) then old(State()) else old(State()).(isPlaying := false)
      ensures engine.View() == if old(isDestroyed) then old(engine.View())
                               else old(engine.View()).(playing := false)
    {
      if !isDestroyed {
        engine.Report(false);
        isPlaying := false;
      }
    }

    /** `finish`: the media has stopped at the end; there is nothing to advance to. */
    method OnFinish()
      requires Valid()
      modifies this, engine
      ensures Valid()
      ensures State() == if old(isDestroyed) then old(State()) else old(State()).(isPlaying := false)
      ensures engine.View() == if old(isDestroyed) then old(engine.View())
                               else old(engine.View()).(playing := false)
    {
      if !isDestroyed {
        engine.Report(false);
        isPlaying := false;
      }
    }

    /** `timeupdate` */
    method OnTimeUpdate(time: nat)
      requires Valid()
      modifies this
      ensures Valid()
      ensures State() == if old(isDestroyed) then old(State()) else old(State()).(currentTime := time)
    {
      if !isDestroyed { currentTime := time; }
    }

    /** `error`: an `AbortError` is ignored; any other error ends the loading
        indicator and changes nothing else. */
    method OnError(err: Failure)
      requires Valid()
      modifies this
      ensures Valid()
      ensures State() == if old(isDestroyed) || IsAbort(err) then old(State())
                         else old(State()).(isLoading := false)
    {
      if isDestroyed { return; }
      if IsAbort(err) { return; }
      isLoading := false;
    }

    /** The play/pause button: flips the engine while it is live. */
    method TogglePlayPause()
      requires Valid()
      modifies this, engine
      ensures Valid() && State() == old(State())
      ensures engine.View() == if old(isDestroyed) then old(engine.View())
                               else old(engine.View()).(playing := !old(engine.playing))
    {
      if engineRef != null && !isDestroyed {
        engineRef.PlayPause();
      }
    }

    /** The volume slider: the state always follows; the engine only while live. */
    method HandleVolumeChange(v: Volume)
      requires Valid()
      modifies this, engine
      ensures Valid()
      ensures State() == old(State()).(volume := v)
      ensures engine.View() == if old(isDestroyed) then old(engine.View())
                               else old(engine.View()).(volume := v)
    {
      volume := v;
      if engineRef != null && !isDestroyed {
        engineRef.SetVolume(v);
      }
    }
  }
}

/** Runs of the single-track player. */
module WaveformScenarios {
  import opened AudioEngine
  import opened WaveformPlayer

  /** The end of the track only stops it. */
  method PlayToTheEnd(url: string)
  {
    var p := new Player.Mount(url);
    p.HandleVolumeChange(30);
    p.OnReady(240);
    assert p.volume == 30 && p.engine.volume == ReadyVolume;
    p.TogglePlayPause();
    p.OnPlay();
    p.OnTimeUpdate(240);
    p.OnFinish();
    assert !p.isPlaying && p.currentTime == 240 && p.totalDuration == 240 && !p.isLoading;
    assert p.engine.loads == [url] && !p.engine.playing;
    p.TogglePlayPause();
    assert p.engine.playing;
  }

  /** A new source gets a new engine, but the loading indicator is not raised
      again. */
  method SourceChange(x: string, y: string)
  {
    var p := new Player.Mount(x);
    p.OnReady(100);
    p.Teardown();
    p.Setup(y);
    assert !p.isLoading && p.totalDuration == 100 && p.engine.loads == [y];
  }

  /** Errors: an `AbortError` is ignored, any other one ends loading. */
  method Errors(url: string)
  {
    var p := new Player.Mount(url);
    p.OnError(Failure(true, "AbortError"));
    assert p.isLoading;
    p.OnError(Failure(false, "AbortError"));
    assert !p.isLoading;
  }
}
