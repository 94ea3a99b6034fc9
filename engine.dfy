/** The waveform/playback object both players drive (a WaveSurfer instance over an
    HTML audio element), reduced to what the players can observe of it: the sources
    it was asked to load, whether its media is playing, its volume, and whether its
    event listeners are still attached. Decoding, drawing and the media element's
    own timing are not modelled; the events it emits are the players' handler
    methods, called by the environment. */
module AudioEngine {

  /** Volume in hundredths: the players' range input goes from 0 to 1 in steps
      of 0.01, so 0.8 is 80. */
  type Volume = v: int | 0 <= v <= 100

  /** An audio element starts at full volume. */
  const MediaDefaultVolume: Volume := 100

  /** What an `error` event carries: whether it is an `Error` object, and its name. */
  datatype Failure = Failure(isError: bool, name: string)

  /** A load superseded by a newer one rejects with an `AbortError`; the players
      ignore exactly these. */
  predicate IsAbort(err: Failure) {
    err.isError && err.name == "AbortError"
  }

  datatype EngineState = EngineState(loads: seq<string>, playing: bool, volume: Volume, listening: bool)

  class Engine {
    /** Every source passed to `load`, oldest first; the last is the current one. */
    var loads: seq<string>
    var playing: bool
    var volume: Volume
    /** False once `unAll` has removed the listeners and the media was released. */
    var listening: bool

    function View(): EngineState
      reads this
    {
      EngineState(loads, playing, volume, listening)
    }

    constructor Create()
      ensures View() == EngineState([], false, MediaDefaultVolume, true)
    {
      loads, playing, volume, listening := [], false, MediaDefaultVolume, true;
    }

    /** `ws.load(url)`: a new source starts paused. */
    method Load(url: string)
      modifies this
      ensures View() == old(View()).(loads := old(loads) + [url], playing := false)
    {
      loads := loads + [url];
      playing := false;
    }

    /** `ws.play()` */
    method Play()
      modifies this
      ensures View() == old(View()).(playing := true)
    {
      playing := true;
    }

    /** `ws.playPause()` */
    method PlayPause()
      modifies this
      ensures View() == old(View()).(playing := !old(playing))
    {
      playing := !playing;
    }

    /** The media element's own change of state, which its `play`, `pause` and
        `finish` events announce: playback started, was paused from outside, or
        reached the end of the track. */
    method Report(playing: bool)
      modifies this
      ensures View() == old(View()).(playing := playing)
    {
      this.playing := playing;
    }

    /** `ws.setVolume(v)` */
    method SetVolume(v: Volume)
      modifies this
      ensures View() == old(View()).(volume := v)
    {
      volume := v;
    }

    /** The teardown of either player: `audio.pause()`, `audio.src = ""`,
        `audio.load()` and `ws.unAll()`. */
    method Release()
      modifies this
      ensures View() == old(View()).(playing := false, listening := false)
    {
      playing := false;
      listening := false;
    }
  }
}
