# Audio players and thumbnail naming of the press-kit site, in Dafny

The site is mostly static pages. This project models the three parts of it that hold real logic:

- **The playlist player** (`app/components/PlaylistPlayer.tsx`). One waveform engine is created when the player mounts and is reused for every track. That file is modelled in `playlist_player.dfy`:
  - the player is a class whose fields are the component's React state (`activeIndex`, `isPlaying`, `isLoading`, `currentTime`, `totalDuration`, `volume`) and its refs (`shouldAutoPlayRef`, `isDestroyedRef`, `hasInitializedRef`, `wavesurferRef`);
  - there is one method per engine event handler (`ready`, `play`, `pause`, `finish`, `timeupdate`, `error`), one per user action (`togglePlayPause`, `selectTrack`, `handleVolumeChange`, `skipPrev`, `skipNext`), and one each for the engine effect's body, its cleanup and the track-change effect;
  - each method's contract gives the whole new state as an update of the old one;
  - the invariant `Valid()` keeps `activeIndex` inside the track list and ties `wavesurferRef` to the live engine.
- **The single-track player** (`app/components/WaveformPlayer.tsx`). It is the same state machine without track switching and is modelled in `waveform_player.dfy`.
- **The engine itself** (`engine.dfy`). It is an abstract object that records the sources it was asked to load and holds whether its media is playing, a volume and whether its listeners are still attached. The playing flag follows the players' commands (`load`, `play`, `playPause`, the teardown) and also the media's own changes: the players' `play`, `pause` and `finish` handlers first record on the engine what the event announces (`Engine.Report`). The events it emits are the players' handler methods, which the environment calls in any order.
- **`formatTime`**, the `M:SS` label, which both player files define identically. It is modelled once, in `time_format.dfy`, over whole seconds. It is paired with a parser `ParseTime`, and the two are proved inverse to each other.
- **The name logic of the thumbnail script** (`scripts/generate-thumbnails.mjs`), in `thumbnails.dfy`. This covers the filter that picks photo files, the four-pass `safeName` transform and the two output paths built from it.

Each player file also holds a module of scenario methods. They drive a player through auto-advance, the skip boundaries, a superseded load, and events after teardown. Each one asserts the resulting state.

Behaviours of the code worth knowing:

- **Stale callbacks.** The code has no per-load epoch. A single `isDestroyed` flag guards every handler, and a superseded load is filtered only by ignoring errors named `AbortError`.
- **Volume across track changes.** A volume set on the slider is not reapplied when the next track is ready. The playlist's `ready` handler reapplies the volume captured when the engine was created (`readyVolume`). The single-track player's `ready` always sets 0.8.
- **Source change in the single-track player.** A new source re-creates the engine but does not raise the loading indicator again.
- **`#` in file names.** The script turns `#` into `-`.
- **Re-creating the playlist engine.** When the engine effect runs again, it loads the first track, whatever the active index is.

Time, duration and volume are floats in the source. Here times are whole seconds (`nat`) and volume is in hundredths (`0..100`, the slider's step of 0.01), so 0.8 is 80. The engine's duration and the `timeupdate` time are parameters of the handlers.

## Model

| member | source | states |
|---|---|---|
| `TimeFormat.Decimal` | app/components/PlaylistPlayer.tsx:21 | the minutes field is a non-empty digit string with no leading zero (unless it is "0") whose value is the number |
| `TimeFormat.TwoDigits` | app/components/PlaylistPlayer.tsx:20-21 | below 60, the padded seconds field is exactly two digits whose value is the seconds |
| `TimeFormat.FormatTime` | app/components/PlaylistPlayer.tsx:18-22 | the label is digits, a colon three characters from the end, and two digits; the digits before the colon read `s div 60` and the two after read `s mod 60` |
| `TimeFormat.FormatTimeRoundTrip` | app/components/PlaylistPlayer.tsx:18-22 | reading the label back gives the input: minutes times 60 plus seconds is `s` |
| `TimeFormat.FormatTimeInjective` | app/components/WaveformPlayer.tsx:14-18 | two different times never get the same label |
| `TimeFormat.ParseTimeSound` | app/components/WaveformPlayer.tsx:14-18 | every string the parser accepts is the label of the time it reads, so `ParseTime` is an exact inverse |
| `TimeFormat.DecimalCanonical` | app/components/WaveformPlayer.tsx:17 | a digit string without a leading zero is the rendering of its own value |
| `TimeFormat.TwoDigitsCanonical` | app/components/WaveformPlayer.tsx:16-17 | a two-digit field below 60 is the padded rendering of its own value |
| `TimeFormat.FormatTimeExamples` | app/components/PlaylistPlayer.tsx:18-22 | 0 gives "0:00", 65 gives "1:05", 3599 gives "59:59" |
| `AudioEngine.Engine.Create` | app/components/PlaylistPlayer.tsx:55-72 | a new engine has loaded nothing, is paused, is at full volume and has its listeners attached |
| `AudioEngine.Engine.Load` | app/components/PlaylistPlayer.tsx:158 | the source is appended to the load history and playback is stopped |
| `AudioEngine.Engine.Play` | app/components/PlaylistPlayer.tsx:83 | the engine plays; nothing else changes |
| `AudioEngine.Engine.PlayPause` | app/components/PlaylistPlayer.tsx:163 | the playing flag is flipped; nothing else changes |
| `AudioEngine.Engine.Report` | app/components/PlaylistPlayer.tsx:87-96 | the media's own start or stop, as a `play`, `pause` or `finish` event announces it, sets the playing flag; nothing else changes |
| `AudioEngine.Engine.SetVolume` | app/components/PlaylistPlayer.tsx:184 | the engine volume becomes the argument; nothing else changes |
| `AudioEngine.Engine.Release` | app/components/PlaylistPlayer.tsx:128-136 | the media is paused and the listeners are removed |
| `PlaylistPlayer.Player.Mount` | app/components/PlaylistPlayer.tsx:35-151 | for a non-empty list: index 0, not playing, loading, time 0, duration 0, volume 0.8, no auto-play, live, and the new engine's only load is the first track |
| `PlaylistPlayer.Player.Setup` | app/components/PlaylistPlayer.tsx:46-121 | after a teardown: live again with a fresh engine whose one load is the first track; `ready` will use the current volume; no state changes |
| `PlaylistPlayer.Player.Teardown` | app/components/PlaylistPlayer.tsx:123-141 | the player is destroyed, the engine reference is cleared, the engine is paused and detached; nothing else changes |
| `PlaylistPlayer.Player.OnReady` | app/components/PlaylistPlayer.tsx:76-85 | when live: loading ends, the duration is recorded, the engine gets the captured volume, playback starts iff auto-play was set, and auto-play is always false afterwards; when destroyed: nothing changes |
| `PlaylistPlayer.Player.OnPlay` | app/components/PlaylistPlayer.tsx:87-89 | when live, `isPlaying` becomes true and the engine is recorded as playing, nothing else changes; when destroyed, nothing changes |
| `PlaylistPlayer.Player.OnPause` | app/components/PlaylistPlayer.tsx:91-93 | when live, `isPlaying` becomes false and the engine is recorded as paused, nothing else changes; when destroyed, nothing changes |
| `PlaylistPlayer.Player.OnFinish` | app/components/PlaylistPlayer.tsx:95-107 | when live, `isPlaying` becomes false and the engine is recorded as stopped; before the last track the index moves up by one, auto-play is set and the next track loads with time and duration reset; on the last track nothing else changes; the index stays in range |
| `PlaylistPlayer.Player.OnTimeUpdate` | app/components/PlaylistPlayer.tsx:109-111 | when live, the time is overwritten and nothing else changes |
| `PlaylistPlayer.Player.OnError` | app/components/PlaylistPlayer.tsx:113-118 | an `AbortError`, or any error while destroyed, changes nothing; any other error only ends loading |
| `PlaylistPlayer.Player.TrackChangeEffect` | app/components/PlaylistPlayer.tsx:146-159 | when live: loading, time 0, duration 0, and the engine loads the active track; with no engine: nothing changes |
| `PlaylistPlayer.Player.ChangeActiveIndex` | app/components/PlaylistPlayer.tsx:147-159 | setting a different index re-runs the track-change effect for the new index |
| `PlaylistPlayer.Player.TogglePlayPause` | app/components/PlaylistPlayer.tsx:161-165 | no state changes; the engine flips between playing and paused while live and is untouched once destroyed |
| `PlaylistPlayer.Player.SelectTrack` | app/components/PlaylistPlayer.tsx:167-177 | the active track only toggles playback and reloads nothing; another track sets auto-play, becomes active and is loaded with time and duration reset |
| `PlaylistPlayer.Player.HandleVolumeChange` | app/components/PlaylistPlayer.tsx:179-188 | the volume state always takes the value; the engine takes it only while live |
| `PlaylistPlayer.Player.SkipPrev` | app/components/PlaylistPlayer.tsx:190-195 | at index 0, nothing changes; otherwise the index goes down by exactly one, auto-play becomes the playing flag, and the new track is loaded |
| `PlaylistPlayer.Player.SkipNext` | app/components/PlaylistPlayer.tsx:197-202 | at the last index, nothing changes; otherwise the index goes up by exactly one, auto-play becomes the playing flag, and the new track is loaded |
| `WaveformPlayer.Player.Mount` | app/components/WaveformPlayer.tsx:31-70 | not playing, loading, time 0, duration 0, volume 0.8, live, and the new engine's only load is the source |
| `WaveformPlayer.Player.Setup` | app/components/WaveformPlayer.tsx:38-122 | after a teardown, for a new source: live again with a fresh engine loading it; loading, times and playing flag are left as they were |
| `WaveformPlayer.Player.Teardown` | app/components/WaveformPlayer.tsx:104-121 | the player is destroyed, the engine reference is cleared, the engine is paused and detached |
| `WaveformPlayer.Player.OnReady` | app/components/WaveformPlayer.tsx:73-79 | when live: loading ends, the duration is recorded and the engine volume is set to the constant 0.8, whatever the volume state; when destroyed: nothing changes |
| `WaveformPlayer.Player.OnPlay` | app/components/WaveformPlayer.tsx:81-83 | when live, `isPlaying` becomes true and the engine is recorded as playing, nothing else changes; when destroyed, nothing changes |
| `WaveformPlayer.Player.OnPause` | app/components/WaveformPlayer.tsx:85-87 | when live, `isPlaying` becomes false and the engine is recorded as paused, nothing else changes; when destroyed, nothing changes |
| `WaveformPlayer.Player.OnFinish` | app/components/WaveformPlayer.tsx:89-91 | when live, `isPlaying` becomes false and the engine is recorded as stopped, nothing else changes: there is no advance |
| `WaveformPlayer.Player.OnTimeUpdate` | app/components/WaveformPlayer.tsx:93-95 | when live, the time is overwritten and nothing else changes |
| `WaveformPlayer.Player.OnError` | app/components/WaveformPlayer.tsx:97-102 | an `AbortError`, or any error while destroyed, changes nothing; any other error only ends loading |
| `WaveformPlayer.Player.TogglePlayPause` | app/components/WaveformPlayer.tsx:124-128 | no state changes; the engine flips while live and is untouched once destroyed |
| `WaveformPlayer.Player.HandleVolumeChange` | app/components/WaveformPlayer.tsx:130-139 | the volume state always takes the value; the engine takes it only while live |
| `Thumbnails.Includes` | scripts/generate-thumbnails.mjs:24 | `includes`: a left-to-right search; `IncludesIffOccurs` proves it true exactly when the pattern occurs at some position |
| `Thumbnails.IsPhotoFile` | scripts/generate-thumbnails.mjs:23-26 | the filter predicate; `IsPhotoFileIff` characterises it exactly and `FilterIsCaseSensitive` shows the match is case-sensitive |
| `Thumbnails.IncludesIffOccurs` | scripts/generate-thumbnails.mjs:24 | the search finds the club's name exactly when it occurs at some position |
| `Thumbnails.EndsWith` | scripts/generate-thumbnails.mjs:25 | true exactly when the name is some string followed by the suffix |
| `Thumbnails.IsPhotoFileIff` | scripts/generate-thumbnails.mjs:23-26 | a file is selected iff `Chess Club` occurs in it and it ends in `.jpg`, `.jpeg` or `.png` |
| `Thumbnails.FilterIsCaseSensitive` | scripts/generate-thumbnails.mjs:24 | a name with no capital `C` is never selected |
| `Thumbnails.SelectPhotos` | scripts/generate-thumbnails.mjs:23-26 | the selection holds exactly the listed names that pass the filter, and is no longer than the listing |
| `Thumbnails.SelectPhotosAppend` | scripts/generate-thumbnails.mjs:23-26 | filtering keeps directory order: the selection from a split listing is the two selections concatenated |
| `Thumbnails.ReplaceSpaceRuns` | scripts/generate-thumbnails.mjs:35 | the `/\s+/g` pass; the `SpaceRunsFrom` lemmas and `MaximalRunBecomesOneHyphen` prove that each maximal whitespace run becomes one `-` and that nothing else changes |
| `Thumbnails.SpaceRunsFromNoSpace` | scripts/generate-thumbnails.mjs:35 | no whitespace is left after the first pass |
| `Thumbnails.SpaceRunsFromIdentity` | scripts/generate-thumbnails.mjs:35 | a name without whitespace passes through the first pass unchanged |
| `Thumbnails.SpaceRunsFromAppend` | scripts/generate-thumbnails.mjs:35 | the first pass over a concatenation is the pass over each piece, the second started in the state the first ends in |
| `Thumbnails.SpaceRunsFromRun` | scripts/generate-thumbnails.mjs:35 | a non-empty run of whitespace gives a single hyphen |
| `Thumbnails.ReplaceSpaceRunsAppend` | scripts/generate-thumbnails.mjs:35 | text not starting with whitespace is transformed independently of what precedes it |
| `Thumbnails.MaximalRunBecomesOneHyphen` | scripts/generate-thumbnails.mjs:35 | each maximal whitespace run becomes exactly one `-` |
| `Thumbnails.ReplaceAt` | scripts/generate-thumbnails.mjs:36 | the `@` pass; `AtBecomesAt` and `ReplaceAtFacts` prove that each `@` becomes `at` in place and that a name without `@` is unchanged |
| `Thumbnails.AtBecomesAt` | scripts/generate-thumbnails.mjs:36 | an `@` between two pieces becomes `at`, and the pieces are transformed independently |
| `Thumbnails.ReplaceAtFacts` | scripts/generate-thumbnails.mjs:36 | no `@` is left; no whitespace is introduced; a name without `@` is unchanged |
| `Thumbnails.ReplaceHash` | scripts/generate-thumbnails.mjs:37 | the `#` pass; `HashActsAsHyphen` and `ReplaceHashFacts` prove that each `#` becomes `-` and that nothing else changes |
| `Thumbnails.ReplaceHashFacts` | scripts/generate-thumbnails.mjs:37 | no `#` is left; no whitespace or `@` is introduced; a name without `#` is unchanged |
| `Thumbnails.ToLower` | scripts/generate-thumbnails.mjs:38 | `toLowerCase` on ASCII letters; `ToLowerPointwise` and `ToLowerFacts` prove the exact character-by-character mapping |
| `Thumbnails.ToLowerPointwise` | scripts/generate-thumbnails.mjs:38 | same length, each `A`..`Z` becomes the matching `a`..`z`, and every other character is kept |
| `Thumbnails.ToLowerFacts` | scripts/generate-thumbnails.mjs:38 | no upper-case ASCII letter is left; no whitespace, `@` or `#` is introduced; a lower-case name is unchanged |
| `Thumbnails.SafeName` | scripts/generate-thumbnails.mjs:34-38 | the four passes in source order; the `SafeName` lemmas below prove it safe, idempotent, extension-preserving and not injective |
| `Thumbnails.SafeNameIsSafe` | scripts/generate-thumbnails.mjs:34-38 | the safe name has no whitespace, no `@`, no `#` and no upper-case ASCII letter |
| `Thumbnails.SafeNameIdempotent` | scripts/generate-thumbnails.mjs:34-38 | applying the transform twice gives the same name as once |
| `Thumbnails.SafeNameKeepsSuffix` | scripts/generate-thumbnails.mjs:34-38 | a suffix no pass touches, and that does not start with whitespace, is kept verbatim at the end |
| `Thumbnails.SafeNameKeepsExtension` | scripts/generate-thumbnails.mjs:34-38 | a lower-case `.jpg`, `.jpeg` or `.png` ending is kept |
| `Thumbnails.SelectedKeepsImageExtension` | scripts/generate-thumbnails.mjs:23-38 | every selected file's safe name still ends in an image extension |
| `Thumbnails.HashActsAsHyphen` | scripts/generate-thumbnails.mjs:37 | a `#` and a `-` in the same place give the same safe name |
| `Thumbnails.SafeNameCanCollide` | scripts/generate-thumbnails.mjs:34-44 | two different selected files can share one safe name, so one copy overwrites the other |
| `Thumbnails.OutputsFor` | scripts/generate-thumbnails.mjs:40-41 | the copy and thumbnail paths of one photo; `OutputsPaired` and `OutputsCollideIff` prove their shape and when they collide |
| `Thumbnails.OutputsPaired` | scripts/generate-thumbnails.mjs:40-41 | the copy is `photos/<safe name>` and the thumbnail is the same name under `photos/thumbnails/` |
| `Thumbnails.OutputsCollideIff` | scripts/generate-thumbnails.mjs:40-41 | two files share a copy path iff they share a thumbnail path iff their safe names agree |
| `Thumbnails.Plan` | scripts/generate-thumbnails.mjs:30-41 | the outputs of the loop over the selection, in directory order; `PlanCoversSelection` proves it covers exactly the selected files |
| `Thumbnails.PlanCoversSelection` | scripts/generate-thumbnails.mjs:30-41 | the run writes an output pair for every selected file and for nothing else |

## Left out

- Rendering, CSS and icons of both players: presentational only.
- `console.error` in both `error` handlers (app/components/PlaylistPlayer.tsx:116, app/components/WaveformPlayer.tsx:100): logging only.
- The engine effect's early return when the container element is missing (app/components/PlaylistPlayer.tsx:47, app/components/WaveformPlayer.tsx:39): the container is always rendered, so the return cannot happen. The `try`/`catch` around `ws.unAll()` in both cleanups (app/components/PlaylistPlayer.tsx:132-136, app/components/WaveformPlayer.tsx:112-116) is not modelled either: `AudioEngine.Engine.Release` always succeeds.
- `audioRef` (app/components/PlaylistPlayer.tsx:32, 58, 126): it is written but never read, so it has no field in the model.
- `PlaylistPlayer.Player.Mount`: requires a non-empty track list. The source does not handle an empty list: it throws when it reads `tracks[0].file` (app/components/PlaylistPlayer.tsx:121) and `tracks[activeIndex].title` (:208).
- `AudioEngine.Engine.Report`: the events are reported only to a live player. After teardown the media has been released, and a stale event changes neither the player nor the engine.
- WaveSurfer and the audio element's internals: decoding, waveform drawing, `getDuration`, and the way events are scheduled. The engine is abstract, its duration and time values are handler parameters, and its events can arrive in any order.
- Floating-point time, duration and volume, and `parseFloat` of the slider value: times are whole seconds and volume is in hundredths.
- `TimeFormat.FormatTime`: defined only for non-negative whole seconds. The source's `Math.floor` of fractional seconds is not modelled, nor JavaScript's exponent notation for numbers of 10^21 and more.
- React scheduling: each handler, and each effect together with the state change that triggers it, is one atomic step. In particular, `ChangeActiveIndex` runs the track-change effect at once.
- Emptying the container element in the effect and its cleanup (`removeChild` loops): DOM work with no state of the model.
- A change of the `tracks` prop, which also re-runs the track-change effect: the track list is fixed per player.
- `PlaylistPlayer.Player.SelectTrack`: requires an index inside the list, because the list only renders buttons for existing tracks.
- `Thumbnails.ToLowerFacts`: `toLowerCase` is modelled on ASCII letters only, so the lower-casing of other scripts is not captured.
- The thumbnail script's I/O: creating directories, reading the directory, copying files, logging, and resizing and encoding the thumbnail (an image library). Output paths are relative to the public directory.
- app/components/PhotoGallery.tsx, app/data/photos.ts and the page files are not part of this model. They are static data and presentational UI.
