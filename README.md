# Music track state machine

A model of the `Music` class of the Android sound backend: one music track
that the host scripting object drives with commands (preload, play, stop,
pause, volume, looping, duration and position queries, unload) and that the
shared sound engine drives with two callbacks (sound ready, sound complete).
The track keeps a state (UNLOADED, LOADING, IDLE, PLAYING, PAUSED), the
engine id, a cached duration (`-1` while unknown), a cached position, the
volume, the looping flag and the "play after preload" request.

The project has two layers:

- `music_model.dfy` (module `MusicModel`): the track's fields as a value
  (`Track`) and one function per Java method. Each function returns the new
  track and the ordered list of effects the method has. An effect is a call on
  the engine or a notification to the host (`collaborators.dfy`).
- `music.dfy` (module `Sound`): the class `Music`. Its methods update the
  fields in place. Each method is proved to leave the object in exactly the
  state the function of the same name gives. A ghost `trace` records every
  engine call and host notification in order. The class invariant `Valid()`
  says that an unloaded or loading track has engine id `-1` and position `0`.

`music_runs.dfy` (module `MusicRuns`) folds the functions over a sequence of
commands and callbacks. `music_properties.dfy` (module `MusicProperties`)
proves what holds over one call and over whole histories.

Collaborators are parameters:

- The engine's answers to `getCurrentMusicPosition` and
  `getCurrentMusicDuration` are parameters of the methods that ask them, so
  the caller chooses them.
- Each engine call is an entry of the trace.
- The two `call0` notifications to the host are trace entries too.
- The unique key comes in as a constructor argument.

Behaviours of the code a reader might not expect; the model follows the
code:

- The play-after-preload request is never cleared. Only a
  `preloadMusic` issued while UNLOADED overwrites it, including the one
  `playMusic` issues. A second ready callback therefore starts
  playback again (`MusicProperties.ReadyFlagNotConsumed`).
- `unload` keeps the cached duration. `getDuration` on an unloaded track
  returns the duration cached before, not `-1`
  (`MusicProperties.UnloadKeepsDuration`).
- `onSoundReady` and `onSoundComplete` are not guarded by the state. A ready
  callback moves any track to IDLE or PLAYING. A non-looping completion moves
  any track to IDLE, a loading one included.
- `setVolume` and `setLooped` push to the engine in every state but UNLOADED,
  LOADING included.

## Model

| member | source | states |
|---|---|---|
| `MusicModel.Created` | backends/sound_android/java/org/haxe/duell/sound/Music.java:41-57 | a new track is unloaded and valid, with unknown duration, volume 1.0, looping off and no play-after-preload request |
| `MusicModel.PreloadMusic` | backends/sound_android/java/org/haxe/duell/sound/Music.java:59-72 | ignored exactly when the track is already ready; otherwise LOADING with the request stored and exactly one engine load; afterwards always ready; only loads reach the engine; id, position, duration and settings kept; invariant kept |
| `MusicModel.PlayMusic` | backends/sound_android/java/org/haxe/duell/sound/Music.java:74-91 | ends LOADING or PLAYING; ignored exactly from LOADING or PLAYING; from UNLOADED it is a preload with the play request set; from IDLE or PAUSED it ends PLAYING after one engine play; a loaded track keeps id, duration, settings and position; invariant kept |
| `MusicModel.StopMusic` | backends/sound_android/java/org/haxe/duell/sound/Music.java:93-108 | ignored exactly outside PLAYING and PAUSED; from those it ends IDLE at position 0 with one engine stop; everything else kept; invariant kept |
| `MusicModel.PauseMusic` | backends/sound_android/java/org/haxe/duell/sound/Music.java:110-125 | ignored exactly outside PLAYING; from PLAYING it ends PAUSED at the position the engine reports, after an engine pause then a position query; everything else kept; invariant kept |
| `MusicModel.SetVolume` | backends/sound_android/java/org/haxe/duell/sound/Music.java:127-138 | the volume is stored and nothing else changes; the only effect is one engine call with the new volume when the track is ready; an unloaded track only caches the value and the engine is not called |
| `MusicModel.SetLooped` | backends/sound_android/java/org/haxe/duell/sound/Music.java:140-151 | the looping flag is stored and nothing else changes; the only effect is one engine call with the new flag when the track is ready; an unloaded track only caches the value and the engine is not called |
| `MusicModel.GetDuration` | backends/sound_android/java/org/haxe/duell/sound/Music.java:153-164 | only the cached duration can change, and it becomes the returned value; a known duration or an unloaded track gives the cache with no engine call; an unknown duration on a ready track gives the engine's answer after one query |
| `MusicModel.GetPosition` | backends/sound_android/java/org/haxe/duell/sound/Music.java:166-177 | only the cached position can change, and it becomes the returned value; while PLAYING it is the engine's answer after one query, otherwise the cache with no engine call |
| `MusicModel.Unload` | backends/sound_android/java/org/haxe/duell/sound/Music.java:179-184 | the track is unloaded and valid; duration, volume, looping and the play request survive |
| `MusicModel.OnSoundReady` | backends/sound_android/java/org/haxe/duell/sound/Music.java:186-201 | from any state: the engine id and duration are stored; the track ends PLAYING if play was requested, else IDLE; the host is told of the load first, then one engine play follows only if requested; position, settings and the request are kept; the result is valid |
| `MusicModel.OnSoundComplete` | backends/sound_android/java/org/haxe/duell/sound/Music.java:203-220 | a looping track rewinds to 0 and keeps its state; otherwise it ends IDLE with duration and position both equal to the cached duration, or to the engine's answer when the duration is unknown and the track is ready; the play request is kept; the effects are exactly that optional duration query followed by one playback-completed notification; invariant kept |
| `Sound.Music.constructor` | backends/sound_android/java/org/haxe/duell/sound/Music.java:36-57 | the object holds the given source, origin and unique key; its fields equal `Created()`; its trace is empty |
| `Sound.Music.IsReady` | backends/sound_android/java/org/haxe/duell/sound/Music.java:226-229 | ready exactly when the model track is ready (not UNLOADED) |
| `Sound.Music.PreloadMusic` | backends/sound_android/java/org/haxe/duell/sound/Music.java:59-72 | the fields become `PreloadMusic` of the old fields; the trace grows by its effects; invariant kept |
| `Sound.Music.PlayMusic` | backends/sound_android/java/org/haxe/duell/sound/Music.java:74-91 | the fields and trace follow `PlayMusic`, including the preload it delegates to; invariant kept |
| `Sound.Music.StopMusic` | backends/sound_android/java/org/haxe/duell/sound/Music.java:93-108 | the fields and trace follow `StopMusic`; invariant kept |
| `Sound.Music.PauseMusic` | backends/sound_android/java/org/haxe/duell/sound/Music.java:110-125 | the fields and trace follow `PauseMusic` for the engine's reported position; invariant kept |
| `Sound.Music.SetVolume` | backends/sound_android/java/org/haxe/duell/sound/Music.java:127-138 | the fields and trace follow `SetVolume`; invariant kept |
| `Sound.Music.SetLooped` | backends/sound_android/java/org/haxe/duell/sound/Music.java:140-151 | the fields and trace follow `SetLooped`; invariant kept |
| `Sound.Music.GetDuration` | backends/sound_android/java/org/haxe/duell/sound/Music.java:153-164 | returns the value, and leaves the fields and trace, that `GetDuration` gives for the engine's answer |
| `Sound.Music.GetPosition` | backends/sound_android/java/org/haxe/duell/sound/Music.java:166-177 | returns the value, and leaves the fields and trace, that `GetPosition` gives for the engine's answer |
| `Sound.Music.Unload` | backends/sound_android/java/org/haxe/duell/sound/Music.java:179-184 | the fields become `Unload` of the old fields, from any (even not yet valid) state; the trace is unchanged; the invariant is established |
| `Sound.Music.OnSoundReady` | backends/sound_android/java/org/haxe/duell/sound/Music.java:186-201 | the fields and trace follow `OnSoundReady`, including the chained play; invariant kept |
| `Sound.Music.OnSoundComplete` | backends/sound_android/java/org/haxe/duell/sound/Music.java:203-220 | the fields and trace follow `OnSoundComplete`, including the chained duration query; invariant kept |
| `Sound.PlayBeforeLoad` | backends/sound_android/java/org/haxe/duell/sound/Music.java:74-91 | on the object: play before load, then ready with id 5 and 3000 ms, gives PLAYING, id 5 and duration 3000 without a query, after exactly one load notification |
| `Sound.PauseKeepsPosition` | backends/sound_android/java/org/haxe/duell/sound/Music.java:110-177 | on the object: pausing at an engine position of 1200 ms makes later position reads return 1200 without asking the engine |
| `MusicProperties.CommandsIdempotent` | backends/sound_android/java/org/haxe/duell/sound/Music.java:59-125 | a second preload, play, stop or pause right after the first is ignored |
| `MusicProperties.DurationCached` | backends/sound_android/java/org/haxe/duell/sound/Music.java:153-164 | once a duration query has produced a known value (or the track is unloaded), a second query returns it unchanged with no engine call |
| `MusicProperties.PositionSnapshotOnPause` | backends/sound_android/java/org/haxe/duell/sound/Music.java:110-177 | after a pause the position read is the engine's position at pause time, with no engine call |
| `MusicProperties.UnloadKeepsDuration` | backends/sound_android/java/org/haxe/duell/sound/Music.java:153-184 | after unload the duration query returns the duration cached before and asks the engine nothing |
| `MusicProperties.QuietWhileUnloaded` | backends/sound_android/java/org/haxe/duell/sound/Music.java:59-184 | an unloaded track asks the engine for nothing but a load on any command or completion |
| `MusicProperties.StepNotifications` | backends/sound_android/java/org/haxe/duell/sound/Music.java:186-220 | one event sends one load notification if it is a ready callback, one playback notification if it is a completion, and none otherwise |
| `MusicProperties.RunNotifications` | backends/sound_android/java/org/haxe/duell/sound/Music.java:186-220 | over any history, load notifications equal ready callbacks and playback notifications equal completion callbacks |
| `MusicProperties.RunKeepsValid` | backends/sound_android/java/org/haxe/duell/sound/Music.java:59-220 | any history keeps an unloaded or loading track at engine id -1 and position 0 |
| `MusicProperties.ReachableValid` | backends/sound_android/java/org/haxe/duell/sound/Music.java:41-57 | every track reachable from construction satisfies the invariant |
| `MusicProperties.RunKeepsSettings` | backends/sound_android/java/org/haxe/duell/sound/Music.java:127-151 | after any history, volume and looping are the values last set, or the initial ones, across loads and unloads |
| `MusicProperties.LoadingWaitsForEngine` | backends/sound_android/java/org/haxe/duell/sound/Music.java:59-91 | without an engine callback, an unloaded or loading track never leaves those two states; loading has no timeout |
| `MusicProperties.DeferredPlay` | backends/sound_android/java/org/haxe/duell/sound/Music.java:186-201 | play on an unloaded track, then ready, ends PLAYING with the engine's id and duration; the effects are load, then the load notification, then play |
| `MusicProperties.ReadyFlagNotConsumed` | backends/sound_android/java/org/haxe/duell/sound/Music.java:186-201 | after a deferred play and a stop, a second ready callback plays the track again, because the request is never cleared |

## Left out

- Logging (`Log.d`) has no behaviour and is not modelled.
- The host object's `call0` is modelled only as a notification entry in the trace. The string dispatch is not modelled.
- The sound engine (`SoundManager`) is modelled only as trace entries. Its query answers are caller-chosen parameters. Its audio work and its own state are not modelled.
- The engine's single playback slot is not modelled. Stop, pause and the setters name no track, so several tracks would share that slot. The model covers one track and does not check whether another track owns the slot.
- `SoundIdProvider.getId()` is not modelled: the unique key is a constructor argument. Uniqueness across objects depends on that global counter and is not modelled.
- Floating point is not modelled: volume is a `real` that is only stored and forwarded.
- Durations and positions are unbounded integers. `getDuration` and `getPosition` return `float` in the source, and `onSoundComplete` casts that back with `(long)`. Above 2^24 ms those casts lose precision; the model does not.
- Threading is not modelled. Commands and callbacks may arrive on different threads and nothing synchronises them; the model takes each call as one atomic step.
- `getFileUrl`, `isFromAssets`, `isLooped`, `getVolume`, `getId` and `getUniqueKey` are plain reads of the class's fields and constants, with no member of their own.
- The static factory `create` is the class constructor.
- Before the source constructor calls `unload()`, its state is `null`; the model starts that state at UNLOADED.
