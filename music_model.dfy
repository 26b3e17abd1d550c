/**
 * The state of one music track as a value, and one function per operation of
 * the track: host commands, engine queries, and the two engine callbacks.
 * Each function returns the new track together with the ordered effects the
 * operation has on the engine and on the host.  The class Sound.Music is
 * proved to behave exactly as these functions say.
 */
module MusicModel {
  import C = Collaborators

  datatype SoundState = Unloaded | Loading | Idle | Playing | Paused

  /** Engine id of a track that is not loaded. */
  const NoId: int := -1
  /** Cached duration meaning "not known yet, ask the engine". */
  const UnknownDuration: int := -1

  /**
   * The mutable fields of a track.  Durations and positions are in
   * milliseconds; `volume` is only stored and forwarded.
   */
  datatype Track = Track(
    state: SoundState,
    id: int,
    duration: int,
    position: int,
    volume: real,
    looped: bool,
    playAfterPreload: bool)

  /** Result of a command or callback: the new track and what it caused. */
  datatype Outcome = Outcome(track: Track, effects: seq<C.Effect>)

  /** Result of a query: as an Outcome, plus the value handed back. */
  datatype Reply = Reply(track: Track, effects: seq<C.Effect>, value: int)

  /** The class invariant: a track that is not loaded has no engine id and a zero position. */
  predicate Valid(t: Track)
  {
    (t.state == Unloaded || t.state == Loading) ==> t.id == NoId && t.position == 0
  }

  /** isReady(): the track has been handed to the engine. */
  predicate IsReady(t: Track)
  {
    t.state != Unloaded
  }

  /** Everything but the state and the cached position is as before. */
  predicate KeepsLoad(t: Track, u: Track)
  {
    u.id == t.id && u.duration == t.duration && u.volume == t.volume
    && u.looped == t.looped && u.playAfterPreload == t.playAfterPreload
  }

  /** A command issued in a state where it does not apply. */
  function Ignored(t: Track): Outcome
  {
    Outcome(t, [])
  }

  /**
   * A freshly constructed track.  The fields the constructor leaves to
   * unload() start from Java's defaults (0 and false).
   */
  function Created(): (t: Track)
    ensures Valid(t) && !IsReady(t)
    ensures t.duration == UnknownDuration && t.volume == 1.0 && !t.looped && !t.playAfterPreload
  {
    Unload(Track(Unloaded, 0, UnknownDuration, 0, 1.0, false, false))
  }

  /** preloadMusic(playAfterPreload) */
  function PreloadMusic(t: Track, playAfterPreload: bool): (r: Outcome)
    ensures Valid(t) ==> Valid(r.track)
    ensures IsReady(r.track)
    ensures r == Ignored(t) <==> IsReady(t)
    ensures C.Occurrences(r.effects, C.Call(C.InitializeMusic)) == (if IsReady(t) then 0 else 1)
    ensures C.OnlyLoads(r.effects)
    ensures !IsReady(t) ==> r.track.state == Loading && r.track.playAfterPreload == playAfterPreload
    ensures r.track.id == t.id && r.track.position == t.position && r.track.duration == t.duration
    ensures r.track.volume == t.volume && r.track.looped == t.looped
  {
    if t.state != Unloaded then Ignored(t)
    else Outcome(t.(state := Loading, playAfterPreload := playAfterPreload), [C.Call(C.InitializeMusic)])
  }

  /** playMusic() */
  function PlayMusic(t: Track): (r: Outcome)
    ensures Valid(t) ==> Valid(r.track)
    ensures r.track.state == Loading || r.track.state == Playing
    ensures r == Ignored(t) <==> t.state == Loading || t.state == Playing
    ensures !IsReady(t) ==> r == PreloadMusic(t, true)
    ensures IsReady(t) ==> KeepsLoad(t, r.track) && r.track.position == t.position
    ensures (t.state == Idle || t.state == Paused) ==>
      r.track.state == Playing && r.effects == [C.Call(C.PlayMusic)]
  {
    if t.state == Unloaded then PreloadMusic(t, true)
    else if t.state != Idle && t.state != Paused then Ignored(t)
    else Outcome(t.(state := Playing), [C.Call(C.PlayMusic)])
  }

  /** stopMusic() */
  function StopMusic(t: Track): (r: Outcome)
    ensures Valid(t) ==> Valid(r.track)
    ensures r == Ignored(t) <==> !(t.state == Playing || t.state == Paused)
    ensures (t.state == Playing || t.state == Paused) ==>
      r.track.state == Idle && r.track.position == 0 && r.effects == [C.Call(C.StopMusic)]
    ensures KeepsLoad(t, r.track)
  {
    if t.state != Playing && t.state != Paused then Ignored(t)
    else Outcome(t.(state := Idle, position := 0), [C.Call(C.StopMusic)])
  }

  /** pauseMusic(): the engine's current position is `enginePosition`. */
  function PauseMusic(t: Track, enginePosition: int): (r: Outcome)
    ensures Valid(t) ==> Valid(r.track)
    ensures r == Ignored(t) <==> t.state != Playing
    ensures t.state == Playing ==>
      r.track.state == Paused && r.track.position == enginePosition
      && r.effects == [C.Call(C.PauseMusic), C.Call(C.GetCurrentMusicPosition)]
    ensures KeepsLoad(t, r.track)
  {
    if t.state != Playing then Ignored(t)
    else Outcome(t.(state := Paused, position := enginePosition),
                 [C.Call(C.PauseMusic), C.Call(C.GetCurrentMusicPosition)])
  }

  /** setVolume(volume) */
  function SetVolume(t: Track, volume: real): (r: Outcome)
    ensures Valid(t) ==> Valid(r.track)
    ensures r.track == t.(volume := volume)
    ensures r.effects == (if IsReady(t) then [C.Call(C.SetMusicVolume(volume))] else [])
  {
    if t.state != Unloaded then Outcome(t.(volume := volume), [C.Call(C.SetMusicVolume(volume))])
    else Outcome(t.(volume := volume), [])
  }

  /** setLooped(looped) */
  function SetLooped(t: Track, looped: bool): (r: Outcome)
    ensures Valid(t) ==> Valid(r.track)
    ensures r.track == t.(looped := looped)
    ensures r.effects == (if IsReady(t) then [C.Call(C.SetMusicLoop(looped))] else [])
  {
    if t.state != Unloaded then Outcome(t.(looped := looped), [C.Call(C.SetMusicLoop(looped))])
    else Outcome(t.(looped := looped), [])
  }

  /** getDuration(): the engine would answer `engineDuration` if asked. */
  function GetDuration(t: Track, engineDuration: int): (r: Reply)
    ensures Valid(t) ==> Valid(r.track)
    ensures r.track == t.(duration := r.value)
    ensures t.duration != UnknownDuration || !IsReady(t) ==> r.value == t.duration && r.effects == []
    ensures t.duration == UnknownDuration && IsReady(t) ==>
      r.value == engineDuration && r.effects == [C.Call(C.GetCurrentMusicDuration)]
  {
    if t.duration == UnknownDuration && t.state != Unloaded then
      Reply(t.(duration := engineDuration), [C.Call(C.GetCurrentMusicDuration)], engineDuration)
    else
      Reply(t, [], t.duration)
  }

  /** getPosition(): the engine would answer `enginePosition` if asked. */
  function GetPosition(t: Track, enginePosition: int): (r: Reply)
    ensures Valid(t) ==> Valid(r.track)
    ensures r.track == t.(position := r.value)
    ensures t.state == Playing ==> r.value == enginePosition && r.effects == [C.Call(C.GetCurrentMusicPosition)]
    ensures t.state != Playing ==> r.value == t.position && r.effects == []
  {
    if t.state == Playing then
      Reply(t.(position := enginePosition), [C.Call(C.GetCurrentMusicPosition)], enginePosition)
    else
      Reply(t, [], t.position)
  }

  /** unload(): forget the engine's copy, keep duration, volume and looping. */
  function Unload(t: Track): (u: Track)
    ensures Valid(u) && !IsReady(u)
    ensures u.duration == t.duration && u.volume == t.volume && u.looped == t.looped
    ensures u.playAfterPreload == t.playAfterPreload
  {
    t.(id := NoId, state := Unloaded, position := 0)
  }

  /**
   * onSoundReady(soundId, soundDurationMillis), in whatever state the track is:
   * the host hears of the load first, then a deferred play is carried out.
   */
  function OnSoundReady(t: Track, soundId: int, durationMillis: int): (r: Outcome)
    ensures Valid(r.track)
    ensures r.track.id == soundId && r.track.duration == durationMillis
    ensures r.track.state == (if t.playAfterPreload then Playing else Idle)
    ensures r.effects == [C.Notify(C.MusicLoadCompleted)]
                         + (if t.playAfterPreload then [C.Call(C.PlayMusic)] else [])
    ensures r.track.position == t.position && r.track.volume == t.volume
    ensures r.track.looped == t.looped && r.track.playAfterPreload == t.playAfterPreload
  {
    var loaded := t.(id := soundId, duration := durationMillis, state := Idle);
    if t.playAfterPreload then
      var played := PlayMusic(loaded);
      Outcome(played.track, [C.Notify(C.MusicLoadCompleted)] + played.effects)
    else
      Outcome(loaded, [C.Notify(C.MusicLoadCompleted)])
  }

  /**
   * onSoundComplete(): a looping track rewinds and keeps its state; any other
   * track becomes idle at its end, asking the engine for the duration if it
   * is not cached yet (the engine would answer `engineDuration`).
   */
  function OnSoundComplete(t: Track, engineDuration: int): (r: Outcome)
    ensures Valid(t) ==> Valid(r.track)
    ensures t.looped ==> r.track == t.(position := 0)
    ensures !t.looped ==> r.track.state == Idle && r.track.position == r.track.duration
    ensures !t.looped ==>
      r.track.duration == (if t.duration == UnknownDuration && IsReady(t) then engineDuration else t.duration)
    ensures r.track.playAfterPreload == t.playAfterPreload
    ensures r.effects ==
      (if !t.looped && t.duration == UnknownDuration && IsReady(t)
       then [C.Call(C.GetCurrentMusicDuration)] else [])
      + [C.Notify(C.PlaybackCompleted)]
    // corollaries of the exact effects above: one notification, sent last, and no load notice
    ensures |r.effects| > 0 && r.effects[|r.effects| - 1] == C.Notify(C.PlaybackCompleted)
    ensures C.Occurrences(r.effects, C.Notify(C.PlaybackCompleted)) == 1
    ensures C.Occurrences(r.effects, C.Notify(C.MusicLoadCompleted)) == 0
    ensures r.track.id == t.id && r.track.volume == t.volume && r.track.looped == t.looped
  {
    if t.looped then
      Outcome(t.(position := 0), [C.Notify(C.PlaybackCompleted)])
    else
      var d := GetDuration(t, engineDuration);
      Outcome(d.track.(position := d.value, state := Idle), d.effects + [C.Notify(C.PlaybackCompleted)])
  }
}
