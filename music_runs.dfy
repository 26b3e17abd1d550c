/**
 * A track's history: the commands and callbacks it receives, one at a time
 * (nothing in the track synchronises, so each is one atomic step), and the
 * track and effects that a whole sequence of them produces.
 */
module MusicRuns {
  import C = Collaborators
  import M = MusicModel

  /**
   * One host command or engine callback.  A query's parameter is the answer
   * the engine would give if the track asked it.
   */
  datatype Event =
    | PreloadMusic(playAfterPreload: bool)
    | PlayMusic
    | StopMusic
    | PauseMusic(enginePosition: int)
    | SetVolume(volume: real)
    | SetLooped(looped: bool)
    | GetDuration(engineDuration: int)
    | GetPosition(enginePosition: int)
    | Unload
    | OnSoundReady(soundId: int, durationMillis: int)
    | OnSoundComplete(engineDuration: int)

  /** The effect of one event; the value a query returns is dropped. */
  function Step(t: M.Track, e: Event): (r: M.Outcome)
    ensures M.Valid(t) ==> M.Valid(r.track)
  {
    match e
    case PreloadMusic(p) => M.PreloadMusic(t, p)
    case PlayMusic => M.PlayMusic(t)
    case StopMusic => M.StopMusic(t)
    case PauseMusic(pos) => M.PauseMusic(t, pos)
    case SetVolume(v) => M.SetVolume(t, v)
    case SetLooped(b) => M.SetLooped(t, b)
    case GetDuration(d) =>
      var r := M.GetDuration(t, d);
      M.Outcome(r.track, r.effects)
    case GetPosition(pos) =>
      var r := M.GetPosition(t, pos);
      M.Outcome(r.track, r.effects)
    case Unload => M.Outcome(M.Unload(t), [])
    case OnSoundReady(id, d) => M.OnSoundReady(t, id, d)
    case OnSoundComplete(d) => M.OnSoundComplete(t, d)
  }

  /** The events applied in order; the effects of each follow those of the one before. */
  function Run(t: M.Track, events: seq<Event>): M.Outcome
    decreases |events|
  {
    if events == [] then M.Outcome(t, [])
    else
      var first := Step(t, events[0]);
      var rest := Run(first.track, events[1..]);
      M.Outcome(rest.track, first.effects + rest.effects)
  }

  /** How many of the events are ready callbacks. */
  function ReadyCount(events: seq<Event>): nat
  {
    if events == [] then 0
    else (if events[0].OnSoundReady? then 1 else 0) + ReadyCount(events[1..])
  }

  /** How many of the events are completion callbacks. */
  function CompleteCount(events: seq<Event>): nat
  {
    if events == [] then 0
    else (if events[0].OnSoundComplete? then 1 else 0) + CompleteCount(events[1..])
  }

  /** The volume last set by the events, or `volume` if none sets one. */
  function LastVolume(volume: real, events: seq<Event>): real
    decreases |events|
  {
    if events == [] then volume
    else LastVolume(if events[0].SetVolume? then events[0].volume else volume, events[1..])
  }

  /** The looping flag last set by the events, or `looped` if none sets one. */
  function LastLooped(looped: bool, events: seq<Event>): bool
    decreases |events|
  {
    if events == [] then looped
    else LastLooped(if events[0].SetLooped? then events[0].looped else looped, events[1..])
  }
}
