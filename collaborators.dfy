/**
 * What a music track says to the world around it: calls on the process-wide
 * sound engine (SoundManager) and notifications to the host scripting object.
 * The track's observable behaviour is the ordered list of these effects.
 */
module Collaborators {

  /** One call on the shared sound engine, queries included. */
  datatype EngineCall =
    | InitializeMusic
    | PlayMusic
    | StopMusic
    | PauseMusic
    | SetMusicVolume(volume: real)
    | SetMusicLoop(looped: bool)
    | GetCurrentMusicPosition
    | GetCurrentMusicDuration

  /** The two notifications the host object receives. */
  datatype Notification = MusicLoadCompleted | PlaybackCompleted

  datatype Effect = Call(call: EngineCall) | Notify(notification: Notification)

  /** How many times `e` occurs in `effects`. */
  function Occurrences(effects: seq<Effect>, e: Effect): nat
  {
    multiset(effects)[e]
  }

  /** The engine is asked for nothing but (at most) a load. */
  predicate OnlyLoads(effects: seq<Effect>)
  {
    forall i :: 0 <= i < |effects| && effects[i].Call? ==> effects[i].call == InitializeMusic
  }
}
