/**
 * What the track promises over single commands and over whole histories:
 * guarded commands are idempotent, cached values are served without the
 * engine, a deferred play is honoured, notifications match callbacks one
 * for one, settings persist, and the class invariant holds throughout.
 */
module MusicProperties {
  import C = Collaborators
  import M = MusicModel
  import R = MusicRuns

  /** A duplicate preload, play, stop or pause from the host is ignored. */
  lemma CommandsIdempotent(t: M.Track, p: bool, q: bool, position1: int, position2: int)
    ensures var u := M.PreloadMusic(t, p).track; M.PreloadMusic(u, q) == M.Ignored(u)
    ensures var u := M.PlayMusic(t).track; M.PlayMusic(u) == M.Ignored(u)
    ensures var u := M.StopMusic(t).track; M.StopMusic(u) == M.Ignored(u)
    ensures var u := M.PauseMusic(t, position1).track; M.PauseMusic(u, position2) == M.Ignored(u)
  {
  }

  /**
   * Once getDuration() has produced a known duration (or the track is not
   * loaded), asking again returns the same value without asking the engine.
   */
  lemma DurationCached(t: M.Track, engineDuration1: int, engineDuration2: int)
    requires M.GetDuration(t, engineDuration1).value != M.UnknownDuration || !M.IsReady(t)
    ensures var first := M.GetDuration(t, engineDuration1);
            M.GetDuration(first.track, engineDuration2) == M.Reply(first.track, [], first.value)
  {
  }

  /** After a pause, getPosition() gives the position the engine reported at the pause, without asking again. */
  lemma PositionSnapshotOnPause(t: M.Track, pausedAt: int, later: int)
    requires t.state == M.Playing
    ensures var u := M.PauseMusic(t, pausedAt).track;
            M.GetPosition(u, later) == M.Reply(u, [], pausedAt)
  {
  }

  /**
   * unload() keeps the cached duration: getDuration() on an unloaded track
   * returns whatever duration was cached before, and asks the engine nothing.
   */
  lemma UnloadKeepsDuration(t: M.Track, engineDuration: int)
    ensures M.GetDuration(M.Unload(t), engineDuration) == M.Reply(M.Unload(t), [], t.duration)
  {
  }

  /**
   * An unloaded track asks the engine for nothing but a load, whatever the
   * host does; only a ready callback (which is not guarded) can make it play.
   */
  lemma QuietWhileUnloaded(t: M.Track, e: R.Event)
    requires !M.IsReady(t) && !e.OnSoundReady?
    ensures C.OnlyLoads(R.Step(t, e).effects)
  {
  }

  /** The per-event count of notifications. */
  lemma StepNotifications(t: M.Track, e: R.Event)
    ensures C.Occurrences(R.Step(t, e).effects, C.Notify(C.MusicLoadCompleted))
            == if e.OnSoundReady? then 1 else 0
    ensures C.Occurrences(R.Step(t, e).effects, C.Notify(C.PlaybackCompleted))
            == if e.OnSoundComplete? then 1 else 0
  {
  }

  /**
   * Over any history, the host hears "load completed" once per ready
   * callback and "playback completed" once per completion callback: never
   * on a command, never batched, never dropped.
   */
  lemma {:induction false} RunNotifications(t: M.Track, events: seq<R.Event>)
    ensures C.Occurrences(R.Run(t, events).effects, C.Notify(C.MusicLoadCompleted)) == R.ReadyCount(events)
    ensures C.Occurrences(R.Run(t, events).effects, C.Notify(C.PlaybackCompleted)) == R.CompleteCount(events)
    decreases |events|
  {
    if events != [] {
      var first := R.Step(t, events[0]);
      StepNotifications(t, events[0]);
      RunNotifications(first.track, events[1..]);
    }
  }

  /** The class invariant holds after any history that starts from a valid track. */
  lemma {:induction false} RunKeepsValid(t: M.Track, events: seq<R.Event>)
    requires M.Valid(t)
    ensures M.Valid(R.Run(t, events).track)
    decreases |events|
  {
    if events != [] {
      RunKeepsValid(R.Step(t, events[0]).track, events[1..]);
    }
  }

  /** In particular every track the host can reach from construction is valid. */
  lemma ReachableValid(events: seq<R.Event>)
    ensures M.Valid(R.Run(M.Created(), events).track)
  {
    RunKeepsValid(M.Created(), events);
  }

  /**
   * Volume and looping are the values last set, whatever loads, unloads,
   * plays and callbacks happen in between (setting them while unloaded is
   * not lost).
   */
  lemma {:induction false} RunKeepsSettings(t: M.Track, events: seq<R.Event>)
    ensures R.Run(t, events).track.volume == R.LastVolume(t.volume, events)
    ensures R.Run(t, events).track.looped == R.LastLooped(t.looped, events)
    decreases |events|
  {
    if events != [] {
      RunKeepsSettings(R.Step(t, events[0]).track, events[1..]);
    }
  }

  /** True when no event is an engine callback. */
  predicate NoCallbacks(events: seq<R.Event>)
  {
    forall i :: 0 <= i < |events| ==> !events[i].OnSoundReady? && !events[i].OnSoundComplete?
  }

  /**
   * A track that is unloaded or loading stays so until the engine calls
   * back: loading has no timeout, and no host command makes it playable.
   */
  lemma {:induction false} LoadingWaitsForEngine(t: M.Track, events: seq<R.Event>)
    requires t.state == M.Unloaded || t.state == M.Loading
    requires NoCallbacks(events)
    ensures R.Run(t, events).track.state == M.Unloaded || R.Run(t, events).track.state == M.Loading
    decreases |events|
  {
    if events != [] {
      assert NoCallbacks(events[1..]) by {
        forall i | 0 <= i < |events[1..]| ensures !events[1..][i].OnSoundReady? && !events[1..][i].OnSoundComplete? {
          assert events[1..][i] == events[i + 1];
        }
      }
      LoadingWaitsForEngine(R.Step(t, events[0]).track, events[1..]);
    }
  }

  /**
   * play() on an unloaded track asks for a load; when the engine reports the
   * track ready the host hears of it and then the track plays.
   */
  lemma DeferredPlay(t: M.Track, soundId: int, durationMillis: int)
    requires !M.IsReady(t)
    ensures var r := R.Run(t, [R.PlayMusic, R.OnSoundReady(soundId, durationMillis)]);
            r.track.state == M.Playing && r.track.id == soundId && r.track.duration == durationMillis
            && r.effects == [C.Call(C.InitializeMusic), C.Notify(C.MusicLoadCompleted), C.Call(C.PlayMusic)]
  {
    var ready := R.OnSoundReady(soundId, durationMillis);
    var loading := R.Step(t, R.PlayMusic);
    var playing := R.Step(loading.track, ready);
    assert loading.track.playAfterPreload && loading.effects == [C.Call(C.InitializeMusic)];
    assert R.Run(loading.track, [ready]) == playing by {
      assert [ready][1..] == [];
    }
    assert [R.PlayMusic, ready][1..] == [ready];
  }

  /**
   * The request to play after loading is not consumed by the load: a second
   * ready callback, even after a stop, starts the track playing again.
   */
  lemma ReadyFlagNotConsumed(t: M.Track, id1: int, duration1: int, id2: int, duration2: int)
    requires !M.IsReady(t)
    ensures R.Run(t, [R.PlayMusic, R.OnSoundReady(id1, duration1), R.StopMusic, R.OnSoundReady(id2, duration2)])
            .track.state == M.Playing
  {
    var ready2 := R.OnSoundReady(id2, duration2);
    var loading := R.Step(t, R.PlayMusic).track;
    var playing := R.Step(loading, R.OnSoundReady(id1, duration1)).track;
    var stopped := R.Step(playing, R.StopMusic).track;
    assert loading.playAfterPreload && playing.playAfterPreload && stopped.playAfterPreload;
    assert R.Run(stopped, [ready2]).track.state == M.Playing by {
      assert [ready2][1..] == [];
    }
    var ready1 := R.OnSoundReady(id1, duration1);
    assert [R.StopMusic, ready2][1..] == [ready2];
    assert R.Run(playing, [R.StopMusic, ready2]).track == R.Run(stopped, [ready2]).track;
    assert [ready1, R.StopMusic, ready2][1..] == [R.StopMusic, ready2];
    assert R.Run(loading, [ready1, R.StopMusic, ready2]).track == R.Run(playing, [R.StopMusic, ready2]).track;
    assert [R.PlayMusic, ready1, R.StopMusic, ready2][1..] == [ready1, R.StopMusic, ready2];
  }
}
