/**
 * The music track as the object the host holds: its fields are updated in
 * place by the host's commands and by the engine's two callbacks.  Every
 * method is proved to agree with the function of the same name in
 * MusicModel, and the ghost `trace` records, in order, every call the track
 * makes on the engine and every notification it sends to the host.
 */
module Sound {
  import C = Collaborators
  import M = MusicModel

  class Music {
    const fileUrl: string
    const fromAssets: bool
    /** Handed out by the caller; stays fixed for the object's lifetime. */
    const uniqueKey: int

    var id: int
    var volume: real
    var looped: bool
    var state: M.SoundState
    var duration: int
    var position: int
    var playAfterPreload: bool

    /** Everything the track has asked of the engine and told the host, oldest first. */
    ghost var trace: seq<C.Effect>

    /** The fields as a MusicModel value. */
    ghost function Snapshot(): M.Track
      reads this
    {
      M.Track(state, id, duration, position, volume, looped, playAfterPreload)
    }

    ghost predicate Valid()
      reads this
    {
      M.Valid(Snapshot())
    }

    /** isReady() */
    predicate IsReady()
      reads this
      ensures IsReady() <==> M.IsReady(Snapshot())
    {
      state != M.Unloaded
    }

    constructor (fileUrl: string, fromAssets: bool, uniqueKey: int)
      ensures Valid()
      ensures this.fileUrl == fileUrl && this.fromAssets == fromAssets && this.uniqueKey == uniqueKey
      ensures Snapshot() == M.Created() && trace == []
    {
      this.fileUrl := fileUrl;
      this.fromAssets := fromAssets;
      this.uniqueKey := uniqueKey;
      duration := M.UnknownDuration;
      volume := 1.0;
      looped := false;
      // Java's defaults for the fields that unload() sets
      id := 0;
      state := M.Unloaded;
      position := 0;
      playAfterPreload := false;
      trace := [];
      new;
      Unload();
    }

    method PreloadMusic(playAfterPreload: bool)
      requires Valid()
      modifies this
      ensures Valid()
      ensures Snapshot() == M.PreloadMusic(old(Snapshot()), playAfterPreload).track
      ensures trace == old(trace) + M.PreloadMusic(old(Snapshot()), playAfterPreload).effects
    {
      if state != M.Unloaded {
        return;
      }
      state := M.Loading;
      this.playAfterPreload := playAfterPreload;
      trace := trace + [C.Call(C.InitializeMusic)];
    }

    method PlayMusic()
      requires Valid()
      modifies this
      ensures Valid()
      ensures Snapshot() == M.PlayMusic(old(Snapshot())).track
      ensures trace == old(trace) + M.PlayMusic(old(Snapshot())).effects
    {
      if state == M.Unloaded {
        PreloadMusic(true);
        return;
      } else if state != M.Idle && state != M.Paused {
        return;
      }
      state := M.Playing;
      trace := trace + [C.Call(C.PlayMusic)];
    }

    method StopMusic()
      requires Valid()
      modifies this
      ensures Valid()
      ensures Snapshot() == M.StopMusic(old(Snapshot())).track
      ensures trace == old(trace) + M.StopMusic(old(Snapshot())).effects
    {
      if state != M.Playing && state != M.Paused {
        return;
      }
      state := M.Idle;
      trace := trace + [C.Call(C.StopMusic)];
      position := 0;
    }

    /** `enginePosition` is what the engine reports as its current position. */
    method PauseMusic(enginePosition: int)
      requires Valid()
      modifies this
      ensures Valid()
      ensures Snapshot() == M.PauseMusic(old(Snapshot()), enginePosition).track
      ensures trace == old(trace) + M.PauseMusic(old(Snapshot()), enginePosition).effects
    {
      if state != M.Playing {
        return;
      }
      state := M.Paused;
      trace := trace + [C.Call(C.PauseMusic)];
      trace := trace + [C.Call(C.GetCurrentMusicPosition)];
      position := enginePosition;
    }

    method SetVolume(volume: real)
      requires Valid()
      modifies this
      ensures Valid()
      ensures Snapshot() == M.SetVolume(old(Snapshot()), volume).track
      ensures trace == old(trace) + M.SetVolume(old(Snapshot()), volume).effects
    {
      this.volume := volume;
      if state != M.Unloaded {
        trace := trace + [C.Call(C.SetMusicVolume(volume))];
      }
    }

    method SetLooped(looped: bool)
      requires Valid()
      modifies this
      ensures Valid()
      ensures Snapshot() == M.SetLooped(old(Snapshot()), looped).track
      ensures trace == old(trace) + M.SetLooped(old(Snapshot()), looped).effects
    {
      this.looped := looped;
      if state != M.Unloaded {
        trace := trace + [C.Call(C.SetMusicLoop(looped))];
      }
    }

    /** `engineDuration` is what the engine reports as the track's duration. */
    method GetDuration(engineDuration: int) returns (d: int)
      requires Valid()
      modifies this
      ensures Valid()
      ensures d == M.GetDuration(old(Snapshot()), engineDuration).value
      ensures Snapshot() == M.GetDuration(old(Snapshot()), engineDuration).track
      ensures trace == old(trace) + M.GetDuration(old(Snapshot()), engineDuration).effects
    {
      if duration == M.UnknownDuration && state != M.Unloaded {
        duration := engineDuration;
        trace := trace + [C.Call(C.GetCurrentMusicDuration)];
      }
      d := duration;
    }

    /** `enginePosition` is what the engine reports as its current position. */
    method GetPosition(enginePosition: int) returns (p: int)
      requires Valid()
      modifies this
      ensures Valid()
      ensures p == M.GetPosition(old(Snapshot()), enginePosition).value
      ensures Snapshot() == M.GetPosition(old(Snapshot()), enginePosition).track
      ensures trace == old(trace) + M.GetPosition(old(Snapshot()), enginePosition).effects
    {
      if state == M.Playing {
        position := enginePosition;
        trace := trace + [C.Call(C.GetCurrentMusicPosition)];
      }
      p := position;
    }

    method Unload()
      modifies this
      ensures Valid()
      ensures Snapshot() == M.Unload(old(Snapshot()))
      ensures trace == old(trace)
    {
      id := M.NoId;
      state := M.Unloaded;
      position := 0;
    }

    method OnSoundReady(soundId: int, soundDurationMillis: int)
      requires Valid()
      modifies this
      ensures Valid()
      ensures Snapshot() == M.OnSoundReady(old(Snapshot()), soundId, soundDurationMillis).track
      ensures trace == old(trace) + M.OnSoundReady(old(Snapshot()), soundId, soundDurationMillis).effects
    {
      id := soundId;
      duration := soundDurationMillis;
      state := M.Idle;
      trace := trace + [C.Notify(C.MusicLoadCompleted)];
      if playAfterPreload {
        PlayMusic();
      }
    }

    /** `engineDuration` is what the engine would report if asked for the duration. */
    method OnSoundComplete(engineDuration: int)
      requires Valid()
      modifies this
      ensures Valid()
      ensures Snapshot() == M.OnSoundComplete(old(Snapshot()), engineDuration).track
      ensures trace == old(trace) + M.OnSoundComplete(old(Snapshot()), engineDuration).effects
    {
      if looped {
        position := 0;
      } else {
        var d := GetDuration(engineDuration);
        position := d;
        state := M.Idle;
      }
      trace := trace + [C.Notify(C.PlaybackCompleted)];
    }
  }

  /**
   * A host that plays a track before it is loaded: once the engine reports it
   * ready (id 5, 3000 ms) the track is playing, knows its id and duration
   * without asking the engine, and the host heard of the load exactly once.
   */
  method PlayBeforeLoad(fileUrl: string, fromAssets: bool, uniqueKey: int, engineDuration: int)
    returns (state: M.SoundState, id: int, duration: int)
    ensures state == M.Playing && id == 5 && duration == 3000
  {
    var music := new Music(fileUrl, fromAssets, uniqueKey);
    music.PlayMusic();
    music.OnSoundReady(5, 3000);
    duration := music.GetDuration(engineDuration);
    state, id := music.state, music.id;
    assert music.trace == [C.Call(C.InitializeMusic), C.Notify(C.MusicLoadCompleted), C.Call(C.PlayMusic)];
    assert C.Occurrences(music.trace, C.Notify(C.MusicLoadCompleted)) == 1;
  }

  /**
   * Pausing a playing track caches the engine's position (1200 ms); reading
   * the position later returns it without asking the engine again.
   */
  method PauseKeepsPosition(fileUrl: string, fromAssets: bool, uniqueKey: int, laterPosition: int)
    returns (state: M.SoundState, position: int)
    ensures state == M.Paused && position == 1200
  {
    var music := new Music(fileUrl, fromAssets, uniqueKey);
    music.PreloadMusic(false);
    music.OnSoundReady(1, 3000);
    music.PlayMusic();
    music.PauseMusic(1200);
    ghost var before := music.trace;
    position := music.GetPosition(laterPosition);
    assert music.trace == before;
    state := music.state;
  }
}
