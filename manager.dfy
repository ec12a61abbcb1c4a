/**
  The audio manager as the object it is: the active sound list, the two music
  slots with their last loaded track indices, the degraded-mode flag and the
  device master volume are fields that its methods update in place. Each method
  is proved to leave the object in the state the matching function of module
  Transitions gives, and to keep the invariant that at most one slot is occupied.
  The profile, login settings, world, window focus and the asset loaders are read-only
  inputs of each call.
 */
module Managers {
  import opened AudioPolicy
  import opened Transitions

  class AudioManager {
    /** False once the device probe failed; every playing operation is then a no-op. */
    var canReproduceAudio: bool
    /** The active one-shot sounds, oldest first. */
    var currentSounds: seq<ActiveSound>
    /** Slot 0 holds ambient music, slot 1 war music. */
    const currentMusic: array<Option<Track>>
    /** The track index last loaded into each slot. */
    const currentMusicIndices: array<int>
    /** The device's master volume. */
    var masterVolume: real
    /** Every call made into a sound or music handle, oldest first. */
    var calls: seq<DeviceCall>

    ghost predicate Valid()
      reads this, currentMusic
    {
      currentMusic.Length == 2 && currentMusicIndices.Length == 2 &&
      (currentMusic[AMBIENT].None? || currentMusic[WAR].None?)
    }

    /** The object's state as a value. */
    ghost function State(): AudioState
      reads this, currentMusic, currentMusicIndices
    {
      AudioState(canReproduceAudio, currentSounds, currentMusic[..], currentMusicIndices[..], masterVolume, calls)
    }

    constructor (master: real)
      ensures Valid() && fresh(currentMusic) && fresh(currentMusicIndices)
      ensures State() == Initial(master)
    {
      canReproduceAudio := true;
      currentSounds := [];
      currentMusic := new Option<Track>[] [None, None];
      currentMusicIndices := new int[] [0, 0];
      masterVolume := master;
      calls := [];
    }

    /** Records the outcome of the device probe. */
    method Initialize(deviceAvailable: bool)
      requires Valid()
      modifies this`canReproduceAudio
      ensures Valid()
      ensures State() == Transitions.Initialize(old(State()), deviceAvailable)
    {
      if !deviceAvailable {
        canReproduceAudio := false;
      }
    }

    method OnWindowDeactivated(profile: Option<Profile>)
      requires Valid()
      modifies this`masterVolume
      ensures Valid()
      ensures State() == Transitions.OnWindowDeactivated(old(State()), profile)
    {
      if !canReproduceAudio || profile.None? || profile.value.reproduceSoundsInBackground {
        return;
      }
      masterVolume := 0.0;
    }

    method OnWindowActivated(profile: Option<Profile>)
      requires Valid()
      modifies this`masterVolume
      ensures Valid()
      ensures State() == Transitions.OnWindowActivated(old(State()), profile)
    {
      if !canReproduceAudio || profile.None? || profile.value.reproduceSoundsInBackground {
        return;
      }
      masterVolume := 1.0;
    }

    method PlaySound(index: int, profile: Option<Profile>, focused: bool,
                     getSound: int -> Option<SoundId>, played: bool)
      requires Valid()
      modifies this`currentSounds, this`calls
      ensures Valid()
      ensures State() == Transitions.PlaySound(old(State()), index, profile, focused, getSound, played)
    {
      if !canReproduceAudio || profile.None? {
        return;
      }
      var volume := OneShotVolume(profile.value, focused);
      if volume.None? {
        return;
      }
      var sound := getSound(index);
      if sound.Some? {
        calls := calls + [SoundPlay(sound.value, volume.value)];
        if played {
          currentSounds := currentSounds + [ActiveSound(sound.value, -1, -1, false, volume.value)];
        }
      }
    }

    method PlaySoundWithDistance(index: int, x: int, y: int, profile: Option<Profile>, focused: bool,
                                 world: World, getSound: int -> Option<SoundId>, played: bool)
      requires Valid()
      requires canReproduceAudio && world.inGame ==> profile.Some?
      modifies this`currentSounds, this`calls
      ensures Valid()
      ensures State() == Transitions.PlaySoundWithDistance(old(State()), index, x, y, profile, focused,
                                                          world, getSound, played)
    {
      if !canReproduceAudio || !world.inGame {
        return;
      }
      var distance := ChebyshevDistance(x, y, world.playerX, world.playerY);
      var distanceFactor := DistanceFactor(Scaled(profile.value.soundVolume), world.clientViewRange, distance);
      var volume := PositionalVolume(profile.value, focused, distance, world.clientViewRange);
      if volume.None? {
        return;
      }
      var sound := getSound(index);
      if sound.Some? {
        calls := calls + [SoundPlayAt(sound.value, volume.value, distanceFactor)];
        if played {
          currentSounds := currentSounds + [ActiveSound(sound.value, x, y, true, volume.value)];
        }
      }
    }

    method PlayMusic(music: int, warMode: bool, isLogin: bool, profile: Option<Profile>,
                     settings: GlobalSettings, getMusic: int -> Option<MusicId>)
      requires Valid()
      modifies this`calls, currentMusic, currentMusicIndices
      ensures Valid()
      ensures State() == Transitions.PlayMusic(old(State()), music, warMode, isLogin, profile, settings, getMusic)
    {
      ghost var before := State();
      if !canReproduceAudio || music >= MAX_MUSIC_DATA_INDEX_COUNT {
        return;
      }
      var volume := MusicVolume(isLogin, settings, profile);
      if !isLogin && profile.Some? && !profile.value.enableCombatMusic && warMode {
        return;
      }
      if volume < -1.0 || volume > 1.0 {
        return;
      }
      var m := getMusic(music);
      if m.None? && currentMusic[AMBIENT].Some? {
        StopMusic();
      } else if m.Some? && (m != Loaded(currentMusic[AMBIENT]) || warMode) {
        StopMusic();
        Install(if warMode then WAR else AMBIENT, music, m.value, volume);
      } else {
        assert Transitions.PlayMusic(before, music, warMode, isLogin, profile, settings, getMusic) == before;
      }
    }

    /** The last step of PlayMusic once both slots are empty: load the track into
        slot `idx`, remember its index there and start it. */
    method Install(idx: int, music: int, h: MusicId, volume: real)
      requires Valid() && currentMusic[AMBIENT].None? && currentMusic[WAR].None?
      requires idx == AMBIENT || idx == WAR
      modifies this`calls, currentMusic, currentMusicIndices
      ensures Valid()
      ensures State() == Installed(old(State()), idx, music, h, volume)
    {
      currentMusicIndices[idx] := music;
      currentMusic[idx] := Some(Track(h, volume));
      calls := calls + [MusicPlay(h, volume)];
      assert currentMusic[..] == old(currentMusic[..])[idx := Some(Track(h, volume))];
      assert currentMusicIndices[..] == old(currentMusicIndices[..])[idx := music];
    }

    method UpdateCurrentMusicVolume(isLogin: bool, settings: GlobalSettings, profile: Option<Profile>)
      requires Valid()
      modifies currentMusic
      ensures Valid()
      ensures State() == Transitions.UpdateCurrentMusicVolume(old(State()), isLogin, settings, profile)
    {
      if !canReproduceAudio {
        return;
      }
      ghost var v := MusicVolume(isLogin, settings, profile);
      ghost var ambientVolume := if old(currentMusic[WAR]).Some? then 0.0 else v;
      for i := 0 to 2
        invariant currentMusic[WAR].Some? == old(currentMusic[WAR]).Some?
        invariant i > AMBIENT ==> currentMusic[AMBIENT] == Retuned(old(currentMusic[AMBIENT]), ambientVolume)
        invariant i <= AMBIENT ==> currentMusic[AMBIENT] == old(currentMusic[AMBIENT])
        invariant i > WAR ==> currentMusic[WAR] == Retuned(old(currentMusic[WAR]), v)
        invariant i <= WAR ==> currentMusic[WAR] == old(currentMusic[WAR])
        invariant (exists j :: 0 <= j < i && old(currentMusic[j]).Some?) ==> InDeviceRange(v)
      {
        if currentMusic[i].Some? {
          var volume := MusicVolume(isLogin, settings, profile);
          if volume < -1.0 || volume > 1.0 {
            return;
          }
          currentMusic[i] := Some(currentMusic[i].value.(volume := if i == AMBIENT && currentMusic[WAR].Some? then 0.0 else volume));
        }
      }
      assert currentMusic[..] == [currentMusic[AMBIENT], currentMusic[WAR]];
    }

    method UpdateCurrentSoundsVolume(profile: Option<Profile>)
      requires Valid()
      modifies this`currentSounds
      ensures Valid()
      ensures State() == Transitions.UpdateCurrentSoundsVolume(old(State()), profile)
    {
      if !canReproduceAudio {
        return;
      }
      var volume := SoundsVolume(profile);
      if volume < -1.0 || volume > 1.0 {
        return;
      }
      var i := 0;
      while i < |currentSounds|
        invariant i <= |currentSounds| == |old(currentSounds)|
        invariant forall j :: 0 <= j < i ==> currentSounds[j] == old(currentSounds)[j].(volume := volume)
        invariant forall j :: i <= j < |currentSounds| ==> currentSounds[j] == old(currentSounds)[j]
      {
        currentSounds := currentSounds[i := currentSounds[i].(volume := volume)];
        i := i + 1;
      }
      assert currentSounds == WithVolume(old(currentSounds), volume);
    }

    method StopMusic()
      requires Valid()
      modifies this`calls, currentMusic
      ensures Valid()
      ensures State() == Transitions.StopMusic(old(State()))
    {
      for i := 0 to 2
        invariant forall j :: 0 <= j < i ==> currentMusic[j].None?
        invariant forall j :: i <= j < 2 ==> currentMusic[j] == old(currentMusic[j])
        invariant calls == old(calls) + (if i > AMBIENT then StopCalls(old(currentMusic[AMBIENT])) else [])
                                      + (if i > WAR then StopCalls(old(currentMusic[WAR])) else [])
      {
        if currentMusic[i].Some? {
          var handle := currentMusic[i].value.handle;
          calls := calls + [MusicStop(handle), MusicDispose(handle)];
          currentMusic[i] := None;
        }
      }
      assert currentMusic[..] == [None, None];
      AppendTwice(old(calls), StopCalls(old(currentMusic[AMBIENT])), StopCalls(old(currentMusic[WAR])));
    }

    /** Resumes ambient music: the ordinary play path for the last ambient index. */
    method StopWarMusic(profile: Option<Profile>, settings: GlobalSettings, getMusic: int -> Option<MusicId>)
      requires Valid()
      modifies this`calls, currentMusic, currentMusicIndices
      ensures Valid()
      ensures State() == Transitions.PlayMusic(old(State()), old(currentMusicIndices[AMBIENT]), false, false,
                                               profile, settings, getMusic)
    {
      PlayMusic(currentMusicIndices[AMBIENT], false, false, profile, settings, getMusic);
    }

    method StopSounds()
      requires Valid()
      modifies this`currentSounds, this`calls
      ensures Valid()
      ensures State() == Transitions.StopSounds(old(State()))
    {
      ghost var all := currentSounds;
      while currentSounds != []
        invariant |currentSounds| <= |all|
        invariant currentSounds == all[|all| - |currentSounds|..]
        invariant calls == old(calls) + SoundStops(all[..|all| - |currentSounds|])
        decreases |currentSounds|
      {
        var first := currentSounds[0];
        ghost var done := all[..|all| - |currentSounds|];
        assert all[..|all| - |currentSounds| + 1] == done + [first];
        calls := calls + [SoundStop(first.handle)];
        currentSounds := currentSounds[1..];
      }
      assert all[..|all|] == all;
    }

    /** The per-frame update. `playing` is the set of sound handles the device
        reports as still playing. */
    method Update(profile: Option<Profile>, focused: bool, playing: set<SoundId>)
      requires Valid()
      modifies this`currentSounds, this`calls, currentMusic
      ensures Valid()
      ensures State() == Transitions.Update(old(State()), profile, focused, playing)
    {
      if !canReproduceAudio {
        return;
      }
      ghost var before := State();
      RefreshMusic(profile, focused);
      ghost var refreshed := currentMusic[..];
      ghost var logged := calls;
      SweepFinishedSounds(playing);
      assert currentMusic[..] == refreshed;
      assert State() == before.(music := refreshed, sounds := currentSounds, calls := logged + SoundStops(Finished(before.sounds, playing)));
    }

    /** First half of Update: refresh each occupied slot's volume and let it advance. */
    method RefreshMusic(profile: Option<Profile>, focused: bool)
      requires Valid()
      modifies this`calls, currentMusic
      ensures Valid()
      ensures currentMusic[..] == [Refreshed(old(currentMusic[AMBIENT]), AMBIENT, old(currentMusic[WAR]).Some?, profile, focused),
                                   Refreshed(old(currentMusic[WAR]), WAR, old(currentMusic[WAR]).Some?, profile, focused)]
      ensures calls == old(calls) + UpdateCalls(currentMusic[AMBIENT]) + UpdateCalls(currentMusic[WAR])
    {
      var runningWarMusic := currentMusic[WAR].Some?;
      ghost var m0 := Refreshed(old(currentMusic[AMBIENT]), AMBIENT, runningWarMusic, profile, focused);
      ghost var m1 := Refreshed(old(currentMusic[WAR]), WAR, runningWarMusic, profile, focused);
      for i := 0 to 2
        invariant i > AMBIENT ==> currentMusic[AMBIENT] == m0
        invariant i <= AMBIENT ==> currentMusic[AMBIENT] == old(currentMusic[AMBIENT])
        invariant i > WAR ==> currentMusic[WAR] == m1
        invariant i <= WAR ==> currentMusic[WAR] == old(currentMusic[WAR])
        invariant calls == old(calls) + (if i > AMBIENT then UpdateCalls(m0) else [])
                                      + (if i > WAR then UpdateCalls(m1) else [])
      {
        if currentMusic[i].Some? && profile.Some? {
          if focused {
            if !profile.value.reproduceSoundsInBackground {
              currentMusic[i] := Some(currentMusic[i].value.(volume := FrameMusicVolume(i, runningWarMusic, profile.value)));
            }
          } else if !profile.value.reproduceSoundsInBackground && currentMusic[i].value.volume != 0.0 {
            currentMusic[i] := Some(currentMusic[i].value.(volume := 0.0));
          }
        }
        if currentMusic[i].Some? {
          calls := calls + [MusicUpdate(currentMusic[i].value.handle)];
        }
      }
      assert currentMusic[..] == [m0, m1];
    }

    /** Second half of Update: walk the list, stopping and removing each finished
        sound at the current position, and keep the rest in order. */
    method SweepFinishedSounds(playing: set<SoundId>)
      modifies this`currentSounds, this`calls
      ensures currentSounds == Swept(old(currentSounds), playing)
      ensures calls == old(calls) + SoundStops(Finished(old(currentSounds), playing))
    {
      ghost var all := currentSounds;
      ghost var visited := 0;
      var k := 0;
      while k < |currentSounds|
        invariant visited <= |all|
        invariant currentSounds == Swept(all[..visited], playing) + all[visited..]
        invariant k == |Swept(all[..visited], playing)|
        invariant calls == old(calls) + SoundStops(Finished(all[..visited], playing))
        decreases |currentSounds| - k
      {
        SweepCursor(all, visited, currentSounds, playing);
        var node := currentSounds[k];
        if node.handle !in playing {
          SweepDropStep(all, visited, currentSounds, k, playing);
          AppendTwice(old(calls), SoundStops(Finished(all[..visited], playing)), [SoundStop(node.handle)]);
          calls := calls + [SoundStop(node.handle)];
          currentSounds := currentSounds[..k] + currentSounds[k + 1..];
        } else {
          SweepKeepStep(all, visited, currentSounds, k, playing);
          k := k + 1;
        }
        visited := visited + 1;
      }
      SweepCursor(all, visited, currentSounds, playing);
      assert all[..visited] == all;
    }
  }
}
