/**
  What the audio manager promises, proved about the transition functions that
  the manager's methods are verified against.
 */
module AudioProperties {
  import opened AudioPolicy
  import opened Transitions

  // ---------------------------------------------------------------------------
  // At most one music slot is occupied
  // ---------------------------------------------------------------------------

  /** Every operation keeps the ambient and war slots from both being occupied:
      a handle is only ever installed right after both slots were emptied. */
  lemma AtMostOneMusicInvariant(s: AudioState, p: Option<Profile>, settings: GlobalSettings,
                                focused: bool, music: int, warMode: bool, isLogin: bool,
                                getMusic: int -> Option<MusicId>, playing: set<SoundId>,
                                deviceAvailable: bool, index: int, x: int, y: int, w: World,
                                getSound: int -> Option<SoundId>, played: bool)
    requires AtMostOneMusic(s)
    ensures AtMostOneMusic(Initialize(s, deviceAvailable))
    ensures AtMostOneMusic(PlaySound(s, index, p, focused, getSound, played))
    ensures (s.canReproduceAudio && w.inGame ==> p.Some?) ==>
              AtMostOneMusic(PlaySoundWithDistance(s, index, x, y, p, focused, w, getSound, played))
    ensures AtMostOneMusic(PlayMusic(s, music, warMode, isLogin, p, settings, getMusic))
    ensures AtMostOneMusic(StopMusic(s))
    ensures AtMostOneMusic(UpdateCurrentMusicVolume(s, isLogin, settings, p))
    ensures AtMostOneMusic(Update(s, p, focused, playing))
    ensures AtMostOneMusic(UpdateCurrentSoundsVolume(s, p)) && AtMostOneMusic(StopSounds(s))
    ensures AtMostOneMusic(OnWindowActivated(s, p)) && AtMostOneMusic(OnWindowDeactivated(s, p))
  {
  }

  // ---------------------------------------------------------------------------
  // PlayMusic
  // ---------------------------------------------------------------------------

  /** The conditions under which PlayMusic goes on to consult the loader. */
  predicate MusicAccepted(s: AudioState, music: int, warMode: bool, isLogin: bool,
                          p: Option<Profile>, settings: GlobalSettings) {
    s.canReproduceAudio && music < MAX_MUSIC_DATA_INDEX_COUNT && !CombatRefused(warMode, isLogin, p)
    && InDeviceRange(MusicVolume(isLogin, settings, p))
  }

  /** PlayMusic changes nothing when audio is unsupported, the index is too large,
      combat music is refused, or the volume is out of range; a negative index is
      not refused. */
  lemma PlayMusicRefusals(s: AudioState, music: int, warMode: bool, isLogin: bool, p: Option<Profile>,
                          settings: GlobalSettings, getMusic: int -> Option<MusicId>)
    requires WellFormed(s)
    ensures !MusicAccepted(s, music, warMode, isLogin, p, settings) ==>
              PlayMusic(s, music, warMode, isLogin, p, settings, getMusic) == s
    ensures !s.canReproduceAudio || music >= MAX_MUSIC_DATA_INDEX_COUNT ==>
              PlayMusic(s, music, warMode, isLogin, p, settings, getMusic) == s
    ensures !isLogin && warMode && p.Some? && !p.value.enableCombatMusic ==>
              PlayMusic(s, music, warMode, isLogin, p, settings, getMusic) == s
    ensures music < 0 && s.canReproduceAudio && !isLogin && !warMode && p.Some? && p.value.enableMusic
            && 0.0 <= p.value.musicVolume as real <= SOUND_DELTA && getMusic(music).Some? && s.music[AMBIENT].None? ==>
              PlayMusic(s, music, warMode, isLogin, p, settings, getMusic).musicIndices[AMBIENT] == music
  {
  }

  /** A non-war request for the handle already in the ambient slot neither stops
      nor restarts anything. */
  lemma PlayMusicKeepsSameAmbient(s: AudioState, music: int, isLogin: bool, p: Option<Profile>,
                                  settings: GlobalSettings, getMusic: int -> Option<MusicId>)
    requires WellFormed(s) && s.music[AMBIENT].Some?
    requires getMusic(music) == Some(s.music[AMBIENT].value.handle)
    ensures PlayMusic(s, music, false, isLogin, p, settings, getMusic) == s
  {
  }

  /** A different asset, or any war request, stops both slots (each held handle is
      stopped and released) and installs the asset in the slot the mode selects,
      recording the index; the other slot is left empty. */
  lemma PlayMusicReplaces(s: AudioState, music: int, warMode: bool, isLogin: bool, p: Option<Profile>,
                          settings: GlobalSettings, getMusic: int -> Option<MusicId>, h: MusicId)
    requires WellFormed(s) && MusicAccepted(s, music, warMode, isLogin, p, settings)
    requires getMusic(music) == Some(h)
    requires warMode || Loaded(s.music[AMBIENT]) != Some(h)
    ensures var r := PlayMusic(s, music, warMode, isLogin, p, settings, getMusic);
            var idx := if warMode then WAR else AMBIENT;
            var v := MusicVolume(isLogin, settings, p);
            r.music[idx] == Some(Track(h, v)) && r.music[1 - idx].None? &&
            r.musicIndices == s.musicIndices[idx := music] &&
            r.calls == s.calls + StopMusicCalls(s) + [MusicPlay(h, v)]
  {
  }

  /** A missing asset stops all music when the ambient slot is occupied, and
      otherwise does nothing, even while war music plays. */
  lemma PlayMusicMissingAsset(s: AudioState, music: int, warMode: bool, isLogin: bool, p: Option<Profile>,
                              settings: GlobalSettings, getMusic: int -> Option<MusicId>)
    requires WellFormed(s) && MusicAccepted(s, music, warMode, isLogin, p, settings)
    requires getMusic(music).None?
    ensures s.music[AMBIENT].Some? ==> PlayMusic(s, music, warMode, isLogin, p, settings, getMusic) == StopMusic(s)
    ensures s.music[AMBIENT].None? ==> PlayMusic(s, music, warMode, isLogin, p, settings, getMusic) == s
  {
  }

  /** Two identical non-war requests in a row: the second is a no-op, so the
      ambient track keeps playing without being stopped or restarted. */
  lemma SameTrackTwiceIsKept(s: AudioState, music: int, p: Option<Profile>, settings: GlobalSettings,
                             getMusic: int -> Option<MusicId>)
    requires WellFormed(s) && getMusic(music).Some?
    ensures var once := PlayMusic(s, music, false, false, p, settings, getMusic);
            PlayMusic(once, music, false, false, p, settings, getMusic) == once
  {
    var once := PlayMusic(s, music, false, false, p, settings, getMusic);
    if MusicAccepted(s, music, false, false, p, settings) {
      if getMusic(music) != Loaded(s.music[AMBIENT]) {
        assert once.music[AMBIENT] == Some(Track(getMusic(music).value, MusicVolume(false, settings, p)));
      }
      PlayMusicKeepsSameAmbient(once, music, false, p, settings, getMusic);
    }
  }

  // ---------------------------------------------------------------------------
  // StopMusic and StopWarMusic
  // ---------------------------------------------------------------------------

  /** Whether some slot of `s` holds handle h. */
  predicate Holds(s: AudioState, h: MusicId)
    requires WellFormed(s)
  {
    Loaded(s.music[AMBIENT]) == Some(h) || Loaded(s.music[WAR]) == Some(h)
  }

  /** StopMusic stops and releases each held handle exactly once and touches no
      other handle; the last loaded indices are kept. */
  lemma StopMusicReleasesEachOnce(s: AudioState, h: MusicId)
    requires AtMostOneMusic(s)
    ensures var r := StopMusic(s);
            r.calls == s.calls + StopMusicCalls(s) &&
            multiset(StopMusicCalls(s))[MusicStop(h)] == (if Holds(s, h) then 1 else 0) &&
            multiset(StopMusicCalls(s))[MusicDispose(h)] == (if Holds(s, h) then 1 else 0) &&
            (forall c :: c in StopMusicCalls(s) ==> (c.MusicStop? || c.MusicDispose?) && Holds(s, c.music))
  {
    if s.music[AMBIENT].Some? {
      ReleaseOneSlot(s, s.music[AMBIENT].value.handle, h);
    } else if s.music[WAR].Some? {
      ReleaseOneSlot(s, s.music[WAR].value.handle, h);
    } else {
      assert StopMusicCalls(s) == [];
    }
  }

  /** StopMusic's calls when exactly one slot holds handle g. */
  lemma ReleaseOneSlot(s: AudioState, g: MusicId, h: MusicId)
    requires AtMostOneMusic(s) && Holds(s, g)
    ensures StopMusicCalls(s) == [MusicStop(g), MusicDispose(g)]
    ensures multiset(StopMusicCalls(s))[MusicStop(h)] == (if h == g then 1 else 0)
    ensures multiset(StopMusicCalls(s))[MusicDispose(h)] == (if h == g then 1 else 0)
    ensures Holds(s, h) <==> h == g
    ensures forall c :: c in StopMusicCalls(s) ==> (c.MusicStop? || c.MusicDispose?) && c.music == g
  {
    var c := [MusicStop(g), MusicDispose(g)];
    if s.music[AMBIENT].Some? {
      assert s.music[WAR].None? && s.music[AMBIENT].value.handle == g;
      assert StopMusicCalls(s) == c + [];
    } else {
      assert s.music[WAR].value.handle == g;
      assert StopMusicCalls(s) == [] + c;
    }
    assert c == [MusicStop(g)] + [MusicDispose(g)];
    assert multiset(c) == multiset{MusicStop(g), MusicDispose(g)};
    assert forall x :: x in c ==> x == MusicStop(g) || x == MusicDispose(g);
  }

  /** A war override keeps the ambient index; the ordinary play path for that
      index (which StopWarMusic takes) then puts the ambient track back in slot 0
      and leaves the war slot empty. */
  lemma StopWarMusicResumesAmbient(s: AudioState, w: int, p: Option<Profile>, settings: GlobalSettings,
                                   getMusic: int -> Option<MusicId>)
    requires WellFormed(s)
    requires MusicAccepted(s, w, true, false, p, settings) && getMusic(w).Some?
    requires s.musicIndices[AMBIENT] < MAX_MUSIC_DATA_INDEX_COUNT && getMusic(s.musicIndices[AMBIENT]).Some?
    ensures var war := PlayMusic(s, w, true, false, p, settings, getMusic);
            var resumed := PlayMusic(war, war.musicIndices[AMBIENT], false, false, p, settings, getMusic);
            war.music[AMBIENT].None? && war.music[WAR].Some? &&
            war.musicIndices[AMBIENT] == s.musicIndices[AMBIENT] &&
            resumed.music[AMBIENT] == Some(Track(getMusic(s.musicIndices[AMBIENT]).value, MusicVolume(false, settings, p))) &&
            resumed.music[WAR].None? &&
            resumed.musicIndices[AMBIENT] == s.musicIndices[AMBIENT]
  {
    var war := PlayMusic(s, w, true, false, p, settings, getMusic);
    PlayMusicReplaces(s, w, true, false, p, settings, getMusic, getMusic(w).value);
    assert MusicAccepted(war, war.musicIndices[AMBIENT], false, false, p, settings);
    PlayMusicReplaces(war, war.musicIndices[AMBIENT], false, false, p, settings, getMusic,
                      getMusic(s.musicIndices[AMBIENT]).value);
  }

  // ---------------------------------------------------------------------------
  // Volume updates
  // ---------------------------------------------------------------------------

  /** UpdateCurrentMusicVolume is all-or-nothing: out of range nothing changes;
      otherwise every occupied slot gets the volume (the ambient slot 0 while the
      war slot is occupied) and empty slots stay empty. */
  lemma MusicVolumeUpdateAllOrNothing(s: AudioState, isLogin: bool, settings: GlobalSettings,
                                      p: Option<Profile>, i: int)
    requires WellFormed(s) && 0 <= i < 2
    ensures var r := UpdateCurrentMusicVolume(s, isLogin, settings, p);
            var v := MusicVolume(isLogin, settings, p);
            (!s.canReproduceAudio || !InDeviceRange(v) ==> r == s) &&
            (s.music[i].None? ==> r.music[i].None?) &&
            (s.canReproduceAudio && InDeviceRange(v) && s.music[i].Some? ==>
               r.music[i] == Some(s.music[i].value.(volume := if i == AMBIENT && s.music[WAR].Some? then 0.0 else v)))
  {
  }

  /** Under the one-slot invariant the ducking rule never applies: every occupied
      slot gets exactly the computed volume. */
  lemma DuckingNeverApplies(s: AudioState, isLogin: bool, settings: GlobalSettings, p: Option<Profile>, i: int)
    requires AtMostOneMusic(s) && 0 <= i < 2 && s.music[i].Some?
    requires s.canReproduceAudio && InDeviceRange(MusicVolume(isLogin, settings, p))
    ensures UpdateCurrentMusicVolume(s, isLogin, settings, p).music[i].value.volume == MusicVolume(isLogin, settings, p)
  {
  }

  /** The per-frame update's ducking rule (line 350) never applies either: in focus,
      with background playback off and music on, every occupied slot gets the
      profile's music volume. */
  lemma UpdateNeverDucks(s: AudioState, p: Profile, playing: set<SoundId>, i: int)
    requires AtMostOneMusic(s) && s.canReproduceAudio && 0 <= i < 2 && s.music[i].Some?
    requires !p.reproduceSoundsInBackground && p.enableMusic
    ensures Update(s, Some(p), true, playing).music[i].value.volume == Scaled(p.musicVolume)
  {
  }

  /** UpdateCurrentSoundsVolume writes one volume into every active sound and keeps
      the list itself; out of range, no sound's volume changes. */
  lemma SoundsVolumeUniform(s: AudioState, p: Option<Profile>)
    ensures var r := UpdateCurrentSoundsVolume(s, p);
            var v := SoundsVolume(p);
            (!s.canReproduceAudio || !InDeviceRange(v) ==> r == s) &&
            (s.canReproduceAudio && InDeviceRange(v) ==>
               forall i :: 0 <= i < |s.sounds| ==> r.sounds[i] == s.sounds[i].(volume := v))
  {
  }

  // ---------------------------------------------------------------------------
  // Sound registration
  // ---------------------------------------------------------------------------

  /** PlaySound appends a non-positional entry exactly when the loader returns a
      handle and Play succeeds; the handle is asked to play whenever it is loaded. */
  lemma PlaySoundRegistration(s: AudioState, index: int, p: Option<Profile>, focused: bool,
                              getSound: int -> Option<SoundId>, played: bool)
    ensures var r := PlaySound(s, index, p, focused, getSound, played);
            var go := s.canReproduceAudio && p.Some? && OneShotVolume(p.value, focused).Some?
                      && getSound(index).Some?;
            (go ==> r.calls == s.calls + [SoundPlay(getSound(index).value, OneShotVolume(p.value, focused).value)]) &&
            (go && played ==>
               r.sounds == s.sounds + [ActiveSound(getSound(index).value, -1, -1, false, OneShotVolume(p.value, focused).value)]) &&
            (!(go && played) ==> r.sounds == s.sounds) &&
            (!go ==> r == s)
  {
  }

  /** PlaySoundWithDistance appends an entry at (x, y), attenuated by distance,
      exactly when the loader returns a handle and Play succeeds; the distance
      factor is computed from the unsilenced slider volume. */
  lemma PositionalRegistration(s: AudioState, index: int, x: int, y: int, p: Option<Profile>, focused: bool,
                               w: World, getSound: int -> Option<SoundId>, played: bool)
    requires s.canReproduceAudio && w.inGame ==> p.Some?
    ensures !s.canReproduceAudio || !w.inGame ==>
              PlaySoundWithDistance(s, index, x, y, p, focused, w, getSound, played) == s
    ensures s.canReproduceAudio && w.inGame ==>
            var r := PlaySoundWithDistance(s, index, x, y, p, focused, w, getSound, played);
            var d := ChebyshevDistance(x, y, w.playerX, w.playerY);
            var vol := PositionalVolume(p.value, focused, d, w.clientViewRange);
            var go := vol.Some? && getSound(index).Some?;
            (go ==> r.calls == s.calls + [SoundPlayAt(getSound(index).value, vol.value,
                                                      DistanceFactor(Scaled(p.value.soundVolume), w.clientViewRange, d))]) &&
            (go && played ==> r.sounds == s.sounds + [ActiveSound(getSound(index).value, x, y, true, vol.value)]) &&
            (!(go && played) ==> r.sounds == s.sounds) &&
            (!go ==> r == s)
  {
  }

  /** A sound beyond the view range is not dropped: it is played at volume 0 and,
      if Play succeeds, registered. */
  lemma FarSoundIsPlayedSilently(s: AudioState, index: int, x: int, y: int, p: Profile, focused: bool,
                                 w: World, getSound: int -> Option<SoundId>)
    requires s.canReproduceAudio && w.inGame && getSound(index).Some?
    requires ChebyshevDistance(x, y, w.playerX, w.playerY) > w.clientViewRange
    ensures var r := PlaySoundWithDistance(s, index, x, y, Some(p), focused, w, getSound, true);
            r.sounds == s.sounds + [ActiveSound(getSound(index).value, x, y, true, 0.0)]
  {
  }

  /** A profile with slider 80 and sound enabled, window focused: PlaySound plays
      at 80 / SOUND_DELTA and registers one non-positional entry. */
  lemma PlaySoundExample(s: AudioState, getSound: int -> Option<SoundId>)
    requires s.canReproduceAudio && getSound(5) == Some(42)
    ensures var p := Profile(true, true, true, 80, 0, false);
            PlaySound(s, 5, Some(p), true, getSound, true).sounds == s.sounds + [ActiveSound(42, -1, -1, false, 0.32)]
  {
  }

  // ---------------------------------------------------------------------------
  // Focus, per-frame update, degraded mode
  // ---------------------------------------------------------------------------

  /** Losing focus silences the device and regaining it restores full volume when
      a profile forbids background playback; otherwise both are no-ops. */
  lemma FocusRoundTrip(s: AudioState, p: Option<Profile>)
    ensures var lost := OnWindowDeactivated(s, p);
            var back := OnWindowActivated(lost, p);
            (s.canReproduceAudio && p.Some? && !p.value.reproduceSoundsInBackground ==>
               lost.masterVolume == 0.0 && back == s.(masterVolume := 1.0)) &&
            (!s.canReproduceAudio || p.None? || p.value.reproduceSoundsInBackground ==> lost == s && back == s)
  {
  }

  /** Out of focus with background playback off, the per-frame update silences
      every occupied slot; in focus it sets each to the profile-derived volume. */
  lemma UpdateFollowsFocus(s: AudioState, p: Profile, focused: bool, playing: set<SoundId>, i: int)
    requires WellFormed(s) && s.canReproduceAudio && 0 <= i < 2 && s.music[i].Some?
    requires !p.reproduceSoundsInBackground
    ensures var r := Update(s, Some(p), focused, playing);
            r.music[i].Some? && r.music[i].value.handle == s.music[i].value.handle &&
            (!focused ==> r.music[i].value.volume == 0.0) &&
            (focused ==> r.music[i].value.volume == FrameMusicVolume(i, s.music[WAR].Some?, p))
  {
  }

  /** With no profile, or with background playback on, the per-frame update leaves
      every slot, volume included, as it was. */
  lemma UpdateKeepsMusicInBackground(s: AudioState, p: Option<Profile>, focused: bool, playing: set<SoundId>)
    requires WellFormed(s) && (p.None? || p.value.reproduceSoundsInBackground)
    ensures Update(s, p, focused, playing).music == s.music
  {
  }

  /** Whatever branch the refresh takes, every occupied slot gets exactly one Update
      call, ambient first, and then the finished sounds are stopped in list order. */
  lemma UpdateAdvancesEachSlot(s: AudioState, p: Option<Profile>, focused: bool, playing: set<SoundId>)
    requires WellFormed(s) && s.canReproduceAudio
    ensures Update(s, p, focused, playing).calls ==
            s.calls + UpdateCalls(s.music[AMBIENT]) + UpdateCalls(s.music[WAR]) + SoundStops(Finished(s.sounds, playing))
  {
  }

  /** The per-frame update writes the profile's music volume without the range
      check the other paths apply: a slider above SOUND_DELTA reaches the track. */
  lemma UpdateSkipsRangeCheck(s: AudioState, playing: set<SoundId>)
    requires WellFormed(s) && s.canReproduceAudio && s.music[AMBIENT] == Some(Track(7, 0.5)) && s.music[WAR].None?
    ensures var p := Profile(true, true, true, 0, 500, false);
            Update(s, Some(p), true, playing).music[AMBIENT] == Some(Track(7, 2.0)) &&
            !InDeviceRange(2.0) && !MusicAccepted(s, 3, false, false, Some(p), GlobalSettings(false, 0))
  {
  }

  /** Once the device probe failed, audio stays off and every playing or volume
      operation is a no-op; only the unconditional stops still act. */
  lemma DegradedModeIsInert(s: AudioState, p: Option<Profile>, settings: GlobalSettings, focused: bool,
                            w: World, index: int, x: int, y: int, getSound: int -> Option<SoundId>, played: bool,
                            music: int, warMode: bool, isLogin: bool, getMusic: int -> Option<MusicId>,
                            playing: set<SoundId>, deviceAvailable: bool)
    requires WellFormed(s) && !s.canReproduceAudio
    ensures !Initialize(s, deviceAvailable).canReproduceAudio
    ensures PlaySound(s, index, p, focused, getSound, played) == s
    ensures PlaySoundWithDistance(s, index, x, y, p, focused, w, getSound, played) == s
    ensures PlayMusic(s, music, warMode, isLogin, p, settings, getMusic) == s
    ensures UpdateCurrentMusicVolume(s, isLogin, settings, p) == s
    ensures UpdateCurrentSoundsVolume(s, p) == s
    ensures Update(s, p, focused, playing) == s
    ensures OnWindowActivated(s, p) == s && OnWindowDeactivated(s, p) == s
  {
  }

  // ---------------------------------------------------------------------------
  // Sweeping finished sounds and stopping all sounds
  // ---------------------------------------------------------------------------

  /** The sweep keeps exactly the sounds still playing. */
  lemma {:induction false} SweptMembers(ss: seq<ActiveSound>, playing: set<SoundId>)
    ensures forall a :: a in Swept(ss, playing) <==> a in ss && a.handle in playing
    decreases |ss|
  {
    if ss != [] {
      var init := ss[..|ss| - 1];
      SweptMembers(init, playing);
      assert ss == init + [ss[|ss| - 1]];
    }
  }

  /** The sweep stops exactly the sounds that finished. */
  lemma {:induction false} FinishedMembers(ss: seq<ActiveSound>, playing: set<SoundId>)
    ensures forall a :: a in Finished(ss, playing) <==> a in ss && a.handle !in playing
    decreases |ss|
  {
    if ss != [] {
      var init := ss[..|ss| - 1];
      FinishedMembers(init, playing);
      assert ss == init + [ss[|ss| - 1]];
    }
  }

  /** The positions of `ss` whose sound still plays, in increasing order. */
  function KeptPositions(ss: seq<ActiveSound>, playing: set<SoundId>): (idx: seq<nat>)
    ensures forall k :: 0 <= k < |idx| ==> idx[k] < |ss|
    ensures forall k, l :: 0 <= k < l < |idx| ==> idx[k] < idx[l]
    ensures forall i :: 0 <= i < |ss| ==> (i in idx <==> ss[i].handle in playing)
    decreases |ss|
  {
    if ss == [] then []
    else
      var n := |ss| - 1;
      var init := KeptPositions(ss[..n], playing);
      init + (if ss[n].handle in playing then [n] else [])
  }

  /** The sweep keeps the surviving sounds in their original order: its k-th
      entry is the sound at the k-th surviving position. */
  lemma {:induction false} SweptInOrder(ss: seq<ActiveSound>, playing: set<SoundId>)
    ensures |Swept(ss, playing)| == |KeptPositions(ss, playing)|
    ensures forall k :: 0 <= k < |Swept(ss, playing)| ==>
              Swept(ss, playing)[k] == ss[KeptPositions(ss, playing)[k]]
    decreases |ss|
  {
    if ss != [] {
      var n := |ss| - 1;
      var init := ss[..n];
      SweptInOrder(init, playing);
      var kept, positions := Swept(init, playing), KeptPositions(init, playing);
      var last, lastPosition := if ss[n].handle in playing then [ss[n]] else [],
                                if ss[n].handle in playing then [n] else [];
      assert Swept(ss, playing) == kept + last;
      assert KeptPositions(ss, playing) == positions + lastPosition;
      forall k | 0 <= k < |Swept(ss, playing)|
        ensures Swept(ss, playing)[k] == ss[KeptPositions(ss, playing)[k]]
      {
        if k < |kept| {
          assert positions[k] < n;
          assert kept[k] == init[positions[k]];
        }
      }
    }
  }

  /** Sweeping twice with the same device report removes nothing more. */
  lemma {:induction false} SweepIdempotent(ss: seq<ActiveSound>, playing: set<SoundId>)
    ensures Swept(Swept(ss, playing), playing) == Swept(ss, playing)
    ensures Finished(Swept(ss, playing), playing) == []
    decreases |ss|
  {
    if ss != [] {
      var n := |ss| - 1;
      var init := Swept(ss[..n], playing);
      SweepIdempotent(ss[..n], playing);
      if ss[n].handle in playing {
        assert Swept(ss, playing) == init + [ss[n]];
        SweepSnoc(init, ss[n], playing);
        assert Swept(init + [ss[n]], playing) == init + [ss[n]];
      } else {
        assert Swept(ss, playing) == init;
      }
    }
  }

  /** Kept and finished sounds together are the list, counted with multiplicity. */
  lemma {:induction false} SweepPartition(ss: seq<ActiveSound>, playing: set<SoundId>)
    ensures multiset(Swept(ss, playing)) + multiset(Finished(ss, playing)) == multiset(ss)
    decreases |ss|
  {
    if ss != [] {
      var init, a := ss[..|ss| - 1], ss[|ss| - 1];
      SweepPartition(init, playing);
      assert ss == init + [a];
      assert multiset(ss) == multiset(init) + multiset{a};
      if a.handle in playing {
        assert Swept(ss, playing) == Swept(init, playing) + [a];
        assert Finished(ss, playing) == Finished(init, playing);
      } else {
        assert Swept(ss, playing) == Swept(init, playing);
        assert Finished(ss, playing) == Finished(init, playing) + [a];
      }
    }
  }

  /** The per-frame update keeps exactly the active sounds that still play, in order. */
  lemma UpdateKeepsPlaying(s: AudioState, p: Option<Profile>, focused: bool, playing: set<SoundId>)
    requires WellFormed(s) && s.canReproduceAudio
    ensures var r := Update(s, p, focused, playing);
            r.sounds == Swept(s.sounds, playing) &&
            forall a :: a in r.sounds <==> a in s.sounds && a.handle in playing
  {
    SweptMembers(s.sounds, playing);
  }

  /** The per-frame update ends its calls with one stop per finished sound, in list
      order (`FinishedMembers` says which sounds those are). */
  lemma UpdateStopsFinished(s: AudioState, p: Option<Profile>, focused: bool, playing: set<SoundId>)
    requires WellFormed(s) && s.canReproduceAudio
    ensures var r := Update(s, p, focused, playing);
            var f := Finished(s.sounds, playing);
            |r.calls| >= |f| &&
            forall i :: 0 <= i < |f| ==> r.calls[|r.calls| - |f| + i] == SoundStop(f[i].handle)
  {
    var warRunning := s.music[WAR].Some?;
    var head := s.calls
      + UpdateCalls(Refreshed(s.music[AMBIENT], AMBIENT, warRunning, p, focused))
      + UpdateCalls(Refreshed(s.music[WAR], WAR, warRunning, p, focused));
    EndsWithStops(head, Finished(s.sounds, playing));
  }

  /** StopSounds stops every active sound, in list order, and empties the list. */
  lemma StopSoundsStopsAll(s: AudioState)
    ensures var r := StopSounds(s);
            r.sounds == [] &&
            forall i :: 0 <= i < |s.sounds| ==> r.calls[|s.calls| + i] == SoundStop(s.sounds[i].handle)
  {
    SoundStopsAt(s.sounds);
  }
}
