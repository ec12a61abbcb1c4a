/**
  The audio manager's state as a value, and one function per public operation
  giving the state after it. Sound and music handles are opaque ids; what the
  manager asks of them (play, stop, dispose, update) is appended to `calls`, the
  log of calls the device receives, and what it writes into them (volume,
  position) is kept in the state.
 */
module Transitions {
  import opened AudioPolicy

  /** Opaque handle of a loaded sound effect. */
  type SoundId = nat
  /** Opaque handle of a loaded music track. */
  type MusicId = nat

  /** Music slot indices. */
  const AMBIENT: int := 0
  const WAR: int := 1

  /** A music handle in a slot, with the volume the manager last gave it. */
  datatype Track = Track(handle: MusicId, volume: real)

  /** An entry of the active sound list: the handle, its emission tile ((-1, -1)
      for a non-positional sound), whether it is attenuated by distance, and the
      volume the manager last gave it. */
  datatype ActiveSound = ActiveSound(handle: SoundId, x: int, y: int, byDistance: bool, volume: real)

  /** A call the manager makes into a sound or music handle. */
  datatype DeviceCall =
    | SoundPlay(sound: SoundId, volume: real)
    | SoundPlayAt(sound: SoundId, volume: real, distanceFactor: real)
    | SoundStop(sound: SoundId)
    | MusicPlay(music: MusicId, volume: real)
    | MusicStop(music: MusicId)
    | MusicDispose(music: MusicId)
    | MusicUpdate(music: MusicId)

  /** canReproduceAudio: false once the device probe failed.
      sounds: the active one-shot sounds, in registration order.
      music: the ambient (0) and war (1) slots.
      musicIndices: the track index last loaded into each slot.
      masterVolume: the device's master volume.
      calls: every call made into a handle so far, oldest first. */
  datatype AudioState = AudioState(
    canReproduceAudio: bool,
    sounds: seq<ActiveSound>,
    music: seq<Option<Track>>,
    musicIndices: seq<int>,
    masterVolume: real,
    calls: seq<DeviceCall>)

  predicate WellFormed(s: AudioState) {
    |s.music| == 2 && |s.musicIndices| == 2
  }

  /** The ambient and war slots are never both occupied. */
  predicate AtMostOneMusic(s: AudioState) {
    WellFormed(s) && (s.music[AMBIENT].None? || s.music[WAR].None?)
  }

  /** The handle held by a slot. */
  function Loaded(slot: Option<Track>): Option<MusicId> {
    if slot.Some? then Some(slot.value.handle) else None
  }

  /** The state of a freshly built manager, whose device master volume is `master`. */
  function Initial(master: real): (s: AudioState)
    ensures AtMostOneMusic(s) && s.music[AMBIENT].None? && s.music[WAR].None?
    ensures s.canReproduceAudio && s.sounds == [] && s.calls == []
  {
    AudioState(true, [], [None, None], [0, 0], master, [])
  }

  /** The device probe: a failed probe switches audio off for good. */
  function Initialize(s: AudioState, deviceAvailable: bool): (r: AudioState)
    ensures !deviceAvailable ==> !r.canReproduceAudio
    ensures deviceAvailable ==> r == s
    ensures r.(canReproduceAudio := s.canReproduceAudio) == s
  {
    if deviceAvailable then s else s.(canReproduceAudio := false)
  }

  /** Focus-loss handler: silences the device unless audio is off, there is no
      profile, or the profile lets sounds play in the background. */
  function OnWindowDeactivated(s: AudioState, p: Option<Profile>): (r: AudioState)
    ensures r == s || r.masterVolume == 0.0
    ensures r.(masterVolume := s.masterVolume) == s
  {
    if !s.canReproduceAudio || p.None? || p.value.reproduceSoundsInBackground then s
    else s.(masterVolume := 0.0)
  }

  /** Focus-gain handler: restores full master volume under the same condition. */
  function OnWindowActivated(s: AudioState, p: Option<Profile>): (r: AudioState)
    ensures r == s || r.masterVolume == 1.0
    ensures r.(masterVolume := s.masterVolume) == s
  {
    if !s.canReproduceAudio || p.None? || p.value.reproduceSoundsInBackground then s
    else s.(masterVolume := 1.0)
  }

  /** PlaySound: a non-positional sound effect. `getSound` is the asset loader and
      `played` what the handle's Play reports. */
  function PlaySound(s: AudioState, index: int, p: Option<Profile>, focused: bool,
                     getSound: int -> Option<SoundId>, played: bool): (r: AudioState)
    ensures r.sounds == s.sounds || (|r.sounds| == |s.sounds| + 1 && r.sounds[..|s.sounds|] == s.sounds)
    ensures |r.sounds| > |s.sounds| ==> getSound(index) == Some(r.sounds[|s.sounds|].handle) && played
    ensures r.(sounds := s.sounds, calls := s.calls) == s
  {
    if !s.canReproduceAudio || p.None? then s
    else match OneShotVolume(p.value, focused)
      case None => s
      case Some(v) =>
        match getSound(index)
        case None => s
        case Some(h) =>
          var tried := s.(calls := s.calls + [SoundPlay(h, v)]);
          if played then tried.(sounds := s.sounds + [ActiveSound(h, -1, -1, false, v)]) else tried
  }

  /** PlaySoundWithDistance: a sound effect emitted at tile (x, y). The profile is
      read before its null check, so a running game needs one. */
  function PlaySoundWithDistance(s: AudioState, index: int, x: int, y: int, p: Option<Profile>,
                                 focused: bool, w: World, getSound: int -> Option<SoundId>,
                                 played: bool): (r: AudioState)
    requires s.canReproduceAudio && w.inGame ==> p.Some?
    ensures r.sounds == s.sounds || (|r.sounds| == |s.sounds| + 1 && r.sounds[..|s.sounds|] == s.sounds)
    ensures |r.sounds| > |s.sounds| ==> getSound(index) == Some(r.sounds[|s.sounds|].handle) && played
    ensures r.(sounds := s.sounds, calls := s.calls) == s
  {
    if !s.canReproduceAudio || !w.inGame then s
    else
      var d := ChebyshevDistance(x, y, w.playerX, w.playerY);
      var factor := DistanceFactor(Scaled(p.value.soundVolume), w.clientViewRange, d);
      match PositionalVolume(p.value, focused, d, w.clientViewRange)
      case None => s
      case Some(v) =>
        match getSound(index)
        case None => s
        case Some(h) =>
          var tried := s.(calls := s.calls + [SoundPlayAt(h, v, factor)]);
          if played then tried.(sounds := s.sounds + [ActiveSound(h, x, y, true, v)]) else tried
  }

  /** The calls that stop and release the handle of one slot. */
  function StopCalls(slot: Option<Track>): (c: seq<DeviceCall>)
    ensures slot.None? <==> c == []
    ensures slot.Some? ==> |c| == 2 && c[0] == MusicStop(slot.value.handle) && c[1] == MusicDispose(slot.value.handle)
  {
    if slot.Some? then [MusicStop(slot.value.handle), MusicDispose(slot.value.handle)] else []
  }

  /** The calls StopMusic appends: the ambient slot's release, then the war slot's. */
  function StopMusicCalls(s: AudioState): (c: seq<DeviceCall>)
    requires WellFormed(s)
    ensures |c| == 2 * ((if s.music[AMBIENT].Some? then 1 else 0) + (if s.music[WAR].Some? then 1 else 0))
  {
    StopCalls(s.music[AMBIENT]) + StopCalls(s.music[WAR])
  }

  /** StopMusic: stops and releases both slots; the recorded indices stay. */
  function StopMusic(s: AudioState): (r: AudioState)
    requires WellFormed(s)
    ensures AtMostOneMusic(r) && r.music[AMBIENT].None? && r.music[WAR].None?
    ensures r.musicIndices == s.musicIndices
    ensures r.(music := s.music, calls := s.calls) == s
  {
    s.(music := [None, None], calls := s.calls + StopMusicCalls(s))
  }

  /** A non-login war request that the profile refuses because combat music is off. */
  predicate CombatRefused(warMode: bool, isLogin: bool, p: Option<Profile>) {
    !isLogin && p.Some? && !p.value.enableCombatMusic && warMode
  }

  /** PlayMusic: replace-or-keep for the music slots. `getMusic` is the asset loader. */
  function PlayMusic(s: AudioState, music: int, warMode: bool, isLogin: bool, p: Option<Profile>,
                     settings: GlobalSettings, getMusic: int -> Option<MusicId>): (r: AudioState)
    requires WellFormed(s)
    ensures WellFormed(r)
    ensures r.music[AMBIENT].Some? && r.music[WAR].Some? ==> r == s
    ensures r.(music := s.music, musicIndices := s.musicIndices, calls := s.calls) == s
  {
    if !s.canReproduceAudio || music >= MAX_MUSIC_DATA_INDEX_COUNT || CombatRefused(warMode, isLogin, p) then s
    else
      var v := MusicVolume(isLogin, settings, p);
      if !InDeviceRange(v) then s
      else
        var m := getMusic(music);
        if m.None? then
          (if s.music[AMBIENT].Some? then StopMusic(s) else s)
        else if m != Loaded(s.music[AMBIENT]) || warMode then
          Installed(StopMusic(s), if warMode then WAR else AMBIENT, music, m.value, v)
        else s
  }

  /** Puts handle h, loaded from track index `music`, into slot `idx` at volume v
      and starts it. */
  function Installed(s: AudioState, idx: int, music: int, h: MusicId, v: real): (r: AudioState)
    requires WellFormed(s) && (idx == AMBIENT || idx == WAR)
    ensures WellFormed(r) && r.music[idx] == Some(Track(h, v)) && r.musicIndices[idx] == music
    ensures r.music[1 - idx] == s.music[1 - idx] && r.musicIndices[1 - idx] == s.musicIndices[1 - idx]
    ensures r.calls == s.calls + [MusicPlay(h, v)]
    ensures r.(music := s.music, musicIndices := s.musicIndices, calls := s.calls) == s
  {
    s.(music := s.music[idx := Some(Track(h, v))],
       musicIndices := s.musicIndices[idx := music],
       calls := s.calls + [MusicPlay(h, v)])
  }

  /** A slot's track with its volume set to `v`; an empty slot stays empty. */
  function Retuned(slot: Option<Track>, v: real): (r: Option<Track>)
    ensures Loaded(r) == Loaded(slot)
    ensures r.Some? ==> r.value.volume == v
  {
    if slot.Some? then Some(slot.value.(volume := v)) else None
  }

  /** UpdateCurrentMusicVolume: one volume for every occupied slot, the ambient slot
      ducked to silence while the war slot is occupied; nothing if out of range. */
  function UpdateCurrentMusicVolume(s: AudioState, isLogin: bool, settings: GlobalSettings,
                                    p: Option<Profile>): (r: AudioState)
    requires WellFormed(s)
    ensures WellFormed(r)
    ensures Loaded(r.music[AMBIENT]) == Loaded(s.music[AMBIENT]) && Loaded(r.music[WAR]) == Loaded(s.music[WAR])
    ensures r.(music := s.music) == s
  {
    var v := MusicVolume(isLogin, settings, p);
    if !s.canReproduceAudio || !InDeviceRange(v) then s
    else s.(music := [Retuned(s.music[AMBIENT], if s.music[WAR].Some? then 0.0 else v),
                      Retuned(s.music[WAR], v)])
  }

  /** Every sound of `ss` with volume `v`. */
  function WithVolume(ss: seq<ActiveSound>, v: real): (r: seq<ActiveSound>)
    ensures |r| == |ss|
    ensures forall i :: 0 <= i < |ss| ==> r[i] == ss[i].(volume := v)
  {
    seq(|ss|, i requires 0 <= i < |ss| => ss[i].(volume := v))
  }

  /** UpdateCurrentSoundsVolume: one volume for every active sound; nothing if out of range. */
  function UpdateCurrentSoundsVolume(s: AudioState, p: Option<Profile>): (r: AudioState)
    ensures |r.sounds| == |s.sounds|
    ensures forall i :: 0 <= i < |s.sounds| ==> r.sounds[i].(volume := s.sounds[i].volume) == s.sounds[i]
    ensures r.(sounds := s.sounds) == s
  {
    var v := SoundsVolume(p);
    if !s.canReproduceAudio || !InDeviceRange(v) then s
    else s.(sounds := WithVolume(s.sounds, v))
  }

  /** The stop calls for the sounds of `ss`, in list order. */
  function SoundStops(ss: seq<ActiveSound>): (c: seq<DeviceCall>)
    ensures |c| == |ss|
    decreases |ss|
  {
    if ss == [] then [] else SoundStops(ss[..|ss| - 1]) + [SoundStop(ss[|ss| - 1].handle)]
  }

  /** The i-th stop call is for the i-th sound. */
  lemma {:induction false} SoundStopsAt(ss: seq<ActiveSound>)
    ensures forall i :: 0 <= i < |ss| ==> SoundStops(ss)[i] == SoundStop(ss[i].handle)
    decreases |ss|
  {
    if ss != [] {
      SoundStopsAt(ss[..|ss| - 1]);
    }
  }

  /** One more sound adds its stop call at the end. */
  lemma SoundStopsSnoc(ss: seq<ActiveSound>, a: ActiveSound)
    ensures SoundStops(ss + [a]) == SoundStops(ss) + [SoundStop(a.handle)]
  {
    assert (ss + [a])[..|ss|] == ss;
  }

  /** A log that ends with the stop calls of `ss` has the i-th of them at the
      i-th position of its tail. */
  lemma EndsWithStops(head: seq<DeviceCall>, ss: seq<ActiveSound>)
    ensures var c := head + SoundStops(ss);
            |c| == |head| + |ss| &&
            forall i :: 0 <= i < |ss| ==> c[|head| + i] == SoundStop(ss[i].handle)
  {
    SoundStopsAt(ss);
  }

  /** StopSounds: stops every active sound, in list order, and empties the list. */
  function StopSounds(s: AudioState): (r: AudioState)
    ensures r.sounds == []
    ensures |r.calls| == |s.calls| + |s.sounds| && r.calls[..|s.calls|] == s.calls
    ensures r.(sounds := s.sounds, calls := s.calls) == s
  {
    s.(sounds := [], calls := s.calls + SoundStops(s.sounds))
  }

  /** The sounds of `ss` the device still reports as playing, in list order. */
  function Swept(ss: seq<ActiveSound>, playing: set<SoundId>): (r: seq<ActiveSound>)
    ensures |r| <= |ss|
    decreases |ss|
  {
    if ss == [] then []
    else Swept(ss[..|ss| - 1], playing)
         + (if ss[|ss| - 1].handle in playing then [ss[|ss| - 1]] else [])
  }

  /** The sounds of `ss` that have finished playing, in list order. */
  function Finished(ss: seq<ActiveSound>, playing: set<SoundId>): (r: seq<ActiveSound>)
    ensures |r| <= |ss|
    decreases |ss|
  {
    if ss == [] then []
    else Finished(ss[..|ss| - 1], playing)
         + (if ss[|ss| - 1].handle in playing then [] else [ss[|ss| - 1]])
  }

  /** Extending a list by one sound extends the swept list, the finished list and
      their stop calls by at most that sound. */
  lemma SweepSnoc(ss: seq<ActiveSound>, a: ActiveSound, playing: set<SoundId>)
    ensures Swept(ss + [a], playing) == Swept(ss, playing) + (if a.handle in playing then [a] else [])
    ensures Finished(ss + [a], playing) == Finished(ss, playing) + (if a.handle in playing then [] else [a])
    ensures SoundStops(Finished(ss + [a], playing))
            == SoundStops(Finished(ss, playing)) + (if a.handle in playing then [] else [SoundStop(a.handle)])
  {
    var init := (ss + [a])[..|ss|];
    assert init == ss;
    var f := Finished(ss, playing);
    if a.handle in playing {
      assert Swept(ss + [a], playing) == Swept(ss, playing) + [a];
      assert Finished(ss + [a], playing) == f;
    } else {
      assert Swept(ss + [a], playing) == Swept(ss, playing);
      assert Finished(ss + [a], playing) == f + [a];
      SoundStopsSnoc(f, a);
    }
  }

  /** Appending to a log in two steps is appending the two parts at once. */
  lemma AppendTwice<T>(log: seq<T>, first: seq<T>, second: seq<T>)
    ensures log + first + second == log + (first + second)
  {
  }

  /** Where the in-place sweep stands: with the swept prefix of `all` followed by the
      unvisited rest, the list is as long as the prefix plus the rest, and the node
      after the prefix is the next unvisited sound. */
  lemma SweepCursor(all: seq<ActiveSound>, visited: nat, cur: seq<ActiveSound>, playing: set<SoundId>)
    requires visited <= |all|
    requires cur == Swept(all[..visited], playing) + all[visited..]
    ensures |cur| == |Swept(all[..visited], playing)| + |all| - visited
    ensures visited < |all| ==> cur[|Swept(all[..visited], playing)|] == all[visited]
  {
  }

  /** One step of the in-place sweep over a node that still plays: `cur` holds the
      swept prefix of `all` (k sounds) followed by the unvisited rest, and stepping
      over the node at position k keeps that shape. */
  lemma SweepKeepStep(all: seq<ActiveSound>, visited: nat, cur: seq<ActiveSound>, k: nat, playing: set<SoundId>)
    requires visited < |all| && all[visited].handle in playing
    requires cur == Swept(all[..visited], playing) + all[visited..]
    requires k == |Swept(all[..visited], playing)|
    ensures cur == Swept(all[..visited + 1], playing) + all[visited + 1..]
    ensures k + 1 == |Swept(all[..visited + 1], playing)|
    ensures SoundStops(Finished(all[..visited + 1], playing)) == SoundStops(Finished(all[..visited], playing))
  {
    var a := all[visited];
    assert all[..visited + 1] == all[..visited] + [a];
    assert all[visited..] == [a] + all[visited + 1..];
    SweepSnoc(all[..visited], a, playing);
  }

  /** One step of the in-place sweep over a finished node: removing it from
      position k keeps the shape, and its stop call extends the stop calls. */
  lemma SweepDropStep(all: seq<ActiveSound>, visited: nat, cur: seq<ActiveSound>, k: nat, playing: set<SoundId>)
    requires visited < |all| && all[visited].handle !in playing
    requires cur == Swept(all[..visited], playing) + all[visited..]
    requires k == |Swept(all[..visited], playing)|
    ensures k < |cur| && cur[..k] + cur[k + 1..] == Swept(all[..visited + 1], playing) + all[visited + 1..]
    ensures k == |Swept(all[..visited + 1], playing)|
    ensures SoundStops(Finished(all[..visited + 1], playing))
            == SoundStops(Finished(all[..visited], playing)) + [SoundStop(all[visited].handle)]
  {
    var a := all[visited];
    assert all[..visited + 1] == all[..visited] + [a];
    assert all[visited..] == [a] + all[visited + 1..];
    SweepSnoc(all[..visited], a, playing);
  }

  /** What the per-frame update does to the volume of slot `i`. */
  function Refreshed(slot: Option<Track>, i: int, warRunning: bool, p: Option<Profile>, focused: bool): (r: Option<Track>)
    ensures Loaded(r) == Loaded(slot)
    ensures p.None? || p.value.reproduceSoundsInBackground ==> r == slot
  {
    if slot.None? || p.None? then slot
    else if focused then
      (if !p.value.reproduceSoundsInBackground
       then Some(slot.value.(volume := FrameMusicVolume(i, warRunning, p.value)))
       else slot)
    else if !p.value.reproduceSoundsInBackground && slot.value.volume != 0.0 then
      Some(slot.value.(volume := 0.0))
    else slot
  }

  /** The call that lets an occupied slot advance its own playback. */
  function UpdateCalls(slot: Option<Track>): (c: seq<DeviceCall>)
    ensures slot.None? <==> c == []
    ensures slot.Some? ==> c == [MusicUpdate(slot.value.handle)]
  {
    if slot.Some? then [MusicUpdate(slot.value.handle)] else []
  }

  /** Update, once per frame: refresh the music volumes against focus and profile,
      let each occupied slot advance, then stop and drop every sound that is no
      longer playing. */
  function Update(s: AudioState, p: Option<Profile>, focused: bool, playing: set<SoundId>): (r: AudioState)
    requires WellFormed(s)
    ensures WellFormed(r)
    ensures Loaded(r.music[AMBIENT]) == Loaded(s.music[AMBIENT]) && Loaded(r.music[WAR]) == Loaded(s.music[WAR])
    ensures r.(music := s.music, sounds := s.sounds, calls := s.calls) == s
  {
    if !s.canReproduceAudio then s
    else
      var warRunning := s.music[WAR].Some?;
      var m0 := Refreshed(s.music[AMBIENT], AMBIENT, warRunning, p, focused);
      var m1 := Refreshed(s.music[WAR], WAR, warRunning, p, focused);
      s.(music := [m0, m1],
         sounds := Swept(s.sounds, playing),
         calls := s.calls + UpdateCalls(m0) + UpdateCalls(m1) + SoundStops(Finished(s.sounds, playing)))
  }
}
