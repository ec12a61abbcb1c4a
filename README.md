# AudioManager of the ClassicUO client, modelled and verified in Dafny

ClassicUO is an Ultima Online client. Its `AudioManager` plays short sound effects and the looping
background music. It keeps three pieces of state:

- a list of active one-shot sounds;
- two music slots: ambient (0) and war (1);
- the track index last loaded into each slot.

It also keeps a flag that switches audio off for good when the device probe fails, and it sets the
device's master volume when the window gains or loses focus. The three play operations and the two
volume updates work the same way. Each computes a volume from the user profile, the login settings,
the window focus, the background-playback policy and, for positional sounds, the distance. It
silently drops the call when that volume lies outside [-1, 1]. Otherwise it starts, replaces or
retunes handles by fixed rules. The two stops, the focus handlers and the per-frame `Update` apply no
range check: the stops compute no volume, the focus handlers set the master volume to 0 or 1, and
`Update` writes the profile's music volume as it is.

The project has four modules:

- `AudioPolicy` (policy.dfy): the read-only inputs (profile, login settings, world) and the volume
  formulas: slider / `SOUND_DELTA`, the one-shot and positional play volumes, Chebyshev distance and
  the distance factor.
- `Transitions` (transitions.dfy): the manager's state as a value, `AudioState`, and one function per
  public operation that gives the state after it. Sound and music handles are opaque ids. Every call
  made into a handle (Play, Stop, Dispose, Update) is appended to `calls`, a log of what the device
  receives. What the manager writes into a handle (its volume, its tile, whether it is attenuated) is
  kept in the state.
- `Managers` (manager.dfy): the class `AudioManager`. The sound list is a `seq` field that the
  methods reassign. The two slots and their indices are arrays of length 2, updated in `for` loops
  as in the source. The master volume and the call log are fields. Each method is proved to end in
  exactly the state the matching `Transitions` function gives. Each method also keeps `Valid()`,
  which includes the invariant that the two music slots are never both occupied.
- `AudioProperties` (properties.dfy): lemmas stating what the manager promises, proved about the
  transition functions.

Oracles. The asset loaders `SoundsLoader.GetSound` and `GetMusic` are parameters of type
`int -> Option<Id>`. The result of a sound handle's `Play` is a `bool` parameter. `IsPlaying` during
the per-frame sweep is the set of handles the device reports as playing. The current profile, the
login settings, the world and the window focus are read-only parameters of each call.

`SOUND_DELTA` is 250 and `MAX_MUSIC_DATA_INDEX_COUNT` is 150, the values ClassicUO defines.
src/Game/Constants.cs is not part of this model. Every contract refers to them by name; only the
two concrete examples (`PlaySoundExample`, `UpdateSkipsRangeCheck`) depend on their values.

Some behaviours of the code are easy to misread; the model follows the code:

- PlaySound checks the range before it tests `EnableSound` (lines 102-111). With sound disabled,
  an out-of-range slider, and the window focused or background playback on, the call is dropped
  rather than played silently. When the window is unfocused and background playback is off, line 99
  sets the volume to 0 first, so the call goes through silently.
- A positional sound beyond the view range is not dropped. Its volume becomes 0 before the range
  check, so it is played and registered (lines 146-170; `FarSoundIsPlayedSilently`).
- `Update` writes the profile's music volume without any range check (lines 350-352). A slider above
  `SOUND_DELTA` therefore gives a track a volume above 1 (`UpdateSkipsRangeCheck`).
- A track is installed only right after `StopMusic` (lines 225-233), so the two slots are never both
  occupied. The ducking rule (slot 0 silent while slot 1 plays, lines 271 and 350) therefore never
  applies to a reachable state (`DuckingNeverApplies` for line 271, `UpdateNeverDucks` for line 350). It is still modelled as written.
- `StopMusic` and `StopSounds` are not guarded by the degraded-mode flag. Every other operation is
  (`DegradedModeIsInert`).

## Model

| member | source | states |
|---|---|---|
| `AudioPolicy.InDeviceRange` | src/Game/Managers/AudioManager.cs:102 | a volume is accepted by the device exactly when it lies in [-1, 1]; the same test guards PlaySoundWithDistance, PlayMusic and both volume updates (lines 151, 214, 266, 289) |
| `AudioPolicy.Muted` | src/Game/Managers/AudioManager.cs:107-108 | a profile silences a one-shot sound when sound is disabled, or when the window is unfocused and background playback is off (lines 156-157 apply the same test to positional sounds, alongside a missing profile) |
| `AudioPolicy.Scaled` | src/Game/Managers/AudioManager.cs:88 | the device volume is the slider value divided by SOUND_DELTA |
| `AudioPolicy.SoundsVolume` | src/Game/Managers/AudioManager.cs:283-287 | 0 with no profile or sound disabled, otherwise the sound slider scaled |
| `AudioPolicy.MusicVolume` | src/Game/Managers/AudioManager.cs:186-205 | at login, the global login pair decides (0 when login music is off); otherwise 0 with no profile or music disabled, else the music slider scaled |
| `AudioPolicy.FrameMusicVolume` | src/Game/Managers/AudioManager.cs:350-352 | the per-frame volume is 0 for the ambient slot while war music runs or when music is disabled, else the music slider scaled |
| `AudioPolicy.OneShotVolume` | src/Game/Managers/AudioManager.cs:88-111 | the call is dropped exactly when playback is audible under the focus policy and the slider is out of range; an accepted volume always lies in [-1, 1], is 0 when sound is muted and is the slider scaled otherwise |
| `AudioPolicy.PositionalVolume` | src/Game/Managers/AudioManager.cs:137-160 | beyond the view range the sound is always played at 0; the call is dropped exactly when in range with an out-of-range slider; an accepted volume lies in [-1, 1] and is 0 when muted |
| `AudioPolicy.ChebyshevDistance` | src/Game/Managers/AudioManager.cs:132-134 | the distance is at least both axis distances and equals one of them, i.e. their maximum |
| `AudioPolicy.DistanceFactor` | src/Game/Managers/AudioManager.cs:138-144 | the factor is 0 on the player's tile; otherwise factor * (range + 1) == volume * distance |
| `Transitions.Initial` | src/Game/Managers/AudioManager.cs:36-39 | a new manager has audio on, no sounds, no calls and both slots empty |
| `Transitions.Initialize` | src/Game/Managers/AudioManager.cs:41-51 | a failed probe switches audio off; a successful probe changes nothing; nothing but the flag changes |
| `Transitions.OnWindowDeactivated` | src/Game/Managers/AudioManager.cs:57-66 | either nothing changes or the master volume becomes 0, and nothing else changes |
| `Transitions.OnWindowActivated` | src/Game/Managers/AudioManager.cs:68-77 | either nothing changes or the master volume becomes 1, and nothing else changes |
| `Transitions.PlaySound` | src/Game/Managers/AudioManager.cs:79-123 | the sound list grows by at most one entry at the end, and only for a loaded handle whose Play succeeded; music, indices and master volume are untouched |
| `Transitions.PlaySoundWithDistance` | src/Game/Managers/AudioManager.cs:125-172 | the same append-only rule for positional sounds; a running game requires a profile because the profile is read before its null test |
| `Transitions.StopMusic` | src/Game/Managers/AudioManager.cs:300-311 | both slots end empty, the recorded indices are unchanged, and only the slots and the call log change |
| `Transitions.StopCalls` | src/Game/Managers/AudioManager.cs:304-308 | an empty slot issues no call; an occupied slot issues exactly a stop then a dispose of its own handle |
| `Transitions.StopMusicCalls` | src/Game/Managers/AudioManager.cs:302-310 | two calls per occupied slot and none otherwise; `ReleaseOneSlot` gives the exact calls when one slot is occupied |
| `Transitions.CombatRefused` | src/Game/Managers/AudioManager.cs:207 | outside the login screen, a war-mode request is refused when the profile disables combat music |
| `Transitions.PlayMusic` | src/Game/Managers/AudioManager.cs:174-235 | ending with both slots occupied is only possible if nothing changed; sounds, master volume and the audio flag are untouched |
| `Transitions.Installed` | src/Game/Managers/AudioManager.cs:227-233 | the track sits in the chosen slot with its index, the other slot and its index are untouched, and one Play call is logged |
| `Transitions.UpdateCurrentMusicVolume` | src/Game/Managers/AudioManager.cs:237-274 | no handle is installed or removed; only slot volumes change |
| `Transitions.Retuned` | src/Game/Managers/AudioManager.cs:271 | retuning a slot keeps which asset is loaded in it and gives an occupied slot the new volume |
| `Transitions.UpdateCurrentSoundsVolume` | src/Game/Managers/AudioManager.cs:276-298 | the list keeps its length and every entry apart from its volume; nothing else changes |
| `Transitions.WithVolume` | src/Game/Managers/AudioManager.cs:294-297 | every active sound, and no other field of it, takes the new volume; the list keeps its length and order |
| `Transitions.SoundStops` | src/Game/Managers/AudioManager.cs:326 | exactly one stop call per sound |
| `Transitions.SoundStopsAt` | src/Game/Managers/AudioManager.cs:320-328 | the i-th stop call is for the i-th sound, so sounds are stopped in list order |
| `Transitions.SoundStopsSnoc` | src/Game/Managers/AudioManager.cs:372-374 | stopping one more sound appends its stop call at the end |
| `Transitions.EndsWithStops` | src/Game/Managers/AudioManager.cs:365-378 | after any earlier calls, the i-th call of the tail stops the i-th sound |
| `Transitions.StopSounds` | src/Game/Managers/AudioManager.cs:318-332 | the list ends empty and one call per former entry is appended to the log |
| `Transitions.Swept` | src/Game/Managers/AudioManager.cs:365-378 | the sweep never lengthens the list |
| `Transitions.Finished` | src/Game/Managers/AudioManager.cs:365-378 | the sweep never stops more sounds than the list holds |
| `Transitions.Refreshed` | src/Game/Managers/AudioManager.cs:344-359 | the per-frame refresh never changes which handle a slot holds, and with no profile or with background playback on it leaves the slot, volume included, as it was (lines 344, 348, 355) |
| `Transitions.UpdateCalls` | src/Game/Managers/AudioManager.cs:361 | an occupied slot issues exactly one update call for its handle; an empty slot issues none |
| `Transitions.Update` | src/Game/Managers/AudioManager.cs:334-379 | no handle is installed or removed from a slot; indices, master volume and audio flag are unchanged; `UpdateFollowsFocus` and `UpdateKeepsMusicInBackground` give the slot volumes in every profile branch, `UpdateAdvancesEachSlot` the per-slot Update calls, `UpdateKeepsPlaying` and `UpdateStopsFinished` the sweep |
| `Transitions.SweepKeepStep` | src/Game/Managers/AudioManager.cs:367-377 | stepping over a still-playing node keeps the list as swept prefix followed by unvisited rest |
| `Transitions.SweepDropStep` | src/Game/Managers/AudioManager.cs:369-377 | removing a finished node while walking keeps that shape and adds its stop call |
| `Managers.AudioManager.constructor` | src/Game/Managers/AudioManager.cs:36-39 | the new object is valid and in the initial state |
| `Managers.AudioManager.Initialize` | src/Game/Managers/AudioManager.cs:41-55 | the object ends in `Transitions.Initialize` of its old state |
| `Managers.AudioManager.OnWindowDeactivated` | src/Game/Managers/AudioManager.cs:57-66 | the object ends in `Transitions.OnWindowDeactivated` of its old state |
| `Managers.AudioManager.OnWindowActivated` | src/Game/Managers/AudioManager.cs:68-77 | the object ends in `Transitions.OnWindowActivated` of its old state |
| `Managers.AudioManager.PlaySound` | src/Game/Managers/AudioManager.cs:79-123 | the object ends in `Transitions.PlaySound` of its old state |
| `Managers.AudioManager.PlaySoundWithDistance` | src/Game/Managers/AudioManager.cs:125-172 | the object ends in `Transitions.PlaySoundWithDistance` of its old state; a running game needs a profile |
| `Managers.AudioManager.PlayMusic` | src/Game/Managers/AudioManager.cs:174-235 | the object ends in `Transitions.PlayMusic` of its old state and keeps at most one slot occupied |
| `Managers.AudioManager.UpdateCurrentMusicVolume` | src/Game/Managers/AudioManager.cs:237-274 | the loop over both slots ends in `Transitions.UpdateCurrentMusicVolume` of the old state: an early return writes nothing |
| `Managers.AudioManager.UpdateCurrentSoundsVolume` | src/Game/Managers/AudioManager.cs:276-298 | the loop over the list ends in `Transitions.UpdateCurrentSoundsVolume` of the old state |
| `Managers.AudioManager.StopMusic` | src/Game/Managers/AudioManager.cs:300-311 | the loop over both slots ends in `Transitions.StopMusic` of the old state |
| `Managers.AudioManager.Install` | src/Game/Managers/AudioManager.cs:227-233 | with both slots empty, writing the slot, its index and the Play call ends in `Transitions.Installed` of the old state and keeps at most one slot occupied |
| `Managers.AudioManager.StopWarMusic` | src/Game/Managers/AudioManager.cs:313-316 | the object ends in `Transitions.PlayMusic` of the old state for the old ambient index, not war, not login |
| `Managers.AudioManager.StopSounds` | src/Game/Managers/AudioManager.cs:318-332 | removing the head until the list is empty ends in `Transitions.StopSounds` of the old state |
| `Managers.AudioManager.Update` | src/Game/Managers/AudioManager.cs:334-379 | the object ends in `Transitions.Update` of its old state |
| `Managers.AudioManager.RefreshMusic` | src/Game/Managers/AudioManager.cs:341-362 | each slot ends refreshed against focus and profile, and one Update call per occupied slot is logged |
| `Managers.AudioManager.SweepFinishedSounds` | src/Game/Managers/AudioManager.cs:365-378 | removing nodes in place while walking leaves exactly the swept list and logs the stop calls of the finished sounds in order |
| `AudioProperties.AtMostOneMusicInvariant` | src/Game/Managers/AudioManager.cs:225-233 | every operation (Initialize, PlaySound, PlaySoundWithDistance when a game runs, PlayMusic, UpdateCurrentMusicVolume, UpdateCurrentSoundsVolume, StopMusic, StopSounds, focus changes, Update, StopWarMusic) keeps the two music slots from both being occupied |
| `AudioProperties.MusicAccepted` | src/Game/Managers/AudioManager.cs:176-217 | the conjunction of PlayMusic's guards: audio available, index below MAX_MUSIC_DATA_INDEX_COUNT, combat music not refused, volume in device range |
| `AudioProperties.PlayMusicRefusals` | src/Game/Managers/AudioManager.cs:176-217 | PlayMusic changes nothing without audio, for an index >= MAX, for a refused combat request or an out-of-range volume; a negative index is accepted |
| `AudioProperties.PlayMusicKeepsSameAmbient` | src/Game/Managers/AudioManager.cs:225 | a non-war request for the handle already in slot 0 changes nothing, whatever the volume settings |
| `AudioProperties.PlayMusicReplaces` | src/Game/Managers/AudioManager.cs:225-234 | a new asset or a war request stops and releases both slots, installs the asset in slot 1 for war and slot 0 otherwise, records the index there and leaves the other slot empty |
| `AudioProperties.PlayMusicMissingAsset` | src/Game/Managers/AudioManager.cs:219-224 | a missing asset stops all music if slot 0 is occupied and otherwise does nothing |
| `AudioProperties.SameTrackTwiceIsKept` | src/Game/Managers/AudioManager.cs:219-234 | repeating a non-war request for a loaded asset, when the loader resolves the index to the same handle both times, leaves the state as the first request left it |
| `AudioProperties.ReleaseOneSlot` | src/Game/Managers/AudioManager.cs:302-310 | with one slot holding g, StopMusic's calls are exactly Stop(g) then Dispose(g) |
| `AudioProperties.StopMusicReleasesEachOnce` | src/Game/Managers/AudioManager.cs:300-311 | each held handle is stopped once and disposed once, and no other handle is touched |
| `AudioProperties.StopWarMusicResumesAmbient` | src/Game/Managers/AudioManager.cs:313-316 | after a war override, the play path StopWarMusic takes reinstalls the last ambient track in slot 0 with its index and empties slot 1 |
| `AudioProperties.MusicVolumeUpdateAllOrNothing` | src/Game/Managers/AudioManager.cs:244-273 | out of range nothing changes; otherwise each occupied slot gets the volume (slot 0 gets 0 while slot 1 is occupied) and empty slots stay empty |
| `AudioProperties.DuckingNeverApplies` | src/Game/Managers/AudioManager.cs:271 | under the one-slot invariant every occupied slot gets exactly the computed volume |
| `AudioProperties.UpdateNeverDucks` | src/Game/Managers/AudioManager.cs:350-352 | under the one-slot invariant, in focus with background playback off and music on, the per-frame update gives every occupied slot the profile's music volume, so its ducking branch never fires |
| `AudioProperties.SoundsVolumeUniform` | src/Game/Managers/AudioManager.cs:283-297 | every active sound gets the one common volume and the list is otherwise kept; out of range nothing changes |
| `AudioProperties.PlaySoundRegistration` | src/Game/Managers/AudioManager.cs:107-122 | Play is called whenever a handle loads; the entry (handle, -1, -1, not by distance) is appended exactly when Play succeeds |
| `AudioProperties.PositionalRegistration` | src/Game/Managers/AudioManager.cs:132-171 | with audio off or no game running the call changes nothing; otherwise Play gets the positional volume and distance factor, and the entry (handle, x, y, by distance) is appended exactly when Play succeeds |
| `AudioProperties.FarSoundIsPlayedSilently` | src/Game/Managers/AudioManager.cs:146-170 | a sound beyond the view range is registered with volume 0 rather than dropped |
| `AudioProperties.PlaySoundExample` | src/Game/Managers/AudioManager.cs:79-123 | slider 80, sound on, focused: one non-positional entry at volume 80/250 |
| `AudioProperties.FocusRoundTrip` | src/Game/Managers/AudioManager.cs:57-77 | losing and regaining focus sets the master volume to 0, then to 1, when the profile forbids background playback; otherwise both do nothing |
| `AudioProperties.UpdateFollowsFocus` | src/Game/Managers/AudioManager.cs:344-358 | with background playback off, each occupied slot keeps its handle and gets 0 out of focus and the profile-derived volume in focus |
| `AudioProperties.UpdateKeepsMusicInBackground` | src/Game/Managers/AudioManager.cs:344-358 | with no profile, or with background playback on, the per-frame update leaves both music slots, volumes included, unchanged |
| `AudioProperties.UpdateAdvancesEachSlot` | src/Game/Managers/AudioManager.cs:361 | whatever branch the refresh takes, each occupied slot gets exactly one Update call, ambient first, followed by the stops of the finished sounds in list order |
| `AudioProperties.UpdateSkipsRangeCheck` | src/Game/Managers/AudioManager.cs:350-352 | a music slider of 500 makes Update write volume 2.0, which PlayMusic would refuse |
| `AudioProperties.DegradedModeIsInert` | src/Game/Managers/AudioManager.cs:41-51 | with audio off it stays off, and every play, volume, focus and update operation changes nothing |
| `AudioProperties.SweptMembers` | src/Game/Managers/AudioManager.cs:371-375 | the sweep keeps exactly the sounds whose handle still plays |
| `AudioProperties.FinishedMembers` | src/Game/Managers/AudioManager.cs:371-375 | the sweep stops exactly the sounds whose handle no longer plays |
| `AudioProperties.KeptPositions` | src/Game/Managers/AudioManager.cs:365-378 | the surviving positions are increasing, in bounds, and exactly those whose sound still plays |
| `AudioProperties.SweptInOrder` | src/Game/Managers/AudioManager.cs:365-378 | the k-th kept sound is the sound at the k-th surviving position, so the original order is kept |
| `AudioProperties.SweepIdempotent` | src/Game/Managers/AudioManager.cs:365-378 | sweeping again with the same report removes nothing |
| `AudioProperties.SweepPartition` | src/Game/Managers/AudioManager.cs:365-378 | kept and finished sounds together are the list, counted with multiplicity |
| `AudioProperties.UpdateKeepsPlaying` | src/Game/Managers/AudioManager.cs:365-378 | Update keeps exactly the sounds whose handle still plays, in order |
| `AudioProperties.UpdateStopsFinished` | src/Game/Managers/AudioManager.cs:365-378 | Update ends the log with one stop call per finished sound, in list order |
| `AudioProperties.StopSoundsStopsAll` | src/Game/Managers/AudioManager.cs:318-332 | every sound is stopped, in list order, and the list ends empty |

## Left out

- The device probe in `Initialize` (constructing a `DynamicSoundEffectInstance` and catching `NoAudioHardwareException`) is an input, `deviceAvailable`. Logging is left out.
- The subscription to the window's Activated/Deactivated events is left out: the two handlers are methods the caller invokes.
- Internals of `UOSound`, `UOMusic`, `Sound` and `SoundsLoader` are foreign code: loading, playing, stopping, disposing, `IsPlaying` and `Update`. Handles are opaque ids, the loaders and `Play`'s result are parameters, and the calls made into handles are logged, not executed.
- `SoundEffect.MasterVolume` is a field of the model. Its value when the manager is built is the constructor's parameter.
- Single-precision float arithmetic and rounding of `slider / SOUND_DELTA` are not modelled: volumes are exact reals.
- Transitions.PlaySoundWithDistance: the C# `int` subtraction and `Math.Abs` in the distance (which would throw for `int.MinValue`) are modelled on unbounded integers, because tile coordinates are far from the 32-bit limits.
- Managers.AudioManager.PlaySound: the loader caches handles, so one handle can sit in the list twice. The source writes X = Y = -1, `CalculateByDistance = false` and the Play volume into the shared sound object (lines 115-119), so the earlier entry's tiles, flag and volume change too. The model keeps one record per list entry, so an earlier entry keeps its own values; only stops and the sweep, which act per handle, agree.
- Managers.AudioManager.PlaySoundWithDistance: for the same reason, writing X, Y, `CalculateByDistance = true` (lines 164-168) and the Play volume through a cached handle changes every earlier entry with that handle in the source, but not in the model.
- The global singletons (`ProfileManager.CurrentProfile`, `World`, `Client.Game.IsActive`, `Settings.GlobalSettings`) are read-only parameters, not modelled objects.
