/**
  The policy inputs the audio manager reads on every call (user profile, login
  settings, world, window focus) and the volume formulas it derives from them.
  Volumes are exact reals; the device accepts a volume only inside [-1, 1].
 */
module AudioPolicy {

  datatype Option<+T> = None | Some(value: T)

  /** Scale between a profile's integer volume slider and a device volume. */
  const SOUND_DELTA: real := 250.0

  /** Number of music tracks the loader knows; larger indices are refused. */
  const MAX_MUSIC_DATA_INDEX_COUNT: int := 150

  /** The fields of the current user profile that the manager reads. */
  datatype Profile = Profile(
    enableSound: bool,
    enableMusic: bool,
    enableCombatMusic: bool,
    soundVolume: int,
    musicVolume: int,
    reproduceSoundsInBackground: bool)

  /** Login-screen music settings, global rather than per profile. */
  datatype GlobalSettings = GlobalSettings(loginMusic: bool, loginMusicVolume: int)

  /** What positional playback reads of the world: whether a game is running,
      where the player stands and how far the client sees (a byte, so never negative). */
  datatype World = World(inGame: bool, playerX: int, playerY: int, clientViewRange: nat)

  /** The range check every play and volume update applies before touching the device. */
  predicate InDeviceRange(v: real) {
    -1.0 <= v <= 1.0
  }

  /** A profile slider value as a device volume. */
  function Scaled(slider: int): (v: real)
    ensures v * SOUND_DELTA == slider as real
  {
    slider as real / SOUND_DELTA
  }

  /** A sound effect is forced silent when sound is disabled, or when the window is
      out of focus and background playback is off. */
  predicate Muted(p: Profile, focused: bool) {
    !p.enableSound || (!focused && !p.reproduceSoundsInBackground)
  }

  /** Volume written to every active sound effect by a sound-volume update. */
  function SoundsVolume(p: Option<Profile>): (v: real)
    ensures p.None? || !p.value.enableSound ==> v == 0.0
    ensures p.Some? && p.value.enableSound ==> v * SOUND_DELTA == p.value.soundVolume as real
  {
    if p.None? || !p.value.enableSound then 0.0 else Scaled(p.value.soundVolume)
  }

  /** Volume for music: the global login pair at the login screen, the profile otherwise. */
  function MusicVolume(isLogin: bool, settings: GlobalSettings, p: Option<Profile>): (v: real)
    ensures isLogin && !settings.loginMusic ==> v == 0.0
    ensures isLogin && settings.loginMusic ==> v * SOUND_DELTA == settings.loginMusicVolume as real
    ensures !isLogin && (p.None? || !p.value.enableMusic) ==> v == 0.0
    ensures !isLogin && p.Some? && p.value.enableMusic ==> v * SOUND_DELTA == p.value.musicVolume as real
  {
    if isLogin then
      (if settings.loginMusic then Scaled(settings.loginMusicVolume) else 0.0)
    else if p.None? || !p.value.enableMusic then 0.0
    else Scaled(p.value.musicVolume)
  }

  /** Music volume the per-frame update gives slot `slot`: silent for the ambient slot
      while war music runs, and silent when music is disabled. */
  function FrameMusicVolume(slot: int, warRunning: bool, p: Profile): (v: real)
    ensures (slot == 0 && warRunning) || !p.enableMusic ==> v == 0.0
    ensures !(slot == 0 && warRunning) && p.enableMusic ==> v * SOUND_DELTA == p.musicVolume as real
  {
    if (slot == 0 && warRunning) || !p.enableMusic then 0.0 else Scaled(p.musicVolume)
  }

  /** Volume a non-positional sound is played at, or None when the range check drops
      the call. The range check comes before the enable-sound test, so a disabled
      sound with an out-of-range slider is dropped rather than played silently,
      unless the window is unfocused with background playback off: then the volume
      is already 0 when it is checked, and the call goes through silently. */
  function OneShotVolume(p: Profile, focused: bool): (r: Option<real>)
    ensures r.None? <==> (focused || p.reproduceSoundsInBackground) && !InDeviceRange(Scaled(p.soundVolume))
    ensures r.Some? ==> InDeviceRange(r.value)
    ensures r.Some? && Muted(p, focused) ==> r.value == 0.0
    ensures r.Some? && !Muted(p, focused) ==> r.value * SOUND_DELTA == p.soundVolume as real
  {
    var checked := if !focused && !p.reproduceSoundsInBackground then 0.0 else Scaled(p.soundVolume);
    if !InDeviceRange(checked) then None
    else Some(if Muted(p, focused) then 0.0 else checked)
  }

  /** Volume a positional sound at `distance` is played at, or None when the range
      check drops the call. A sound beyond the view range is played silently. */
  function PositionalVolume(p: Profile, focused: bool, distance: nat, viewRange: nat): (r: Option<real>)
    ensures distance > viewRange ==> r == Some(0.0)
    ensures r.None? <==> distance <= viewRange && !InDeviceRange(Scaled(p.soundVolume))
    ensures r.Some? ==> InDeviceRange(r.value)
    ensures r.Some? && Muted(p, focused) ==> r.value == 0.0
    ensures r.Some? && !Muted(p, focused) && distance <= viewRange ==> r.value * SOUND_DELTA == p.soundVolume as real
  {
    var checked := if distance > viewRange then 0.0 else Scaled(p.soundVolume);
    if !InDeviceRange(checked) then None
    else Some(if Muted(p, focused) then 0.0 else checked)
  }

  function Abs(n: int): nat {
    if n < 0 then -n else n
  }

  /** Chebyshev distance between the sound's tile and the player's tile. */
  function ChebyshevDistance(x: int, y: int, px: int, py: int): (d: nat)
    ensures Abs(x - px) <= d && Abs(y - py) <= d
    ensures d == Abs(x - px) || d == Abs(y - py)
  {
    if Abs(x - px) >= Abs(y - py) then Abs(x - px) else Abs(y - py)
  }

  /** Attenuation handed to the device beside the volume: the volume spread over
      viewRange + 1 steps, times the distance; zero on the player's own tile. */
  function DistanceFactor(volume: real, viewRange: nat, distance: nat): (f: real)
    ensures distance == 0 ==> f == 0.0
    ensures distance >= 1 ==> f * (viewRange + 1) as real == volume * distance as real
  {
    if distance >= 1 then volume / (viewRange + 1) as real * distance as real else 0.0
  }
}
