/**
 The three pieces of operating-system state the gesture loop adjusts: the
 master volume (a scalar), the mute flag and the brightness of the first
 display. Each adjustment reads the current value, applies a step and writes
 the clamped result back.
 */
module Devices {

  /** A snapshot of the device state. */
  datatype DeviceState = DeviceState(volume: real, muted: bool, brightness: int)

  /** The adjustments a recognised gesture can ask for. */
  datatype Action =
    | Louder        // volume_up
    | Quieter       // volume_down
    | Unmute        // SetMute(0) in the peace-sign branch
    | FlipMute      // mute(), which toggles
    | Dimmer        // brightness_down
    | Brighter      // brightness_up

  const VOLUME_STEP: real := 0.1
  const BRIGHTNESS_STEP: int := 10
  const MAX_BRIGHTNESS: int := 100

  function MinReal(a: real, b: real): (m: real) { if a <= b then a else b }
  function MaxReal(a: real, b: real): (m: real) { if a >= b then a else b }
  function MinInt(a: int, b: int): (m: int) { if a <= b then a else b }
  function MaxInt(a: int, b: int): (m: int) { if a >= b then a else b }

  /** Volume after one volume-up step: one step more, but never above 1. */
  function RaisedVolume(v: real): (r: real) { MinReal(v + VOLUME_STEP, 1.0) }

  /** Volume after one volume-down step: one step less, but never below 0. */
  function LoweredVolume(v: real): (r: real) { MaxReal(v - VOLUME_STEP, 0.0) }

  /** Brightness after one brightness-up step: ten more, but never above 100. */
  function RaisedBrightness(b: int): (r: int) { MinInt(b + BRIGHTNESS_STEP, MAX_BRIGHTNESS) }

  /** Brightness after one brightness-down step: ten less, but never below 0. */
  function LoweredBrightness(b: int): (r: int) { MaxInt(b - BRIGHTNESS_STEP, 0) }

  /** The ranges the operating system keeps the state in. */
  predicate InRange(s: DeviceState)
  {
    0.0 <= s.volume <= 1.0 && 0 <= s.brightness <= MAX_BRIGHTNESS
  }

  /**
   The state after one action. Every action touches only its own field, and
   none of them can take a state out of range.
   */
  function Apply(a: Action, s: DeviceState): (r: DeviceState)
    ensures (a.Louder? || a.Quieter?) ==> r.muted == s.muted && r.brightness == s.brightness
    ensures (a.Unmute? || a.FlipMute?) ==> r.volume == s.volume && r.brightness == s.brightness
    ensures (a.Dimmer? || a.Brighter?) ==> r.volume == s.volume && r.muted == s.muted
    ensures InRange(s) ==> InRange(r)
  {
    match a
    case Louder => s.(volume := RaisedVolume(s.volume))
    case Quieter => s.(volume := LoweredVolume(s.volume))
    case Unmute => s.(muted := false)
    case FlipMute => s.(muted := !s.muted)
    case Dimmer => s.(brightness := LoweredBrightness(s.brightness))
    case Brighter => s.(brightness := RaisedBrightness(s.brightness))
  }

  /** Toggling the mute flag twice gives back the original state. */
  lemma FlipMuteTwiceRestores(s: DeviceState)
    ensures Apply(FlipMute, s).muted != s.muted
    ensures Apply(FlipMute, Apply(FlipMute, s)) == s
  {
  }

  /** Unmuting leaves the flag false whatever it was, so doing it twice is doing it once. */
  lemma UnmuteIdempotent(s: DeviceState)
    ensures !Apply(Unmute, s).muted
    ensures Apply(Unmute, Apply(Unmute, s)) == Apply(Unmute, s)
  {
  }

  /** The state after the same action has been applied n times in a row. */
  function Iterate(a: Action, s: DeviceState, n: nat): (r: DeviceState)
  {
    if n == 0 then s else Apply(a, Iterate(a, s, n - 1))
  }

  /** Any number of actions keeps an in-range state in range. */
  lemma {:induction false} IterateStaysInRange(a: Action, s: DeviceState, n: nat)
    requires InRange(s)
    ensures InRange(Iterate(a, s, n))
  {
    if n > 0 {
      IterateStaysInRange(a, s, n - 1);
    }
  }

  /** n volume-up steps raise the volume by n tenths, capped at 1. */
  lemma {:induction false} RepeatedVolumeUp(s: DeviceState, n: nat)
    ensures Iterate(Louder, s, n).volume ==
            if n == 0 then s.volume else MinReal(s.volume + (n as real) * VOLUME_STEP, 1.0)
    ensures Iterate(Louder, s, n).muted == s.muted
    ensures Iterate(Louder, s, n).brightness == s.brightness
  {
    if n > 0 {
      RepeatedVolumeUp(s, n - 1);
    }
  }

  /** n volume-down steps lower the volume by n tenths, floored at 0. */
  lemma {:induction false} RepeatedVolumeDown(s: DeviceState, n: nat)
    ensures Iterate(Quieter, s, n).volume ==
            if n == 0 then s.volume else MaxReal(s.volume - (n as real) * VOLUME_STEP, 0.0)
    ensures Iterate(Quieter, s, n).muted == s.muted
    ensures Iterate(Quieter, s, n).brightness == s.brightness
  {
    if n > 0 {
      RepeatedVolumeDown(s, n - 1);
    }
  }

  /** n brightness-up steps raise the brightness by 10n, capped at 100. */
  lemma {:induction false} RepeatedBrightnessUp(s: DeviceState, n: nat)
    ensures Iterate(Brighter, s, n).brightness ==
            if n == 0 then s.brightness else MinInt(s.brightness + n * BRIGHTNESS_STEP, MAX_BRIGHTNESS)
    ensures Iterate(Brighter, s, n).volume == s.volume
    ensures Iterate(Brighter, s, n).muted == s.muted
  {
    if n > 0 {
      RepeatedBrightnessUp(s, n - 1);
    }
  }

  /** n brightness-down steps lower the brightness by 10n, floored at 0. */
  lemma {:induction false} RepeatedBrightnessDown(s: DeviceState, n: nat)
    ensures Iterate(Dimmer, s, n).brightness ==
            if n == 0 then s.brightness else MaxInt(s.brightness - n * BRIGHTNESS_STEP, 0)
    ensures Iterate(Dimmer, s, n).volume == s.volume
    ensures Iterate(Dimmer, s, n).muted == s.muted
  {
    if n > 0 {
      RepeatedBrightnessDown(s, n - 1);
    }
  }

  /**
   Enough brightness-down steps reach 0, and further steps keep it there: from
   brightness b, any n >= 1 with 10n >= b ends at 0.
   */
  lemma BrightnessDownReachesZero(s: DeviceState, n: nat)
    requires n > 0 && n * BRIGHTNESS_STEP >= s.brightness
    ensures Iterate(Dimmer, s, n).brightness == 0
  {
    RepeatedBrightnessDown(s, n);
  }

  /** After n toggles the mute flag is flipped exactly when n is odd. */
  lemma {:induction false} RepeatedFlipMute(s: DeviceState, n: nat)
    ensures Iterate(FlipMute, s, n).muted == (s.muted != (n % 2 == 1))
    ensures Iterate(FlipMute, s, n).volume == s.volume
    ensures Iterate(FlipMute, s, n).brightness == s.brightness
  {
    if n > 0 {
      RepeatedFlipMute(s, n - 1);
    }
  }

  /**
   The devices themselves: the audio endpoint's volume scalar and mute flag and
   the first display's brightness, each updated by read-modify-write.
   */
  class Actuator {
    var volume: real
    var muted: bool
    var brightness: int

    /** The current state as a value. */
    function State(): (s: DeviceState)
      reads this
    {
      DeviceState(volume, muted, brightness)
    }

    constructor (initial: DeviceState)
      ensures State() == initial
    {
      volume := initial.volume;
      muted := initial.muted;
      brightness := initial.brightness;
    }

    method VolumeUp()
      modifies this
      ensures volume == RaisedVolume(old(volume))
      ensures muted == old(muted) && brightness == old(brightness)
    {
      var current := volume;
      volume := MinReal(current + VOLUME_STEP, 1.0);
    }

    method VolumeDown()
      modifies this
      ensures volume == LoweredVolume(old(volume))
      ensures muted == old(muted) && brightness == old(brightness)
    {
      var current := volume;
      var newVolume := MaxReal(current - VOLUME_STEP, 0.0);
      volume := newVolume;
    }

    method ToggleMute()
      modifies this
      ensures muted == !old(muted)
      ensures volume == old(volume) && brightness == old(brightness)
    {
      var isMuted := muted;
      muted := !isMuted;
    }

    /** Despite its name, mute() toggles the flag: it only calls ToggleMute. */
    method Mute()
      modifies this
      ensures muted == !old(muted)
      ensures volume == old(volume) && brightness == old(brightness)
    {
      ToggleMute();
    }

    /** Write the mute flag outright (the peace-sign branch writes false). */
    method SetMute(flag: bool)
      modifies this
      ensures muted == flag
      ensures volume == old(volume) && brightness == old(brightness)
    {
      muted := flag;
    }

    method BrightnessDown()
      modifies this
      ensures brightness == LoweredBrightness(old(brightness))
      ensures volume == old(volume) && muted == old(muted)
    {
      var current := brightness;
      var newBrightness := MaxInt(current - BRIGHTNESS_STEP, 0);
      brightness := newBrightness;
    }

    method BrightnessUp()
      modifies this
      ensures brightness == RaisedBrightness(old(brightness))
      ensures volume == old(volume) && muted == old(muted)
    {
      var current := brightness;
      var newBrightness := MinInt(current + BRIGHTNESS_STEP, MAX_BRIGHTNESS);
      brightness := newBrightness;
    }
  }
}
