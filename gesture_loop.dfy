/**
 The main loop: for every camera frame in which the detector found a hand,
 extract the finger states of the last hand reported, classify them and carry
 out the matching adjustment. Nothing is remembered between frames, so a pose
 held for n frames adjusts the devices n times.
 */
module GestureLoop {
  import opened Landmarks
  import opened Devices
  import opened Gestures

  /** The hands the detector reported for one frame; empty when it found none. */
  type Frame = seq<seq<Landmark>>

  /** Every reported hand carries the full set of key points. */
  predicate WellFormed(frame: Frame)
  {
    forall i :: 0 <= i < |frame| ==> |frame[i]| == LANDMARK_COUNT
  }

  predicate AllWellFormed(frames: seq<Frame>)
  {
    forall j :: 0 <= j < |frames| ==> WellFormed(frames[j])
  }

  /** The adjustment a frame triggers, if any: only the last hand is classified. */
  function FrameAction(frame: Frame): (r: Option<Action>)
    requires WellFormed(frame)
    ensures r.None? <==> |frame| == 0 || Classify(FingerStates(frame[|frame| - 1])) == Unrecognised
  {
    if |frame| == 0 then None
    else ActionFor(Classify(FingerStates(frame[|frame| - 1])))
  }

  /** Hands reported before the last one play no part in the frame's adjustment. */
  lemma EarlierHandsIgnored(earlier: seq<seq<Landmark>>, last: seq<Landmark>)
    requires WellFormed(earlier) && |last| == LANDMARK_COUNT
    ensures WellFormed(earlier + [last])
    ensures FrameAction(earlier + [last]) == FrameAction([last])
  {
    assert (earlier + [last])[|earlier|] == last;
  }

  /** The device state after one frame. */
  function Step(s: DeviceState, frame: Frame): (r: DeviceState)
    requires WellFormed(frame)
  {
    match FrameAction(frame)
    case None => s
    case Some(a) => Apply(a, s)
  }

  /** The device state after a sequence of frames, processed in order. */
  function Run(s: DeviceState, frames: seq<Frame>): (r: DeviceState)
    requires AllWellFormed(frames)
  {
    if frames == [] then s
    else Step(Run(s, frames[..|frames| - 1]), frames[|frames| - 1])
  }

  /**
   One pass of the loop body: classify the last hand, if there is one, and
   call the device operation its gesture names.
   */
  method ProcessFrame(act: Actuator, frame: Frame)
    requires WellFormed(frame)
    modifies act
    ensures act.State() == Step(old(act.State()), frame)
  {
    if |frame| > 0 {
      var handLms := frame[|frame| - 1];
      var fingerStates := GetFingerStates(handLms);
      match Classify(fingerStates)
      case ThumbsUp => act.VolumeUp();
      case ThumbsDown => act.VolumeDown();
      case Peace => act.SetMute(false);
      case ThreeFingers => act.Mute();
      case Fist => act.BrightnessDown();
      case OpenPalm => act.BrightnessUp();
      case Unrecognised =>
    }
  }

  /** The loop itself, over the frames the camera delivers. */
  method ProcessFrames(act: Actuator, frames: seq<Frame>)
    requires AllWellFormed(frames)
    modifies act
    ensures act.State() == Run(old(act.State()), frames)
  {
    var i := 0;
    while i < |frames|
      invariant 0 <= i <= |frames|
      invariant act.State() == Run(old(act.State()), frames[..i])
    {
      assert frames[..i + 1][..i] == frames[..i];
      ProcessFrame(act, frames[i]);
      i := i + 1;
    }
    assert frames[..i] == frames;
  }

  /** A frame without a hand, or whose vector matches no pattern, changes nothing. */
  lemma UnmatchedFrameChangesNothing(s: DeviceState, frame: Frame)
    requires WellFormed(frame)
    requires |frame| == 0 || Classify(FingerStates(frame[|frame| - 1])) == Unrecognised
    ensures Step(s, frame) == s
  {
  }

  /**
   A frame whose last hand shows one of the six poses applies that pose's
   adjustment exactly once.
   */
  lemma MatchedFrameActsOnce(s: DeviceState, frame: Frame)
    requires WellFormed(frame) && |frame| > 0
    requires Classify(FingerStates(frame[|frame| - 1])) != Unrecognised
    ensures FrameAction(frame).Some?
    ensures Step(s, frame) == Apply(FrameAction(frame).value, s)
  {
  }

  /** Processing frames in two batches is processing them all in order. */
  lemma {:induction false} RunConcat(s: DeviceState, xs: seq<Frame>, ys: seq<Frame>)
    requires AllWellFormed(xs) && AllWellFormed(ys)
    ensures AllWellFormed(xs + ys)
    ensures Run(s, xs + ys) == Run(Run(s, xs), ys)
  {
    if ys == [] {
      assert xs + ys == xs;
    } else {
      var zs := xs + ys;
      var ys' := ys[..|ys| - 1];
      assert zs[..|zs| - 1] == xs + ys';
      assert AllWellFormed(ys');
      RunConcat(s, xs, ys');
    }
  }

  /** The same frame, n times. */
  function Repeat(frame: Frame, n: nat): (r: seq<Frame>)
    ensures |r| == n
    ensures forall j :: 0 <= j < n ==> r[j] == frame
  {
    seq(n, _ => frame)
  }

  /**
   No debounce: holding a pose for n frames applies its adjustment n times,
   and holding an unmatched pose changes nothing.
   */
  lemma {:induction false} HeldPoseActsEveryFrame(s: DeviceState, frame: Frame, n: nat)
    requires WellFormed(frame)
    ensures AllWellFormed(Repeat(frame, n))
    ensures Run(s, Repeat(frame, n)) ==
            match FrameAction(frame)
            case None => s
            case Some(a) => Iterate(a, s, n)
  {
    if n > 0 {
      assert Repeat(frame, n)[..n - 1] == Repeat(frame, n - 1);
      HeldPoseActsEveryFrame(s, frame, n - 1);
    }
  }

  /** Holding a thumbs-up for n frames raises the volume by n tenths, capped at 1. */
  lemma HeldThumbsUpRaisesVolume(s: DeviceState, hand: seq<Landmark>, n: nat)
    requires |hand| == LANDMARK_COUNT && FingerStates(hand) == [1, 0, 0, 0, 0]
    ensures AllWellFormed(Repeat([hand], n))
    ensures Run(s, Repeat([hand], n)).volume ==
            if n == 0 then s.volume else MinReal(s.volume + (n as real) * VOLUME_STEP, 1.0)
  {
    HeldPoseActsEveryFrame(s, [hand], n);
    RepeatedVolumeUp(s, n);
  }

  /** Holding a fist for n frames lowers the brightness by 10n, floored at 0. */
  lemma HeldFistDimsToZero(s: DeviceState, hand: seq<Landmark>, n: nat)
    requires |hand| == LANDMARK_COUNT && FingerStates(hand) == [0, 0, 0, 0, 0]
    requires n > 0 && n * BRIGHTNESS_STEP >= s.brightness
    ensures AllWellFormed(Repeat([hand], n))
    ensures Run(s, Repeat([hand], n)).brightness == 0
  {
    HeldPoseActsEveryFrame(s, [hand], n);
    BrightnessDownReachesZero(s, n);
  }

  /** Processing any frames keeps an in-range device state in range. */
  lemma {:induction false} RunStaysInRange(s: DeviceState, frames: seq<Frame>)
    requires AllWellFormed(frames) && InRange(s)
    ensures InRange(Run(s, frames))
  {
    if frames != [] {
      var init := frames[..|frames| - 1];
      assert AllWellFormed(init);
      RunStaysInRange(s, init);
    }
  }

  /**
   Open palm, open palm, fist, starting at brightness 50, ends at 60: each
   frame acts, the held palm included.
   */
  lemma PalmPalmFistScenario(volume: real, muted: bool)
    ensures var palm := [PoseHand([1, 1, 1, 1, 1])];
            var fist := [PoseHand([0, 0, 0, 0, 0])];
            AllWellFormed([palm, palm, fist]) &&
            Run(DeviceState(volume, muted, 50), [palm, palm, fist]) == DeviceState(volume, muted, 60)
  {
    var palm := [PoseHand([1, 1, 1, 1, 1])];
    var fist := [PoseHand([0, 0, 0, 0, 0])];
    var frames := [palm, palm, fist];
    var s := DeviceState(volume, muted, 50);
    assert FrameAction(palm) == Some(Brighter) && FrameAction(fist) == Some(Dimmer);
    assert [palm][..0] == [];
    assert Run(s, [palm]) == DeviceState(volume, muted, 60);
    assert [palm, palm][..1] == [palm];
    assert Run(s, [palm, palm]) == DeviceState(volume, muted, 70);
    assert frames[..2] == [palm, palm];
  }
}
