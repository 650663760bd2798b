# Hand-gesture system control — Dafny model

This project models the gesture-to-action core of `Folder_4.py`. The script
watches a webcam. For every frame in which MediaPipe reports a hand, it does four things:

1. It reduces the 21 hand landmarks to a finger-state vector
   `[thumb, index, middle, ring, pinky]` of 0/1 entries (`get_finger_states`).
2. It matches that vector exactly against six poses.
3. For a matching pose, it adjusts the master volume, the mute flag or the
   brightness of the first display.
4. For any other vector, it only draws the vector on the frame.

Files (one module each):

- `landmarks.dfy` (`Landmarks`): landmarks as records of `real` x/y/z. It has the
  finger-state vector as a function (`FingerStates`), the extraction loop as a
  method proved equal to it (`GetFingerStates`), and the unused helper
  `is_thumb_up` (`IsThumbUp`).
- `devices.dfy` (`Devices`): the device state as a value (`DeviceState`) and the
  transition function `Apply` for each `Action`. It also has the class
  `Actuator`, whose fields `volume: real`, `muted: bool` and `brightness: int`
  are updated by read-modify-write methods named after the source functions.
- `gestures.dfy` (`Gestures`): the `if/elif` chain as `Classify`. It has an
  independent reverse table `Pattern` and the adjustment each gesture triggers
  (`ActionFor`).
- `gesture_loop.dfy` (`GestureLoop`): one pass of the loop body (`ProcessFrame`)
  and the loop over a sequence of frames (`ProcessFrames`). Both are proved
  against the functions `Step` and `Run`.

A frame is the sequence of hands the detector reported. An empty sequence
means no hand was found. Only the last hand is classified, because the drawing
loop leaves `handLms` bound to the last hand.

Three facts about the code shape the model:

- **No debounce.** Nothing is remembered between frames, so every frame with a
  matching pose triggers its adjustment (`HeldPoseActsEveryFrame`,
  `PalmPalmFistScenario`).
- **`mute()` toggles.** It calls `toggle_mute()`, which negates the flag. The
  model keeps the toggle (`Actuator.Mute`, action `FlipMute`). The peace sign
  writes `SetMute(0)`, so it always unmutes.
- **No error handling.** A malformed hand or a failing device call is not
  caught. The model requires every reported hand to carry 21 landmarks, and
  device calls cannot fail in it.

## Model

| member | source | states |
|---|---|---|
| `Landmarks.GetFingerStates` | Folder_4.py:66-88 | the loop's appended vector equals `FingerStates(hand)`: thumb bit first, then one bit per finger looked up through the tip-id table |
| `Landmarks.FingerStates` | Folder_4.py:66-88 | the finger-state vector of a hand always has exactly 5 entries, each 0 or 1, in the order thumb, index, middle, ring, pinky |
| `Landmarks.FingerStatesMeaning` | Folder_4.py:70-86 | the vector has 5 entries, each 0 or 1; entry 0 is 1 iff `lm[4].x < lm[3].x`; entry k (1..4) is 1 iff `lm[4k+4].y < lm[4k+2].y` |
| `Landmarks.FingerStatesReadOnlyTipsAndJoints` | Folder_4.py:73-86 | the vector depends only on x of landmarks 3, 4 and y of landmarks 6, 8, 10, 12, 14, 16, 18, 20 |
| `Landmarks.WristDoesNotMatter` | Folder_4.py:73 | the wrist value that is read has no effect: replacing landmark 0 leaves the vector unchanged |
| `Landmarks.PoseHand` | Folder_4.py:76-86 | for every 0/1 vector of length 5, builds 21 landmarks whose finger states are exactly that vector |
| `Landmarks.EveryFingerVectorArises` | Folder_4.py:66-88 | each of the 32 finger vectors is produced by some hand |
| `Landmarks.IsThumbUp` | Folder_4.py:56-62 | true iff the thumb tip (landmark 4) lies above (smaller y than) both reference points, the thumb MCP joint (landmark 2) and the wrist (landmark 0) |
| `Landmarks.IsThumbUpReadsOnlyVertical` | Folder_4.py:56-62 | `is_thumb_up` depends only on y of the thumb tip, the thumb MCP joint and the wrist |
| `Landmarks.ThumbsUpVectorWithoutThumbUp` | Folder_4.py:56-62 | a hand can yield the thumbs-up vector `[1,0,0,0,0]` while `is_thumb_up` is false: the loop's thumbs-up is not `is_thumb_up` |
| `Gestures.Pattern` | Folder_4.py:107-127 | each of the six gestures stands for one 0/1 vector of length 5 |
| `Gestures.Classify` | Folder_4.py:106-133 | the `if/elif` chain: whenever it names a gesture, the vector is exactly that gesture's pattern; any other vector is `Unrecognised` (overlay branch) |
| `Gestures.PatternsDistinct` | Folder_4.py:107-127 | the six patterns are pairwise distinct, so the order of the chain does not matter |
| `Gestures.ClassifyIsTableLookup` | Folder_4.py:106-129 | a vector classifies as gesture g iff it equals g's pattern (both directions) |
| `Gestures.UnrecognisedIffNoPattern` | Folder_4.py:131-133 | a vector falls through to the overlay branch iff it equals none of the six patterns |
| `Gestures.ActionFor` | Folder_4.py:107-133 | a gesture triggers an adjustment iff it is one of the six; the overlay branch triggers none |
| `Gestures.ActionForInjective` | Folder_4.py:107-129 | distinct gestures trigger distinct adjustments, the overlay branch included (it alone triggers none) |
| `Devices.Apply` | Folder_4.py:13-46 | each adjustment changes only its own field (volume, mute flag or brightness) and keeps an in-range state in range |
| `Devices.FlipMuteTwiceRestores` | Folder_4.py:23-28 | mute negates the flag, so applying it twice restores the state |
| `Devices.UnmuteIdempotent` | Folder_4.py:117 | the peace-sign branch leaves the flag false whatever it was, so applying it twice equals once |
| `Devices.IterateStaysInRange` | Folder_4.py:13-46 | volume in [0,1] and brightness in [0,100] stay in range after any number of any adjustment |
| `Devices.RepeatedVolumeUp` | Folder_4.py:13-15 | n volume-ups give `min(v + n/10, 1)` and leave mute and brightness unchanged |
| `Devices.RepeatedVolumeDown` | Folder_4.py:17-20 | n volume-downs give `max(v - n/10, 0)` and leave mute and brightness unchanged |
| `Devices.RepeatedBrightnessUp` | Folder_4.py:39-45 | n brightness-ups give `min(b + 10n, 100)` and leave volume and mute unchanged |
| `Devices.RepeatedBrightnessDown` | Folder_4.py:30-36 | n brightness-downs give `max(b - 10n, 0)` and leave volume and mute unchanged |
| `Devices.BrightnessDownReachesZero` | Folder_4.py:30-36 | once 10n >= b, n brightness-downs reach 0, and more keep it at 0 |
| `Devices.RepeatedFlipMute` | Folder_4.py:23-28 | after n mutes the flag is flipped exactly when n is odd |
| `Devices.Actuator.VolumeUp` | Folder_4.py:13-15 | reads the volume and writes `min(v + 0.1, 1.0)`; mute and brightness unchanged |
| `Devices.Actuator.VolumeDown` | Folder_4.py:17-21 | reads the volume and writes `max(v - 0.1, 0.0)`; mute and brightness unchanged |
| `Devices.Actuator.ToggleMute` | Folder_4.py:23-25 | writes the negation of the mute flag it read; volume and brightness unchanged |
| `Devices.Actuator.Mute` | Folder_4.py:27-28 | toggles the flag, exactly like `ToggleMute` |
| `Devices.Actuator.SetMute` | Folder_4.py:117 | writes the given mute flag; volume and brightness unchanged |
| `Devices.Actuator.BrightnessDown` | Folder_4.py:30-37 | reads the brightness and writes `max(b - 10, 0)`; volume and mute unchanged |
| `Devices.Actuator.BrightnessUp` | Folder_4.py:39-46 | reads the brightness and writes `min(b + 10, 100)`; volume and mute unchanged |
| `GestureLoop.ProcessFrame` | Folder_4.py:99-133 | one loop pass leaves the devices in `Step(old state, frame)`: classifies the last hand and calls the one matching device operation |
| `GestureLoop.ProcessFrames` | Folder_4.py:90-138 | after the loop, the devices are in `Run(initial state, frames)`: every frame is processed once, in order |
| `GestureLoop.FrameAction` | Folder_4.py:99-133 | a frame triggers no adjustment iff it has no hand or its last hand's vector matches none of the six patterns |
| `GestureLoop.EarlierHandsIgnored` | Folder_4.py:100-106 | only the last reported hand is classified: hands before it do not change the frame's adjustment |
| `GestureLoop.UnmatchedFrameChangesNothing` | Folder_4.py:99-133 | a frame with no hand, or whose vector matches no pattern, leaves the device state unchanged |
| `GestureLoop.MatchedFrameActsOnce` | Folder_4.py:106-129 | a frame whose last hand shows one of the six poses applies that pose's adjustment exactly once |
| `GestureLoop.RunConcat` | Folder_4.py:90-138 | processing frames in two batches equals processing them all in order: no state is carried besides the devices |
| `GestureLoop.HeldPoseActsEveryFrame` | Folder_4.py:99-133 | no debounce: n identical frames apply the pose's adjustment n times, or change nothing for an unmatched pose |
| `GestureLoop.HeldThumbsUpRaisesVolume` | Folder_4.py:107-109 | holding a thumbs-up for n frames raises the volume to `min(v + n/10, 1)` |
| `GestureLoop.HeldFistDimsToZero` | Folder_4.py:123-125 | holding a fist for n >= b/10 frames takes the brightness to 0 |
| `GestureLoop.RunStaysInRange` | Folder_4.py:90-133 | any frame sequence keeps an in-range device state in range |
| `GestureLoop.PalmPalmFistScenario` | Folder_4.py:123-129 | palm, palm, fist from brightness 50 ends at 60: the held palm acts twice |

## Left out

- Camera capture, mirroring and colour conversion (Folder_4.py:54, 91-96), the window and the `q` key (Folder_4.py:135-141): these are I/O. The frame sequence is an input to `ProcessFrames`.
- The MediaPipe detector and landmark drawing (Folder_4.py:49-53, 97, 100-101): this is a foreign library. Landmarks are input. The drawing loop is modelled only by its one effect: the last hand is the one classified.
- The pycaw audio endpoint setup (Folder_4.py:9-11) and the `screen_brightness_control` calls, including the list-or-scalar unwrapping (Folder_4.py:31-34, 40-43): these are operating-system calls. They become the fields of `Devices.Actuator`.
- `print` and `cv2.putText` output (Folder_4.py:21, 37, 46, 108-133): these do not affect state.
- Devices.Actuator.VolumeUp: uses exact `real` arithmetic. It does not model the IEEE double rounding of `current + 0.1`.
- Devices.Actuator.VolumeDown: uses exact `real` arithmetic. It does not model the IEEE double rounding of `current - 0.1`.
- Exceptions from the device calls or from a hand with fewer than 21 landmarks: the source does not handle them. The model takes device calls as infallible and requires 21 landmarks per hand.
- Writes to volume, mute or brightness by anything other than the loop between frames (the user or another program): `ProcessFrames` and the lemmas about held poses assume the loop is the only writer. Each single `Actuator` operation still reads the current value before writing.
