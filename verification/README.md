# LeapDJ gesture-to-MIDI mapping in Dafny

LeapDJ turns hand-tracking frames from a Leap Motion controller into MIDI
control-change messages for DJ software. Its listener, `DJListener`, looks at
every frame the tracking SDK delivers. It binds the leftmost hand to MIDI
channel 0 and the rightmost hand to channel 1. It classifies each hand as
open, pointing with one finger, or neither. Then it sends:

- an open hand's pitch on controller 0 (or the centre value 63 when the hand
  is curled);
- a lone pointing finger's horizontal position on controller 1;
- a reset (63 on controller 0, 0 on controller 1) for any other hand.

A frame without hands sends a reset of its own.

This project models that mapping as pure functions. Each one returns the
messages the listener sends, in order, as `(channel, controller, value)`
triples. The model proves the bounds, branch and ordering properties of
those functions.

Files and modules:

- `value_mapper.dfy`, module `ValueMapper`: the two `clamp` overloads, Java's
  `(int)` cast from `float`, the shared `((u + 1) / 2) * 127` scaling, and the
  roll normalisation, which is computed but never sent.
- `midi.dfy`, module `Midi`: the control-change triple, plus
  `sendMidiMessage`/`setMidi` modelled as producing the list of messages
  that reach the receiver.
- `hand_pose.dfy`, module `HandPose`: the hand and finger records,
  `isHandExtended`, `isFingerSolo`, `getPointingPosition`, and the
  three-way pose that `onFrameHand` branches on.
- `dj_listener.dfy`, module `DJListener`: `onFrameHand`, `onFrame`, the
  listener's `lastFrame` state, and a run of consecutive frames.

Modelling decisions:

- The tracking SDK's objects are records of the values the listener reads
  from them. A hand holds its extended-finger count, its frontmost finger,
  its sphere radius, and its pitch, yaw and roll. A finger holds whether it
  is valid, whether it is extended, and its tip X. A frame holds its hand
  count, the hands the SDK reports as leftmost and rightmost, and its gesture
  types.
- Sensor values are `real`. Java's `(int)` cast is `JavaIntCast`: it rounds
  toward zero and saturates at the `int` bounds. `CastThenClampIsFloorThenClamp`
  shows that, once the result is clamped to `[0, 127]`, rounding toward zero
  and flooring give the same value.
- `sendMidiMessage(type, cmd, chan, val)` passes its arguments to
  `ShortMessage.setMessage(command, channel, data1, data2)`. So its second
  argument is the channel and its third the controller number, whatever the
  parameter names suggest.
- `setMessage` throws on an out-of-range channel or data byte. The catch only
  logs, so such a message is dropped. `Midi.Send` models that. The contract of
  `OnFrameHand` shows that no message the listener builds is ever dropped.

Behaviour worth noting:

- The pointing position keeps its sign: a finger at X = -50 sends 31 and one
  at X = +50 sends 95 (`MirroredPointersDiffer`).
- An open hand needs at least five extended fingers.
- The cast truncates, so a level open hand sends 63 (`LevelOpenHandSendsCentre`).
- Hands send on channels 0 and 1, while the no-hands reset goes to channels 1
  and 2, so channel 0 never receives it (`ResetMissesLeftHandChannel`).
- The listener stores each frame in `lastFrame` but never reads it, so a run
  of frames sends the same messages whatever the listener's state
  (`RunIgnoresInitialState`).

## Model

| member | source | states |
|---|---|---|
| ValueMapper.Trunc | leapdj.java:128 | rounding toward zero: for a non-negative input the result is the largest integer not above it; for a negative input, the smallest integer not below it |
| ValueMapper.JavaIntCast | leapdj.java:128 | the `(int)` cast stays within the `int` range, keeps the sign, never moves away from zero, and is within 1 of the input except where it saturates at a bound |
| ValueMapper.TruncMonotone | leapdj.java:128 | truncation never reverses the order of two readings |
| ValueMapper.JavaIntCastMonotone | leapdj.java:128 | the saturating cast never reverses the order of two readings |
| ValueMapper.TruncDiffersFromFloor | leapdj.java:138 | the cast is not a floor: -0.5 casts to 0 (floor gives -1) and -63.5 casts to -63 (floor gives -64) |
| ValueMapper.ClampInt | leapdj.java:75-83 | `clamp(int)` lands in `[min, max]` when `min <= max`, returns an in-range input unchanged, always returns the input or a bound, and returns `max` for any input above `max` |
| ValueMapper.ClampReal | leapdj.java:65-73 | `clamp(float)` has the same four properties as the `int` overload; the listener never calls this overload |
| ValueMapper.ClampIntIsMedian | leapdj.java:75-83 | with ordered bounds, `clamp(int)` equals the reference definition `max(min, min(in, max))` |
| ValueMapper.ClampRealIsMedian | leapdj.java:65-73 | with ordered bounds, `clamp(float)` equals the reference definition `max(min, min(in, max))` |
| ValueMapper.ClampIntIdempotent | leapdj.java:75-83 | with ordered bounds, clamping an `int` twice gives what clamping once gives |
| ValueMapper.ClampRealIdempotent | leapdj.java:65-73 | with ordered bounds, clamping a `float` twice gives what clamping once gives |
| ValueMapper.ClampIntNotIdempotentOnReversedBounds | leapdj.java:75-83 | because the upper bound is tested first, with `min > max` a second clamp changes the result (5 clamped to (3, 1) gives 1, then 3) |
| ValueMapper.ClampIntMonotone | leapdj.java:75-83 | with ordered bounds, clamping never reverses the order of two inputs |
| ValueMapper.ToController | leapdj.java:128 | `clamp((int)(((u+1)/2)*127), 0, 127)` is a controller value in `[0, 127]`. For `u` in `[-1, 1]` it is the integer part of the scaled reading. It is 127 at or above 1 and 0 at or below -1 |
| ValueMapper.CastThenClampIsFloorThenClamp | leapdj.java:128 | clamping the saturating, truncating cast to `[0, 127]` gives the same value as clamping the floor |
| ValueMapper.ToControllerIsFloorOfScale | leapdj.java:138 | reference definition: the mapping equals clamping the floor of `((u+1)/2)*127` to `[0, 127]` |
| ValueMapper.ToControllerMonotone | leapdj.java:128 | a larger reading never gives a smaller controller value |
| ValueMapper.ToControllerCentre | leapdj.java:128 | a zero reading maps to 63, not 64 |
| ValueMapper.RollHalfTurns | leapdj.java:121-124 | a roll angle in `(-pi, pi]` (pi taken as 3.14159) becomes half turns in `[0, 2)`; a non-negative angle is divided by pi |
| ValueMapper.RollNegativeAddsFullTurn | leapdj.java:121-124 | a negative angle `-e` normalises as the angle `2*pi - e`, as if a full turn were added |
| ValueMapper.RollContinuousAtHalfTurn | leapdj.java:121-124 | where the SDK's angle wraps from pi to just above -pi, the normalised roll is continuous: pi gives one half turn, and pi - e and -pi + e lie `e/pi` below and above it |
| ValueMapper.RollJumpsAtLevel | leapdj.java:121-124 | the normalised roll jumps at a level hand: 0 gives 0 half turns, while `-e` gives `2 - e/pi` |
| ValueMapper.RollMidi | leapdj.java:131 | the roll value that is computed but never sent lies in `[0, 127]`, and is at most 63 for a roll in `[0, pi]` |
| ValueMapper.RollMidiJumpsAtLevel | leapdj.java:121-131 | the jump reaches the roll value: roll -0.001 maps to 126 and roll 0 maps to 0 |
| Midi.Send | leapdj.java:55-63 | at most one message reaches the receiver; it is exactly the requested triple, and it is sent iff channel, controller and value lie in the ranges `ShortMessage` accepts |
| Midi.SetMidi | leapdj.java:93-95 | `setMidi(chan, m, val)` sends at most one message; that message is exactly `(chan, m, val)`, channel first and controller second, and it is sent iff `ShortMessage` accepts all three fields |
| HandPose.IsHandExtended | leapdj.java:85-91 | a hand is open iff at least five of its fingers are extended |
| HandPose.GetPointingPosition | leapdj.java:105-112 | the tip X of a valid finger, 0 for an invalid one |
| HandPose.Classify | leapdj.java:126-143 | exactly one pose holds: open iff at least five fingers are extended, pointing iff the frontmost finger is valid and extended and the only extended finger, neutral iff neither |
| HandPose.IsFingerSolo | leapdj.java:97-103 | a solo finger, whichever finger is tested, rules out an open hand, so the branches of `onFrameHand` never overlap; its pointing position is its tip X |
| HandPose.ExtendedMeansAllFingers | leapdj.java:85-91 | on a hand of at most five fingers, "at least five extended" means "all five extended" |
| HandPose.SoloPointerPositionIsTip | leapdj.java:136-137 | in the pointing branch the position is the finger's tip X; the fallback 0 is never reached |
| DJListener.OnFrameHand | leapdj.java:114-144 | every message is on the hand's channel, accepted by `ShortMessage`, on controller 0 or 1, with a value in `[0, 127]`. On a valid channel a hand sends one or two messages, two iff it is neutral. The first message is on controller 1 iff the hand is pointing |
| DJListener.OpenHandSendsPitch | leapdj.java:126-132 | an open hand with sphere radius above 45 sends exactly one message, the mapped pitch on controller 0 (the roll is never sent); for pitch in `[-1, 1]` the value is the integer part of `((pitch+1)/2)*127` |
| DJListener.CurledHandSendsCentre | leapdj.java:126-135 | an open hand with sphere radius at most 45 (45 included) sends exactly `(chan, 0, 63)` |
| DJListener.LevelOpenHandSendsCentre | leapdj.java:127-129 | an open hand held level (pitch 0) sends the same message as a curled one, `(chan, 0, 63)` |
| DJListener.SoloPointerSendsTip | leapdj.java:136-139 | a lone pointer sends exactly one message, on controller 1, with its tip X mapped from `[-100, 100]`: 127 at or beyond +100 and 0 at or beyond -100 |
| DJListener.PointerValueMonotone | leapdj.java:137-139 | moving a lone pointer to the right never lowers the value it sends |
| DJListener.PitchValueMonotone | leapdj.java:127-129 | raising an open hand's pitch never lowers the value it sends |
| DJListener.MirroredPointersDiffer | leapdj.java:138 | the pointing map keeps the sign: tip X -50 sends 31 and +50 sends 95 |
| DJListener.NeutralHandResets | leapdj.java:140-143 | a neutral hand sends `(chan, 0, 63)` then `(chan, 1, 0)`, in that order |
| DJListener.YawAndRollNeverSent | leapdj.java:117-132 | changing a hand's yaw or roll changes nothing it sends |
| DJListener.ProcessFrame | leapdj.java:154-184 | every frame sends one to four accepted messages on channels 0 to 2 and controllers 0 and 1. With one hand everything is on channel 0. While a hand is tracked, messages go out in channel order. With two hands both channels 0 and 1 are addressed |
| DJListener.NoHandsResets | leapdj.java:165-170 | with no hand, exactly `(1,0,63), (2,0,63), (1,1,0), (2,1,0)` are sent, in that order |
| DJListener.ResetMissesLeftHandChannel | leapdj.java:158-170 | the no-hands reset never reaches channel 0, where the leftmost hand sends; hands never reach channel 2, which the reset addresses |
| DJListener.OneHandOnLeftChannel | leapdj.java:158-161 | with one hand, the frame sends exactly that hand's channel-0 messages |
| DJListener.TwoHandsLeftThenRight | leapdj.java:158-164 | with two or more hands, the leftmost hand's channel-0 messages come first, then the rightmost hand's channel-1 messages; other hands send nothing |
| DJListener.GesturesSendNothing | leapdj.java:172-181 | a frame's gestures do not change what it sends |
| DJListener.OnFrame | leapdj.java:154-184 | one call of `onFrame` leaves the frame in `lastFrame` and sends one to four messages, each one a frame can send |
| DJListener.Run | leapdj.java:154-184 | consecutive `onFrame` calls, each starting from the state the previous one left: no frames leave the state as it was, otherwise `lastFrame` holds the last frame |
| DJListener.Session | leapdj.java:154-184 | the frames' messages concatenated in order: every message is one a frame can send, and `n` frames send between `n` and `4n` messages |
| DJListener.RunSendsSession | leapdj.java:154-184 | a run that threads the listener's state, from any starting state, sends exactly the concatenation of the frames' messages |
| DJListener.RunIgnoresInitialState | leapdj.java:183 | `lastFrame` is stored but never read: listeners in different states fed the same frames send the same messages, and after one frame they are in the same state |
| DJListener.SessionConcatenates | leapdj.java:154-184 | a session split at any point sends its two halves' messages, concatenated |

## Left out

- MIDI device discovery, opening and closing (`onConnect`, `onDisconnect`, `onExit`, `onInit`): device I/O over `javax.sound.midi`.
- The delivery of a message by `Receiver.send` and its timestamp. A missing receiver (no device named LeapDJ) would throw a `NullPointerException` in `sendMidiMessage`; that is transport behaviour and is not modelled.
- `handleCircle`: it only prints the finger type of a circle gesture to the console. The gesture loop is modelled only for what it sends, which is nothing.
- `main`: the SDK listener lifecycle, the gesture enabling, and the wait on standard input.
- The SDK's own computations (`leftmost`, `rightmost`, `frontmost`, `extended()`, `stabilizedTipPosition`, `direction()` angles, `sphereRadius`): these are foreign calls, so their results are fields of the input records. The model does not relate `leftmost`/`rightmost` to the hands' positions, nor the frontmost finger's flags to the extended-finger count.
- IEEE `float` rounding, NaN and infinities: readings are reals. So a float product that lands just below an integer boundary, where the cast would round differently, is not modelled.
- RollMidi: states only the range of the unused roll value. The message carrying it is commented out in the source, so nothing depends on it.
