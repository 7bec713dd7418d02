/** The per-frame gesture-to-MIDI mapping of `DJListener`: `onFrameHand`
    turns one hand into control changes on one channel, `onFrame` binds the
    leftmost hand to channel 0 and the rightmost to channel 1 (or sends a
    reset when no hand is tracked), and the tracking SDK calls `onFrame`
    once per frame, so a session's output is the frames' outputs in order.

    Each operation returns the messages it sends, in sending order. */
module DJListener {
  import opened Midi
  import opened HandPose
  import opened ValueMapper

  /** Sphere radius above which an open hand drives the pitch controller. */
  const SPHERE_THRESHOLD: real := 45.0

  /** Controller driven by pitch, and reset to 63 when idle. */
  const PITCH_CONTROLLER: int := 0
  /** Controller driven by the pointing finger, and reset to 0 when idle. */
  const POINTER_CONTROLLER: int := 1

  /** Value sent on the pitch controller by a curled or neutral hand. */
  const CENTRE: int := 63

  /** Divisor applied to the pointing finger's tip X before scaling. */
  const POINTER_RANGE: real := 100.0

  /** Channels the two hands are bound to. */
  const LEFT_CHANNEL: int := 0
  const RIGHT_CHANNEL: int := 1

  /** A control change that a frame can produce: accepted by the MIDI layer,
      on channel 0, 1 or 2, and on the pitch or the pointer controller. */
  predicate FrameMessage(m: ControlChange)
  {
    && Accepted(m)
    && 0 <= m.channel <= 2
    && (m.controller == PITCH_CONTROLLER || m.controller == POINTER_CONTROLLER)
  }

  // ---------------------------------------------------------------------------
  // One hand
  // ---------------------------------------------------------------------------

  /** `onFrameHand(ctrl, h, chan)`. The roll is normalised and mapped by the
      source but the message carrying it is commented out, so it is not
      part of the result (`RollMidi` models the unused computation).

      On a valid channel, a hand sends one message, or two when it is in
      neither the open nor the pointing pose; the pointing pose drives
      controller 1 and every other pose starts with controller 0. */
  function OnFrameHand(h: Hand, chan: int): (sent: seq<ControlChange>)
    ensures forall m :: m in sent ==>
              m.channel == chan && Accepted(m) &&
              (m.controller == PITCH_CONTROLLER || m.controller == POINTER_CONTROLLER)
    ensures 0 <= chan <= 15 ==> 1 <= |sent| <= 2
    ensures 0 <= chan <= 15 ==> (|sent| == 2 <==> Classify(h) == Neutral)
    ensures 0 <= chan <= 15 ==>
              (sent[0].controller == POINTER_CONTROLLER <==> Classify(h) == SoloPointing)
  {
    if IsHandExtended(h) then
      if h.sphereRadius > SPHERE_THRESHOLD then
        Send(chan, PITCH_CONTROLLER, ToController(h.pitch))
      else
        SetMidi(chan, PITCH_CONTROLLER, CENTRE)
    else if IsFingerSolo(h, h.frontmost) then
      var f := GetPointingPosition(h, h.frontmost);
      Send(chan, POINTER_CONTROLLER, ToController(f / POINTER_RANGE))
    else
      SetMidi(chan, PITCH_CONTROLLER, CENTRE) + SetMidi(chan, POINTER_CONTROLLER, 0)
  }

  /** An open hand with a wide sphere sends exactly its pitch, mapped into
      `[0, 127]`, on controller 0. */
  lemma OpenHandSendsPitch(h: Hand, chan: int)
    requires 0 <= chan <= 15
    requires Classify(h) == Extended && h.sphereRadius > SPHERE_THRESHOLD
    ensures OnFrameHand(h, chan) == [ControlChange(chan, PITCH_CONTROLLER, ToController(h.pitch))]
    ensures -1.0 <= h.pitch <= 1.0 ==>
              var v := OnFrameHand(h, chan)[0].value;
              v as real <= ((h.pitch + 1.0) / 2.0) * 127.0 < v as real + 1.0
  {
  }

  /** An open hand with a sphere radius of at most 45 (the threshold itself
      included) sends exactly the centre value on controller 0. */
  lemma CurledHandSendsCentre(h: Hand, chan: int)
    requires 0 <= chan <= 15
    requires Classify(h) == Extended && h.sphereRadius <= SPHERE_THRESHOLD
    ensures OnFrameHand(h, chan) == [ControlChange(chan, PITCH_CONTROLLER, CENTRE)]
  {
  }

  /** A level open hand sends the same message as a curled one: pitch 0
      maps to 63, because the cast truncates 63.5. */
  lemma LevelOpenHandSendsCentre(h: Hand, chan: int)
    requires 0 <= chan <= 15
    requires Classify(h) == Extended && h.sphereRadius > SPHERE_THRESHOLD && h.pitch == 0.0
    ensures OnFrameHand(h, chan) == [ControlChange(chan, PITCH_CONTROLLER, CENTRE)]
  {
  }

  /** A solo pointer sends exactly one message, on controller 1, mapping
      tip X from `[-100, 100]` onto `[0, 127]` with the sign kept. */
  lemma SoloPointerSendsTip(h: Hand, chan: int)
    requires 0 <= chan <= 15
    requires Classify(h) == SoloPointing
    ensures OnFrameHand(h, chan) ==
              [ControlChange(chan, POINTER_CONTROLLER, ToController(h.frontmost.tipX / POINTER_RANGE))]
    ensures h.frontmost.tipX >= POINTER_RANGE ==> OnFrameHand(h, chan)[0].value == MIDI_MAX
    ensures h.frontmost.tipX <= -POINTER_RANGE ==> OnFrameHand(h, chan)[0].value == 0
  {
  }

  /** Moving the pointing finger to the right never lowers its value. */
  lemma PointerValueMonotone(h: Hand, k: Hand, chan: int)
    requires 0 <= chan <= 15
    requires Classify(h) == SoloPointing && Classify(k) == SoloPointing
    requires h.frontmost.tipX <= k.frontmost.tipX
    ensures OnFrameHand(h, chan)[0].value <= OnFrameHand(k, chan)[0].value
  {
  }

  /** Raising an open hand's pitch never lowers its value. */
  lemma PitchValueMonotone(h: Hand, k: Hand, chan: int)
    requires 0 <= chan <= 15
    requires Classify(h) == Extended && h.sphereRadius > SPHERE_THRESHOLD
    requires Classify(k) == Extended && k.sphereRadius > SPHERE_THRESHOLD
    requires h.pitch <= k.pitch
    ensures OnFrameHand(h, chan)[0].value <= OnFrameHand(k, chan)[0].value
  {
  }

  /** The pointing map has no absolute value: fingers mirrored about X = 0
      send different values. */
  lemma MirroredPointersDiffer(h: Hand, k: Hand, chan: int)
    requires 0 <= chan <= 15
    requires Classify(h) == SoloPointing && Classify(k) == SoloPointing
    requires h.frontmost.tipX == -50.0 && k.frontmost.tipX == 50.0
    ensures OnFrameHand(h, chan)[0].value == 31
    ensures OnFrameHand(k, chan)[0].value == 95
  {
  }

  /** A hand in neither pose resets both controllers: 63 on controller 0,
      then 0 on controller 1. */
  lemma NeutralHandResets(h: Hand, chan: int)
    requires 0 <= chan <= 15
    requires Classify(h) == Neutral
    ensures OnFrameHand(h, chan) ==
              [ControlChange(chan, PITCH_CONTROLLER, CENTRE), ControlChange(chan, POINTER_CONTROLLER, 0)]
  {
  }

  /** Yaw and roll never influence what a hand sends. */
  lemma YawAndRollNeverSent(h: Hand, chan: int, yaw: real, roll: real)
    ensures OnFrameHand(h.(yaw := yaw, roll := roll), chan) == OnFrameHand(h, chan)
  {
  }

  // ---------------------------------------------------------------------------
  // One frame
  // ---------------------------------------------------------------------------

  /** Gesture types the tracking SDK reports. */
  datatype GestureKind = Circle | Swipe | KeyTap | ScreenTap | InvalidGesture

  /** A tracking frame: the number of hands and the two the SDK reports as
      leftmost and rightmost (the same hand when only one is tracked), and
      the gestures seen in the frame. */
  datatype Frame = Frame(handCount: nat, leftmost: Hand, rightmost: Hand, gestures: seq<GestureKind>)

  /** `onFrame`. With no hand, a reset goes to channels 1 and 2 (not to the
      hand channels 0 and 1). Otherwise the leftmost hand is mapped on
      channel 0 and, from two hands on, the rightmost on channel 1. The
      gesture walk that follows only logs circle gestures, and the frame
      kept in `lastFrame` is never read, so neither contributes messages.

      Every frame sends between one and four messages; while a hand is
      tracked, the messages go out in channel order. */
  function ProcessFrame(f: Frame): (sent: seq<ControlChange>)
    ensures forall m :: m in sent ==> FrameMessage(m)
    ensures 1 <= |sent| <= 4
    ensures f.handCount == 1 ==> forall m :: m in sent ==> m.channel == LEFT_CHANNEL
    ensures f.handCount >= 1 ==>
              forall i, j :: 0 <= i < j < |sent| ==> sent[i].channel <= sent[j].channel
    ensures f.handCount >= 2 ==>
              (exists m :: m in sent && m.channel == LEFT_CHANNEL) &&
              (exists m :: m in sent && m.channel == RIGHT_CHANNEL)
  {
    if f.handCount > 0 then
      var left := OnFrameHand(f.leftmost, LEFT_CHANNEL);
      var right := if f.handCount > 1 then OnFrameHand(f.rightmost, RIGHT_CHANNEL) else [];
      left + right
    else
      SetMidi(1, PITCH_CONTROLLER, CENTRE) + SetMidi(2, PITCH_CONTROLLER, CENTRE)
      + SetMidi(1, POINTER_CONTROLLER, 0) + SetMidi(2, POINTER_CONTROLLER, 0)
  }

  /** With no hand tracked, exactly four resets go out, channel 1 and 2 for
      controller 0, then channel 1 and 2 for controller 1. */
  lemma NoHandsResets(f: Frame)
    requires f.handCount == 0
    ensures ProcessFrame(f) == [
              ControlChange(1, PITCH_CONTROLLER, CENTRE), ControlChange(2, PITCH_CONTROLLER, CENTRE),
              ControlChange(1, POINTER_CONTROLLER, 0), ControlChange(2, POINTER_CONTROLLER, 0)]
  {
  }

  /** The no-hands reset and the hand mapping address different channel
      pairs: the reset never reaches channel 0, where the leftmost hand
      sends, and hands never reach channel 2. */
  lemma ResetMissesLeftHandChannel(f: Frame)
    ensures f.handCount == 0 ==> forall m :: m in ProcessFrame(f) ==> m.channel != LEFT_CHANNEL
    ensures f.handCount > 0 ==> forall m :: m in ProcessFrame(f) ==> m.channel != 2
  {
  }

  /** One tracked hand: only the leftmost hand's messages, on channel 0. */
  lemma OneHandOnLeftChannel(f: Frame)
    requires f.handCount == 1
    ensures ProcessFrame(f) == OnFrameHand(f.leftmost, LEFT_CHANNEL)
  {
  }

  /** Two or more tracked hands: the leftmost hand's messages on channel 0,
      then the rightmost hand's on channel 1; further hands are ignored. */
  lemma TwoHandsLeftThenRight(f: Frame)
    requires f.handCount >= 2
    ensures ProcessFrame(f) == OnFrameHand(f.leftmost, LEFT_CHANNEL) + OnFrameHand(f.rightmost, RIGHT_CHANNEL)
  {
  }

  /** The gesture walk sends no MIDI: the gestures of a frame do not change
      its messages. */
  lemma GesturesSendNothing(f: Frame, gestures: seq<GestureKind>)
    ensures ProcessFrame(f.(gestures := gestures)) == ProcessFrame(f)
  {
  }

  // ---------------------------------------------------------------------------
  // The listener's state across frames
  // ---------------------------------------------------------------------------

  datatype Option<T> = None | Some(value: T)

  /** The state `DJListener` keeps between frames: `lastFrame`, null until
      the first frame. The MIDI device and receiver fields belong to the
      transport and are not modelled. */
  datatype Listener = Listener(lastFrame: Option<Frame>)

  /** What one call of `onFrame` leaves behind: the listener's new state and
      the messages it sent. */
  datatype Step = Step(listener: Listener, sent: seq<ControlChange>)

  /** A listener before any frame has arrived. */
  const INITIAL: Listener := Listener(None)

  /** `onFrame` on a listener in state `l`: the frame is mapped and then
      stored as `lastFrame`. The stored frame is never read, so what is sent
      depends on the frame alone. */
  function OnFrame(l: Listener, f: Frame): (r: Step)
    ensures r.listener.lastFrame == Some(f)
    ensures 1 <= |r.sent| <= 4
    ensures forall m :: m in r.sent ==> FrameMessage(m)
  {
    Step(Listener(Some(f)), ProcessFrame(f))
  }

  /** The SDK delivering `frames` to a listener in state `l`, one call of
      `onFrame` after another, each call starting from the state the
      previous one left. The final state remembers the last frame. */
  function Run(l: Listener, frames: seq<Frame>): (r: Step)
    ensures |frames| == 0 ==> r == Step(l, [])
    ensures |frames| > 0 ==> r.listener.lastFrame == Some(frames[|frames| - 1])
    decreases |frames|
  {
    if |frames| == 0 then Step(l, [])
    else
      var first := OnFrame(l, frames[0]);
      var rest := Run(first.listener, frames[1..]);
      Step(rest.listener, first.sent + rest.sent)
  }

  /** The messages of a session: the frames' messages, concatenated in
      order. Every frame contributes at least one message and at most four,
      and every message is one a frame can send. */
  function Session(frames: seq<Frame>): (sent: seq<ControlChange>)
    ensures forall m :: m in sent ==> FrameMessage(m)
    ensures |frames| <= |sent| <= 4 * |frames|
    decreases |frames|
  {
    if |frames| == 0 then []
    else ProcessFrame(frames[0]) + Session(frames[1..])
  }

  /** Threading the listener's state through a run sends exactly the
      concatenation of the frames' messages, whatever state the run starts
      from: the stored `lastFrame` never influences what is sent. */
  lemma {:induction false} RunSendsSession(l: Listener, frames: seq<Frame>)
    ensures Run(l, frames).sent == Session(frames)
    decreases |frames|
  {
    if |frames| > 0 {
      RunSendsSession(OnFrame(l, frames[0]).listener, frames[1..]);
    }
  }

  /** Two listeners in different states, fed the same frames, send the same
      messages, and after at least one frame they are in the same state. */
  lemma RunIgnoresInitialState(l: Listener, k: Listener, frames: seq<Frame>)
    ensures Run(l, frames).sent == Run(k, frames).sent
    ensures |frames| > 0 ==> Run(l, frames) == Run(k, frames)
  {
    RunSendsSession(l, frames);
    RunSendsSession(k, frames);
  }

  /** A session split anywhere sends what its two halves send. */
  lemma {:induction false} SessionConcatenates(a: seq<Frame>, b: seq<Frame>)
    ensures Session(a + b) == Session(a) + Session(b)
    decreases |a|
  {
    if |a| == 0 {
      assert a + b == b;
    } else {
      assert (a + b)[1..] == a[1..] + b;
      SessionConcatenates(a[1..], b);
    }
  }
}
