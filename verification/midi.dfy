/** The control-change messages `DJListener` hands to its MIDI receiver.

    `sendMidiMessage(type, cmd, chan, val)` passes its arguments straight to
    `ShortMessage.setMessage(command, channel, data1, data2)`, so despite the
    parameter names its second argument is the MIDI channel and its third
    the controller number; `setMidi(chan, m, val)` forwards in the same order.
    A message is modelled as the triple it carries; the transport that
    delivers it is not part of this model. */
module Midi {

  /** One control-change message: MIDI channel, controller number, value. */
  datatype ControlChange = ControlChange(channel: int, controller: int, value: int)

  /** The ranges `ShortMessage.setMessage` accepts for a control change: a
      channel of four bits and two seven-bit data bytes. */
  predicate Accepted(m: ControlChange)
  {
    0 <= m.channel <= 15 && 0 <= m.controller <= 127 && 0 <= m.value <= 127
  }

  /** `sendMidiMessage(CONTROL_CHANGE, channel, controller, value)`: the
      message is sent when `setMessage` accepts it; otherwise `setMessage`
      throws, the handler only logs, and nothing is sent. The result is what
      reaches the receiver. */
  function Send(channel: int, controller: int, value: int): (sent: seq<ControlChange>)
    ensures |sent| <= 1
    ensures forall m :: m in sent ==> Accepted(m)
    ensures forall m :: m in sent ==> m == ControlChange(channel, controller, value)
    ensures Accepted(ControlChange(channel, controller, value)) <==> |sent| == 1
  {
    var m := ControlChange(channel, controller, value);
    if Accepted(m) then [m] else []
  }

  /** `setMidi(chan, m, val)`: a control change with the arguments in
      channel, controller, value order. */
  function SetMidi(chan: int, controller: int, value: int): (sent: seq<ControlChange>)
    ensures |sent| <= 1
    ensures forall m :: m in sent ==> Accepted(m) && m == ControlChange(chan, controller, value)
    ensures Accepted(ControlChange(chan, controller, value)) <==> |sent| == 1
  {
    Send(chan, controller, value)
  }
}
