/** The range checks for ports, channels, programs, controllers, velocities,
    scenes and subscenes, and the controller descriptions.  Each check raises
    a TypeError for a value of the wrong kind, a ValueError for one out of
    range, and otherwise returns its argument as it came.  The data offset and
    the two port name lists come from the configuration; they are parameters.
 */
module Validators {
  import opened Values
  import opened Text
  import opened Offsets

  const ControllerNames: map<int, string> := map[
    0 := "Bank select (MSB)",
    1 := "Modulation",
    6 := "Data entry (MSB)",
    7 := "Volume",
    10 := "Pan",
    11 := "Expression",
    32 := "Bank select (LSB)",
    38 := "Data entry (LSB)",
    64 := "Sustain",
    65 := "Portamento",
    66 := "Sostenuto",
    67 := "Soft pedal",
    68 := "Legato pedal",
    98 := "NRPN (LSB)",
    99 := "NRPN (MSB)",
    100 := "RPN (LSB)",
    101 := "RPN (MSB)",
    121 := "Reset all controllers",
    123 := "All notes off"
  ]

  /** controller_name(ctrl): a description, or None for controllers without one. */
  function ControllerName(ctrl: int): (r: Option<string>)
    ensures r.Some? <==> ctrl in ControllerNames
    ensures r.Some? ==> r.value == ControllerNames[ctrl] && |r.value| > 0
  {
    if ctrl in ControllerNames then Some(ControllerNames[ctrl]) else None
  }

  /** Every described controller is a valid controller number. */
  lemma DescribedControllersAreValid()
    ensures forall c :: c in ControllerNames ==> CtrlNumber(Int(c)) == Ok(Int(c))
  {
  }

  /** event_type(type): one of the engine's event types, returned as it came. */
  function EventType(t: Value, eventTypes: set<Value>): (r: Result<Value>)
    ensures r.Ok? <==> t in eventTypes
    ensures r.Ok? ==> r.value == t
    ensures r.Err? ==> r.error == ValueError(InvalidEventType)
  {
    if t in eventTypes then Ok(t) else Err(ValueError(InvalidEventType))
  }

  /** port_number(port): a port number (checked on the engine's side of the
      offset), or a port name looked up in the input ports, then the output
      ports.  A name is ambiguous only when it stands first at different
      positions in the two lists. */
  function PortNumber(port: Value, inPorts: seq<string>, outPorts: seq<string>, dataOffset: int): (r: Result<Value>)
    ensures port.IsInt() ==> (r.Ok? <==> ActualValue(port, dataOffset) >= 0)
    ensures port.IsInt() && r.Ok? ==> r.value == port
    ensures port.IsInt() && r.Err? ==> r.error == ValueError(OutOfRange)
    ensures port.Str? ==>
              (r == Err(ValueError(AmbiguousPort)) <==>
                 port.s in inPorts && port.s in outPorts && IndexOf(inPorts, port.s) != IndexOf(outPorts, port.s))
    ensures port.Str? && port.s in inPorts &&
            !(port.s in outPorts && IndexOf(inPorts, port.s) != IndexOf(outPorts, port.s)) ==>
              r == Ok(Int(IndexOf(inPorts, port.s) + dataOffset))
    ensures port.Str? && port.s !in inPorts && port.s in outPorts ==>
              r == Ok(Int(IndexOf(outPorts, port.s) + dataOffset))
    ensures port.Str? && port.s !in inPorts && port.s !in outPorts ==> r == Err(ValueError(UnknownPort))
    ensures !port.IsInt() && !port.Str? ==> r == Err(TypeError)
  {
    if port.IsInt() then
      if ActualValue(port, dataOffset) < 0 then Err(ValueError(OutOfRange)) else Ok(port)
    else if port.Str? then
      var name := port.s;
      if name in inPorts && name in outPorts && IndexOf(inPorts, name) != IndexOf(outPorts, name) then
        Err(ValueError(AmbiguousPort))
      else if name in inPorts then Offset(Int(IndexOf(inPorts, name)), dataOffset)
      else if name in outPorts then Offset(Int(IndexOf(outPorts, name)), dataOffset)
      else Err(ValueError(UnknownPort))
    else Err(TypeError)
  }

  /** A resolved port is a port number that names the port, and checking it
      once more changes nothing. */
  lemma PortNumberResolved(port: Value, inPorts: seq<string>, outPorts: seq<string>, dataOffset: int)
    requires port.Str? && PortNumber(port, inPorts, outPorts, dataOffset).Ok?
    ensures var r := PortNumber(port, inPorts, outPorts, dataOffset).value;
            var i := ActualValue(r, dataOffset);
            && r.Int?
            && ((0 <= i < |inPorts| && inPorts[i] == port.s) || (0 <= i < |outPorts| && outPorts[i] == port.s))
            && PortNumber(r, inPorts, outPorts, dataOffset) == Ok(r)
  {
  }

  /** channel_number(channel): the engine's channel lies in [0, 16). */
  function ChannelNumber(channel: Value, dataOffset: int): (r: Result<Value>)
    ensures r.Ok? <==> channel.IsInt() && 0 <= ActualValue(channel, dataOffset) < 16
    ensures r.Ok? ==> r.value == channel
    ensures !channel.IsInt() ==> r == Err(TypeError)
    ensures channel.IsInt() && r.Err? ==> r.error == ValueError(OutOfRange)
  {
    if !channel.IsInt() then Err(TypeError)
    else if 0 <= ActualValue(channel, dataOffset) < 16 then Ok(channel)
    else Err(ValueError(OutOfRange))
  }

  /** program_number(program): the engine's program lies in [0, 128). */
  function ProgramNumber(program: Value, dataOffset: int): (r: Result<Value>)
    ensures r.Ok? <==> program.IsInt() && 0 <= ActualValue(program, dataOffset) < 128
    ensures r.Ok? ==> r.value == program
    ensures !program.IsInt() ==> r == Err(TypeError)
    ensures program.IsInt() && r.Err? ==> r.error == ValueError(OutOfRange)
  {
    if !program.IsInt() then Err(TypeError)
    else if 0 <= ActualValue(program, dataOffset) < 128 then Ok(program)
    else Err(ValueError(OutOfRange))
  }

  /** ctrl_number(ctrl): a controller number in [0, 128); no offset applies. */
  function CtrlNumber(ctrl: Value): (r: Result<Value>)
    ensures r.Ok? <==> ctrl.IsInt() && 0 <= ctrl.AsInt() < 128
    ensures r.Ok? ==> r.value == ctrl
    ensures !ctrl.IsInt() ==> r == Err(TypeError)
    ensures ctrl.IsInt() && r.Err? ==> r.error == ValueError(OutOfRange)
  {
    if !ctrl.IsInt() then Err(TypeError)
    else if 0 <= ctrl.AsInt() < 128 then Ok(ctrl)
    else Err(ValueError(OutOfRange))
  }

  /** One past the largest value or velocity accepted. */
  function ValueEnd(allowEnd: bool): int {
    if allowEnd then 129 else 128
  }

  /** ctrl_value(value, allow_end): a controller value in [0, 128), or also
      128 when it ends a range. */
  function CtrlValue(value: Value, allowEnd: bool): (r: Result<Value>)
    ensures r.Ok? <==> value.IsInt() && 0 <= value.AsInt() < ValueEnd(allowEnd)
    ensures r.Ok? ==> r.value == value
    ensures !value.IsInt() ==> r == Err(TypeError)
    ensures value.IsInt() && r.Err? ==> r.error == ValueError(OutOfRange)
  {
    if !value.IsInt() then Err(TypeError)
    else if 0 <= value.AsInt() < ValueEnd(allowEnd) then Ok(value)
    else Err(ValueError(OutOfRange))
  }

  /** ctrl_limit(value): a controller value that may also be the exclusive end 128. */
  function CtrlLimit(value: Value): (r: Result<Value>)
    ensures r.Ok? <==> value.IsInt() && 0 <= value.AsInt() <= 128
    ensures r.Ok? ==> r.value == value
  {
    CtrlValue(value, true)
  }

  /** ctrl_range(value): a single value n is (n, n + 1); a pair gives the
      limits of its two items, unordered; any other shape is an invalid range. */
  function CtrlRange(value: Value): (r: Result<(int, int)>)
    ensures r.Ok? ==> 0 <= r.value.0 <= 128 && 0 <= r.value.1 <= 128
    ensures value.IsInt() && 0 <= value.AsInt() < 128 ==> r == Ok((value.AsInt(), value.AsInt() + 1))
    ensures value.Tuple? && |value.items| == 2 ==>
              var lo, hi := CtrlLimit(value.items[0]), CtrlLimit(value.items[1]);
              r == if lo.Ok? && hi.Ok? then Ok((lo.value.AsInt(), hi.value.AsInt()))
                   else if lo.Err? then Err(lo.error)
                   else Err(hi.error)
    ensures !(value.IsInt() && 0 <= value.AsInt() < 128) && !(value.Tuple? && |value.items| == 2) ==>
              r == Err(ValueError(InvalidRange))
  {
    var single := CtrlValue(value, false);
    if single.Ok? then Ok((single.value.AsInt(), single.value.AsInt() + 1))
    else if value.Tuple? && |value.items| == 2 then
      var lo :- CtrlLimit(value.items[0]);
      var hi :- CtrlLimit(value.items[1]);
      Ok((lo.AsInt(), hi.AsInt()))
    else Err(ValueError(InvalidRange))
  }

  /** velocity_value(velocity, allow_end): a velocity in [0, 128), or also 128
      when it ends a range. */
  function VelocityValue(velocity: Value, allowEnd: bool): (r: Result<Value>)
    ensures r.Ok? <==> velocity.IsInt() && 0 <= velocity.AsInt() < ValueEnd(allowEnd)
    ensures r.Ok? ==> r.value == velocity
    ensures !velocity.IsInt() ==> r == Err(TypeError)
    ensures velocity.IsInt() && r.Err? ==> r.error == ValueError(OutOfRange)
  {
    if !velocity.IsInt() then Err(TypeError)
    else if 0 <= velocity.AsInt() < ValueEnd(allowEnd) then Ok(velocity)
    else Err(ValueError(OutOfRange))
  }

  /** velocity_limit(velocity): a velocity that may also be the exclusive end 128. */
  function VelocityLimit(velocity: Value): (r: Result<Value>)
    ensures r.Ok? <==> velocity.IsInt() && 0 <= velocity.AsInt() <= 128
    ensures r.Ok? ==> r.value == velocity
  {
    VelocityValue(velocity, true)
  }

  /** velocity_range(velocity): as ctrl_range, for velocities. */
  function VelocityRange(velocity: Value): (r: Result<(int, int)>)
    ensures r.Ok? ==> 0 <= r.value.0 <= 128 && 0 <= r.value.1 <= 128
    ensures velocity.IsInt() && 0 <= velocity.AsInt() < 128 ==> r == Ok((velocity.AsInt(), velocity.AsInt() + 1))
    ensures velocity.Tuple? && |velocity.items| == 2 ==>
              var lo, hi := VelocityLimit(velocity.items[0]), VelocityLimit(velocity.items[1]);
              r == if lo.Ok? && hi.Ok? then Ok((lo.value.AsInt(), hi.value.AsInt()))
                   else if lo.Err? then Err(lo.error)
                   else Err(hi.error)
    ensures !(velocity.IsInt() && 0 <= velocity.AsInt() < 128) && !(velocity.Tuple? && |velocity.items| == 2) ==>
              r == Err(ValueError(InvalidRange))
  {
    var single := VelocityValue(velocity, false);
    if single.Ok? then Ok((single.value.AsInt(), single.value.AsInt() + 1))
    else if velocity.Tuple? && |velocity.items| == 2 then
      var lo :- VelocityLimit(velocity.items[0]);
      var hi :- VelocityLimit(velocity.items[1]);
      Ok((lo.AsInt(), hi.AsInt()))
    else Err(ValueError(InvalidRange))
  }

  /** scene_number(scene): the engine's scene is not negative. */
  function SceneNumber(scene: Value, dataOffset: int): (r: Result<Value>)
    ensures r.Ok? <==> scene.IsInt() && ActualValue(scene, dataOffset) >= 0
    ensures r.Ok? ==> r.value == scene
    ensures !scene.IsInt() ==> r == Err(TypeError)
    ensures scene.IsInt() && r.Err? ==> r.error == ValueError(OutOfRange)
  {
    if !scene.IsInt() then Err(TypeError)
    else if ActualValue(scene, dataOffset) < 0 then Err(ValueError(OutOfRange))
    else Ok(scene)
  }

  /** subscene_number(subscene): the engine's subscene is not negative. */
  function SubsceneNumber(subscene: Value, dataOffset: int): (r: Result<Value>)
    ensures r.Ok? <==> subscene.IsInt() && ActualValue(subscene, dataOffset) >= 0
    ensures r.Ok? ==> r.value == subscene
    ensures !subscene.IsInt() ==> r == Err(TypeError)
    ensures subscene.IsInt() && r.Err? ==> r.error == ValueError(OutOfRange)
  {
    if !subscene.IsInt() then Err(TypeError)
    else if ActualValue(subscene, dataOffset) < 0 then Err(ValueError(OutOfRange))
    else Ok(subscene)
  }

  /** With data offset 1 the first channel is 1, the engine's channel 0, and a
      NoDataOffset 0 is that same channel. */
  lemma ChannelsFromOne()
    ensures ChannelNumber(Int(1), 1) == Ok(Int(1))
    ensures ChannelNumber(Int(0), 1) == Err(ValueError(OutOfRange))
    ensures ChannelNumber(NoOffset(0), 1) == Ok(NoOffset(0))
    ensures ChannelNumber(Int(16), 1) == Ok(Int(16))
  {
  }

  /** A name only among the output ports, at position 2, is port 3 when ports
      are numbered from 1. */
  lemma OutputPortByName()
    ensures PortNumber(Str("synth"), ["in"], ["a", "b", "synth"], 1) == Ok(Int(3))
  {
    assert IndexOf(["a", "b", "synth"], "synth") == 2;
  }

  /** A name at the same position in both lists is not ambiguous. */
  lemma SamePositionIsNotAmbiguous()
    ensures PortNumber(Str("x"), ["x"], ["x"], 0) == Ok(Int(0))
    ensures PortNumber(Str("x"), ["a", "x"], ["x"], 0) == Err(ValueError(AmbiguousPort))
  {
    assert IndexOf(["a", "x"], "x") == 1;
  }

  lemma ControllerRanges()
    ensures CtrlRange(Int(7)) == Ok((7, 8))
    ensures CtrlRange(Tuple([Int(0), Int(128)])) == Ok((0, 128))
    ensures CtrlRange(Int(128)) == Err(ValueError(InvalidRange))
    ensures CtrlRange(Tuple([Int(0), Int(1), Int(2)])) == Err(ValueError(InvalidRange))
  {
  }
}
