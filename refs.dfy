/** The *_ref checks: each accepts an event attribute reference (a value the
    engine fills in from the event being processed) untouched, and otherwise
    is the check it wraps.
 */
module AttributeRefs {
  import opened Values
  import opened Offsets
  import opened Notes
  import opened Validators

  /** _allow_event_attribute(f)(first): a reference is returned as it is. */
  function AllowEventAttribute(f: Value -> Result<Value>, first: Value): (r: Result<Value>)
    ensures first.Ref? ==> r == Ok(first)
    ensures !first.Ref? ==> r == f(first)
  {
    if first.Ref? then Ok(first) else f(first)
  }

  function PortNumberRef(port: Value, inPorts: seq<string>, outPorts: seq<string>, dataOffset: int): (r: Result<Value>)
    ensures port.Ref? ==> r == Ok(port)
    ensures !port.Ref? ==> r == PortNumber(port, inPorts, outPorts, dataOffset)
  {
    AllowEventAttribute(p => PortNumber(p, inPorts, outPorts, dataOffset), port)
  }

  function ChannelNumberRef(channel: Value, dataOffset: int): (r: Result<Value>)
    ensures channel.Ref? ==> r == Ok(channel)
    ensures !channel.Ref? ==> r == ChannelNumber(channel, dataOffset)
  {
    AllowEventAttribute(c => ChannelNumber(c, dataOffset), channel)
  }

  function NoteNumberRef(note: Value, allowEnd: bool, octaveOffset: int): (r: Result<Value>)
    ensures note.Ref? ==> r == Ok(note)
    ensures !note.Ref? ==> r == NoteNumber(note, allowEnd, octaveOffset)
  {
    AllowEventAttribute(n => NoteNumber(n, allowEnd, octaveOffset), note)
  }

  function VelocityValueRef(velocity: Value, allowEnd: bool): (r: Result<Value>)
    ensures velocity.Ref? ==> r == Ok(velocity)
    ensures !velocity.Ref? ==> r == VelocityValue(velocity, allowEnd)
  {
    AllowEventAttribute(v => VelocityValue(v, allowEnd), velocity)
  }

  function CtrlNumberRef(ctrl: Value): (r: Result<Value>)
    ensures ctrl.Ref? ==> r == Ok(ctrl)
    ensures !ctrl.Ref? ==> r == CtrlNumber(ctrl)
  {
    AllowEventAttribute(CtrlNumber, ctrl)
  }

  function CtrlValueRef(value: Value, allowEnd: bool): (r: Result<Value>)
    ensures value.Ref? ==> r == Ok(value)
    ensures !value.Ref? ==> r == CtrlValue(value, allowEnd)
  {
    AllowEventAttribute(v => CtrlValue(v, allowEnd), value)
  }

  function ProgramNumberRef(program: Value, dataOffset: int): (r: Result<Value>)
    ensures program.Ref? ==> r == Ok(program)
    ensures !program.Ref? ==> r == ProgramNumber(program, dataOffset)
  {
    AllowEventAttribute(p => ProgramNumber(p, dataOffset), program)
  }

  function SceneNumberRef(scene: Value, dataOffset: int): (r: Result<Value>)
    ensures scene.Ref? ==> r == Ok(scene)
    ensures !scene.Ref? ==> r == SceneNumber(scene, dataOffset)
  {
    AllowEventAttribute(s => SceneNumber(s, dataOffset), scene)
  }

  function SubsceneNumberRef(subscene: Value, dataOffset: int): (r: Result<Value>)
    ensures subscene.Ref? ==> r == Ok(subscene)
    ensures !subscene.Ref? ==> r == SubsceneNumber(subscene, dataOffset)
  {
    AllowEventAttribute(s => SubsceneNumber(s, dataOffset), subscene)
  }

  function ActualRef(n: Value, dataOffset: int): (r: Result<Value>)
    ensures n.Ref? ==> r == Ok(n)
    ensures !n.Ref? ==> r == Actual(n, dataOffset)
  {
    AllowEventAttribute(m => Actual(m, dataOffset), n)
  }

  /** In this model a reference is not an int: the bare checks reject it, and
      only the wrappers let it through. */
  lemma RefsPassOnlyThroughWrappers(a: Value, dataOffset: int, octaveOffset: int, allowEnd: bool)
    requires a.Ref?
    ensures ChannelNumber(a, dataOffset) == Err(TypeError) && ChannelNumberRef(a, dataOffset) == Ok(a)
    ensures ProgramNumber(a, dataOffset) == Err(TypeError) && ProgramNumberRef(a, dataOffset) == Ok(a)
    ensures CtrlNumber(a) == Err(TypeError) && CtrlNumberRef(a) == Ok(a)
    ensures CtrlValue(a, allowEnd) == Err(TypeError) && CtrlValueRef(a, allowEnd) == Ok(a)
    ensures VelocityValue(a, allowEnd) == Err(TypeError) && VelocityValueRef(a, allowEnd) == Ok(a)
    ensures SceneNumber(a, dataOffset) == Err(TypeError) && SceneNumberRef(a, dataOffset) == Ok(a)
    ensures SubsceneNumber(a, dataOffset) == Err(TypeError) && SubsceneNumberRef(a, dataOffset) == Ok(a)
    ensures NoteNumber(a, allowEnd, octaveOffset) == Err(TypeError) && NoteNumberRef(a, allowEnd, octaveOffset) == Ok(a)
    ensures Actual(a, dataOffset) == Err(TypeError) && ActualRef(a, dataOffset) == Ok(a)
  {
  }
}
