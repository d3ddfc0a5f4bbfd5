/** The kinds of MIDI event, as bits of an event's type mask. */
module EventTypes {
  const NOTEON: bv32 := 1 << 0
  const NOTEOFF: bv32 := 1 << 1
  const NOTE: bv32 := NOTEON | NOTEOFF
  const CONTROLLER: bv32 := 1 << 2
  const PITCHBEND: bv32 := 1 << 3
  const PGMCHANGE: bv32 := 1 << 4

  /** One bit set, no more. */
  predicate IsSingleBit(t: bv32) {
    t != 0 && t & (t - 1) == 0
  }

  /** Each kind is a bit of its own, and NOTE stands for both note kinds. */
  lemma KindsAreDistinctBits()
    ensures IsSingleBit(NOTEON) && IsSingleBit(NOTEOFF) && IsSingleBit(CONTROLLER)
    ensures IsSingleBit(PITCHBEND) && IsSingleBit(PGMCHANGE)
    ensures NOTEON & NOTEOFF == 0 && NOTEON & CONTROLLER == 0 && NOTEON & PITCHBEND == 0
    ensures NOTEON & PGMCHANGE == 0 && NOTEOFF & CONTROLLER == 0 && NOTEOFF & PITCHBEND == 0
    ensures NOTEOFF & PGMCHANGE == 0 && CONTROLLER & PITCHBEND == 0 && CONTROLLER & PGMCHANGE == 0
    ensures PITCHBEND & PGMCHANGE == 0
    ensures NOTE == NOTEON | NOTEOFF && !IsSingleBit(NOTE)
  {
  }
}

/** Events as the Python side sees them: named attributes over the two
    generic data slots of an event, each name valid for some kinds only. */
module Events {
  import opened EventTypes

  // Attribute ids that stand for "this attribute of the event being
  // processed"; several names share an id because they share a slot.
  const PORT: int := -1
  const CHANNEL: int := -2
  const DATA1: int := -3
  const DATA2: int := -4
  const NOTE_ID: int := -3     // event.NOTE
  const VELOCITY: int := -4
  const PARAM: int := -3
  const VALUE: int := -4
  const PROGRAM: int := -4

  /** The attributes _MidiEventEx defines as properties. */
  datatype Attribute = Note | Velocity | Param | Value

  datatype Slot = Data1 | Data2

  /** The kinds for which an attribute is meaningful. */
  function RequiredMask(a: Attribute): (m: bv32)
    ensures m != 0 && m & !(NOTE | CONTROLLER | PITCHBEND | PGMCHANGE) == 0
    ensures m & NOTE != 0 <==> a == Note || a == Velocity
  {
    match a
    case Note => NOTE
    case Velocity => NOTE
    case Param => CONTROLLER
    case Value => CONTROLLER | PITCHBEND | PGMCHANGE
  }

  /** The data slot an attribute reads and writes. */
  function SlotOf(a: Attribute): (s: Slot)
    ensures SlotId(s) == AttributeId(a)
  {
    match a
    case Note => Data1
    case Velocity => Data2
    case Param => Data1
    case Value => Data2
  }

  /** An event of type mask `t` supports attribute `a`. */
  predicate Permits(t: bv32, a: Attribute) {
    t & RequiredMask(a) != 0
  }

  /** The attribute id constant that names `a`. */
  function AttributeId(a: Attribute): int {
    match a
    case Note => NOTE_ID
    case Velocity => VELOCITY
    case Param => PARAM
    case Value => VALUE
  }

  function SlotId(s: Slot): int {
    match s
    case Data1 => DATA1
    case Data2 => DATA2
  }

  /** The ids agree with the slots: two attributes share an id exactly when
      they share a slot, and that id is the slot's generic id. */
  lemma IdsFollowSlots(a: Attribute, b: Attribute)
    ensures AttributeId(a) == SlotId(SlotOf(a))
    ensures AttributeId(a) == AttributeId(b) <==> SlotOf(a) == SlotOf(b)
    ensures AttributeId(a) != PORT && AttributeId(a) != CHANNEL
    ensures PROGRAM == DATA2 && PORT != CHANNEL
  {
  }

  /** Which attributes each single kind of event supports. */
  lemma PermitsByKind(a: Attribute)
    ensures Permits(NOTEON, a) <==> a == Note || a == Velocity
    ensures Permits(NOTEOFF, a) <==> a == Note || a == Velocity
    ensures Permits(CONTROLLER, a) <==> a == Param || a == Value
    ensures Permits(PITCHBEND, a) <==> a == Value
    ensures Permits(PGMCHANGE, a) <==> a == Value
  {
  }

  /** Permission, bit by bit: note attributes need a note kind, param needs a
      controller, value a controller, a pitch bend or a program change. */
  lemma PermitsBits(t: bv32, a: Attribute)
    ensures (a == Note || a == Velocity) ==> (Permits(t, a) <==> t & NOTEON != 0 || t & NOTEOFF != 0)
    ensures a == Param ==> (Permits(t, a) <==> t & CONTROLLER != 0)
    ensures a == Value ==> (Permits(t, a) <==> t & CONTROLLER != 0 || t & PITCHBEND != 0 || t & PGMCHANGE != 0)
  {
  }

  /** The part of an event the attributes see. */
  datatype Record = Record(eventType: bv32, data1: int, data2: int)

  /** The getter's read: note and param read data1, velocity and value data2. */
  function ReadSlot(r: Record, s: Slot): (v: int)
    ensures s == SlotOf(Note) || s == SlotOf(Param) ==> v == r.data1
    ensures s == SlotOf(Velocity) || s == SlotOf(Value) ==> v == r.data2
  {
    match s
    case Data1 => r.data1
    case Data2 => r.data2
  }

  /** The record with slot `s` replaced by `v`. */
  function WriteSlot(r: Record, s: Slot, v: int): (w: Record)
    ensures w.eventType == r.eventType
    ensures ReadSlot(w, s) == v
    ensures forall o: Slot :: o != s ==> ReadSlot(w, o) == ReadSlot(r, o)
  {
    match s
    case Data1 => r.(data1 := v)
    case Data2 => r.(data2 := v)
  }

  /** Reading an attribute after writing one: the written value when the two
      share a slot, the old value otherwise. */
  lemma ReadAfterWrite(r: Record, a: Attribute, b: Attribute, v: int)
    ensures ReadSlot(WriteSlot(r, SlotOf(a), v), SlotOf(b)) ==
              if SlotOf(a) == SlotOf(b) then v else ReadSlot(r, SlotOf(b))
  {
    if SlotOf(a) != SlotOf(b) {
      assert SlotOf(b) != SlotOf(a);
    }
  }

  /** A write to note shows through param, a write to velocity through value,
      and neither touches the other slot. */
  lemma AliasedWrites(r: Record, v: int)
    ensures ReadSlot(WriteSlot(r, SlotOf(Note), v), SlotOf(Param)) == v
    ensures ReadSlot(WriteSlot(r, SlotOf(Velocity), v), SlotOf(Value)) == v
    ensures ReadSlot(WriteSlot(r, SlotOf(Note), v), SlotOf(Velocity)) == r.data2
    ensures ReadSlot(WriteSlot(r, SlotOf(Value), v), SlotOf(Param)) == r.data1
  {
    ReadAfterWrite(r, Note, Param, v);
    ReadAfterWrite(r, Velocity, Value, v);
    ReadAfterWrite(r, Note, Velocity, v);
    ReadAfterWrite(r, Value, Param, v);
  }

  /** The second of two writes to one slot is the one that stays. */
  lemma LastWriteWins(r: Record, s: Slot, v: int, u: int)
    ensures WriteSlot(WriteSlot(r, s, v), s, u) == WriteSlot(r, s, u)
  {
  }

  /** A write leaves what the event supports as it was. */
  lemma WriteKeepsPermits(r: Record, s: Slot, v: int, a: Attribute)
    ensures Permits(WriteSlot(r, s, v).eventType, a) == Permits(r.eventType, a)
  {
  }

  /** A controller event with data1 = 7 and data2 = 64: param reads 7 and is
      supported, note would read the same slot but is not. */
  lemma ControllerExample()
    ensures ReadSlot(Record(CONTROLLER, 7, 64), SlotOf(Param)) == 7 && Permits(CONTROLLER, Param)
    ensures ReadSlot(Record(CONTROLLER, 7, 64), SlotOf(Value)) == 64 && Permits(CONTROLLER, Value)
    ensures ReadSlot(Record(CONTROLLER, 7, 64), SlotOf(Note)) == 7 && !Permits(CONTROLLER, Note)
  {
  }

  /** _MidiEventEx: an event whose type and data slots are updated in place.
      The misuse diagnostic is reported as a boolean; the access is
      performed either way. */
  class MidiEvent {
    var eventType: bv32
    var data1: int
    var data2: int

    constructor(eventType: bv32, data1: int, data2: int)
      ensures Snapshot() == Record(eventType, data1, data2)
    {
      this.eventType := eventType;
      this.data1 := data1;
      this.data2 := data2;
    }

    function Snapshot(): Record
      reads this
    {
      Record(eventType, data1, data2)
    }

    /** The property getter of attribute `a`. */
    method Get(a: Attribute) returns (value: int, misuse: bool)
      ensures misuse <==> !Permits(eventType, a)
      ensures value == ReadSlot(Snapshot(), SlotOf(a))
    {
      misuse := eventType & RequiredMask(a) == 0;
      if SlotOf(a) == Data1 {
        value := data1;
      } else {
        value := data2;
      }
    }

    /** The property setter of attribute `a`. */
    method Set(a: Attribute, value: int) returns (misuse: bool)
      modifies this
      ensures misuse <==> !Permits(old(eventType), a)
      ensures Snapshot() == WriteSlot(old(Snapshot()), SlotOf(a), value)
    {
      misuse := eventType & RequiredMask(a) == 0;
      if SlotOf(a) == Data1 {
        data1 := value;
      } else {
        data2 := value;
      }
    }
  }

  /** Set, then get of the same attribute, returns what was set, with the same
      diagnostic. */
  method SetThenGet(e: MidiEvent, a: Attribute, v: int) returns (got: int, setMisuse: bool, getMisuse: bool)
    modifies e
    ensures got == v && setMisuse == getMisuse
    ensures e.eventType == old(e.eventType)
  {
    setMisuse := e.Set(a, v);
    got, getMisuse := e.Get(a);
  }
}
