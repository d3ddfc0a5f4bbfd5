/** The values that flow into mididings' parameter checks, and their outcomes.

    mididings is written in Python, whose checks accept any object and branch
    on its run-time type.  `Value` names the kinds of object the checks tell
    apart; `Result` stands for "returned a value" or "raised an exception".
 */
module Values {

  /** A bytearray element. */
  type byte = x: int | 0 <= x < 256

  /** A Python object, as far as the parameter checks can tell. */
  datatype Value =
    | Int(i: int)                 // a plain int
    | NoOffset(i: int)            // a NoDataOffset, an int subclass exempt from the data offset
    | Str(s: string)
    | Tuple(items: seq<Value>)
    | List(items: seq<Value>)
    | Bytes(bytes: seq<byte>)     // a bytearray
    | Ref(attr: int)              // an event attribute reference, resolved later by the engine
    | Other                       // any other object (None, a dict, ...)
  {
    /** isinstance(v, int): a NoDataOffset is an int too. */
    predicate IsInt() {
      Int? || NoOffset?
    }

    /** The integer value of an int, whatever its class. */
    function AsInt(): int
      requires IsInt()
    {
      i
    }
  }

  /** Which check rejected a value; the source says so in its exception message. */
  datatype Fault =
    | OutOfRange          // "... is out of range", "invalid port number"
    | InvalidNoteName     // "invalid note name"
    | InvalidRange        // "invalid note range", "invalid controller value range", ...
    | AmbiguousPort       // "port name ... is ambiguous"
    | UnknownPort         // "invalid port name"
    | InvalidEventType    // "invalid event type"
    | BadLiteral          // int(x, 16) could not parse x
    | ByteRange           // a bytearray element outside [0, 256)
    | NegativeCount       // bytearray(n) of a negative n
    | SysexTooShort
    | SysexNoStart        // first byte is not F0
    | SysexNoEnd          // last byte is not F7
    | SysexDataByte       // an interior byte above 0x7F
    | ManufacturerLength  // neither one nor three bytes
    | ManufacturerPrefix  // a three-byte id not starting with 0x00
    | ManufacturerByte    // a byte above 0x7F

  /** The exception classes the checks raise. */
  datatype Error = TypeError | ValueError(fault: Fault) | KeyError

  datatype Option<+T> = None | Some(value: T)

  datatype Result<+T> = Ok(value: T) | Err(error: Error) {
    predicate IsFailure() {
      Err?
    }

    function PropagateFailure<U>(): Result<U>
      requires Err?
    {
      Err(error)
    }

    function Extract(): T
      requires Ok?
    {
      value
    }
  }
}
