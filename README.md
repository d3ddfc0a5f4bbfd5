# mididings parameter checks and event attributes, in Dafny

mididings is a MIDI router and processor configured from Python. This
project models two of its Python files and proves properties of the model.

- `mididings/util.py` is the value codec. It turns the descriptions users
  write into checked numbers:
  - note names such as `"c#4"` and note ranges such as `"c4:c5"`;
  - port names and numbers;
  - channels, programs, controllers, velocities, scenes and subscenes;
  - system exclusive (sysex) messages, written as hex text or as bytes.

  It also handles the *data offset*: users may number ports, channels,
  programs and scenes from 1, while the engine always counts from 0. The
  `*_ref` variants of the checks let an *event attribute reference* through
  untouched. Such a reference is a placeholder that the engine resolves
  later.
- `mididings/event.py` defines the event-type bits and the attribute ids. It
  also defines the `note`, `velocity`, `param` and `value` properties over the
  two data slots of an event.

Python objects are modelled as `Values.Value`. Its variants are a plain int,
a `NoDataOffset` int, a string, a tuple, a list, a bytearray, an attribute
reference, and any other object (`None`, a dict, ...). Floats and Python 2
longs are not values of the model. A check returns `Result`: either `Ok` with
the value returned, or `Err` with the exception raised. The exception is
`TypeError`, `ValueError` with a tag naming the failed rule, or `KeyError`.

The configuration is passed in as parameters: `octaveOffset`, `dataOffset`,
the input and output port names, and the engine's set of event types.

Files and modules:

| file | module | models |
|---|---|---|
| `values.dfy` | `Values` | Python values, exceptions, `Result`/`Option` |
| `text.dfy` | `Text` | `str.lower`, `isdigit`, `int(s, base)`, `str(n)`, `list.index`, `str.split` |
| `offsets.dfy` | `Offsets` | `offset`, `actual`, `NoDataOffset` |
| `notes.dfy` | `Notes` | note tables, `note_number`, `note_limit`, `note_range`, `note_name`, `tonic_note_number` |
| `validators.dfy` | `Validators` | `controller_name`, `event_type`, `port_number` and the number and range checks |
| `sysex.dfy` | `Sysex` | `sysex_to_bytearray`, `sysex_data`, `sysex_manufacturer` |
| `refs.dfy` | `AttributeRefs` | `_allow_event_attribute` and the ten `*_ref` checks |
| `events.dfy` | `EventTypes`, `Events` | `Types`, the attribute ids, `_MidiEventEx` |

Loops in the source are methods with loop invariants. `Notes.FindOctave` is
the scan for the first octave character in `note_number`.
`Sysex.CheckSysexData` and `Sysex.CheckManufacturerId` are the byte loops.
Each is proved equal to the function that the rest of the model uses.
The event is a class whose getter and setter read and update its fields in
place.

Behaviour of the code worth knowing:

- A misused event attribute only prints a diagnostic. The getter still reads
  the slot and the setter still writes it. There is no error.
- A port name is ambiguous only when its first positions in the input and
  output lists differ. A name at the same position in both lists resolves.
- `offset()` adds the data offset to a `NoDataOffset` too. Only `actual()`
  exempts it.
- The two ends of a range given as a tuple or as a string are not ordered.
  An empty upper side of a range string is 0, not the end of the range.

## Model

| member | source | states |
|---|---|---|
| `Text.ParseIntToString` | mididings/util.py:157-158 | `int(str(k), 10) == k` for every integer, negative ones included |
| `Text.ParseInt` | mididings/util.py:92-94 | `int(s, base)` succeeds only on a non-empty string whose first character is a sign or a digit of the base |
| `Text.IntToString` | mididings/util.py:157-158 | `str(k)` is non-empty, starts with a minus sign or a digit, and holds nothing but minus signs and digits |
| `Text.Lower` | mididings/util.py:87 | `lower()` keeps the length of the string |
| `Text.LowerAt` | mididings/util.py:87 | `lower()` maps each character on its own |
| `Text.LowerOfPlain` | mididings/util.py:87 | a string without upper-case letters is its own lower case |
| `Text.LookupIndex` | mididings/util.py:95 | a key found in a dict written as its entries has an entry holding it with the value found |
| `Text.LookupEntry` | mididings/util.py:95 | in a dict whose keys are distinct, each entry's key finds that entry's value |
| `Text.IndexOf` | mididings/util.py:198-204 | `list.index` returns a position holding the item, and no earlier position holds it |
| `Text.SplitOnce` | mididings/util.py:135 | `split(':', 1)` gives the whole string when there is no separator; otherwise a part free of the separator, the separator, and the rest, which make up the string |
| `Text.Split` | mididings/util.py:300 | `split(sep)` gives at least one piece, and no piece holds the separator |
| `Text.JoinOfSplit` | mididings/util.py:300 | joining the pieces of a split with the separator gives back the string |
| `Text.SplitOfJoin` | mididings/util.py:300 | splitting pieces joined by a separator they lack gives back the pieces |
| `Text.SplitAfterPiece` | mididings/util.py:300 | splitting a piece free of the separator, the separator and a rest gives the piece and then the pieces of the rest |
| `Offsets.Offset` | mididings/util.py:352-356 | `offset(n)` is defined exactly on ints, and the result minus the data offset is `n`, for a `NoDataOffset` too; anything else is a TypeError |
| `Offsets.Actual` | mididings/util.py:359-366 | `actual(n)` is defined exactly on ints; a `NoDataOffset` keeps its number; a plain int loses the data offset |
| `Offsets.ActualOfOffset` | mididings/util.py:352-366 | `actual(offset(n)) == n` for a plain int |
| `Offsets.OffsetOfActual` | mididings/util.py:352-366 | `offset(actual(n)) == n` for a plain int |
| `Offsets.NoOffsetExemptOnlyFromActual` | mididings/util.py:340-366 | a `NoDataOffset` is unchanged by `actual()` but shifted by `offset()` |
| `Notes.PitchClass` | mididings/util.py:20-33 | a name with a pitch class is one letter from a to g, alone or followed by '#' or 'b', and its pitch class lies in [0, 12) |
| `Notes.NoteNamesDistinct` | mididings/util.py:20-33 | no name has two entries in `_NOTE_NUMBERS` |
| `Notes.TableEntriesRead` | mididings/util.py:20-33 | each of the seventeen entries of `_NOTE_NUMBERS` reads as its own pitch class |
| `Notes.ReadNameInTable` | mididings/util.py:20-33 | every name that reads as a pitch class has an entry in `_NOTE_NUMBERS` |
| `Notes.PitchClassIsLookup` | mididings/util.py:20-33 | reading a name gives exactly what `_NOTE_NUMBERS` holds for it, and nothing for a name it lacks |
| `Notes.CanonicalNamesReadBack` | mididings/util.py:20-48 | `_NOTE_NAMES` names the twelve pitch classes, and each name reads back as its own pitch class |
| `Notes.CanonicalNameReadsBack` | mididings/util.py:20-48 | the same, for one pitch class |
| `Notes.FirstOctaveChar` | mididings/util.py:89-91 | the position found lies at or after the start, and holds a digit or '-' unless it is the end |
| `Notes.FirstOctaveCharIsFirst` | mididings/util.py:89-91 | no earlier position holds a digit or '-' |
| `Notes.FirstOctaveCharIs` | mididings/util.py:89-91 | any position with both properties is the one found |
| `Notes.ScanIndex` | mididings/util.py:89-91 | the loop variable after the scan is unbound exactly for the empty string, and otherwise indexes the string |
| `Notes.ScanStops` | mididings/util.py:89-91 | the scan stops at the first digit or '-', or at the last character when there is none |
| `Notes.FindOctave` | mididings/util.py:89-91 | the scan loop with its `break` binds its index exactly when the string is not empty, and leaves it at `ScanIndex` |
| `Notes.ParseNoteName` | mididings/util.py:86-98 | every failure to read a note name is "invalid note name" |
| `Notes.CheckedNote` | mididings/util.py:102-105 | a number read from a string is accepted exactly in [0, 128), or [0, 129) with `allow_end`, as a plain int; otherwise it is out of range |
| `Notes.NoteNumber` | mididings/util.py:73-105 | an int is returned as it is when in [0, 128), or [0, 129) with `allow_end`, else out of range; a string gives a plain int note in that range, or a ValueError; any other value is a TypeError |
| `Notes.NoteLimit` | mididings/util.py:108-109 | `note_limit` gives note numbers in [0, 128], the end 128 included, and returns an int as it is exactly when it lies there |
| `Notes.ScanOfSplit` | mididings/util.py:89-94 | in a name free of digits and '-' followed by an octave, the scan stops where the octave begins, and the slices give back both parts |
| `Notes.TableNameHasNoOctave` | mididings/util.py:20-33 | no note name holds a digit or '-' |
| `Notes.NoteNumberOfName` | mididings/util.py:84-105 | a name from the table followed by an octave, up to case, gives pitch class + 12 × (octave + octave offset) after the range check |
| `Notes.NoteNumberOfBadName` | mididings/util.py:92-98 | a name not in the table, or an octave that is no int, is an invalid note name |
| `Notes.NoteNameParts` | mididings/util.py:86-98 | every note number read from a string came from a table name and an int octave in this way |
| `Notes.NoteName` | mididings/util.py:146-158 | `note_name` fails exactly for values that are no int, with a TypeError |
| `Notes.NoteNameRoundTrip` | mididings/util.py:84-158 | `note_number(note_name(n)) == n` for every note in [0, 128) and every octave offset |
| `Notes.NoteNumberOfCanonicalName` | mididings/util.py:84-105 | the canonical name of pitch class p followed by the written integer k is note p + 12 × (k + octave offset), when that is a note |
| `Notes.NoteNumberOfWrittenOctave` | mididings/util.py:84-105 | a table name followed by a written integer k gives its pitch class + 12 × (k + octave offset) after the range check |
| `Notes.LowerOfNoteName` | mididings/util.py:87 | a table name followed by digits and '-' is already lower case |
| `Notes.NameOfParsedNote` | mididings/util.py:84-158 | `note_name(note_number(s))` is the canonical sharp name of the pitch class written in `s`, with the octave written in `s` |
| `Notes.NoteNameOfClassAndOctave` | mididings/util.py:155-158 | the note of pitch class p in engine octave q is named p's name followed by q minus the octave offset |
| `Notes.ColonIsNoNote` | mididings/util.py:86-98 | a string holding ':' is never a single note |
| `Notes.NoteRange` | mididings/util.py:112-143 | a single note n gives (n, n + 1); a tuple gives the limits of its first two items, with value errors turned into invalid range; a tuple too short, or a bad string, is an error; any other value is a TypeError; both ends lie in [0, 128] |
| `Notes.NoteRangeOfString` | mididings/util.py:133-143 | `"lo:hi"` gives the limits of both sides, an empty side being 0, or invalid range if either side is bad |
| `Notes.TonicNoteNumber` | mididings/util.py:161-162 | a key gives exactly its entry in `_NOTE_NUMBERS`, a KeyError when it has none; the pitch class lies in [0, 12) and its canonical name reads back as it |
| `Notes.MiddleC` | mididings/util.py:84-109 | "c4" is note 60 with octave offset 1, as a note and as a limit |
| `Notes.UpperC` | mididings/util.py:108-109 | "c5" is the limit 72 with octave offset 1 |
| `Notes.SharpName` | mididings/util.py:84-105 | "C#4" is note 61 with octave offset 1; case does not matter |
| `Notes.OctaveRange` | mididings/util.py:133-138 | "c4:c5" is (60, 72) with octave offset 1 |
| `Notes.EmptyUpperSide` | mididings/util.py:135-138 | "c4:" is (60, 0) |
| `Notes.NoteRangeTupleUnordered` | mididings/util.py:130-132 | the tuple (5, 2) is accepted as it is, reversed |
| `Validators.ControllerName` | mididings/util.py:165-172 | a non-empty description exactly for the controllers in the table, else None |
| `Validators.DescribedControllersAreValid` | mididings/util.py:227-232 | every described controller passes `ctrl_number` |
| `Validators.EventType` | mididings/util.py:175-178 | a type is returned exactly when it is one of the engine's event types, else invalid event type |
| `Validators.PortNumber` | mididings/util.py:181-208 | an int is accepted exactly when its engine number is not negative; a name is ambiguous exactly when its first positions in the two lists differ; a name in the input list that is not ambiguous resolves to its offset position there; a name only in the output list resolves to its offset position there; any other name is an invalid port name; other objects are a TypeError |
| `Validators.PortNumberResolved` | mididings/util.py:181-208 | a resolved port name is an int whose engine number indexes that name in one of the lists, and checking it again returns it unchanged |
| `Validators.ChannelNumber` | mididings/util.py:211-216 | an int is returned as it is exactly when its engine number lies in [0, 16) |
| `Validators.ProgramNumber` | mididings/util.py:219-224 | an int is returned exactly when its engine number lies in [0, 128) |
| `Validators.CtrlNumber` | mididings/util.py:227-232 | an int is returned exactly when it lies in [0, 128); no offset applies |
| `Validators.CtrlValue` | mididings/util.py:235-244 | an int is returned exactly when it lies in [0, 128), or [0, 129) with `allow_end` |
| `Validators.CtrlLimit` | mididings/util.py:243-244 | `ctrl_limit` returns an int as it is exactly when it lies in [0, 128], the end 128 included |
| `Validators.CtrlRange` | mididings/util.py:246-253 | a valid single value n gives (n, n + 1); a pair gives both limits, or the first limit's error; anything else is invalid range |
| `Validators.VelocityValue` | mididings/util.py:256-265 | an int is returned exactly when it lies in [0, 128), or [0, 129) with `allow_end` |
| `Validators.VelocityLimit` | mididings/util.py:264-265 | `velocity_limit` returns an int as it is exactly when it lies in [0, 128], the end 128 included |
| `Validators.VelocityRange` | mididings/util.py:267-274 | as `CtrlRange`, for velocities |
| `Validators.SceneNumber` | mididings/util.py:277-282 | an int is returned exactly when its engine number is not negative |
| `Validators.SubsceneNumber` | mididings/util.py:285-290 | an int is returned exactly when its engine number is not negative |
| `Validators.ChannelsFromOne` | mididings/util.py:211-216 | with data offset 1, channel 0 is out of range, channels 1 and 16 are valid, and `NoDataOffset(0)` is valid |
| `Validators.OutputPortByName` | mididings/util.py:194-204 | a name only in the output list, at position 2, is port 3 when ports count from 1 |
| `Validators.SamePositionIsNotAmbiguous` | mididings/util.py:198-200 | a name at one position in both lists resolves; at two different positions it is ambiguous |
| `Validators.ControllerRanges` | mididings/util.py:246-253 | 7 gives (7, 8); (0, 128) is a range; 128 alone and a triple are invalid ranges |
| `Sysex.HexByte` | mididings/util.py:297-300 | a token is a byte exactly when it reads as a hex number in [0, 256) |
| `Sysex.HexPairs` | mididings/util.py:296-297 | a string read in two-character chunks gives one byte per chunk, the last chunk possibly one character |
| `Sysex.HexTokens` | mididings/util.py:300 | one byte per token |
| `Sysex.CharCodes` | mididings/util.py:302 | `bytearray(map(ord, s))` succeeds exactly when every code is below 256, and gives the codes |
| `Sysex.ElementBytes` | mididings/util.py:305 | `bytearray(items)` succeeds exactly when each item is an int in [0, 256), and gives those ints |
| `Sysex.ZeroBytes` | mididings/util.py:305 | `bytearray(n)` is n zero bytes, and fails exactly for negative n |
| `Sysex.SysexToBytes` | mididings/util.py:293-305 | which conversion applies to each kind of input: hex pairs, delimited hex, character codes, a bytearray as it is, zero bytes, or the items |
| `Sysex.HexPairsOfConcat` | mididings/util.py:296-297 | contiguous upper-case hex text reads back as the bytes it was written from |
| `Sysex.HexTokensOfWords` | mididings/util.py:300 | hex words read back as their bytes |
| `Sysex.DelimitedHexRoundTrip` | mididings/util.py:294-300 | "F0 ...", with one delimiter between the hex bytes, converts back to the bytes written |
| `Sysex.HexWordsHaveNoDelimiter` | mididings/util.py:296-300 | no hex word holds a delimiter, so splitting on the third character finds the words again |
| `Sysex.DigitIsNoDelimiter` | mididings/util.py:296 | no hex digit is a delimiter |
| `Sysex.ContiguousHexRoundTrip` | mididings/util.py:294-297 | "F0...", without delimiters, converts back to the bytes written |
| `Sysex.SysexData` | mididings/util.py:309-321 | an accepted message has at least two bytes and starts with F0, and ends with F7 unless partial messages are allowed |
| `Sysex.SysexDataAccepts` | mididings/util.py:309-321 | `sysex_data` accepts exactly a framed message: at least two bytes, F0 first, F7 last unless partial messages are allowed, interior bytes at most 0x7F; it returns the converted bytes |
| `Sysex.DataByteRejected` | mididings/util.py:318-320 | a framed message with an interior byte above 0x7F is rejected for that byte |
| `Sysex.CheckSysexData` | mididings/util.py:309-321 | the loop over the interior bytes gives exactly `SysexData` |
| `Sysex.SysexDataIdempotent` | mididings/util.py:303-321 | checking the result of `sysex_data` again returns it unchanged |
| `Sysex.PartialLastByteUnchecked` | mididings/util.py:315-320 | with partial messages allowed the last byte is not checked at all; without, a missing F7 is an error |
| `Sysex.DelimitedExample` | mididings/util.py:293-300 | "F0 00 20 29 01 F7" converts to the bytes F0 00 20 29 01 F7 |
| `Sysex.ManufacturerId` | mididings/util.py:324-336 | a single value is taken as a one-item list; an id is one byte, or three bytes starting with 0x00, each at most 0x7F; stated for any input, for ints and for lists and tuples |
| `Sysex.CheckManufacturerId` | mididings/util.py:324-336 | the loop over the id's bytes gives exactly `ManufacturerId` |
| `Sysex.ManufacturerExamples` | mididings/util.py:324-336 | 0x43 is an id; (1, 2, 3) lacks the 0x00 prefix; a pair has the wrong length |
| `Sysex.ThreeByteManufacturer` | mididings/util.py:324-336 | (0x00, 0x20, 0x29) is an id |
| `AttributeRefs.AllowEventAttribute` | mididings/util.py:372-378 | a reference comes back unchanged; anything else goes to the wrapped check |
| `AttributeRefs.PortNumberRef` | mididings/util.py:380 | `port_number_ref` is `port_number` except on references, which it returns unchanged |
| `AttributeRefs.ChannelNumberRef` | mididings/util.py:381 | the same for `channel_number` |
| `AttributeRefs.NoteNumberRef` | mididings/util.py:382 | the same for `note_number` |
| `AttributeRefs.VelocityValueRef` | mididings/util.py:383 | the same for `velocity_value` |
| `AttributeRefs.CtrlNumberRef` | mididings/util.py:384 | the same for `ctrl_number` |
| `AttributeRefs.CtrlValueRef` | mididings/util.py:385 | the same for `ctrl_value` |
| `AttributeRefs.ProgramNumberRef` | mididings/util.py:386 | the same for `program_number` |
| `AttributeRefs.SceneNumberRef` | mididings/util.py:387 | the same for `scene_number` |
| `AttributeRefs.SubsceneNumberRef` | mididings/util.py:388 | the same for `subscene_number` |
| `AttributeRefs.ActualRef` | mididings/util.py:389 | the same for `actual` |
| `AttributeRefs.RefsPassOnlyThroughWrappers` | mididings/util.py:372-389 | a reference, which the model takes to be no int, is rejected by every bare check with a TypeError and returned unchanged by its wrapper |
| `EventTypes.KindsAreDistinctBits` | mididings/event.py:16-22 | the five kinds are distinct single bits, and NOTE is exactly NOTEON \| NOTEOFF |
| `Events.RequiredMask` | mididings/event.py:54-57 | each attribute names at least one event kind and nothing but event kinds; note and velocity, and only they, name the note kinds |
| `Events.SlotOf` | mididings/event.py:54-57 | the slot an attribute's property uses is the slot whose generic id is the attribute's id |
| `Events.ReadSlot` | mididings/event.py:43-45 | note and param read `data1`, velocity and value read `data2` |
| `Events.IdsFollowSlots` | mididings/event.py:25-37 | NOTE, PARAM and DATA1 share an id, as do VELOCITY, VALUE, PROGRAM and DATA2; two attributes share an id exactly when they share a slot; PORT and CHANNEL are distinct from both |
| `Events.PermitsByKind` | mididings/event.py:54-57 | note and velocity belong to note events, param to controllers, value to controllers, pitch bends and program changes |
| `Events.PermitsBits` | mididings/event.py:43-57 | the diagnostic is not given exactly when the type has one of the attribute's kind bits |
| `Events.WriteSlot` | mididings/event.py:47-50 | a write sets its slot, keeps the type and keeps the other slot |
| `Events.ReadAfterWrite` | mididings/event.py:41-57 | reading after a write gives the written value when both attributes share a slot, the old value otherwise |
| `Events.AliasedWrites` | mididings/event.py:54-57 | writing note shows through param, writing velocity shows through value, and neither changes the other slot |
| `Events.LastWriteWins` | mididings/event.py:47-50 | of two writes to one slot the second stays |
| `Events.WriteKeepsPermits` | mididings/event.py:47-50 | a write does not change which attributes the event supports |
| `Events.ControllerExample` | mididings/event.py:41-57 | a controller event with data 7 and 64 reads param 7 and value 64; note would read 7 but is a misuse |
| `Events.MidiEvent.constructor` | mididings/event.py:40 | a new event holds the given type and data |
| `Events.MidiEvent.Get` | mididings/event.py:42-45 | the getter reports misuse exactly when the type lacks the attribute's kinds, and returns the attribute's slot either way |
| `Events.MidiEvent.Set` | mididings/event.py:47-50 | the setter reports misuse in the same way, and writes the attribute's slot either way, changing nothing else |
| `Events.SetThenGet` | mididings/event.py:41-52 | a get after a set of the same attribute returns the value set, with the same diagnostic |

## Left out

- Console output: the `print` of the attribute diagnostic is the boolean `misuse`.
- Global configuration: `_setup.get_config('octave_offset')`, `get_config('data_offset')` and the port name lists are parameters.
- `_mididings.MidiEvent`, the C++ base class: the class `Events.MidiEvent` keeps only the type and the two data slots.
- `Events.MidiEvent`: the data slots are unbounded integers and the type mask is 32 bits wide; the C++ field widths are not modelled.
- `_constants._EventAttribute` is the value variant `Ref`, and `_constants._EVENT_TYPES` is a set passed to `EventType`.
- `_misc.issequence(x, True)` is not part of this model; it is taken to hold of lists and tuples only.
- `Text.ParseInt`: Python 2's `int(s, base)` also accepts surrounding whitespace and, in base 16, a `0x` prefix; the model accepts only an optional sign and digits. Inputs such as `"c4 "` or `"F0, 43"` are therefore rejected where Python accepts them.
- `Text.Lower` and `Text.IsDigit`: only ASCII letters and digits; Python's Unicode case mapping and digit classes are not modelled.
- `Offsets.Offset`: floats and other non-int numbers are not values of the model; Python's `offset(2.5)` is `2.5` plus the data offset, where the model's non-int values give a TypeError.
- `Offsets.Actual`: likewise, Python's `actual(2.5)` is `2.5` minus the data offset; only ints are modelled.
- `AttributeRefs.RefsPassOnlyThroughWrappers`: the model takes a reference (`_constants._EventAttribute`, whose class is not part of this model) to be no int, so the bare checks reject it with a TypeError; the attribute ids in `mididings/event.py` are negative ints, and a reference that were an int would instead meet the bare checks' range tests.
- Python 2 `long`: `isinstance(x, int)` is false for a long, so `note_number(60L)` and the other checks raise TypeError on one; longs are not values of the model.
- `bool` being an `int`: `True` and `False` are not values of the model.
- `Validators.ControllerName` takes an int. In Python a value equal to a described number is described too (`controller_name(7.0)` is `'Volume'`), another hashable object gives None, and an unhashable one (a list) raises TypeError.
- `Notes.TonicNoteNumber` takes a string. In Python another hashable key is a KeyError as well, but an unhashable key (a list) raises TypeError.
- `Notes.NoteRange`, `Validators.CtrlRange` and `Validators.VelocityRange` return plain integers; a `NoDataOffset` end keeps its class in Python.
- `NoDataOffset.__repr__` and `__str__`: string formatting only.
- Exception messages are reduced to the `Fault` tag naming the rule that failed.
- `Sysex.ElementBytes`: Python 2's `bytearray(items)` also takes one-character strings and other objects with `__index__` as items; the model takes ints only.
- `bytearray` of other iterables (generators, `bytes`, sets): only lists, tuples, ints, strings and bytearrays are inputs of `Sysex.SysexToBytes`.
