/** Note names and numbers: note_number, note_limit, note_range, note_name and
    tonic_note_number.  The octave offset (a configuration option: the octave
    number of MIDI note 0 is minus it) is passed in as a parameter.
 */
module Notes {
  import opened Values
  import opened Text

  /** Each note name with its pitch class: the sharps, and the flats that
      sound the same. */
  function NoteNumberTable(): seq<(string, int)> {
    [
    ("c", 0),
    ("c#", 1), ("db", 1),
    ("d", 2),
    ("d#", 3), ("eb", 3),
    ("e", 4),
    ("f", 5),
    ("f#", 6), ("gb", 6),
    ("g", 7),
    ("g#", 8), ("ab", 8),
    ("a", 9),
    ("a#", 10), ("bb", 10),
    ("b", 11)
    ]
  }

  /** The pitch class of a natural note's letter. */
  function LetterClass(c: char): Option<int> {
    match c
    case 'c' => Some(0)
    case 'd' => Some(2)
    case 'e' => Some(4)
    case 'f' => Some(5)
    case 'g' => Some(7)
    case 'a' => Some(9)
    case 'b' => Some(11)
    case _ => None
  }

  /** _NOTE_NUMBERS.get(name), read off the name: a letter, then '#' for the
      sharps of c, d, f, g and a, or 'b' for the flats of d, e, g, a and b.
      PitchClassIsLookup proves it the same as looking the name up in the
      table. */
  function PitchClass(name: string): (r: Option<int>)
    ensures r.Some? ==> 0 <= r.value < 12
    ensures r.Some? ==> 1 <= |name| <= 2 && 'a' <= name[0] <= 'g' && (|name| == 2 ==> name[1] == '#' || name[1] == 'b')
  {
    if |name| == 0 || |name| > 2 || LetterClass(name[0]).None? then None
    else
      var p := LetterClass(name[0]).value;
      if |name| == 1 then Some(p)
      else if name[1] == '#' && name[0] != 'e' && name[0] != 'b' then Some(p + 1)
      else if name[1] == 'b' && name[0] != 'c' && name[0] != 'f' then Some(p - 1)
      else None
  }

  /** _NOTE_NAMES: the canonical (sharp) name of each pitch class, the
      pitch class being the position; the dict's keys are exactly 0 to 11. */
  const NoteNames: seq<string> := ["c", "c#", "d", "d#", "e", "f", "f#", "g", "g#", "a", "a#", "b"]

  /** The table is a dict: no name has two entries. */
  lemma NoteNamesDistinct()
    ensures forall i, j :: 0 <= i < j < |NoteNumberTable()| ==> NoteNumberTable()[i].0 != NoteNumberTable()[j].0
  {
  }

  /** Every entry of the table reads as its own pitch class. */
  lemma TableEntriesRead()
    ensures forall i :: 0 <= i < |NoteNumberTable()| ==> PitchClass(NoteNumberTable()[i].0) == Some(NoteNumberTable()[i].1)
  {
  }

  /** Every name that reads as a pitch class has an entry in the table. */
  lemma ReadNameInTable(name: string) returns (i: nat)
    requires PitchClass(name).Some?
    ensures i < |NoteNumberTable()| && NoteNumberTable()[i].0 == name
  {
    var j := match name[0]
      case 'c' => 0 case 'd' => 3 case 'e' => 6 case 'f' => 7
      case 'g' => 10 case 'a' => 13 case _ => 16;
    if |name| == 1 {
      i := j;
      assert name == [name[0]];
    } else {
      i := if name[1] == '#' then j + 1 else j - 1;
      assert name == [name[0], name[1]];
    }
  }

  /** Reading a name is looking it up in the table: the same pitch class for
      the seventeen names, and None for every other string. */
  lemma PitchClassIsLookup(name: string)
    ensures PitchClass(name) == Lookup(NoteNumberTable(), name)
  {
    var table := NoteNumberTable();
    if PitchClass(name).Some? {
      var i := ReadNameInTable(name);
      NoteNamesDistinct();
      LookupEntry(table, i);
      TableEntriesRead();
    } else if Lookup(table, name).Some? {
      var i := LookupIndex(table, name);
      TableEntriesRead();
    }
  }

  /** Each canonical name reads as its own pitch class. */
  lemma CanonicalNamesReadBack()
    ensures |NoteNames| == 12
    ensures forall k :: 0 <= k < 12 ==> PitchClass(NoteNames[k]) == Some(k)
  {
    forall k | 0 <= k < 12 ensures PitchClass(NoteNames[k]) == Some(k) {
      CanonicalNameReadsBack(k);
    }
  }

  lemma CanonicalNameReadsBack(k: int)
    requires 0 <= k < 12
    ensures PitchClass(NoteNames[k]) == Some(k)
  {
    match k
    case 0 => assert PitchClass("c") == Some(0);
    case 1 => assert PitchClass("c#") == Some(1);
    case 2 => assert PitchClass("d") == Some(2);
    case 3 => assert PitchClass("d#") == Some(3);
    case 4 => assert PitchClass("e") == Some(4);
    case 5 => assert PitchClass("f") == Some(5);
    case 6 => assert PitchClass("f#") == Some(6);
    case 7 => assert PitchClass("g") == Some(7);
    case 8 => assert PitchClass("g#") == Some(8);
    case 9 => assert PitchClass("a") == Some(9);
    case 10 => assert PitchClass("a#") == Some(10);
    case 11 => assert PitchClass("b") == Some(11);
  }

  /** Where the octave begins: a digit or a minus sign. */
  predicate IsOctaveChar(c: char) {
    IsDigit(c) || c == '-'
  }

  /** The first octave character at or after `from`, or |s| when there is none. */
  function FirstOctaveChar(s: string, from: nat): (i: nat)
    requires from <= |s|
    ensures from <= i <= |s|
    ensures i < |s| ==> IsOctaveChar(s[i])
    decreases |s| - from
  {
    if from == |s| then |s|
    else if IsOctaveChar(s[from]) then from
    else FirstOctaveChar(s, from + 1)
  }

  /** No octave character comes before the one found ... */
  lemma {:induction false} FirstOctaveCharIsFirst(s: string, from: nat)
    requires from <= |s|
    ensures forall j :: from <= j < FirstOctaveChar(s, from) ==> !IsOctaveChar(s[j])
    decreases |s| - from
  {
    if from < |s| && !IsOctaveChar(s[from]) {
      FirstOctaveCharIsFirst(s, from + 1);
    }
  }

  /** ... and any position with that property is the one found. */
  lemma {:induction false} FirstOctaveCharIs(s: string, from: nat, i: nat)
    requires from <= i <= |s|
    requires i < |s| ==> IsOctaveChar(s[i])
    requires forall j :: from <= j < i ==> !IsOctaveChar(s[j])
    ensures FirstOctaveChar(s, from) == i
    decreases i - from
  {
    if from < i {
      FirstOctaveCharIs(s, from + 1, i);
    }
  }

  /** The loop variable of note_number's scan once the loop is over: the first
      digit or '-', else the last index, as Python leaves it; None for the
      empty string, where the loop never binds it.  ScanStops states where it
      stops. */
  function ScanIndex(s: string): (r: Option<nat>)
    ensures r.None? <==> |s| == 0
    ensures r.Some? ==> r.value < |s|
  {
    if |s| == 0 then None
    else
      var i := FirstOctaveChar(s, 0);
      Some(if i < |s| then i else |s| - 1)
  }

  /** The scan stops at the first digit or '-', or at the last character when
      there is none. */
  lemma ScanStops(s: string)
    requires |s| > 0
    ensures var i := ScanIndex(s).value;
            (forall j :: 0 <= j < i ==> !IsOctaveChar(s[j])) &&
            (IsOctaveChar(s[i]) || (i == |s| - 1 && forall j :: 0 <= j < |s| ==> !IsOctaveChar(s[j])))
  {
    FirstOctaveCharIsFirst(s, 0);
  }

  /** The scan itself: stop at the first digit or '-'. */
  method FindOctave(note: string) returns (bound: bool, i: nat)
    ensures bound <==> |note| > 0
    ensures bound ==> ScanIndex(note) == Some(i)
  {
    bound, i := false, 0;
    var k := 0;
    while k < |note|
      invariant k <= |note|
      invariant bound <==> k > 0
      invariant bound ==> i == k - 1
      invariant forall j :: 0 <= j < k ==> !IsOctaveChar(note[j])
    {
      bound, i := true, k;
      if IsOctaveChar(note[k]) {
        FirstOctaveCharIs(note, 0, k);
        break;
      }
      k := k + 1;
    }
    if k == |note| {
      FirstOctaveCharIs(note, 0, k);
    }
  }

  /** The number a note name stands for, before the range check: the name is
      what precedes the octave, the octave is an int, and either failing is
      "invalid note name". */
  function ParseNoteName(note: string, octaveOffset: int): (r: Result<int>)
    ensures r.Err? ==> r.error == ValueError(InvalidNoteName)
  {
    var t := Lower(note);
    match ScanIndex(t)
    case None => Err(ValueError(InvalidNoteName))
    case Some(i) =>
      match ParseInt(t[i..], 10)
      case None => Err(ValueError(InvalidNoteName))
      case Some(octave) =>
        match PitchClass(t[..i])
        case None => Err(ValueError(InvalidNoteName))
        case Some(p) => Ok(p + (octave + octaveOffset) * 12)
  }

  /** One past the largest note number accepted. */
  function NoteEnd(allowEnd: bool): int {
    if allowEnd then 129 else 128
  }

  /** The range check that ends note_number, for a note read from a string. */
  function CheckedNote(n: int, allowEnd: bool): (r: Result<Value>)
    ensures r.Ok? <==> 0 <= n < NoteEnd(allowEnd)
    ensures r.Ok? ==> r.value == Int(n)
    ensures r.Err? ==> r.error == ValueError(OutOfRange)
  {
    if 0 <= n < NoteEnd(allowEnd) then Ok(Int(n)) else Err(ValueError(OutOfRange))
  }

  /** note_number(note, allow_end). */
  function NoteNumber(note: Value, allowEnd: bool, octaveOffset: int): (r: Result<Value>)
    ensures r.Ok? ==> r.value.IsInt() && 0 <= r.value.AsInt() < NoteEnd(allowEnd)
    ensures note.IsInt() ==>
              r == if 0 <= note.AsInt() < NoteEnd(allowEnd) then Ok(note) else Err(ValueError(OutOfRange))
    ensures note.Str? && r.Ok? ==> r.value.Int?
    ensures note.Str? && r.Err? ==> r.error.ValueError?
    ensures !note.IsInt() && !note.Str? ==> r == Err(TypeError)
  {
    if note.IsInt() then
      if 0 <= note.AsInt() < NoteEnd(allowEnd) then Ok(note) else Err(ValueError(OutOfRange))
    else if note.Str? then
      var n :- ParseNoteName(note.s, octaveOffset);
      CheckedNote(n, allowEnd)
    else Err(TypeError)
  }

  /** note_limit: a note number that may also be the exclusive end 128. */
  function NoteLimit(note: Value, octaveOffset: int): (r: Result<Value>)
    ensures r.Ok? ==> r.value.IsInt() && 0 <= r.value.AsInt() <= 128
    ensures note.IsInt() ==> (r.Ok? <==> 0 <= note.AsInt() <= 128) && (r.Ok? ==> r.value == note)
  {
    NoteNumber(note, true, octaveOffset)
  }

  /** The scan of a name followed by an octave stops where the octave begins. */
  lemma ScanOfSplit(t: string, name: string, octave: string)
    requires t == name + octave
    requires forall j :: 0 <= j < |name| ==> !IsOctaveChar(name[j])
    requires |octave| > 0 && IsOctaveChar(octave[0])
    ensures ScanIndex(t) == Some(|name|)
    ensures t[..|name|] == name && t[|name|..] == octave
  {
    assert t[|name|] == octave[0];
    assert forall j :: 0 <= j < |name| ==> t[j] == name[j];
    FirstOctaveCharIs(t, 0, |name|);
  }

  /** A name in the table is free of octave characters. */
  lemma TableNameHasNoOctave(name: string)
    requires PitchClass(name).Some?
    ensures forall j :: 0 <= j < |name| ==> !IsOctaveChar(name[j])
  {
  }

  /** A name followed by an octave (both as the user spelled them, up to
      case) is the name's pitch class plus twelve per octave, shifted by the
      octave offset, if that lands in range. */
  lemma NoteNumberOfName(s: string, name: string, octave: string, p: int, k: int, allowEnd: bool, octaveOffset: int)
    requires Lower(s) == name + octave
    requires PitchClass(name) == Some(p)
    requires |octave| > 0 && IsOctaveChar(octave[0]) && ParseInt(octave, 10) == Some(k)
    ensures NoteNumber(Str(s), allowEnd, octaveOffset) == CheckedNote(p + (k + octaveOffset) * 12, allowEnd)
  {
    TableNameHasNoOctave(name);
    ScanOfSplit(Lower(s), name, octave);
    assert ParseNoteName(s, octaveOffset) == Ok(p + (k + octaveOffset) * 12);
  }

  /** A name the table lacks, or an octave that is not an int, is an invalid
      note name. */
  lemma NoteNumberOfBadName(s: string, name: string, octave: string, allowEnd: bool, octaveOffset: int)
    requires Lower(s) == name + octave
    requires forall j :: 0 <= j < |name| ==> !IsOctaveChar(name[j])
    requires |octave| > 0 && IsOctaveChar(octave[0])
    requires PitchClass(name).None? || ParseInt(octave, 10).None?
    ensures NoteNumber(Str(s), allowEnd, octaveOffset) == Err(ValueError(InvalidNoteName))
  {
    ScanOfSplit(Lower(s), name, octave);
    assert ParseNoteName(s, octaveOffset) == Err(ValueError(InvalidNoteName));
  }

  /** Conversely, a string note number always came from such a split. */
  lemma NoteNameParts(s: string, allowEnd: bool, octaveOffset: int) returns (name: string, octave: string, k: int)
    requires NoteNumber(Str(s), allowEnd, octaveOffset).Ok?
    ensures Lower(s) == name + octave && PitchClass(name).Some?
    ensures |octave| > 0 && IsOctaveChar(octave[0]) && ParseInt(octave, 10) == Some(k)
    ensures NoteNumber(Str(s), allowEnd, octaveOffset) == Ok(Int(PitchClass(name).value + (k + octaveOffset) * 12))
  {
    var t := Lower(s);
    var i := ScanIndex(t).value;
    name, octave := t[..i], t[i..];
    k := ParseInt(octave, 10).value;
    assert t == name + octave;
    assert octave[0] == t[i];
  }

  /** note_name(note). */
  function NoteName(note: Value, octaveOffset: int): (r: Result<string>)
    ensures r.Err? <==> !note.IsInt()
    ensures r.Err? ==> r.error == TypeError
  {
    if note.IsInt() then Ok(NoteNames[note.AsInt() % 12] + IntToString(note.AsInt() / 12 - octaveOffset))
    else Err(TypeError)
  }

  /** note_number(note_name(n)) == n for every note, whatever the octave offset. */
  lemma NoteNameRoundTrip(n: int, octaveOffset: int)
    requires 0 <= n < 128
    ensures NoteNumber(Str(NoteName(Int(n), octaveOffset).value), false, octaveOffset) == Ok(Int(n))
  {
    var p, k := n % 12, n / 12 - octaveOffset;
    assert p + (k + octaveOffset) * 12 == n;
    NoteNameOfClassAndOctave(p, k, octaveOffset);
    NoteNumberOfCanonicalName(p, k, octaveOffset);
  }

  /** The canonical name of pitch class p followed by the written octave k
      reads as p plus twelve per octave, shifted by the octave offset. */
  lemma NoteNumberOfCanonicalName(p: int, k: int, octaveOffset: int)
    requires 0 <= p < 12
    requires 0 <= p + (k + octaveOffset) * 12 < 128
    ensures NoteNumber(Str(NoteNames[p] + IntToString(k)), false, octaveOffset) ==
              Ok(Int(p + (k + octaveOffset) * 12))
  {
    CanonicalNameReadsBack(p);
    NoteNumberOfWrittenOctave(NoteNames[p], p, k, octaveOffset);
  }

  /** A table name followed by a written integer k reads as the name's pitch
      class plus twelve per octave, shifted by the octave offset. */
  lemma NoteNumberOfWrittenOctave(name: string, p: int, k: int, octaveOffset: int)
    requires PitchClass(name) == Some(p)
    ensures NoteNumber(Str(name + IntToString(k)), false, octaveOffset) == CheckedNote(p + (k + octaveOffset) * 12, false)
  {
    var octave := IntToString(k);
    assert Lower(name + octave) == name + octave by {
      LowerOfNoteName(name, octave);
    }
    assert ParseInt(octave, 10) == Some(k) by {
      ParseIntToString(k);
    }
    NoteNumberOfName(name + octave, name, octave, p, k, false, octaveOffset);
  }

  /** A canonical name followed by a written integer is already lower case. */
  lemma LowerOfNoteName(name: string, octave: string)
    requires PitchClass(name).Some?
    requires forall j :: 0 <= j < |octave| ==> octave[j] == '-' || IsDigit(octave[j])
    ensures Lower(name + octave) == name + octave
  {
    var s := name + octave;
    forall j | 0 <= j < |s| ensures !('A' <= s[j] <= 'Z') {
      if j < |name| { assert s[j] == name[j]; } else { assert s[j] == octave[j - |name|]; }
    }
    LowerOfPlain(s);
  }

  /** note_name(note_number(s)) spells the same pitch class and octave as `s`,
      with the canonical (sharp) name. */
  lemma NameOfParsedNote(s: string, name: string, octave: string, k: int, octaveOffset: int)
    requires Lower(s) == name + octave
    requires PitchClass(name).Some?
    requires |octave| > 0 && IsOctaveChar(octave[0]) && ParseInt(octave, 10) == Some(k)
    requires NoteNumber(Str(s), false, octaveOffset).Ok?
    ensures 0 <= PitchClass(name).value < 12
    ensures NoteName(NoteNumber(Str(s), false, octaveOffset).value, octaveOffset) ==
              Ok(NoteNames[PitchClass(name).value] + IntToString(k))
  {
    var p := PitchClass(name).value;
    NoteNumberOfName(s, name, octave, p, k, false, octaveOffset);
    var v := NoteNumber(Str(s), false, octaveOffset).value;
    assert v == Int(p + (k + octaveOffset) * 12);
    NoteNameOfClassAndOctave(p, k, octaveOffset);
  }

  /** note_name of pitch class p, in the octave written k, names p and k. */
  lemma NoteNameOfClassAndOctave(p: int, k: int, octaveOffset: int)
    requires 0 <= p < 12
    ensures NoteName(Int(p + (k + octaveOffset) * 12), octaveOffset) == Ok(NoteNames[p] + IntToString(k))
  {
    var q := k + octaveOffset;
    var n := p + q * 12;
    assert n % 12 == p && n / 12 == q;
    assert n / 12 - octaveOffset == k;
  }

  /** A string holding ':' is never a single note. */
  lemma ColonIsNoNote(s: string, allowEnd: bool, octaveOffset: int)
    requires ':' in s
    ensures NoteNumber(Str(s), allowEnd, octaveOffset).Err?
  {
    var t := Lower(s);
    var c := IndexOf(s, ':');
    LowerAt(s, c);
    var i := ScanIndex(t).value;
    if i <= c {
      var o := t[i..];
      assert o[c - i] == ':';
      assert ParseInt(o, 10).None?;
    } else {
      assert t[..i][c] == ':';
    }
  }

  /** A result of the range parsers whose value errors become "invalid range";
      a TypeError passes through. */
  function AsRangeError<T>(r: Result<T>): Result<T> {
    if r.Err? && r.error.ValueError? then Err(ValueError(InvalidRange)) else r
  }

  /** (note_limit(notes[0]), note_limit(notes[1])); a missing item is an IndexError. */
  function TupleLimits(items: seq<Value>, octaveOffset: int): (r: Result<(int, int)>)
    ensures r.Ok? ==> 0 <= r.value.0 <= 128 && 0 <= r.value.1 <= 128
    ensures |items| < 2 ==> r.Err?
  {
    if |items| == 0 then Err(ValueError(InvalidRange))
    else
      var lo :- NoteLimit(items[0], octaveOffset);
      if |items| == 1 then Err(ValueError(InvalidRange))
      else
        var hi :- NoteLimit(items[1], octaveOffset);
        Ok((lo.AsInt(), hi.AsInt()))
  }

  /** One side of "lower:upper"; an empty side is 0. */
  function SideLimit(side: string, octaveOffset: int): (r: Result<int>)
    ensures r.Ok? ==> 0 <= r.value <= 128
    ensures r.Err? ==> r.error.ValueError?
  {
    if side == "" then Ok(0)
    else
      var n :- NoteLimit(Str(side), octaveOffset);
      Ok(n.AsInt())
  }

  function StringLimits(s: string, octaveOffset: int): (r: Result<(int, int)>)
    ensures r.Ok? ==> 0 <= r.value.0 <= 128 && 0 <= r.value.1 <= 128
    ensures r.Err? ==> r.error.ValueError?
    ensures ':' !in s ==> r.Err?
  {
    var parts := SplitOnce(s, ':');
    var lo :- SideLimit(parts[0], octaveOffset);
    if |parts| < 2 then Err(ValueError(InvalidRange))
    else
      var hi :- SideLimit(parts[1], octaveOffset);
      Ok((lo, hi))
  }

  /** note_range(notes): a single note n is (n, n + 1); a tuple gives the
      limits of its first two items; a string gives the limits of the two
      sides of its first ':'.  Nothing orders the two ends. */
  function NoteRange(notes: Value, octaveOffset: int): (r: Result<(int, int)>)
    ensures r.Ok? ==> 0 <= r.value.0 <= 128 && 0 <= r.value.1 <= 128
    ensures NoteNumber(notes, false, octaveOffset).Ok? ==>
              var n := NoteNumber(notes, false, octaveOffset).value.AsInt();
              r == Ok((n, n + 1))
    ensures notes.Tuple? && |notes.items| >= 2 ==>
              var lo, hi := NoteLimit(notes.items[0], octaveOffset), NoteLimit(notes.items[1], octaveOffset);
              r == if lo.Ok? && hi.Ok? then Ok((lo.value.AsInt(), hi.value.AsInt()))
                   else if lo.Err? then AsRangeError(Err(lo.error))
                   else AsRangeError(Err(hi.error))
    ensures notes.Tuple? && |notes.items| < 2 ==> r.Err?
    ensures notes.Str? && ':' !in notes.s && NoteNumber(notes, false, octaveOffset).Err? ==>
              r == Err(ValueError(InvalidRange))
    ensures !notes.Tuple? && !notes.Str? && NoteNumber(notes, false, octaveOffset).Err? ==>
              r == Err(TypeError)
  {
    var single := NoteNumber(notes, false, octaveOffset);
    if single.Ok? then Ok((single.value.AsInt(), single.value.AsInt() + 1))
    else
      match notes
      case Tuple(items) => AsRangeError(TupleLimits(items, octaveOffset))
      case Str(s) => AsRangeError(StringLimits(s, octaveOffset))
      case _ => Err(TypeError)
  }

  /** note_range("lower:upper"): the limits of the two sides, an empty side
      giving 0 (also for the upper side); any bad side is an invalid range. */
  lemma NoteRangeOfString(lo: string, hi: string, octaveOffset: int)
    requires ':' !in lo
    ensures var l := if lo == "" then Ok(Int(0)) else NoteLimit(Str(lo), octaveOffset);
            var h := if hi == "" then Ok(Int(0)) else NoteLimit(Str(hi), octaveOffset);
            NoteRange(Str(lo + ":" + hi), octaveOffset) ==
              if l.Ok? && h.Ok? then Ok((l.value.AsInt(), h.value.AsInt())) else Err(ValueError(InvalidRange))
  {
    var s := lo + ":" + hi;
    assert s[|lo|] == ':';
    ColonIsNoNote(s, false, octaveOffset);
    assert IndexOf(s, ':') == |lo|;
    assert s[..|lo|] == lo && s[|lo| + 1..] == hi;
    assert SplitOnce(s, ':') == [lo, hi];
    assert NoteRange(Str(s), octaveOffset) == AsRangeError(StringLimits(s, octaveOffset));
  }

  /** tonic_note_number(key): the entry of _NOTE_NUMBERS for the key. */
  function TonicNoteNumber(key: string): (r: Result<int>)
    ensures var entry := Lookup(NoteNumberTable(), key);
            && (r.Ok? <==> entry.Some?)
            && (r.Ok? ==> r.value == entry.value)
    ensures r.Err? ==> r.error == KeyError
    ensures r.Ok? ==> 0 <= r.value < 12 && PitchClass(NoteNames[r.value]) == Some(r.value)
  {
    PitchClassIsLookup(key);
    CanonicalNamesReadBack();
    match PitchClass(key)
    case None => Err(KeyError)
    case Some(p) => Ok(p)
  }

  // Examples, with octave offset 1 (C4 is middle C).

  lemma MiddleC()
    ensures NoteNumber(Str("c4"), false, 1) == Ok(Int(60))
    ensures NoteLimit(Str("c4"), 1) == Ok(Int(60))
  {
    ParseIntToString(4);
    assert PitchClass("c") == Some(0);
    assert Lower("c4") == "c" + "4";
    NoteNumberOfName("c4", "c", "4", 0, 4, false, 1);
    NoteNumberOfName("c4", "c", "4", 0, 4, true, 1);
  }

  lemma UpperC()
    ensures NoteLimit(Str("c5"), 1) == Ok(Int(72))
  {
    ParseIntToString(5);
    assert PitchClass("c") == Some(0);
    assert Lower("c5") == "c" + "5";
    NoteNumberOfName("c5", "c", "5", 0, 5, true, 1);
  }

  lemma SharpName()
    ensures NoteNumber(Str("C#4"), false, 1) == Ok(Int(61))
  {
    ParseIntToString(4);
    assert PitchClass("c#") == Some(1);
    assert Lower("C#4") == "c#" + "4";
    NoteNumberOfName("C#4", "c#", "4", 1, 4, false, 1);
  }

  lemma OctaveRange()
    ensures NoteRange(Str("c4:c5"), 1) == Ok((60, 72))
  {
    MiddleC();
    UpperC();
    assert "c4" + ":" + "c5" == "c4:c5";
    NoteRangeOfString("c4", "c5", 1);
  }

  /** An empty upper side is 0, not the end of the range. */
  lemma EmptyUpperSide()
    ensures NoteRange(Str("c4:"), 1) == Ok((60, 0))
  {
    MiddleC();
    assert "c4" + ":" + "" == "c4:";
    NoteRangeOfString("c4", "", 1);
  }

  /** A tuple range is taken as given, even when it is empty or reversed. */
  lemma NoteRangeTupleUnordered(octaveOffset: int)
    ensures NoteRange(Tuple([Int(5), Int(2)]), octaveOffset) == Ok((5, 2))
  {
  }
}
