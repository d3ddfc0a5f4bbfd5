/** System exclusive messages: sysex_to_bytearray turns a textual or binary
    description into bytes; sysex_data checks the framing (F0 ... F7, data
    bytes at most 0x7F) and sysex_manufacturer checks a manufacturer id.
 */
module Sysex {
  import opened Values
  import opened Text

  /** The characters that, in third position after "F0", separate hex bytes. */
  const Delimiters: set<char> := {',', ' ', '\U{000C}', '\n', '\r', '\t', '\U{000B}'}

  /** int(token, 16), stored into a bytearray. */
  function HexByte(token: string): (r: Result<byte>)
    ensures r.Ok? <==> ParseInt(token, 16).Some? && 0 <= ParseInt(token, 16).value < 256
    ensures r.Ok? ==> r.value == ParseInt(token, 16).value
  {
    match ParseInt(token, 16)
    case None => Err(ValueError(BadLiteral))
    case Some(n) => if 0 <= n < 256 then Ok(n) else Err(ValueError(ByteRange))
  }

  /** The bytes of s[0:2], s[2:4], ... read as hex numbers. */
  function HexPairs(s: string): (r: Result<seq<byte>>)
    ensures r.Ok? ==> |r.value| == (|s| + 1) / 2
    decreases |s|
  {
    if |s| == 0 then Ok([])
    else
      var k := if |s| < 2 then |s| else 2;
      var b :- HexByte(s[..k]);
      var rest :- HexPairs(s[k..]);
      Ok([b] + rest)
  }

  /** The bytes of the tokens read as hex numbers. */
  function HexTokens(tokens: seq<string>): (r: Result<seq<byte>>)
    ensures r.Ok? ==> |r.value| == |tokens|
  {
    if |tokens| == 0 then Ok([])
    else
      var b :- HexByte(tokens[0]);
      var rest :- HexTokens(tokens[1..]);
      Ok([b] + rest)
  }

  /** bytearray(map(ord, s)): the character codes, each of which must fit a byte. */
  function CharCodes(s: string): (r: Result<seq<byte>>)
    ensures r.Ok? <==> forall i :: 0 <= i < |s| ==> s[i] as int < 256
    ensures r.Ok? ==> |r.value| == |s| && forall i :: 0 <= i < |s| ==> r.value[i] == s[i] as int
    ensures r.Err? ==> r.error == ValueError(ByteRange)
  {
    if |s| == 0 then Ok([])
    else if s[0] as int >= 256 then Err(ValueError(ByteRange))
    else
      var rest :- CharCodes(s[1..]);
      Ok([s[0] as int] + rest)
  }

  /** bytearray(items): every item an int that fits a byte. */
  function ElementBytes(items: seq<Value>): (r: Result<seq<byte>>)
    ensures r.Ok? <==> forall i :: 0 <= i < |items| ==> items[i].IsInt() && 0 <= items[i].AsInt() < 256
    ensures r.Ok? ==> |r.value| == |items| && forall i :: 0 <= i < |items| ==> r.value[i] == items[i].AsInt()
  {
    if |items| == 0 then Ok([])
    else if !items[0].IsInt() then Err(TypeError)
    else if !(0 <= items[0].AsInt() < 256) then Err(ValueError(ByteRange))
    else
      var rest :- ElementBytes(items[1..]);
      Ok([items[0].AsInt()] + rest)
  }

  /** bytearray(n) of an int: n zero bytes. */
  function ZeroBytes(n: int): (r: Result<seq<byte>>)
    ensures r.Ok? <==> n >= 0
    ensures r.Ok? ==> |r.value| == n && forall i :: 0 <= i < n ==> r.value[i] == 0
  {
    if n < 0 then Err(ValueError(NegativeCount)) else Ok(seq(n, _ => 0))
  }

  predicate StartsWithF0(s: string) {
    |s| >= 2 && (s[0] == 'F' || s[0] == 'f') && s[1] == '0'
  }

  /** sysex_to_bytearray(sysex).  A string starting with "F0" or "f0" is hex:
      delimited when its third character is a delimiter, else in contiguous
      pairs; any other string is taken character by character.  A bytearray
      is returned as it is; anything else goes to bytearray(). */
  function SysexToBytes(sysex: Value): (r: Result<seq<byte>>)
    ensures sysex.Bytes? ==> r == Ok(sysex.bytes)
    ensures sysex.Str? && !StartsWithF0(sysex.s) ==> r == CharCodes(sysex.s)
    ensures sysex.Str? && StartsWithF0(sysex.s) && (|sysex.s| < 3 || sysex.s[2] !in Delimiters) ==>
              r == HexPairs(sysex.s)
    ensures sysex.Str? && StartsWithF0(sysex.s) && |sysex.s| >= 3 && sysex.s[2] in Delimiters ==>
              r == HexTokens(Split(sysex.s, sysex.s[2]))
    ensures sysex.IsInt() ==> r == ZeroBytes(sysex.AsInt())
    ensures (sysex.Tuple? || sysex.List?) ==> r == ElementBytes(sysex.items)
    ensures sysex.Ref? || sysex.Other? ==> r == Err(TypeError)
  {
    match sysex
    case Str(s) =>
      if StartsWithF0(s) then
        if |s| < 3 || s[2] !in Delimiters then HexPairs(s) else HexTokens(Split(s, s[2]))
      else CharCodes(s)
    case Bytes(b) => Ok(b)
    case Int(n) => ZeroBytes(n)
    case NoOffset(n) => ZeroBytes(n)
    case Tuple(items) => ElementBytes(items)
    case List(items) => ElementBytes(items)
    case Ref(_) => Err(TypeError)
    case Other => Err(TypeError)
  }

  // Writing bytes as hex text, to show that both hex forms read back.

  /** Two upper-case hex digits. */
  function Hex2(b: byte): string {
    [DigitChar(b / 16), DigitChar(b % 16)]
  }

  function HexWords(bytes: seq<byte>): (words: seq<string>)
    ensures |words| == |bytes|
    ensures forall i :: 0 <= i < |bytes| ==> words[i] == Hex2(bytes[i])
  {
    if |bytes| == 0 then [] else [Hex2(bytes[0])] + HexWords(bytes[1..])
  }

  function HexConcat(bytes: seq<byte>): (s: string)
    ensures |s| == 2 * |bytes|
  {
    if |bytes| == 0 then "" else Hex2(bytes[0]) + HexConcat(bytes[1..])
  }

  lemma HexByteOfHex2(b: byte)
    ensures HexByte(Hex2(b)) == Ok(b)
  {
    var s := Hex2(b);
    assert s[..1] == [DigitChar(b / 16)] && s[..1][..0] == [];
    assert NumeralValue(s[..1], 16) == b / 16;
    assert NumeralValue(s, 16) == (b / 16) * 16 + b % 16;
  }

  lemma {:induction false} HexPairsOfConcat(bytes: seq<byte>)
    ensures HexPairs(HexConcat(bytes)) == Ok(bytes)
  {
    if |bytes| > 0 {
      var s := HexConcat(bytes);
      assert s[..2] == Hex2(bytes[0]) && s[2..] == HexConcat(bytes[1..]);
      HexByteOfHex2(bytes[0]);
      HexPairsOfConcat(bytes[1..]);
      assert bytes == [bytes[0]] + bytes[1..];
    }
  }

  lemma {:induction false} HexTokensOfWords(bytes: seq<byte>)
    ensures HexTokens(HexWords(bytes)) == Ok(bytes)
  {
    if |bytes| > 0 {
      HexByteOfHex2(bytes[0]);
      HexTokensOfWords(bytes[1..]);
      assert HexWords(bytes)[1..] == HexWords(bytes[1..]);
      assert bytes == [bytes[0]] + bytes[1..];
    }
  }

  lemma Hex2IsF0()
    ensures Hex2(0xF0) == "F0"
  {
  }

  /** "F0 43 ... F7", with any one delimiter, reads back as the bytes written. */
  lemma DelimitedHexRoundTrip(bytes: seq<byte>, sep: char)
    requires |bytes| >= 1 && bytes[0] == 0xF0
    requires sep in Delimiters
    ensures SysexToBytes(Str(Join(HexWords(bytes), sep))) == Ok(bytes)
  {
    var words := HexWords(bytes);
    var s := Join(words, sep);
    Hex2IsF0();
    if |bytes| == 1 {
      assert s == "F0" == HexConcat(bytes);
      HexPairsOfConcat(bytes);
    } else {
      assert s == "F0" + [sep] + Join(words[1..], sep);
      assert StartsWithF0(s) && s[2] == sep;
      assert Split(s, sep) == words by {
        HexWordsHaveNoDelimiter(bytes, sep);
        SplitOfJoin(words, sep);
      }
      HexTokensOfWords(bytes);
    }
  }

  /** No hex word holds a delimiter. */
  lemma HexWordsHaveNoDelimiter(bytes: seq<byte>, sep: char)
    requires sep in Delimiters
    ensures forall k :: 0 <= k < |bytes| ==> sep !in HexWords(bytes)[k]
  {
    forall k | 0 <= k < |bytes| ensures sep !in HexWords(bytes)[k] {
      var b := bytes[k];
      assert HexWords(bytes)[k] == [DigitChar(b / 16), DigitChar(b % 16)];
      DigitIsNoDelimiter(b / 16);
      DigitIsNoDelimiter(b % 16);
    }
  }

  lemma DigitIsNoDelimiter(d: nat)
    requires d < 16
    ensures DigitChar(d) !in Delimiters
  {
  }

  /** "F043...F7", without delimiters, reads back as the bytes written. */
  lemma ContiguousHexRoundTrip(bytes: seq<byte>)
    requires |bytes| >= 1 && bytes[0] == 0xF0
    ensures SysexToBytes(Str(HexConcat(bytes))) == Ok(bytes)
  {
    Hex2IsF0();
    var s := HexConcat(bytes);
    assert s == Hex2(bytes[0]) + HexConcat(bytes[1..]);
    assert StartsWithF0(s);
    if |bytes| > 1 {
      var t := HexConcat(bytes[1..]);
      assert t == Hex2(bytes[1]) + HexConcat(bytes[2..]);
      assert s[2] == t[0] == DigitChar(bytes[1] / 16);
      DigitIsNoDelimiter(bytes[1] / 16);
    }
    HexPairsOfConcat(bytes);
    assert SysexToBytes(Str(s)) == HexPairs(s);
  }

  /** A framed message: F0 first, F7 last unless partial messages are
      allowed, and every byte between them at most 0x7F. */
  predicate IsSysex(b: seq<byte>, allowPartial: bool) {
    && |b| >= 2
    && b[0] == 0xF0
    && (allowPartial || b[|b| - 1] == 0xF7)
    && forall k :: 1 <= k < |b| - 1 ==> b[k] <= 0x7F
  }

  /** sysex_data(sysex, allow_partial): the bytes, when they are a framed
      message; the checks are made in the source's order. */
  function SysexData(sysex: Value, allowPartial: bool): (r: Result<seq<byte>>)
    ensures r.Ok? ==> |r.value| >= 2 && r.value[0] == 0xF0
    ensures r.Ok? && !allowPartial ==> r.value[|r.value| - 1] == 0xF7
  {
    var b :- SysexToBytes(sysex);
    if |b| < 2 then Err(ValueError(SysexTooShort))
    else if b[0] != 0xF0 then Err(ValueError(SysexNoStart))
    else if b[|b| - 1] != 0xF7 && !allowPartial then Err(ValueError(SysexNoEnd))
    else if exists k :: 1 <= k < |b| - 1 && b[k] > 0x7F then Err(ValueError(SysexDataByte))
    else Ok(b)
  }

  /** sysex_data accepts exactly the framed messages, returns their bytes
      unchanged, and passes a failed conversion on. */
  lemma SysexDataAccepts(sysex: Value, allowPartial: bool)
    ensures var r, b := SysexData(sysex, allowPartial), SysexToBytes(sysex);
            && (r.Ok? <==> b.Ok? && IsSysex(b.value, allowPartial))
            && (r.Ok? ==> r.value == b.value)
            && (b.Err? ==> r == Err(b.error))
  {
  }

  /** sysex_data, as the source runs it: the framing checks, then a loop over
      the data bytes. */
  method CheckSysexData(sysex: Value, allowPartial: bool) returns (r: Result<seq<byte>>)
    ensures r == SysexData(sysex, allowPartial)
  {
    var converted := SysexToBytes(sysex);
    if converted.Err? {
      return Err(converted.error);
    }
    var b := converted.value;
    if |b| < 2 {
      return Err(ValueError(SysexTooShort));
    } else if b[0] != 0xF0 {
      return Err(ValueError(SysexNoStart));
    } else if b[|b| - 1] != 0xF7 && !allowPartial {
      return Err(ValueError(SysexNoEnd));
    }
    for i := 1 to |b| - 1
      invariant forall k :: 1 <= k < i ==> b[k] <= 0x7F
    {
      if b[i] > 0x7F {
        DataByteRejected(sysex, allowPartial, i);
        return Err(ValueError(SysexDataByte));
      }
    }
    assert IsSysex(b, allowPartial);
    return Ok(b);
  }

  /** A framed message with a data byte above 0x7F is rejected for it. */
  lemma DataByteRejected(sysex: Value, allowPartial: bool, i: int)
    requires SysexToBytes(sysex).Ok?
    requires var b := SysexToBytes(sysex).value;
             |b| >= 2 && b[0] == 0xF0 && (b[|b| - 1] == 0xF7 || allowPartial) && 1 <= i < |b| - 1 && b[i] > 0x7F
    ensures SysexData(sysex, allowPartial) == Err(ValueError(SysexDataByte))
  {
  }

  /** Checking checked bytes again returns them unchanged. */
  lemma SysexDataIdempotent(sysex: Value, allowPartial: bool)
    requires SysexData(sysex, allowPartial).Ok?
    ensures SysexData(Bytes(SysexData(sysex, allowPartial).value), allowPartial) == SysexData(sysex, allowPartial)
  {
    SysexDataAccepts(sysex, allowPartial);
    SysexDataAccepts(Bytes(SysexData(sysex, allowPartial).value), allowPartial);
  }

  /** With partial messages allowed the last byte is not checked at all. */
  lemma PartialLastByteUnchecked()
    ensures SysexData(Bytes([0xF0, 0x01, 0xFF]), true) == Ok([0xF0, 0x01, 0xFF])
    ensures SysexData(Bytes([0xF0, 0x01, 0xFF]), false) == Err(ValueError(SysexNoEnd))
  {
  }

  /** The message 'F0 00 20 29 01 F7' (a Novation id and one data byte), as bytes. */
  const ExampleBytes: seq<byte> := [0xF0, 0x00, 0x20, 0x29, 0x01, 0xF7]

  lemma ExampleWords()
    ensures HexWords(ExampleBytes) == ["F0", "00", "20", "29", "01", "F7"]
  {
    assert Hex2(0x00) == "00" && Hex2(0x20) == "20" && Hex2(0x29) == "29";
    assert Hex2(0x01) == "01" && Hex2(0xF7) == "F7";
    Hex2IsF0();
  }

  lemma ExampleJoin()
    ensures Join(["F0", "00", "20", "29", "01", "F7"], ' ') == "F0 00 20 29 01 F7"
  {
    var words := ["F0", "00", "20", "29", "01", "F7"];
    assert Join(words[4..], ' ') == "01 F7";
    assert Join(words[2..], ' ') == "20 29 01 F7";
  }

  /** The space-separated text form of the example reads as its bytes. */
  lemma DelimitedExample()
    ensures SysexToBytes(Str("F0 00 20 29 01 F7")) == Ok(ExampleBytes)
  {
    ExampleWords();
    ExampleJoin();
    DelimitedHexRoundTrip(ExampleBytes, ' ');
  }

  /** issequence(manufacturer, True): a list or a tuple. */
  predicate IsSequence(v: Value) {
    v.List? || v.Tuple?
  }

  /** A manufacturer id: one byte, or three starting with 0x00, all at most 0x7F. */
  predicate IsManufacturerId(m: seq<byte>) {
    && (|m| == 1 || |m| == 3)
    && (|m| == 3 ==> m[0] == 0x00)
    && forall k :: 0 <= k < |m| ==> m[k] <= 0x7F
  }

  /** sysex_manufacturer(manufacturer): a single value is taken as a
      one-element list. */
  function ManufacturerId(manufacturer: Value): (r: Result<seq<byte>>)
    ensures var m := SysexToBytes(if IsSequence(manufacturer) then manufacturer else List([manufacturer]));
            && (r.Ok? <==> m.Ok? && IsManufacturerId(m.value))
            && (r.Ok? ==> r.value == m.value)
    ensures manufacturer.IsInt() ==>
              (r.Ok? <==> 0 <= manufacturer.AsInt() <= 0x7F) && (r.Ok? ==> r.value == [manufacturer.AsInt()])
    ensures IsSequence(manufacturer) ==>
              var items := manufacturer.items;
              && (r.Ok? <==>
                   && (|items| == 1 || |items| == 3)
                   && (forall k :: 0 <= k < |items| ==> items[k].IsInt() && 0 <= items[k].AsInt() <= 0x7F)
                   && (|items| == 3 ==> items[0].AsInt() == 0))
              && (r.Ok? ==> forall k :: 0 <= k < |items| ==> r.value[k] == items[k].AsInt())
  {
    var m :- SysexToBytes(if IsSequence(manufacturer) then manufacturer else List([manufacturer]));
    if |m| != 1 && |m| != 3 then Err(ValueError(ManufacturerLength))
    else if |m| == 3 && m[0] != 0x00 then Err(ValueError(ManufacturerPrefix))
    else if exists k :: 0 <= k < |m| && m[k] > 0x7F then Err(ValueError(ManufacturerByte))
    else Ok(m)
  }

  /** sysex_manufacturer, as the source runs it, with its loop over the bytes. */
  method CheckManufacturerId(manufacturer: Value) returns (r: Result<seq<byte>>)
    ensures r == ManufacturerId(manufacturer)
  {
    var wrapped := if IsSequence(manufacturer) then manufacturer else List([manufacturer]);
    var converted := SysexToBytes(wrapped);
    if converted.Err? {
      return Err(converted.error);
    }
    var m := converted.value;
    if |m| != 1 && |m| != 3 {
      return Err(ValueError(ManufacturerLength));
    } else if |m| == 3 && m[0] != 0x00 {
      return Err(ValueError(ManufacturerPrefix));
    }
    for i := 0 to |m|
      invariant forall k :: 0 <= k < i ==> m[k] <= 0x7F
    {
      if m[i] > 0x7F {
        assert 0 <= i < |m| && m[i] > 0x7F;
        return Err(ValueError(ManufacturerByte));
      }
    }
    assert IsManufacturerId(m);
    return Ok(m);
  }

  lemma ManufacturerExamples()
    ensures ManufacturerId(Int(0x43)) == Ok([0x43])
    ensures ManufacturerId(Tuple([Int(0x01), Int(0x02), Int(0x03)])) == Err(ValueError(ManufacturerPrefix))
    ensures ManufacturerId(Tuple([Int(0x00), Int(0x01)])) == Err(ValueError(ManufacturerLength))
  {
  }

  lemma ThreeByteManufacturer()
    ensures ManufacturerId(Tuple([Int(0x00), Int(0x20), Int(0x29)])) == Ok([0x00, 0x20, 0x29])
  {
    var items := [Int(0x00), Int(0x20), Int(0x29)];
    assert items[1..][1..] == items[2..] && items[2..][1..] == [];
    var r := ElementBytes(items);
    assert r.Ok? && r.value == [0x00, 0x20, 0x29];
  }
}
