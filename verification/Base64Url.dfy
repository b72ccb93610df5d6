/** `base64.RawURLEncoding` (section 5 of RFC 4648, without padding), as used for recovery
    tokens and signature values. */
module Base64Url {
  import opened Prelude

  function Symbol(n: int): (c: char)
    requires 0 <= n < 64
    ensures Value(c) == Some(n)
  {
    if n < 26 then ('A' as int + n) as char
    else if n < 52 then ('a' as int + n - 26) as char
    else if n < 62 then ('0' as int + n - 52) as char
    else if n == 62 then '-'
    else '_'
  }

  function Value(c: char): (r: Option<int>)
    ensures r.Some? ==> 0 <= r.value < 64
  {
    if IsUpper(c) then Some(c as int - 'A' as int)
    else if IsLower(c) then Some(c as int - 'a' as int + 26)
    else if IsDigit(c) then Some(c as int - '0' as int + 52)
    else if c == '-' then Some(62)
    else if c == '_' then Some(63)
    else None
  }

  lemma ValueInjective(c: char)
    requires Value(c).Some?
    ensures Symbol(Value(c).value) == c
  {}

  /** The URL-safe alphabet of RFC 4648, table 2: capitals, small letters, digits, minus and underscore. */
  lemma AlphabetIsStandard(n: nat)
    ensures Symbol(0) == 'A' && Symbol(25) == 'Z' && Symbol(26) == 'a' && Symbol(51) == 'z' && Symbol(52) == '0' && Symbol(61) == '9'
    ensures Symbol(62) == '-' && Symbol(63) == '_'
    ensures n < 61 && n !in {25, 51} ==> Symbol(n + 1) as int == Symbol(n) as int + 1
  {}

  /** Three bytes are four units of six bits, most significant first. */
  lemma UnitsAreBits(x: Byte, y: Byte, z: Byte)
    ensures x * 65536 + y * 256 + z == Unit0(x) * 262144 + Unit1(x, y) * 4096 + Unit2(y, z) * 64 + Unit3(z)
  {}

  /** The characters of the recovery-token pattern. */
  predicate IsSymbol(c: char) { IsUpper(c) || IsLower(c) || IsDigit(c) || c == '-' || c == '_' }

  // The four six-bit units of three bytes, and back.

  function Unit0(x: Byte): (r: int) ensures 0 <= r < 64 { x / 4 }

  function Unit1(x: Byte, y: Byte): (r: int) ensures 0 <= r < 64 { x % 4 * 16 + y / 16 }

  function Unit2(y: Byte, z: Byte): (r: int) ensures 0 <= r < 64 { y % 16 * 4 + z / 64 }

  function Unit3(z: Byte): (r: int) ensures 0 <= r < 64 { z % 64 }

  type SixBits = v: int | 0 <= v < 64

  function Byte0(v0: SixBits, v1: SixBits): Byte { v0 * 4 + v1 / 16 }

  function Byte1(v1: SixBits, v2: SixBits): Byte { v1 % 16 * 16 + v2 / 4 }

  function Byte2(v2: SixBits, v3: SixBits): Byte { v2 % 4 * 64 + v3 }

  lemma BytesOfUnits(x: Byte, y: Byte, z: Byte)
    ensures Byte0(Unit0(x), Unit1(x, y)) == x
    ensures Byte1(Unit1(x, y), Unit2(y, z)) == y
    ensures Byte2(Unit2(y, z), Unit3(z)) == z
  {}

  lemma UnitsOfBytes(v0: SixBits, v1: SixBits, v2: SixBits, v3: SixBits)
    ensures Unit0(Byte0(v0, v1)) == v0
    ensures Unit1(Byte0(v0, v1), Byte1(v1, v2)) == v1
    ensures Unit2(Byte1(v1, v2), Byte2(v2, v3)) == v2
    ensures Unit3(Byte2(v2, v3)) == v3
    ensures Unit1(Byte0(v0, v1), 0) == v1 / 16 * 16
    ensures Unit2(Byte1(v1, v2), 0) == v2 / 4 * 4
  {}

  function Encode(b: seq<Byte>): string
  {
    if |b| == 0 then ""
    else if |b| == 1 then [Symbol(Unit0(b[0])), Symbol(Unit1(b[0], 0))]
    else if |b| == 2 then [Symbol(Unit0(b[0])), Symbol(Unit1(b[0], b[1])), Symbol(Unit2(b[1], 0))]
    else EncodeQuad(b[0], b[1], b[2]) + Encode(b[3..])
  }

  function EncodeQuad(x: Byte, y: Byte, z: Byte): (r: string)
    ensures |r| == 4
  {
    [Symbol(Unit0(x)), Symbol(Unit1(x, y)), Symbol(Unit2(y, z)), Symbol(Unit3(z))]
  }

  /** Go's decoder skips line breaks wherever they occur. */
  function Strip(s: string): string
  {
    if s == "" then ""
    else if s[0] == '\r' || s[0] == '\n' then Strip(s[1..])
    else [s[0]] + Strip(s[1..])
  }

  function DecodeUnits(s: string): (r: Option<seq<Byte>>)
  {
    if s == "" then Some([])
    else if |s| == 1 || Value(s[0]).None? || Value(s[1]).None? then None
    else
      var v0, v1 := Value(s[0]).value, Value(s[1]).value;
      if |s| == 2 then Some([Byte0(v0, v1)])
      else if Value(s[2]).None? then None
      else
        var v2 := Value(s[2]).value;
        if |s| == 3 then Some([Byte0(v0, v1), Byte1(v1, v2)])
        else if Value(s[3]).None? then None
        else
          match DecodeUnits(s[4..])
          case None => None
          case Some(rest) => Some([Byte0(v0, v1), Byte1(v1, v2), Byte2(v2, Value(s[3]).value)] + rest)
  }

  /** `DecodeString`: not strict, so the unused low bits of a final character are ignored. */
  function Decode(s: string): Option<seq<Byte>> { DecodeUnits(Strip(s)) }

  lemma {:induction false} StripClean(s: string)
    requires forall i :: 0 <= i < |s| ==> s[i] != '\r' && s[i] != '\n'
    ensures Strip(s) == s
  {
    if s != "" { StripClean(s[1..]); }
  }

  lemma {:induction false} EncodedShape(b: seq<Byte>)
    ensures |Encode(b)| == (4 * |b| + 2) / 3
    ensures forall i :: 0 <= i < |Encode(b)| ==> IsSymbol(Encode(b)[i])
  {
    if |b| >= 3 { EncodedShape(b[3..]); }
  }

  lemma {:induction false} UnitsRoundTrip(b: seq<Byte>)
    ensures DecodeUnits(Encode(b)) == Some(b)
  {
    hide DecodeUnits, EncodeQuad, Symbol, Value, Unit0, Unit1, Unit2;
    if |b| >= 3 {
      UnitsRoundTrip(b[3..]);
      UnitsStep(b[0], b[1], b[2], Encode(b[3..]), b[3..]);
      assert b == [b[0], b[1], b[2]] + b[3..];
    } else {
      TailRoundTrip(b);
    }
  }

  lemma TailRoundTrip(b: seq<Byte>)
    requires |b| < 3
    ensures DecodeUnits(Encode(b)) == Some(b)
  {
    hide Symbol, Value, Unit0, Unit1, Unit2, Byte0, Byte1, Byte2;
    if |b| == 2 {
      BytesOfUnits(b[0], b[1], 0);
      assert DecodeUnits(Encode(b)) == Some([b[0], b[1]]);
      assert b == [b[0], b[1]];
    } else if |b| == 1 {
      BytesOfUnits(b[0], 0, 0);
      assert DecodeUnits(Encode(b)) == Some([b[0]]);
      assert b == [b[0]];
    }
  }

  lemma UnitsStep(x: Byte, y: Byte, z: Byte, text: string, rest: seq<Byte>)
    requires DecodeUnits(text) == Some(rest)
    ensures DecodeUnits(EncodeQuad(x, y, z) + text) == Some([x, y, z] + rest)
  {
    BytesOfUnits(x, y, z);
    hide Symbol, Value, Unit0, Unit1, Unit2, Unit3, Byte0, Byte1, Byte2;
    var s := EncodeQuad(x, y, z) + text;
    assert s[4..] == text;
  }

  lemma RoundTrip(b: seq<Byte>)
    ensures Decode(Encode(b)) == Some(b)
  {
    EncodedShape(b);
    StripClean(Encode(b));
    UnitsRoundTrip(b);
  }

  /** The record limit on tokens and the decoder's limit on raw states are the same limit. */
  lemma LimitsCoincide(b: seq<Byte>)
    ensures |Encode(b)| <= 4096 <==> |b| <= 3072
  {
    EncodedShape(b);
  }

  /** The low bits that a final partial group does not use are zero. */
  predicate NoSpareBits(s: string)
  {
    && (|s| % 4 == 2 && Value(s[|s| - 1]).Some? ==> Value(s[|s| - 1]).value % 16 == 0)
    && (|s| % 4 == 3 && Value(s[|s| - 1]).Some? ==> Value(s[|s| - 1]).value % 4 == 0)
  }

  lemma {:induction false} UnitsCanonical(s: string, b: seq<Byte>)
    requires DecodeUnits(s) == Some(b)
    ensures |Encode(b)| == |s|
    ensures Encode(b) == s <==> NoSpareBits(s)
  {
    hide Symbol, Value, EncodeQuad, Unit0, Unit1, Unit2, Byte0, Byte1, Byte2;
    if |s| >= 4 {
      QuadBack(s, b);
      UnitsCanonical(s[4..], b[3..]);
      CanonicalStep(s, b);
    } else if |s| >= 2 {
      TailBack(s, b);
    }
  }

  lemma CanonicalStep(s: string, b: seq<Byte>)
    requires |s| >= 4 && |b| >= 3 && s[..4] == EncodeQuad(b[0], b[1], b[2])
    ensures Encode(b) == s <==> Encode(b[3..]) == s[4..]
    ensures |Encode(b)| == 4 + |Encode(b[3..])|
    ensures NoSpareBits(s) == NoSpareBits(s[4..])
  {
    hide DecodeUnits, EncodeQuad, Value;
    assert Encode(b) == s[..4] + Encode(b[3..]);
    assert s == s[..4] + s[4..];
    assert Encode(b)[4..] == Encode(b[3..]);
    assert s[4..] != [] ==> s[4..][|s| - 5] == s[|s| - 1];
  }

  lemma QuadBack(s: string, b: seq<Byte>)
    requires |s| >= 4 && DecodeUnits(s) == Some(b)
    ensures |b| >= 3 && s[..4] == EncodeQuad(b[0], b[1], b[2])
    ensures DecodeUnits(s[4..]) == Some(b[3..])
  {
    forall i | 0 <= i < 4 { ValueInjective(s[i]); }
    hide Symbol, Value, Unit0, Unit1, Unit2, Unit3, Byte0, Byte1, Byte2;
    UnitsOfBytes(Value(s[0]).value, Value(s[1]).value, Value(s[2]).value, Value(s[3]).value);
    assert b[3..] == DecodeUnits(s[4..]).value;
    assert s[..4] == [s[0], s[1], s[2], s[3]];
  }

  lemma TailBack(s: string, b: seq<Byte>)
    requires 2 <= |s| <= 3 && DecodeUnits(s) == Some(b)
    ensures |Encode(b)| == |s|
    ensures Encode(b) == s <==> NoSpareBits(s)
  {
    hide Symbol, Value, Unit0, Unit1, Unit2, Byte0, Byte1, Byte2;
    forall i | 0 <= i < |s| { ValueInjective(s[i]); }
    var v1, last := Value(s[1]).value, Value(s[|s| - 1]).value;
    UnitsOfBytes(Value(s[0]).value, v1, last, 0);
    if |s| == 2 {
      assert b == [Byte0(Value(s[0]).value, v1)];
      assert Encode(b) == [s[0], Symbol(last / 16 * 16)];
      assert s == [s[0], s[1]];
      assert Value(Encode(b)[1]) == Some(last / 16 * 16);
    } else {
      assert b == [Byte0(Value(s[0]).value, v1), Byte1(v1, last)];
      assert Encode(b) == [s[0], s[1], Symbol(last / 4 * 4)];
      assert s == [s[0], s[1], s[2]];
      assert Value(Encode(b)[2]) == Some(last / 4 * 4);
    }
  }

  /** A text that decodes is the encoding of its value exactly when it has no line breaks and no
      stray bits; any other text is a second spelling of the same bytes. */
  lemma DecodedIsCanonical(s: string, b: seq<Byte>)
    requires Decode(s) == Some(b)
    ensures Encode(b) == s <==> Strip(s) == s && NoSpareBits(s)
  {
    UnitsCanonical(Strip(s), b);
    if Encode(b) == s {
      EncodedShape(b);
      StripClean(s);
    }
  }
}
