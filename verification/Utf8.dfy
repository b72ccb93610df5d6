/** UTF-8 as Go strings use it: the bytes behind every length limit, every sort and every digest. */
module Utf8 {
  import opened Prelude

  function EncodeChar(c: char): (r: seq<Byte>)
    ensures 1 <= |r| <= 4
  {
    var n := c as int;
    if n < 0x80 then [n]
    else if n < 0x800 then [0xC0 + n / 64, 0x80 + n % 64]
    else if n < 0x1_0000 then [0xE0 + n / 64 / 64, 0x80 + n / 64 % 64, 0x80 + n % 64]
    else [0xF0 + n / 64 / 64 / 64, 0x80 + n / 64 / 64 % 64, 0x80 + n / 64 % 64, 0x80 + n % 64]
  }

  /** The payload of one byte above its marker. */
  function Bits(b: int, marker: int): int { b - marker }

  /** The bytes of a character carry its code point in groups of six bits (section 3 of RFC 3629). */
  lemma EncodedBits(c: char)
    ensures var n, b := c as int, EncodeChar(c);
            n == if n <= 0x7F then b[0]
                 else if n <= 0x7FF then Bits(b[0], 0xC0) * 0x40 + Bits(b[1], 0x80)
                 else if n <= 0xFFFF then Bits(b[0], 0xE0) * 0x1000 + Bits(b[1], 0x80) * 0x40 + Bits(b[2], 0x80)
                 else Bits(b[0], 0xF0) * 0x4_0000 + Bits(b[1], 0x80) * 0x1000 + Bits(b[2], 0x80) * 0x40 + Bits(b[3], 0x80)
    ensures |EncodeChar(c)| == if c as int <= 0x7F then 1 else if c as int <= 0x7FF then 2 else if c as int <= 0xFFFF then 3 else 4
  {}

  function Encode(s: string): seq<Byte>
  {
    if s == "" then [] else EncodeChar(s[0]) + Encode(s[1..])
  }

  /** The length Go's `len` reports for a string. */
  function ByteLen(s: string): nat { |Encode(s)| }

  function Tail(b: seq<Byte>, i: nat): int
    requires i < |b|
  {
    var t: int := b[i];
    t - 0x80
  }

  /** The code point announced by the leading bytes, before it is checked. */
  function Announced(b: seq<Byte>): int
    requires b != []
  {
    var lead: int := b[0];
    if lead < 0xC0 || |b| < 2 then lead
    else if lead < 0xE0 || |b| < 3 then (lead - 0xC0) * 64 + Tail(b, 1)
    else if lead < 0xF0 || |b| < 4 then ((lead - 0xE0) * 64 + Tail(b, 1)) * 64 + Tail(b, 2)
    else (((lead - 0xF0) * 64 + Tail(b, 1)) * 64 + Tail(b, 2)) * 64 + Tail(b, 3)
  }

  predicate IsScalar(n: int) { 0 <= n < 0xD800 || 0xE000 <= n < 0x11_0000 }

  /** Strict decoding: overlong forms, surrogates and truncated sequences are refused. */
  function DecodeChar(b: seq<Byte>): (r: Option<char>)
    ensures r.Some? ==> EncodeChar(r.value) <= b
  {
    if b == [] then None
    else
      var n := Announced(b);
      if IsScalar(n) && EncodeChar(n as char) <= b then Some(n as char) else None
  }

  function Decode(b: seq<Byte>): Option<string>
  {
    if b == [] then Some("")
    else
      match DecodeChar(b)
      case None => None
      case Some(c) =>
        match Decode(b[|EncodeChar(c)|..])
        case None => None
        case Some(rest) => Some([c] + rest)
  }

  lemma Digits(n: nat)
    ensures n == n / 64 * 64 + n % 64
    ensures n / 64 == n / 64 / 64 * 64 + n / 64 % 64
    ensures n / 64 / 64 == n / 64 / 64 / 64 * 64 + n / 64 / 64 % 64
  {}

  lemma CharAnnounced(c: char, rest: seq<Byte>)
    ensures DecodeChar(EncodeChar(c) + rest) == Some(c)
  {
    var n := c as int;
    var b := EncodeChar(c) + rest;
    assert IsScalar(n);
    Digits(n);
    assert Announced(b) == n by {
      if n < 0x80 {
      } else if n < 0x800 {
      } else if n < 0x1_0000 {
        assert Tail(b, 1) == n / 64 % 64 && Tail(b, 2) == n % 64;
      } else {
        assert Tail(b, 1) == n / 64 / 64 % 64 && Tail(b, 2) == n / 64 % 64 && Tail(b, 3) == n % 64;
      }
    }
    assert EncodeChar(c) <= b;
  }

  lemma {:induction false} RoundTrip(s: string)
    ensures Decode(Encode(s)) == Some(s)
  {
    if s != "" {
      RoundTrip(s[1..]);
      CharAnnounced(s[0], Encode(s[1..]));
      assert Encode(s)[|EncodeChar(s[0])|..] == Encode(s[1..]);
      assert s == [s[0]] + s[1..];
    }
  }

  /** Only the encoding of a string decodes to it: no byte string has a second spelling. */
  lemma {:induction false} DecodeIsStrict(b: seq<Byte>, s: string)
    requires Decode(b) == Some(s)
    ensures b == Encode(s)
  {
    if b != [] {
      var c := DecodeChar(b).value;
      DecodeIsStrict(b[|EncodeChar(c)|..], s[1..]);
      assert b == EncodeChar(c) + b[|EncodeChar(c)|..];
    }
  }

  lemma EncodeInjective(s: string, t: string)
    requires Encode(s) == Encode(t)
    ensures s == t
  {
    RoundTrip(s);
    RoundTrip(t);
  }

  lemma {:induction false} EncodeConcat(s: string, t: string)
    ensures Encode(s + t) == Encode(s) + Encode(t)
  {
    hide EncodeChar;
    if s == "" {
      assert s + t == t;
    } else {
      EncodeConcat(s[1..], t);
      assert (s + t)[0] == s[0] && (s + t)[1..] == s[1..] + t;
    }
  }

  /** Characters of strings built from ASCII occupy one byte each. */
  lemma {:induction false} AsciiLength(s: string)
    requires forall i :: 0 <= i < |s| ==> s[i] as int < 0x80
    ensures Encode(s) == Codes(s)
  {
    if s != "" {
      AsciiLength(s[1..]);
      assert Codes(s) == [s[0] as int] + Codes(s[1..]);
    }
  }

  /** Where two encodings first differ, and how. */
  predicate LessAt(a: seq<Byte>, b: seq<Byte>, k: nat)
  {
    k < |a| && k < |b| && a[..k] == b[..k] && a[k] < b[k]
  }

  lemma ShorterIsLess(c: char, d: char)
    requires c < d && (c as int < 0x80 || |EncodeChar(c)| != |EncodeChar(d)|)
    ensures LessAt(EncodeChar(c), EncodeChar(d), 0)
  {}

  lemma TwoBytes(c: char, d: char)
    requires c < d && 0x80 <= c as int && d as int < 0x800
    ensures exists k :: LessAt(EncodeChar(c), EncodeChar(d), k)
  {
    var a, b := EncodeChar(c), EncodeChar(d);
    Digits(c as int);
    Digits(d as int);
    assert LessAt(a, b, if a[0] != b[0] then 0 else 1);
  }

  lemma ThreeBytes(c: char, d: char)
    requires c < d && 0x800 <= c as int && d as int < 0x1_0000
    ensures exists k :: LessAt(EncodeChar(c), EncodeChar(d), k)
  {
    var a, b := EncodeChar(c), EncodeChar(d);
    Digits(c as int);
    Digits(d as int);
    assert LessAt(a, b, if a[0] != b[0] then 0 else if a[1] != b[1] then 1 else 2);
  }

  lemma FourBytes(c: char, d: char)
    requires c < d && 0x1_0000 <= c as int
    ensures exists k :: LessAt(EncodeChar(c), EncodeChar(d), k)
  {
    var a, b := EncodeChar(c), EncodeChar(d);
    Digits(c as int);
    Digits(d as int);
    assert LessAt(a, b, if a[0] != b[0] then 0 else if a[1] != b[1] then 1 else if a[2] != b[2] then 2 else 3);
  }

  lemma CharOrder(c: char, d: char)
    requires c < d
    ensures exists k :: LessAt(EncodeChar(c), EncodeChar(d), k)
  {
    if c as int < 0x80 || |EncodeChar(c)| != |EncodeChar(d)| {
      ShorterIsLess(c, d);
    } else if d as int < 0x800 {
      TwoBytes(c, d);
    } else if d as int < 0x1_0000 {
      ThreeBytes(c, d);
    } else {
      FourBytes(c, d);
    }
  }

  lemma {:induction false} DifferAt(a: seq<Byte>, b: seq<Byte>, k: nat)
    requires k < |a| && k < |b| && a[..k] == b[..k] && a[k] < b[k]
    ensures SeqLess(a, b)
  {
    if k > 0 {
      assert a[0] == a[..k][0] == b[..k][0] == b[0];
      assert a[1..][..k - 1] == a[..k][1..] && b[1..][..k - 1] == b[..k][1..];
      DifferAt(a[1..], b[1..], k - 1);
    }
  }

  lemma {:induction false} CommonPrefix(p: seq<Byte>, a: seq<Byte>, b: seq<Byte>)
    ensures SeqLess(p + a, p + b) == SeqLess(a, b)
  {
    if p == [] {
      assert p + a == a && p + b == b;
    } else {
      CommonPrefix(p[1..], a, b);
      assert (p + a)[1..] == p[1..] + a && (p + b)[1..] == p[1..] + b;
    }
  }

  /** Sorting by bytes, as Go does, is sorting by code points. */
  lemma {:induction false} OrderPreserved(s: string, t: string)
    ensures StrLess(s, t) <==> SeqLess(Encode(s), Encode(t))
  {
    if StrLess(s, t) {
      LessPreserved(s, t);
    } else if SeqLess(Encode(s), Encode(t)) {
      StrLessTotal(s, t);
      SeqLessTotal(Encode(s), Encode(t));
      if s != t { LessPreserved(t, s); }
      assert false;
    }
  }

  lemma {:induction false} LessPreserved(s: string, t: string)
    requires StrLess(s, t)
    ensures SeqLess(Encode(s), Encode(t))
  {
    if s != "" {
      if s[0] == t[0] {
        assert Codes(s)[1..] == Codes(s[1..]) && Codes(t)[1..] == Codes(t[1..]);
        LessPreserved(s[1..], t[1..]);
        CommonPrefix(EncodeChar(s[0]), Encode(s[1..]), Encode(t[1..]));
      } else {
        CharOrder(s[0], t[0]);
        var a, b := EncodeChar(s[0]), EncodeChar(t[0]);
        var k: nat :| LessAt(a, b, k);
        assert Encode(s)[..k] == a[..k] && Encode(t)[..k] == b[..k];
        DifferAt(Encode(s), Encode(t), k);
      }
    }
  }
}
