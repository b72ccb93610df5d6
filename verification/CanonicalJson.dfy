/** The canonical JSON dialect behind every digest (internal/contract/canonical.go): key-sorted
    objects, exact 64-bit integers, no floats. `Print` is the specification of the writer,
    `ParseValue` a strict reference parser, and the two undo each other. */
module CanonicalJson {
  import opened Prelude
  import Utf8

  /** What `json.Decoder` with `UseNumber` yields: numbers keep their literal text. */
  datatype Json =
    | Null
    | Bool(value: bool)
    | Str(text: string)
    | Num(literal: string)
    | Arr(items: seq<Json>)
    | Obj(fields: map<string, Json>)

  // ---------------------------------------------------------------- numbers

  predicate IsNumberChar(c: char) { IsDigit(c) || c == '-' || c == '+' }

  function DigitValue(c: char): (n: nat)
    requires IsDigit(c)
    ensures n < 10
  {
    c as int - '0' as int
  }

  function DigitsValue(s: string): nat
    requires forall i :: 0 <= i < |s| ==> IsDigit(s[i])
  {
    if s == "" then 0
    else DigitsValue(s[..|s| - 1]) * 10 + DigitValue(s[|s| - 1])
  }

  function Magnitude(literal: string): string
  {
    if literal != "" && (literal[0] == '-' || literal[0] == '+') then literal[1..] else literal
  }

  const TWO_TO_63: int := 0x8000_0000_0000_0000

  predicate IsInt64(n: int) { -TWO_TO_63 <= n < TWO_TO_63 }

  /** The texts `strconv.ParseInt(text, 10, 64)` accepts: a sign at most, digits, and range. */
  predicate Int64Literal(literal: string)
  {
    && Magnitude(literal) != ""
    && (forall i :: 0 <= i < |Magnitude(literal)| ==> IsDigit(Magnitude(literal)[i]))
    && IsInt64(LiteralValue(literal))
  }

  function LiteralValue(literal: string): int
    requires forall i :: 0 <= i < |Magnitude(literal)| ==> IsDigit(Magnitude(literal)[i])
  {
    var n: int := DigitsValue(Magnitude(literal));
    if literal != "" && literal[0] == '-' then -n else n
  }

  /** The decimal text `json.Marshal` writes for an integer. */
  function Itoa(n: int): string
  {
    if n < 0 then "-" + Decimal(-n) else Decimal(n)
  }

  function Decimal(n: nat): (r: string)
    ensures r != "" && forall i :: 0 <= i < |r| ==> IsDigit(r[i])
  {
    if n < 10 then [('0' as int + n) as char]
    else Decimal(n / 10) + [('0' as int + n % 10) as char]
  }

  lemma {:induction false} DecimalValue(n: nat)
    ensures DigitsValue(Decimal(n)) == n
  {
    if n >= 10 {
      DecimalValue(n / 10);
      assert Decimal(n)[..|Decimal(n)| - 1] == Decimal(n / 10);
    } else {
      assert Decimal(n)[..0] == "";
    }
  }

  lemma ItoaRoundTrip(n: int)
    requires IsInt64(n)
    ensures Int64Literal(Itoa(n)) && LiteralValue(Itoa(n)) == n
  {
    DecimalValue(if n < 0 then -n else n);
    if n < 0 {
      assert Magnitude(Itoa(n)) == Decimal(-n);
    } else {
      assert IsDigit(Decimal(n)[0]);
    }
  }

  lemma LiteralChars(literal: string)
    requires Int64Literal(literal)
    ensures literal != "" && forall i :: 0 <= i < |literal| ==> IsNumberChar(literal[i])
  {
    if Magnitude(literal) != literal {
      assert literal == [literal[0]] + Magnitude(literal);
    }
  }

  // ---------------------------------------------------------------- printing

  function HexDigit(n: int): (c: char)
    requires 0 <= n < 16
    ensures IsLowerHex(c)
  {
    if n < 10 then ('0' as int + n) as char else ('a' as int + n - 10) as char
  }

  /** One character inside a JSON string, as `json.Marshal` writes it with HTML escaping on. */
  function Escape(c: char): (r: string)
    ensures 1 <= |r| <= 6
  {
    var n := c as int;
    if c == '"' then "\\\""
    else if c == '\\' then "\\\\"
    else if n == 8 then "\\b"
    else if n == 12 then "\\f"
    else if c == '\n' then "\\n"
    else if c == '\r' then "\\r"
    else if c == '\t' then "\\t"
    else if n < 0x20 || c == '<' || c == '>' || c == '&' then "\\u00" + [HexDigit(n / 16), HexDigit(n % 16)]
    else if n == 0x2028 then "\\u2028"
    else if n == 0x2029 then "\\u2029"
    else [c]
  }

  function EscapeAll(s: string): string
  {
    if s == "" then "" else Escape(s[0]) + EscapeAll(s[1..])
  }

  function Quote(s: string): string { "\"" + EscapeAll(s) + "\"" }

  /** The keys of an object in the order `sort.Strings` leaves them. */
  function SortedKeys(keys: set<string>): (r: seq<string>)
    ensures StrictlySorted(r)
    ensures forall k :: k in r <==> k in keys
  {
    if keys == {} then []
    else
      LeastExists(keys);
      LeastUnique(keys);
      var least :| least in keys && IsLeast(least, keys);
      var rest := SortedKeys(keys - {least});
      assert forall k :: k in rest ==> StrLess(least, k);
      [least] + rest
  }

  predicate IsLeast(least: string, keys: set<string>)
  {
    least in keys && forall k :: k in keys && k != least ==> StrLess(least, k)
  }

  lemma LeastUnique(keys: set<string>)
    ensures forall k, l :: IsLeast(k, keys) && IsLeast(l, keys) ==> k == l
  {
    forall k, l | IsLeast(k, keys) && IsLeast(l, keys) ensures k == l {
      StrLessTotal(k, l);
    }
  }

  lemma {:induction false} LeastExists(keys: set<string>)
    requires keys != {}
    ensures exists least :: IsLeast(least, keys)
  {
    var k :| k in keys;
    if keys == {k} {
      assert IsLeast(k, keys);
    } else {
      LeastExists(keys - {k});
      var l :| IsLeast(l, keys - {k});
      StrLessTotal(k, l);
      if StrLess(l, k) {
        assert IsLeast(l, keys);
      } else {
        forall x | x in keys && x != k ensures StrLess(k, x) {
          if x != l { StrLessTrans(k, l, x); }
        }
        assert IsLeast(k, keys);
      }
    }
  }

  lemma {:induction false} StrictlySortedUnique(a: seq<string>, b: seq<string>)
    requires StrictlySorted(a) && StrictlySorted(b)
    requires forall k :: k in a <==> k in b
    ensures a == b
  {
    assert a != [] ==> a[0] in b;
    assert b != [] ==> b[0] in a;
    if a != [] {
      assert a[0] in b && b[0] in a;
      StrLessTotal(a[0], b[0]);
      assert a[0] == b[0];
      forall k ensures k in a[1..] <==> k in b[1..] {
        StrLessTotal(k, a[0]);
        assert k in a <==> k == a[0] || k in a[1..];
        assert k in b <==> k == b[0] || k in b[1..];
        assert a[0] !in a[1..] && b[0] !in b[1..] by { StrLessTotal(a[0], a[0]); }
      }
      StrictlySortedUnique(a[1..], b[1..]);
      assert a == [a[0]] + a[1..] && b == [b[0]] + b[1..];
    }
  }

  /** The canonical text of a tree. */
  function Print(t: Json): string
    decreases t, 1, 0
  {
    match t
    case Null => "null"
    case Bool(b) => if b then "true" else "false"
    case Str(s) => Quote(s)
    case Num(literal) => literal
    case Arr(items) => "[" + PrintItems(items) + "]"
    case Obj(fields) => "{" + PrintFields(t, SortedKeys(fields.Keys)) + "}"
  }

  function PrintItems(items: seq<Json>): string
    decreases items, 0, 0
  {
    if items == [] then ""
    else if |items| == 1 then Print(items[0])
    else Print(items[0]) + "," + PrintItems(items[1..])
  }

  function PrintField(t: Json, key: string): string
    requires t.Obj? && key in t.fields
    decreases t, 0, 0
  {
    Quote(key) + ":" + Print(t.fields[key])
  }

  function PrintFields(t: Json, keys: seq<string>): string
    requires t.Obj? && forall k :: k in keys ==> k in t.fields
    decreases t, 0, |keys|
  {
    if keys == [] then ""
    else if |keys| == 1 then PrintField(t, keys[0])
    else PrintField(t, keys[0]) + "," + PrintFields(t, keys[1..])
  }

  /** Every number anywhere in the tree is an int64 literal. */
  predicate Printable(t: Json)
    decreases t
  {
    match t
    case Num(literal) => Int64Literal(literal)
    case Arr(items) => forall i :: 0 <= i < |items| ==> Printable(items[i])
    case Obj(fields) => forall k :: k in fields ==> Printable(fields[k])
    case _ => true
  }

  /** The bytes that `CanonicalJSON` returns, or none where it returns an error. */
  function CanonicalBytes(t: Json): Option<seq<Byte>>
  {
    if Printable(t) then Some(Utf8.Encode(Print(t))) else None
  }

  // ---------------------------------------------------------------- the reference parser

  function HexValue(c: char): int
    requires IsLowerHex(c)
  {
    if IsDigit(c) then c as int - '0' as int else c as int - 'a' as int + 10
  }

  /** The only character whose escape could begin `s`. */
  function Escaped(s: string): char
    requires s != ""
  {
    if s[0] != '\\' || |s| < 2 then s[0]
    else
      match s[1]
      case 'b' => 8 as char
      case 'f' => 12 as char
      case 'n' => '\n'
      case 'r' => '\r'
      case 't' => '\t'
      case 'u' =>
        if |s| < 6 then 'u'
        else if s[2..6] == "2028" then 0x2028 as char
        else if s[2..6] == "2029" then 0x2029 as char
        else if IsLowerHex(s[4]) && IsLowerHex(s[5]) then (HexValue(s[4]) * 16 + HexValue(s[5])) as char
        else 'u'
      case _ => s[1]
  }

  function ReadChar(s: string): (r: Option<char>)
    requires s != ""
    ensures r.Some? ==> Escape(r.value) <= s
  {
    if Escape(Escaped(s)) <= s then Some(Escaped(s)) else None
  }

  /** The body of a string up to and including its closing quote. */
  function ParseChars(s: string): (r: Option<(string, string)>)
    ensures r.Some? ==> |r.value.1| < |s|
  {
    if s == "" then None
    else if s[0] == '"' then Some(("", s[1..]))
    else
      match ReadChar(s)
      case None => None
      case Some(c) =>
        match ParseChars(s[|Escape(c)|..])
        case None => None
        case Some((text, rest)) => Some(([c] + text, rest))
  }

  function ParseString(s: string): (r: Option<(string, string)>)
    ensures r.Some? ==> |r.value.1| < |s|
  {
    if HasPrefix(s, "\"") then ParseChars(s[1..]) else None
  }

  function RunLength(s: string): (n: nat)
    ensures n <= |s| && forall i :: 0 <= i < n ==> IsNumberChar(s[i])
    ensures n < |s| ==> !IsNumberChar(s[n])
  {
    if s != "" && IsNumberChar(s[0]) then 1 + RunLength(s[1..]) else 0
  }

  function Keys(pairs: seq<(string, Json)>): (r: seq<string>)
    ensures |r| == |pairs| && forall i :: 0 <= i < |pairs| ==> r[i] == pairs[i].0
  {
    seq(|pairs|, i requires 0 <= i < |pairs| => pairs[i].0)
  }

  function ToMap(pairs: seq<(string, Json)>): map<string, Json>
  {
    if pairs == [] then map[] else ToMap(pairs[1..])[pairs[0].0 := pairs[0].1]
  }

  function ParseValue(s: string): (r: Option<(Json, string)>)
    ensures r.Some? ==> |r.value.1| < |s|
    decreases |s|, 0
  {
    if s == "" then None
    else if s[0] == '"' then
      match ParseString(s)
      case None => None
      case Some((text, rest)) => Some((Str(text), rest))
    else if s[0] == '[' then
      if HasPrefix(s[1..], "]") then Some((Arr([]), s[2..]))
      else
        match ParseItems(s[1..])
        case None => None
        case Some((items, rest)) => Some((Arr(items), rest))
    else if s[0] == '{' then
      if HasPrefix(s[1..], "}") then Some((Obj(map[]), s[2..]))
      else
        match ParsePairs(s[1..])
        case None => None
        case Some((pairs, rest)) =>
          if StrictlySorted(Keys(pairs)) then Some((Obj(ToMap(pairs)), rest)) else None
    else if IsNumberChar(s[0]) then
      var n := RunLength(s);
      if Int64Literal(s[..n]) then Some((Num(s[..n]), s[n..])) else None
    else if HasPrefix(s, "null") then Some((Null, s[4..]))
    else if HasPrefix(s, "true") then Some((Bool(true), s[4..]))
    else if HasPrefix(s, "false") then Some((Bool(false), s[5..]))
    else None
  }

  function ParseItems(s: string): (r: Option<(seq<Json>, string)>)
    ensures r.Some? ==> |r.value.1| < |s| && r.value.0 != []
    decreases |s|, 1
  {
    match ParseValue(s)
    case None => None
    case Some((item, rest)) =>
      if HasPrefix(rest, "]") then Some(([item], rest[1..]))
      else if HasPrefix(rest, ",") then
        match ParseItems(rest[1..])
        case None => None
        case Some((items, tail)) => Some(([item] + items, tail))
      else None
  }

  function ParsePairs(s: string): (r: Option<(seq<(string, Json)>, string)>)
    ensures r.Some? ==> |r.value.1| < |s| && r.value.0 != []
    decreases |s|, 1
  {
    match ParseString(s)
    case None => None
    case Some((key, afterKey)) =>
      if !HasPrefix(afterKey, ":") then None
      else
        match ParseValue(afterKey[1..])
        case None => None
        case Some((value, rest)) =>
          if HasPrefix(rest, "}") then Some(([(key, value)], rest[1..]))
          else if HasPrefix(rest, ",") then
            match ParsePairs(rest[1..])
            case None => None
            case Some((pairs, tail)) => Some(([(key, value)] + pairs, tail))
          else None
  }

  // ---------------------------------------------------------------- parsing undoes printing

  lemma EscapeRead(c: char, rest: string)
    ensures ReadChar(Escape(c) + rest) == Some(c)
    ensures Escape(c)[0] != '"'
  {
    var s := Escape(c) + rest;
    var n := c as int;
    if |Escape(c)| == 6 {
      assert s[2..6] == Escape(c)[2..6];
      if n < 0x80 {
        assert Escape(c)[2..4] == "00";
        assert s[2..6][..2] == "00" && "2028"[..2] == "20" && "2029"[..2] == "20";
      }
    }
    assert Escaped(s) == c;
  }

  lemma {:induction false} CharsRoundTrip(s: string, rest: string)
    ensures ParseChars(EscapeAll(s) + "\"" + rest) == Some((s, rest))
  {
    hide Escape, ReadChar;
    var text := EscapeAll(s) + "\"" + rest;
    if s == "" {
      assert text == "\"" + rest;
    } else {
      var tail := EscapeAll(s[1..]) + "\"" + rest;
      assert text == Escape(s[0]) + tail;
      EscapeRead(s[0], tail);
      CharsRoundTrip(s[1..], rest);
      assert text[|Escape(s[0])|..] == tail;
      assert s == [s[0]] + s[1..];
    }
  }

  lemma QuoteRoundTrip(s: string, rest: string)
    ensures ParseString(Quote(s) + rest) == Some((s, rest))
  {
    CharsRoundTrip(s, rest);
    hide ParseChars, EscapeAll;
    assert (Quote(s) + rest)[1..] == EscapeAll(s) + "\"" + rest;
  }

  lemma {:induction false} RunOf(literal: string, rest: string)
    requires forall i :: 0 <= i < |literal| ==> IsNumberChar(literal[i])
    requires Delimited(rest)
    ensures RunLength(literal + rest) == |literal|
  {
    if literal == "" {
      assert literal + rest == rest;
    } else {
      RunOf(literal[1..], rest);
      assert (literal + rest)[1..] == literal[1..] + rest;
    }
  }

  /** What may follow a value: the end of the text or anything that cannot prolong a number. */
  predicate Delimited(rest: string) { rest == "" || !IsNumberChar(rest[0]) }

  lemma PrintStart(t: Json)
    requires Printable(t)
    ensures Print(t) != ""
    ensures Print(t)[0] !in "]},:"
  {
    if t.Num? { LiteralChars(t.literal); }
  }

  lemma {:induction false} ValueRoundTrip(t: Json, rest: string)
    requires Printable(t) && Delimited(rest)
    ensures ParseValue(Print(t) + rest) == Some((t, rest))
    decreases t, 1, 1
  {
    hide ParseChars, EscapeAll, SortedKeys, Int64Literal, RunLength;
    match t
    case Null => assert ("null" + rest)[4..] == rest;
    case Bool(b) => assert ("true" + rest)[4..] == rest && ("false" + rest)[5..] == rest;
    case Str(text) => QuoteRoundTrip(text, rest);
    case Num(literal) => NumRoundTrip(literal, rest);
    case Arr(items) => ArrRoundTrip(items, rest);
    case Obj(fields) => ObjRoundTrip(t, rest);
  }

  lemma NumRoundTrip(literal: string, rest: string)
    requires Int64Literal(literal) && Delimited(rest)
    ensures ParseValue(literal + rest) == Some((Num(literal), rest))
  {
    LiteralChars(literal);
    RunOf(literal, rest);
    hide Int64Literal;
    assert (literal + rest)[..|literal|] == literal && (literal + rest)[|literal|..] == rest;
  }

  lemma {:induction false} ArrRoundTrip(items: seq<Json>, rest: string)
    requires forall i :: 0 <= i < |items| ==> Printable(items[i])
    ensures ParseValue("[" + PrintItems(items) + "]" + rest) == Some((Arr(items), rest))
    decreases items, 0, 1
  {
    hide ParseItems;
    var s := "[" + PrintItems(items) + "]" + rest;
    assert s[1..] == PrintItems(items) + "]" + rest;
    if items == [] {
      assert s[2..] == rest;
    } else {
      ItemsRoundTrip(items, rest);
      PrintStart(items[0]);
      assert s[1] == Print(items[0])[0];
    }
  }

  lemma {:induction false} ItemsRoundTrip(items: seq<Json>, rest: string)
    requires items != [] && forall i :: 0 <= i < |items| ==> Printable(items[i])
    ensures ParseItems(PrintItems(items) + "]" + rest) == Some((items, rest))
    decreases items, 0, 0
  {
    hide ParseValue, Print;
    var s := PrintItems(items) + "]" + rest;
    if |items| == 1 {
      ValueRoundTrip(items[0], "]" + rest);
      assert s == Print(items[0]) + ("]" + rest);
      assert ("]" + rest)[1..] == rest;
      assert items == [items[0]];
    } else {
      var tail := PrintItems(items[1..]) + "]" + rest;
      assert s == Print(items[0]) + ("," + tail);
      ValueRoundTrip(items[0], "," + tail);
      ItemsRoundTrip(items[1..], rest);
      assert ("," + tail)[1..] == tail;
      assert items == [items[0]] + items[1..];
    }
  }

  /** How `ParseValue` reads an object that is not empty. */
  lemma ObjectParses(s: string, pairs: seq<(string, Json)>, rest: string)
    requires |s| >= 2 && s[0] == '{' && s[1] == '"' && ParsePairs(s[1..]) == Some((pairs, rest)) && StrictlySorted(Keys(pairs))
    ensures ParseValue(s) == Some((Obj(ToMap(pairs)), rest))
  {
    hide ParsePairs, ToMap, StrictlySorted, Keys;
    assert s[1..][0] == '"';
  }

  lemma EmptyObjectParses(rest: string)
    ensures ParseValue("{" + "" + "}" + rest) == Some((Obj(map[]), rest))
  {
    hide ParsePairs;
    var s := "{" + "" + "}" + rest;
    assert s[1..] == "}" + rest && s[2..] == rest;
  }

  lemma {:induction false} ObjRoundTrip(t: Json, rest: string)
    requires t.Obj? && Printable(t)
    ensures ParseValue(Print(t) + rest) == Some((t, rest))
    decreases t, 1, 0
  {
    var keys := SortedKeys(t.fields.Keys);
    assert Print(t) == "{" + PrintFields(t, keys) + "}";
    hide ParsePairs, ParseValue, ToMap, Print, SortedKeys, StrictlySorted, Keys, Pairs;
    if keys == [] {
      EmptyFields(t.fields);
      EmptyObjectParses(rest);
    } else {
      hide PrintFields;
      var s := "{" + PrintFields(t, keys) + "}" + rest;
      assert s[1..] == PrintFields(t, keys) + "}" + rest;
      FieldsRoundTrip(t, keys, rest);
      FieldsStart(t, keys);
      assert s[1] == '"';
      KeysOfPairs(t, keys);
      ObjectParses(s, Pairs(t, keys), rest);
      PairsToMap(t, keys);
      assert ToMap(Pairs(t, keys)) == t.fields;
    }
  }

  lemma KeysOfPairs(t: Json, keys: seq<string>)
    requires t.Obj? && forall k :: k in keys ==> k in t.fields
    ensures Keys(Pairs(t, keys)) == keys
  {}

  lemma EmptyFields(fields: map<string, Json>)
    requires SortedKeys(fields.Keys) == []
    ensures fields == map[]
  {
    assert forall k :: k in fields.Keys ==> k in SortedKeys(fields.Keys);
  }

  lemma FieldsStart(t: Json, keys: seq<string>)
    requires t.Obj? && keys != [] && forall k :: k in keys ==> k in t.fields
    ensures PrintFields(t, keys) != "" && PrintFields(t, keys)[0] == '"'
  {
    assert PrintField(t, keys[0])[0] == Quote(keys[0])[0];
  }

  ghost function Pairs(t: Json, keys: seq<string>): (r: seq<(string, Json)>)
    requires t.Obj? && forall k :: k in keys ==> k in t.fields
    ensures |r| == |keys| && forall i :: 0 <= i < |keys| ==> r[i] == (keys[i], t.fields[keys[i]])
  {
    seq(|keys|, i requires 0 <= i < |keys| => (keys[i], t.fields[keys[i]]))
  }

  lemma {:induction false} PairsToMap(t: Json, keys: seq<string>)
    requires t.Obj? && forall k :: k in keys ==> k in t.fields
    ensures forall k :: k in ToMap(Pairs(t, keys)) <==> k in keys
    ensures forall k :: k in keys ==> ToMap(Pairs(t, keys))[k] == t.fields[k]
  {
    if keys != [] {
      PairsToMap(t, keys[1..]);
      assert Pairs(t, keys)[1..] == Pairs(t, keys[1..]);
    }
  }

  /** How `ParsePairs` reads its last pair, and a pair with more behind it. */
  lemma LastPairParses(s: string, key: string, x: string, value: Json, rest: string)
    requires ParseString(s) == Some((key, ":" + x)) && ParseValue(x) == Some((value, "}" + rest))
    ensures ParsePairs(s) == Some(([(key, value)], rest))
  {
    hide ParseString, ParseValue;
    assert (":" + x)[1..] == x && ("}" + rest)[1..] == rest;
  }

  lemma PairParses(s: string, key: string, x: string, value: Json, tail: string, pairs: seq<(string, Json)>, rest: string)
    requires ParseString(s) == Some((key, ":" + x)) && ParseValue(x) == Some((value, "," + tail)) && ParsePairs(tail) == Some((pairs, rest))
    ensures ParsePairs(s) == Some(([(key, value)] + pairs, rest))
  {
    hide ParseString, ParseValue;
    var more := "," + tail;
    assert (":" + x)[1..] == x && more[1..] == tail;
    assert more[0] == ',' && !HasPrefix(more, "}") && HasPrefix(more, ",");
  }

  lemma {:induction false} FieldsRoundTrip(t: Json, keys: seq<string>, rest: string)
    requires t.Obj? && Printable(t)
    requires keys != [] && forall k :: k in keys ==> k in t.fields
    ensures ParsePairs(PrintFields(t, keys) + "}" + rest) == Some((Pairs(t, keys), rest))
    decreases t, 0, |keys|
  {
    hide ParseValue, ParseString, ParsePairs, Quote, Print, PrintFields;
    var s := PrintFields(t, keys) + "}" + rest;
    var value := t.fields[keys[0]];
    FieldSplit(t, keys, rest);
    if |keys| == 1 {
      var x := Print(value) + ("}" + rest);
      QuoteRoundTrip(keys[0], ":" + x);
      ValueRoundTrip(value, "}" + rest);
      LastPairParses(s, keys[0], x, value, rest);
      assert Pairs(t, keys) == [(keys[0], value)];
    } else {
      var tail := PrintFields(t, keys[1..]) + "}" + rest;
      var x := Print(value) + ("," + tail);
      QuoteRoundTrip(keys[0], ":" + x);
      ValueRoundTrip(value, "," + tail);
      FieldsRoundTrip(t, keys[1..], rest);
      PairParses(s, keys[0], x, value, tail, Pairs(t, keys[1..]), rest);
      assert Pairs(t, keys) == [(keys[0], value)] + Pairs(t, keys[1..]);
    }
  }

  lemma LastSplit(q: string, p: string, rest: string)
    ensures q + ":" + p + "}" + rest == q + (":" + (p + ("}" + rest)))
  {
    assert q + ":" + p + "}" + rest == q + ":" + p + ("}" + rest);
    assert q + ":" + p + ("}" + rest) == q + ":" + (p + ("}" + rest));
  }

  lemma InnerSplit(q: string, p: string, more: string, rest: string)
    ensures q + ":" + p + "," + more + "}" + rest == q + (":" + (p + ("," + (more + "}" + rest))))
  {
    assert q + ":" + p + "," + more + "}" + rest == q + ":" + p + "," + (more + "}" + rest);
    assert q + ":" + p + "," + (more + "}" + rest) == q + ":" + p + ("," + (more + "}" + rest));
    assert q + ":" + p + ("," + (more + "}" + rest)) == q + ":" + (p + ("," + (more + "}" + rest)));
  }

  lemma FieldSplit(t: Json, keys: seq<string>, rest: string)
    requires t.Obj? && keys != [] && forall k :: k in keys ==> k in t.fields
    ensures PrintFields(t, keys) + "}" + rest ==
            Quote(keys[0]) + (":" + (Print(t.fields[keys[0]]) +
              ((if |keys| == 1 then "}" else ",") + if |keys| == 1 then rest else PrintFields(t, keys[1..]) + "}" + rest)))
  {
    hide Print, Quote;
    var q, p := Quote(keys[0]), Print(t.fields[keys[0]]);
    if |keys| == 1 {
      LastSplit(q, p, rest);
    } else {
      var more := PrintFields(t, keys[1..]);
      assert PrintFields(t, keys) == q + ":" + p + "," + more;
      hide PrintFields;
      InnerSplit(q, p, more, rest);
    }
  }

  // ---------------------------------------------------------------- printing undoes parsing

  lemma {:induction false} ParsedChars(s: string, text: string, rest: string)
    requires ParseChars(s) == Some((text, rest))
    ensures s == EscapeAll(text) + "\"" + rest
  {
    hide Escape;
    if s[0] == '"' {
      assert s == "\"" + rest;
    } else {
      var c := ReadChar(s).value;
      ParsedChars(s[|Escape(c)|..], text[1..], rest);
      assert s == Escape(c) + s[|Escape(c)|..];
    }
  }

  lemma ParsedString(s: string, text: string, rest: string)
    requires ParseString(s) == Some((text, rest))
    ensures s == Quote(text) + rest
  {
    ParsedChars(s[1..], text, rest);
    assert s == "\"" + s[1..];
  }

  lemma {:induction false} ParsedValue(s: string, t: Json, rest: string)
    requires ParseValue(s) == Some((t, rest))
    ensures Printable(t) && s == Print(t) + rest
    decreases |s|, 0
  {
    hide ParseString, ParseItems, ParsePairs, RunLength, Int64Literal, StrictlySorted, SortedKeys, ToMap;
    if s[0] == '"' {
      ParsedString(s, t.text, rest);
    } else if s[0] == '[' {
      if HasPrefix(s[1..], "]") {
        assert s == "[" + s[1..][..1] + rest;
      } else {
        ParsedItems(s[1..], t.items, rest);
        ArrText(s, t.items, rest);
      }
    } else if s[0] == '{' {
      if HasPrefix(s[1..], "}") {
        EmptyObject();
        assert s == "{" + s[1..][..1] + rest;
      } else {
        var pairs := ParsePairs(s[1..]).value.0;
        ParsedPairs(s[1..], pairs, rest, t);
        StrictlySortedUnique(Keys(pairs), SortedKeys(t.fields.Keys));
        ObjText(s, t, rest);
      }
    } else if IsNumberChar(s[0]) {
      assert s == s[..RunLength(s)] + s[RunLength(s)..];
    }
  }

  lemma ArrText(s: string, items: seq<Json>, rest: string)
    requires s != "" && s[0] == '[' && s[1..] == PrintItems(items) + "]" + rest
    ensures s == Print(Arr(items)) + rest
  {
    hide PrintItems;
    assert s == "[" + s[1..];
  }

  lemma ObjText(s: string, t: Json, rest: string)
    requires t.Obj? && s != "" && s[0] == '{'
    requires s[1..] == PrintFields(t, SortedKeys(t.fields.Keys)) + "}" + rest
    ensures s == Print(t) + rest
  {
    hide PrintFields, SortedKeys;
    assert s == "{" + s[1..];
  }

  lemma EmptyObject()
    ensures Print(Obj(map[])) == "{}"
  {
    var t := Obj(map[]);
    assert SortedKeys(t.fields.Keys) == [];
  }

  lemma {:induction false} ParsedItems(s: string, items: seq<Json>, rest: string)
    requires ParseItems(s) == Some((items, rest))
    ensures forall i :: 0 <= i < |items| ==> Printable(items[i])
    ensures s == PrintItems(items) + "]" + rest
    decreases |s|, 1
  {
    hide ParseValue, Print, Printable;
    var after := ParseValue(s).value.1;
    ParsedValue(s, items[0], after);
    assert after == [after[0]] + after[1..];
    if !HasPrefix(after, "]") {
      ParsedItems(after[1..], items[1..], rest);
      assert items == [items[0]] + items[1..];
    }
  }

  /** A parsed field list, seen as the fields of any object that agrees with it. */
  lemma {:induction false} ParsedFields(s: string, pairs: seq<(string, Json)>, rest: string, t: Json)
    requires ParsePairs(s) == Some((pairs, rest))
    requires t.Obj? && forall i :: 0 <= i < |pairs| ==> pairs[i].0 in t.fields && t.fields[pairs[i].0] == pairs[i].1
    ensures forall i :: 0 <= i < |pairs| ==> Printable(pairs[i].1)
    ensures s == PrintFields(t, Keys(pairs)) + "}" + rest
    decreases |s|, 1
  {
    hide ParseString, ParseValue, Quote, Print, Printable;
    var (key, afterKey) := ParseString(s).value;
    ParsedString(s, key, afterKey);
    var (value, after) := ParseValue(afterKey[1..]).value;
    ParsedValue(afterKey[1..], value, after);
    assert pairs[0] == (key, value);
    FieldText(s, afterKey, after, t, key);
    if HasPrefix(after, "}") {
      assert Keys(pairs) == [key];
    } else {
      ParsedFields(after[1..], pairs[1..], rest, t);
      assert Keys(pairs)[1..] == Keys(pairs[1..]);
      assert pairs == [pairs[0]] + pairs[1..];
    }
  }

  lemma FieldText(s: string, afterKey: string, after: string, t: Json, key: string)
    requires t.Obj? && key in t.fields
    requires s == Quote(key) + afterKey && HasPrefix(afterKey, ":") && after != ""
    requires afterKey[1..] == Print(t.fields[key]) + after
    ensures s == PrintField(t, key) + [after[0]] + after[1..]
  {
    hide Quote, Print;
    assert afterKey == ":" + afterKey[1..];
    assert after == [after[0]] + after[1..];
  }

  lemma ParsedPairs(s: string, pairs: seq<(string, Json)>, rest: string, t: Json)
    requires ParsePairs(s) == Some((pairs, rest))
    requires StrictlySorted(Keys(pairs)) && t == Obj(ToMap(pairs))
    ensures forall k :: k in t.fields <==> k in Keys(pairs)
    ensures Printable(t)
    ensures s == PrintFields(t, Keys(pairs)) + "}" + rest
    decreases |s|, 2
  {
    ToMapAgrees(pairs);
    ParsedFields(s, pairs, rest, t);
    forall k | k in t.fields ensures Printable(t.fields[k]) {
      var i :| 0 <= i < |pairs| && Keys(pairs)[i] == k;
    }
  }

  lemma {:induction false} ToMapAgrees(pairs: seq<(string, Json)>)
    requires StrictlySorted(Keys(pairs))
    ensures forall k :: k in ToMap(pairs) <==> k in Keys(pairs)
    ensures forall i :: 0 <= i < |pairs| ==> ToMap(pairs)[pairs[i].0] == pairs[i].1
  {
    if pairs != [] {
      assert Keys(pairs)[1..] == Keys(pairs[1..]);
      assert StrictlySorted(Keys(pairs[1..])) by {
        forall i, j | 0 <= i < j < |pairs[1..]| ensures StrLess(Keys(pairs[1..])[i], Keys(pairs[1..])[j]) {
          assert StrLess(Keys(pairs)[1 + i], Keys(pairs)[1 + j]);
        }
      }
      ToMapAgrees(pairs[1..]);
      forall i | 1 <= i < |pairs| ensures pairs[i].0 != pairs[0].0 && pairs[i] == pairs[1..][i - 1] {
        StrLessTotal(Keys(pairs)[0], Keys(pairs)[i]);
      }
      assert Keys(pairs) == [pairs[0].0] + Keys(pairs[1..]);
    }
  }

  // ---------------------------------------------------------------- main results

  /** The parser accepts exactly the canonical texts: a whole text parses to `t`
      if and only if `t` is printable and the text is its print. */
  lemma ParserInvertsPrinter(s: string, t: Json)
    ensures ParseValue(s) == Some((t, "")) <==> Printable(t) && s == Print(t)
  {
    if ParseValue(s) == Some((t, "")) {
      ParsedValue(s, t, "");
      assert Print(t) + "" == Print(t);
    }
    if Printable(t) && s == Print(t) {
      ValueRoundTrip(t, "");
      assert Print(t) + "" == Print(t);
    }
  }

  /** Distinct trees have distinct canonical bytes. */
  lemma CanonicalBytesInjective(a: Json, b: Json)
    requires CanonicalBytes(a).Some? && CanonicalBytes(a) == CanonicalBytes(b)
    ensures a == b
  {
    Utf8.EncodeInjective(Print(a), Print(b));
    ParserInvertsPrinter(Print(a), a);
    ParserInvertsPrinter(Print(b), b);
  }

  /** A whole byte string as one canonical tree. */
  function ParseBytes(raw: seq<Byte>): Option<Json>
  {
    match Utf8.Decode(raw)
    case None => None
    case Some(text) =>
      match ParseValue(text)
      case None => None
      case Some((tree, rest)) => if rest == "" then Some(tree) else None
  }

  /** Bytes parse to a tree exactly when they are its canonical bytes. */
  lemma BytesParseExactly(raw: seq<Byte>, t: Json)
    ensures ParseBytes(raw) == Some(t) <==> CanonicalBytes(t) == Some(raw)
  {
    hide Print, Printable, ParseValue, Utf8.Decode, Utf8.Encode;
    if ParseBytes(raw) == Some(t) {
      var text := Utf8.Decode(raw).value;
      Utf8.DecodeIsStrict(raw, text);
      ParserInvertsPrinter(text, t);
    }
    if CanonicalBytes(t) == Some(raw) {
      Utf8.RoundTrip(Print(t));
      ParserInvertsPrinter(Print(t), t);
    }
  }

  // ---------------------------------------------------------------- what a print never shows

  /** A character that may appear in a print: no control character, none that is special in HTML, and no
      line or paragraph separator. */
  predicate IsSafe(c: char) { c as int >= 0x20 && c !in {'<', '>', '&'} && c as int != 0x2028 && c as int != 0x2029 }

  predicate AllSafe(s: string) { forall i :: 0 <= i < |s| ==> IsSafe(s[i]) }

  /** Exactly the unsafe characters, the quote and the backslash are escaped, by safe characters. */
  lemma EscapeExactly(c: char)
    ensures Escape(c) == [c] <==> IsSafe(c) && c !in {'"', '\\'}
    ensures AllSafe(Escape(c))
  {}

  /** The character that one escape denotes (section 7 of RFC 8259), in lower-case digits. */
  function Denotes(e: string): Option<char>
  {
    if |e| == 1 && e[0] !in {'"', '\\'} then Some(e[0])
    else if |e| == 2 && e[0] == '\\' then
      match e[1]
      case '"' => Some('"')
      case '\\' => Some('\\')
      case 'b' => Some(8 as char)
      case 'f' => Some(12 as char)
      case 'n' => Some('\n')
      case 'r' => Some('\r')
      case 't' => Some('\t')
      case _ => None
    else if |e| == 6 && e[0] == '\\' && e[1] == 'u' && (forall i :: 2 <= i < 6 ==> IsLowerHex(e[i])) then
      var n := HexValue(e[2]) * 0x1000 + HexValue(e[3]) * 0x100 + HexValue(e[4]) * 0x10 + HexValue(e[5]);
      if 0 <= n < 0xD800 then Some(n as char) else None
    else None
  }

  /** Every escape denotes its character, in two characters where JSON has such a form and in six otherwise. */
  lemma EscapeDenotes(c: char)
    ensures Denotes(Escape(c)) == Some(c)
    ensures |Escape(c)| == if IsSafe(c) && c !in {'"', '\\'} then 1
                           else if c in {'"', '\\', '\n', '\r', '\t'} || c as int == 8 || c as int == 12 then 2 else 6
  {
    var n := c as int;
    if n < 0x20 || c == '<' || c == '>' || c == '&' {
      HexNibble(n / 16);
      HexNibble(n % 16);
    }
  }

  lemma HexNibble(n: int)
    requires 0 <= n < 16
    ensures IsLowerHex(HexDigit(n)) && HexValue(HexDigit(n)) == n
  {}

  lemma {:induction false} EscapedIsSafe(s: string)
    ensures AllSafe(EscapeAll(s))
  {
    hide Escape, IsSafe;
    if s != "" {
      EscapedIsSafe(s[1..]);
      EscapeExactly(s[0]);
    }
  }

  lemma PunctuationIsSafe()
    ensures AllSafe("\"") && AllSafe("[") && AllSafe("]") && AllSafe("{") && AllSafe("}") && AllSafe(",") && AllSafe(":")
    ensures AllSafe("null") && AllSafe("true") && AllSafe("false")
  {}

  lemma SafeConcat(a: string, b: string)
    requires AllSafe(a) && AllSafe(b)
    ensures AllSafe(a + b)
  {
    hide IsSafe;
  }

  lemma LiteralIsSafe(literal: string)
    requires Int64Literal(literal)
    ensures AllSafe(literal)
  {
    LiteralChars(literal);
  }

  lemma QuoteIsSafe(s: string)
    ensures AllSafe(Quote(s))
  {
    hide IsSafe, AllSafe, EscapeAll;
    PunctuationIsSafe();
    EscapedIsSafe(s);
    SafeConcat("\"", EscapeAll(s));
    SafeConcat("\"" + EscapeAll(s), "\"");
  }

  /** The canonical text of any tree can stand in a line of HTML. */
  lemma {:induction false} PrintIsSafe(t: Json)
    requires Printable(t)
    ensures AllSafe(Print(t))
    decreases t, 1, 0
  {
    hide IsSafe, AllSafe, Quote, SortedKeys, PrintItems, PrintFields, Int64Literal;
    PunctuationIsSafe();
    match t
    case Null =>
    case Bool(b) =>
    case Str(s) => QuoteIsSafe(s);
    case Num(literal) => LiteralIsSafe(literal);
    case Arr(items) =>
      ItemsAreSafe(items);
      SafeConcat("[", PrintItems(items));
      SafeConcat("[" + PrintItems(items), "]");
    case Obj(fields) =>
      FieldsAreSafe(t, SortedKeys(fields.Keys));
      SafeConcat("{", PrintFields(t, SortedKeys(fields.Keys)));
      SafeConcat("{" + PrintFields(t, SortedKeys(fields.Keys)), "}");
  }

  lemma {:induction false} ItemsAreSafe(items: seq<Json>)
    requires forall i :: 0 <= i < |items| ==> Printable(items[i])
    ensures AllSafe(PrintItems(items))
    decreases items, 0, |items|
  {
    hide IsSafe, AllSafe, Print;
    EmptyIsSafe();
    PunctuationIsSafe();
    if items != [] {
      PrintIsSafe(items[0]);
      if |items| > 1 {
        ItemsAreSafe(items[1..]);
        SafeConcat(Print(items[0]), ",");
        SafeConcat(Print(items[0]) + ",", PrintItems(items[1..]));
      }
    }
  }

  lemma EmptyIsSafe()
    ensures AllSafe("")
  {}

  lemma {:induction false} FieldsAreSafe(t: Json, keys: seq<string>)
    requires t.Obj? && Printable(t) && forall k :: k in keys ==> k in t.fields
    ensures AllSafe(PrintFields(t, keys))
    decreases t, 0, |keys|
  {
    hide IsSafe, AllSafe, Print, Quote;
    EmptyIsSafe();
    PunctuationIsSafe();
    if keys != [] {
      QuoteIsSafe(keys[0]);
      PrintIsSafe(t.fields[keys[0]]);
      SafeConcat(Quote(keys[0]), ":");
      SafeConcat(Quote(keys[0]) + ":", Print(t.fields[keys[0]]));
      if |keys| > 1 {
        FieldsAreSafe(t, keys[1..]);
        SafeConcat(PrintField(t, keys[0]), ",");
        SafeConcat(PrintField(t, keys[0]) + ",", PrintFields(t, keys[1..]));
      }
    }
  }
}
