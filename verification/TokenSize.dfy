/** How long a recovery token is. A dispatch record refuses a token of more than 4096 characters
    (internal/contract/models.go:562-567), and `Prepare` does not check the length of the token it makes
    (internal/githubapp/client.go:355-358): a run link of 512 bytes may need six bytes for each of them. */
module TokenSize {
  import opened Prelude
  import opened Patterns
  import opened CanonicalJson
  import opened Contract
  import opened Catalog
  import opened Broker
  import Utf8
  import Base64Url

  // ---------------------------------------------------------------- the size of a text and of an object

  /** The bytes that a text occupies inside the quotes of a JSON string. */
  function EscapedLen(s: string): nat { Utf8.ByteLen(EscapeAll(s)) }

  lemma ConcatLen(a: string, b: string)
    ensures Utf8.ByteLen(a + b) == Utf8.ByteLen(a) + Utf8.ByteLen(b)
  {
    Utf8.EncodeConcat(a, b);
  }

  lemma AsciiLen(s: string)
    requires forall i :: 0 <= i < |s| ==> s[i] as int < 0x80
    ensures Utf8.ByteLen(s) == |s|
  {
    Utf8.AsciiLength(s);
    assert |Codes(s)| == |s|;
  }

  lemma QuoteLen(s: string)
    ensures Utf8.ByteLen(Quote(s)) == EscapedLen(s) + 2
  {
    hide EscapeAll;
    ConcatLen("\"" + EscapeAll(s), "\"");
    ConcatLen("\"", EscapeAll(s));
    AsciiLen("\"");
  }

  /** A character that a JSON string shows as itself, in one byte. */
  predicate IsPlain(c: char)
  {
    0x20 <= c as int < 0x7F && c !in "\"\\<>&"
  }

  predicate AllPlain(s: string) { forall i :: 0 <= i < |s| ==> IsPlain(s[i]) }

  lemma {:induction false} PlainLen(s: string)
    requires AllPlain(s)
    ensures EscapeAll(s) == s && EscapedLen(s) == |s| && Utf8.ByteLen(s) == |s|
  {
    if s != "" {
      assert IsPlain(s[0]);
      PlainLen(s[1..]);
      assert s == [s[0]] + s[1..];
    }
    AsciiLen(s);
  }

  /** No character takes more than six bytes. */
  lemma {:induction false} EscapedBound(s: string)
    ensures EscapedLen(s) <= 6 * Utf8.ByteLen(s)
  {
    hide Escape, Utf8.EncodeChar;
    if s != "" {
      EscapedBound(s[1..]);
      ConcatLen(Escape(s[0]), EscapeAll(s[1..]));
      EscapeLen(s[0]);
    }
  }

  lemma EscapeLen(c: char)
    ensures Utf8.ByteLen(Escape(c)) <= 6 * |Utf8.EncodeChar(c)|
  {
    if |Escape(c)| > 1 {
      EscapeIsAscii(c);
      AsciiLen(Escape(c));
    } else {
      assert Escape(c) == [c];
      assert Utf8.Encode([c]) == Utf8.EncodeChar(c) + Utf8.Encode([c][1..]);
    }
  }

  lemma EscapeIsAscii(c: char)
    requires |Escape(c)| > 1
    ensures forall i :: 0 <= i < |Escape(c)| ==> Escape(c)[i] as int < 0x80
  {}

  /** The value under a key, or null. */
  function At(t: Json, key: string): Json { if t.Obj? && key in t.fields then t.fields[key] else Null }

  function FieldLen(t: Json, key: string): nat { EscapedLen(key) + 3 + Utf8.ByteLen(Print(At(t, key))) }

  function FieldsLen(t: Json, keys: seq<string>): nat
  {
    if keys == [] then 0
    else FieldLen(t, keys[0]) + (if |keys| == 1 then 0 else 1 + FieldsLen(t, keys[1..]))
  }

  lemma FieldPrinted(t: Json, key: string)
    requires t.Obj? && key in t.fields
    ensures Utf8.ByteLen(PrintField(t, key)) == FieldLen(t, key)
  {
    hide Quote, Print;
    QuoteLen(key);
    ConcatLen(Quote(key) + ":", Print(t.fields[key]));
    ConcatLen(Quote(key), ":");
    AsciiLen(":");
  }

  lemma {:induction false} FieldsPrinted(t: Json, keys: seq<string>)
    requires t.Obj? && forall k :: k in keys ==> k in t.fields
    ensures Utf8.ByteLen(PrintFields(t, keys)) == FieldsLen(t, keys)
  {
    hide PrintField, FieldLen;
    if keys != [] {
      FieldPrinted(t, keys[0]);
      if |keys| > 1 {
        FieldsPrinted(t, keys[1..]);
        ConcatLen(PrintField(t, keys[0]) + ",", PrintFields(t, keys[1..]));
        ConcatLen(PrintField(t, keys[0]), ",");
        AsciiLen(",");
      }
    }
  }

  /** The size of an object is that of its fields in sorted order. */
  lemma ObjectPrinted(t: Json, keys: seq<string>)
    requires t.Obj? && StrictlySorted(keys) && forall k :: k in keys <==> k in t.fields
    ensures Utf8.ByteLen(Print(t)) == FieldsLen(t, keys) + 2
  {
    StrictlySortedUnique(keys, SortedKeys(t.fields.Keys));
    FieldsPrinted(t, keys);
    hide PrintFields, SortedKeys, FieldsLen, StrictlySorted;
    ConcatLen("{" + PrintFields(t, keys), "}");
    ConcatLen("{", PrintFields(t, keys));
    AsciiLen("{");
    AsciiLen("}");
  }

  // ---------------------------------------------------------------- the size of a state

  const SORTED_STATE_KEYS: seq<string> := [
    "baseline_run_attempt", "baseline_run_id", "operation", "protected_main_sha",
    "provider_reference", "repository", "workflow_id", "workflow_run_id"]

  lemma {:induction false} LessFrom(a: string, b: string, k: nat)
    requires k < |a| && k < |b| && a[..k] == b[..k] && a[k] < b[k]
    ensures StrLess(a, b)
  {
    assert Codes(a) != [] && Codes(b) != [];
    if k > 0 {
      assert a[0] == a[..k][0] == b[..k][0] == b[0];
      assert a[1..][..k - 1] == a[..k][1..] && b[1..][..k - 1] == b[..k][1..];
      LessFrom(a[1..], b[1..], k - 1);
      assert Codes(a)[1..] == Codes(a[1..]) && Codes(b)[1..] == Codes(b[1..]);
    }
  }

  lemma {:induction false} NeighboursSorted(keys: seq<string>)
    requires forall i :: 1 <= i < |keys| ==> StrLess(keys[i - 1], keys[i])
    ensures StrictlySorted(keys)
  {
    hide StrLess;
    if |keys| > 1 {
      var rest := keys[1..];
      forall i | 1 <= i < |rest| ensures StrLess(rest[i - 1], rest[i]) { assert StrLess(keys[i], keys[i + 1]); }
      NeighboursSorted(rest);
      forall i, j | 0 <= i < j < |keys| ensures StrLess(keys[i], keys[j]) {
        if i > 0 {
          assert StrLess(rest[i - 1], rest[j - 1]);
        } else if j > 1 {
          assert StrLess(rest[0], rest[j - 1]);
          StrLessTrans(keys[0], keys[1], keys[j]);
        }
      }
    }
  }

  lemma StateKeysSorted()
    ensures StrictlySorted(SORTED_STATE_KEYS)
  {
    var k := SORTED_STATE_KEYS;
    LessFrom(k[0], k[1], 13);
    LessFrom(k[1], k[2], 0);
    LessFrom(k[2], k[3], 0);
    LessFrom(k[3], k[4], 3);
    LessFrom(k[4], k[5], 0);
    LessFrom(k[5], k[6], 0);
    LessFrom(k[6], k[7], 9);
    hide StrLess;
    NeighboursSorted(k);
  }

  lemma StateKeysSame()
    ensures forall k :: k in SORTED_STATE_KEYS <==> k in STATE_KEYS
  {}

  lemma RunKeysPlain()
    ensures AllPlain("baseline_run_attempt") && AllPlain("baseline_run_id") && AllPlain("workflow_id") && AllPlain("workflow_run_id")
  {}

  lemma TextKeysPlain()
    ensures AllPlain("operation") && AllPlain("protected_main_sha") && AllPlain("provider_reference") && AllPlain("repository")
  {}

  lemma NumberLen(n: Int64)
    ensures Utf8.ByteLen(Print(Integer(n))) == |Itoa(n)|
  {
    ItoaRoundTrip(n);
    LiteralChars(Itoa(n));
    AsciiLen(Itoa(n));
  }

  /** The decimal text of a number of 64 bits has at most 20 characters. */
  lemma NumberBound(n: Int64)
    ensures 1 <= |Itoa(n)| <= 20
  {
    var m: int := n;
    assert IsInt64(n) && TWO_TO_63 == 0x8000_0000_0000_0000;
    WidestLen();
    hide Decimal;
    DecimalGrows(if m < 0 then -m else m, 0x8000_0000_0000_0000);
  }

  lemma WidestLen()
    ensures |Decimal(0x8000_0000_0000_0000)| == 19
  {
    assert |Decimal(9223372)| == 7;
    assert |Decimal(9223372036854)| == 13;
  }

  lemma {:induction false} DecimalGrows(m: nat, n: nat)
    requires m <= n
    ensures |Decimal(m)| <= |Decimal(n)|
  {
    if m >= 10 { DecimalGrows(m / 10, n / 10); }
  }

  /** The bytes of a state before they are encoded: 157 for names and punctuation, and the values. */
  function RawLen(s: RecoveryState): nat
  {
    157 + EscapedLen(s.operation) + EscapedLen(s.repository) + EscapedLen(s.protectedMainSha) + EscapedLen(s.providerReference)
    + |Itoa(s.workflowId)| + |Itoa(s.workflowRunId)| + |Itoa(s.baselineRunId)| + |Itoa(s.baselineRunAttempt)|
  }

  ghost predicate ShowsState(t: Json, s: RecoveryState)
  {
    && t.Obj? && (forall k :: k in SORTED_STATE_KEYS <==> k in t.fields)
    && At(t, "operation") == Str(s.operation) && At(t, "repository") == Str(s.repository)
    && At(t, "workflow_id") == Integer(s.workflowId) && At(t, "workflow_run_id") == Integer(s.workflowRunId)
    && At(t, "protected_main_sha") == Str(s.protectedMainSha) && At(t, "baseline_run_id") == Integer(s.baselineRunId)
    && At(t, "baseline_run_attempt") == Integer(s.baselineRunAttempt)
    && At(t, "provider_reference") == Str(s.providerReference)
  }

  lemma StateFields(s: RecoveryState)
    ensures ShowsState(StateTree(s), s)
  {
    StateKeysSame();
    var v := StateValues(s);
    hide Integer, Struct;
    StructField(STATE_KEYS, v, 0); StructField(STATE_KEYS, v, 1); StructField(STATE_KEYS, v, 2); StructField(STATE_KEYS, v, 3);
    StructField(STATE_KEYS, v, 4); StructField(STATE_KEYS, v, 5); StructField(STATE_KEYS, v, 6); StructField(STATE_KEYS, v, 7);
  }

  lemma StructField(keys: seq<string>, values: seq<Json>, i: nat)
    requires |keys| == |values| && DistinctKeys(keys) && i < |keys|
    ensures Struct(keys, values).Obj? && (forall k :: k in Struct(keys, values).fields <==> k in keys)
    ensures At(Struct(keys, values), keys[i]) == values[i]
  {
    StructRoundTrip(keys, values);
    assert Unstruct(keys, Struct(keys, values)).value[i] == values[i];
  }

  /** One field of a name without escapes. */
  lemma PlainField(t: Json, key: string, size: nat)
    requires AllPlain(key) && Utf8.ByteLen(Print(At(t, key))) == size
    ensures FieldLen(t, key) == |key| + 3 + size
  {
    hide Print, AllPlain, EscapedLen, At;
    PlainLen(key);
  }

  lemma {:induction false} EightFields(t: Json, keys: seq<string>)
    requires |keys| == 8
    ensures FieldsLen(t, keys) ==
            FieldLen(t, keys[0]) + FieldLen(t, keys[1]) + FieldLen(t, keys[2]) + FieldLen(t, keys[3])
            + FieldLen(t, keys[4]) + FieldLen(t, keys[5]) + FieldLen(t, keys[6]) + FieldLen(t, keys[7]) + 7
  {
    hide FieldLen;
    FieldsStep(t, keys, 7);
    FieldsStep(t, keys, 6);
    FieldsStep(t, keys, 5);
    FieldsStep(t, keys, 4);
    FieldsStep(t, keys, 3);
    FieldsStep(t, keys, 2);
    FieldsStep(t, keys, 1);
    FieldsStep(t, keys, 0);
    assert keys[0..] == keys;
    hide FieldsLen;
  }

  lemma FieldsStep(t: Json, keys: seq<string>, i: nat)
    requires i < |keys|
    ensures FieldsLen(t, keys[i..]) == FieldLen(t, keys[i]) + (if i + 1 == |keys| then 0 else 1 + FieldsLen(t, keys[i + 1..]))
  {
    hide FieldLen;
    assert keys[i..][1..] == keys[i + 1..] && keys[i..][0] == keys[i];
  }

  lemma StateLen(s: RecoveryState)
    ensures CanonicalBytes(StateTree(s)).Some? && |CanonicalBytes(StateTree(s)).value| == RawLen(s)
  {
    var t := StateTree(s);
    var k := SORTED_STATE_KEYS;
    StateRoundTrip(s);
    StateFields(s);
    StateKeysSorted();
    hide StateTree, Printable, Print, Integer, EscapedLen, AllPlain, StrictlySorted, FieldsLen, FieldLen, Itoa;
    ObjectPrinted(t, k);
    EightFields(t, k);
    StateFieldLens(t, s);
  }

  lemma StateFieldLens(t: Json, s: RecoveryState)
    requires ShowsState(t, s)
    ensures FieldLen(t, "operation") == 14 + EscapedLen(s.operation) && FieldLen(t, "repository") == 15 + EscapedLen(s.repository)
    ensures FieldLen(t, "protected_main_sha") == 23 + EscapedLen(s.protectedMainSha)
    ensures FieldLen(t, "provider_reference") == 23 + EscapedLen(s.providerReference)
    ensures FieldLen(t, "workflow_id") == 14 + |Itoa(s.workflowId)| && FieldLen(t, "workflow_run_id") == 18 + |Itoa(s.workflowRunId)|
    ensures FieldLen(t, "baseline_run_id") == 18 + |Itoa(s.baselineRunId)|
    ensures FieldLen(t, "baseline_run_attempt") == 23 + |Itoa(s.baselineRunAttempt)|
  {
    RunKeysPlain();
    TextKeysPlain();
    TextLen(s.operation); TextLen(s.repository); TextLen(s.protectedMainSha); TextLen(s.providerReference);
    NumberLen(s.workflowId); NumberLen(s.workflowRunId); NumberLen(s.baselineRunId); NumberLen(s.baselineRunAttempt);
    hide Print, Integer, EscapedLen, AllPlain, FieldLen, Itoa, At;
    PlainField(t, "operation", EscapedLen(s.operation) + 2);
    PlainField(t, "repository", EscapedLen(s.repository) + 2);
    PlainField(t, "protected_main_sha", EscapedLen(s.protectedMainSha) + 2);
    PlainField(t, "provider_reference", EscapedLen(s.providerReference) + 2);
    PlainField(t, "workflow_id", |Itoa(s.workflowId)|);
    PlainField(t, "workflow_run_id", |Itoa(s.workflowRunId)|);
    PlainField(t, "baseline_run_id", |Itoa(s.baselineRunId)|);
    PlainField(t, "baseline_run_attempt", |Itoa(s.baselineRunAttempt)|);
  }

  lemma TextLen(s: string)
    ensures Utf8.ByteLen(Print(Str(s))) == EscapedLen(s) + 2
  {
    QuoteLen(s);
  }

  // ---------------------------------------------------------------- when a token fits its record

  /** A state fits a dispatch record exactly when its raw length is at most 3072. */
  lemma TokenFitsExactly(s: RecoveryState)
    ensures EncodeState(s).Some?
    ensures |EncodeState(s).value| <= 4096 <==> RawLen(s) <= 3072
    ensures IsRecoveryToken(EncodeState(s).value) <==> RawLen(s) <= 3072
  {
    StateLen(s);
    TokenIsWellFormed(s);
    hide StateTree, RawLen;
    Base64Url.LimitsCoincide(CanonicalBytes(StateTree(s)).value);
  }
}
