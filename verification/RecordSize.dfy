/** How large a stored record can be. The bucket reads no object of more than 2 MiB
    (internal/storage/gcs.go:84-86); a verified record stays below that as long as the texts that no
    pattern limits (times, the requester's address, the text of a signature) have at most 6000 bytes. */
module RecordSize {
  import opened Prelude
  import opened Patterns
  import opened CanonicalJson
  import opened Contract
  import opened TokenSize
  import Base64Url
  import Utf8

  const OBJECT_LIMIT: int := 2 * 1024 * 1024

  const SHORT: int := 6000

  predicate Short(s: string) { Utf8.ByteLen(s) <= SHORT }

  lemma {:induction false} AtMostFour(s: string)
    ensures Utf8.ByteLen(s) <= 4 * |s|
  {
    if s != "" { AtMostFour(s[1..]); }
  }

  // ---------------------------------------------------------------- the size of a struct

  /** What a field adds at most to its value: a name of at most 20 characters, quotes, colon and comma. */
  const NAME_MOST: int := 484

  lemma FieldBound(t: Json, key: string, most: nat)
    requires |key| <= 20 && Utf8.ByteLen(Print(At(t, key))) <= most
    ensures FieldLen(t, key) + 1 <= most + NAME_MOST
  {
    hide Print, EscapedLen, At;
    AtMostFour(key);
    EscapedBound(key);
  }

  lemma Next(n: nat, c: nat)
    ensures (n + 1) * c == n * c + c
  {}

  lemma {:induction false} FieldsBound(t: Json, keys: seq<string>, most: nat)
    requires forall k :: k in keys ==> |k| <= 20 && Utf8.ByteLen(Print(At(t, k))) <= most
    ensures FieldsLen(t, keys) <= |keys| * (most + NAME_MOST)
  {
    hide Print, FieldLen, At;
    if keys != [] {
      FieldBound(t, keys[0], most);
      FieldsBound(t, keys[1..], most);
      Next(|keys| - 1, most + NAME_MOST);
    }
  }

  lemma {:induction false} DistinctWithin(s: seq<string>, keys: set<string>)
    requires (forall i, j :: 0 <= i < j < |s| ==> s[i] != s[j]) && forall k :: k in s ==> k in keys
    ensures |s| <= |keys|
  {
    if s != [] {
      DistinctWithin(s[1..], keys - {s[0]});
    }
  }

  lemma {:induction false} KeySetSize(keys: seq<string>)
    ensures |set k | k in keys| <= |keys|
  {
    if keys != [] {
      KeySetSize(keys[1..]);
      assert (set k | k in keys) == {keys[0]} + (set k | k in keys[1..]);
    }
  }

  lemma SortedKeysLen(keys: seq<string>, sorted: seq<string>)
    requires StrictlySorted(sorted) && forall k :: k in sorted ==> k in keys
    ensures |sorted| <= |keys|
  {
    forall i, j | 0 <= i < j < |sorted| ensures sorted[i] != sorted[j] { StrLessTotal(sorted[i], sorted[j]); }
    KeySetSize(keys);
    DistinctWithin(sorted, set k | k in keys);
  }

  predicate ShortKeys(keys: seq<string>) { DistinctKeys(keys) && forall i :: 0 <= i < |keys| ==> |keys[i]| <= 20 }

  /** The size of a struct from the size of its largest value. */
  lemma StructBound(keys: seq<string>, values: seq<Json>, most: nat)
    requires |keys| == |values| && ShortKeys(keys)
    requires forall i :: 0 <= i < |keys| ==> Utf8.ByteLen(Print(values[i])) <= most
    ensures Utf8.ByteLen(Print(Struct(keys, values))) <= |keys| * (most + NAME_MOST) + 2
  {
    var t := Struct(keys, values);
    var sorted := SortedKeys(t.fields.Keys);
    hide Print, SortedKeys, FieldsLen;
    forall k | k in sorted ensures |k| <= 20 && Utf8.ByteLen(Print(At(t, k))) <= most {
      assert t.fields[k] == values[IndexOf(keys, k)];
    }
    FieldsBound(t, sorted, most);
    SortedKeysLen(keys, sorted);
    ObjectPrinted(t, sorted);
    Product(|sorted|, |keys|, most + NAME_MOST);
  }

  lemma Product(a: nat, b: nat, c: nat)
    requires a <= b
    ensures a * c <= b * c
  {}

  /** The most bytes of a short text or a number, and of a signature. */
  const TEXT_MOST: int := 36002

  const SIGNATURE_MOST: int := 109460

  lemma ShortText(s: string)
    requires Short(s)
    ensures Utf8.ByteLen(Print(Str(s))) <= TEXT_MOST
  {
    hide EscapedLen;
    EscapedBound(s);
    TextLen(s);
  }

  lemma ShortNumber(n: Int64)
    ensures Utf8.ByteLen(Print(Integer(n))) <= TEXT_MOST
  {
    hide Print, Integer, Itoa;
    NumberLen(n);
    NumberBound(n);
  }

  predicate ShortSignature(s: Signature) { Short(s.algorithm) && Short(s.keyId) && Short(s.value) }

  lemma SignatureBound(s: Signature)
    requires ShortSignature(s)
    ensures Utf8.ByteLen(Print(SignatureTree(s))) <= SIGNATURE_MOST
  {
    ShortText(s.algorithm);
    ShortText(s.keyId);
    ShortText(s.value);
    assert ShortKeys(SIGNATURE_KEYS);
    hide Print, Struct, Short, ShortKeys;
    StructBound(SIGNATURE_KEYS, [Str(s.algorithm), Str(s.keyId), Str(s.value)], TEXT_MOST);
  }

  /** The value takes no more than a short signature does. */
  predicate Bounded(value: Json) { Utf8.ByteLen(Print(value)) <= SIGNATURE_MOST }

  lemma TextBounded(s: string)
    requires Short(s)
    ensures Bounded(Str(s))
  {
    ShortText(s);
    hide Print;
  }

  lemma NumberBounded(n: Int64)
    ensures Bounded(Integer(n))
  {
    ShortNumber(n);
    hide Print, Integer;
  }

  lemma SignatureBounded(s: Signature)
    requires ShortSignature(s)
    ensures Bounded(SignatureTree(s))
  {
    SignatureBound(s);
    hide Print, SignatureTree;
  }

  /** A struct of at most 16 fields, each a short text, a number or a short signature, stays below the limit. */
  lemma RecordBound(keys: seq<string>, values: seq<Json>)
    requires |keys| == |values| <= 16 && ShortKeys(keys) && Printable(Struct(keys, values))
    requires forall i :: 0 <= i < |values| ==> Bounded(values[i])
    ensures CanonicalBytes(Struct(keys, values)).Some? && |CanonicalBytes(Struct(keys, values)).value| < OBJECT_LIMIT
  {
    hide Print, Printable, Struct, ShortKeys;
    StructBound(keys, values, SIGNATURE_MOST);
    Product(|keys|, 16, SIGNATURE_MOST + NAME_MOST);
  }

  // ---------------------------------------------------------------- verified records

  lemma KeysShort()
    ensures ShortKeys(REQUEST_KEYS) && ShortKeys(DISPATCH_KEYS) && ShortKeys(RESULT_KEYS) && ShortKeys(RECEIPT_KEYS)
  {
    RequestKeysShort();
    ReceiptKeysShort();
  }

  lemma RequestKeysShort()
    ensures ShortKeys(REQUEST_KEYS)
  {}

  lemma ReceiptKeysShort()
    ensures ShortKeys(RECEIPT_KEYS)
  {}

  lemma PatternsShort(s: string)
    requires |s| <= 1500
    ensures Short(s)
  {
    AtMostFour(s);
  }

  lemma VerifiedSignature(s: Signature)
    requires ValidSignature(s, "") && Short(s.value)
    ensures ShortSignature(s)
  {
    PatternsShort(s.algorithm);
    PatternsShort(s.keyId);
  }

  /** The texts of a request that its patterns leave open. */
  predicate ShortRequest(r: Request) { Short(r.requestedBy) && Short(r.issuedAt) && Short(r.expiresAt) && Short(r.signature.value) }

  lemma RequestTextsShort(env: Env, r: Request)
    requires RequestDigestOk(env, r, None) && ShortRequest(r)
    ensures Short(r.schemaVersion) && Short(r.requestId) && Short(r.operation) && Short(r.repository) && Short(r.protectedMainSha)
    ensures Short(r.planDigest) && Short(r.evidenceDigest) && Short(r.reason) && Short(r.nonce) && Short(r.digest) && ShortSignature(r.signature)
  {
    hide IsEmail, Digest, RequestTree, ValidSignature, Utf8.ByteLen;
    PatternsShort(r.schemaVersion);
    PatternsShort(r.requestId);
    PatternsShort(r.operation);
    PatternsShort(r.repository);
    PatternsShort(r.protectedMainSha);
    PatternsShort(r.planDigest);
    PatternsShort(r.evidenceDigest);
    PatternsShort(r.nonce);
    PatternsShort(r.digest);
    VerifiedSignature(r.signature);
  }

  ghost predicate RequestBounded(r: Request)
  {
    && Bounded(Str(r.schemaVersion)) && Bounded(Str(r.requestId)) && Bounded(Str(r.operation)) && Bounded(Str(r.repository))
    && Bounded(Integer(r.workflowId)) && Bounded(Integer(r.workflowRunId)) && Bounded(Str(r.protectedMainSha)) && Bounded(Str(r.planDigest))
    && Bounded(Str(r.evidenceDigest)) && Bounded(Str(r.reason)) && Bounded(Str(r.requestedBy)) && Bounded(Str(r.issuedAt))
    && Bounded(Str(r.expiresAt)) && Bounded(Str(r.nonce)) && Bounded(Str(r.digest)) && Bounded(SignatureTree(r.signature))
  }

  lemma RequestTextsBounded(env: Env, r: Request)
    requires RequestDigestOk(env, r, None) && ShortRequest(r)
    ensures RequestBounded(r)
  {
    RequestTextsShort(env, r);
    hide RequestDigestOk, Short, ShortSignature, Bounded, Integer, SignatureTree;
    TextBounded(r.schemaVersion); TextBounded(r.requestId); TextBounded(r.operation); TextBounded(r.repository);
    NumberBounded(r.workflowId); NumberBounded(r.workflowRunId); TextBounded(r.protectedMainSha); TextBounded(r.planDigest);
    TextBounded(r.evidenceDigest); TextBounded(r.reason); TextBounded(r.requestedBy); TextBounded(r.issuedAt);
    TextBounded(r.expiresAt); TextBounded(r.nonce); TextBounded(r.digest);
    SignatureBounded(r.signature);
  }

  lemma RequestValuesBounded(r: Request)
    requires RequestBounded(r)
    ensures forall i :: 0 <= i < |RequestValues(r)| ==> Bounded(RequestValues(r)[i])
  {
    hide Bounded, Integer, SignatureTree;
  }

  /** The canonical bytes of a verified request stay below the limit, as long as none of its unlimited texts has
      more than 6000 bytes. */
  lemma RequestFits(env: Env, r: Request)
    requires RequestDigestOk(env, r, None) && ShortRequest(r)
    ensures CanonicalBytes(RequestTree(r)).Some? && |CanonicalBytes(RequestTree(r)).value| < OBJECT_LIMIT
  {
    RequestRoundTrip(r);
    RequestTextsBounded(env, r);
    RequestValuesBounded(r);
    KeysShort();
    hide RequestDigestOk, Bounded, Print, Printable, Struct, ShortKeys, ReadRequest, CanonicalBytes, RequestValues, RequestBounded;
    RecordBound(REQUEST_KEYS, RequestValues(r));
  }

  predicate ShortDispatch(d: Dispatch) { Short(d.preparedAt) && Short(d.signature.value) }

  lemma DispatchTextsShort(env: Env, d: Dispatch)
    requires DispatchDigestOk(env, d) && ShortDispatch(d)
    ensures Short(d.schemaVersion) && Short(d.requestId) && Short(d.requestDigest) && Short(d.receiptId) && Short(d.recoveryToken)
    ensures Short(d.digest) && ShortSignature(d.signature)
  {
    assert forall i :: 0 <= i < |d.recoveryToken| ==> d.recoveryToken[i] as int < 0x80;
    hide Digest, DispatchTree, ValidSignature, Utf8.ByteLen;
    PatternsShort(d.schemaVersion);
    PatternsShort(d.requestId);
    PatternsShort(d.requestDigest);
    PatternsShort(d.receiptId);
    AsciiLen(d.recoveryToken);
    PatternsShort(d.digest);
    VerifiedSignature(d.signature);
  }

  ghost predicate DispatchBounded(d: Dispatch)
  {
    && Bounded(Str(d.schemaVersion)) && Bounded(Str(d.requestId)) && Bounded(Str(d.requestDigest)) && Bounded(Str(d.receiptId))
    && Bounded(Str(d.recoveryToken)) && Bounded(Str(d.preparedAt)) && Bounded(Str(d.digest)) && Bounded(SignatureTree(d.signature))
  }

  lemma DispatchTextsBounded(env: Env, d: Dispatch)
    requires DispatchDigestOk(env, d) && ShortDispatch(d)
    ensures DispatchBounded(d)
  {
    DispatchTextsShort(env, d);
    hide DispatchDigestOk, Short, ShortSignature, Bounded, Integer, SignatureTree;
    TextBounded(d.schemaVersion); TextBounded(d.requestId); TextBounded(d.requestDigest); TextBounded(d.receiptId);
    TextBounded(d.recoveryToken); TextBounded(d.preparedAt); TextBounded(d.digest);
    SignatureBounded(d.signature);
  }

  lemma DispatchValuesBounded(d: Dispatch)
    requires DispatchBounded(d)
    ensures forall i :: 0 <= i < |DispatchValues(d)| ==> Bounded(DispatchValues(d)[i])
  {
    hide Bounded, Integer, SignatureTree;
  }

  /** The canonical bytes of a verified dispatch stay below the limit, as long as none of its unlimited texts has
      more than 6000 bytes. */
  lemma DispatchFits(env: Env, d: Dispatch)
    requires DispatchDigestOk(env, d) && ShortDispatch(d)
    ensures CanonicalBytes(DispatchTree(d)).Some? && |CanonicalBytes(DispatchTree(d)).value| < OBJECT_LIMIT
  {
    DispatchRoundTrip(d);
    DispatchTextsBounded(env, d);
    DispatchValuesBounded(d);
    KeysShort();
    hide DispatchDigestOk, Bounded, Print, Printable, Struct, ShortKeys, ReadDispatch, CanonicalBytes, DispatchValues, DispatchBounded;
    RecordBound(DISPATCH_KEYS, DispatchValues(d));
  }

  predicate ShortResult(r: Result) { Short(r.recordedAt) && Short(r.signature.value) }

  lemma ResultTextsShort(env: Env, r: Result)
    requires ResultDigestOk(env, r) && ShortResult(r)
    ensures Short(r.schemaVersion) && Short(r.requestId) && Short(r.requestDigest) && Short(r.receiptId) && Short(r.status)
    ensures Short(r.reasonCode) && Short(r.providerReference) && Short(r.digest) && ShortSignature(r.signature)
  {
    hide Digest, ResultTree, ValidSignature, Utf8.ByteLen;
    PatternsShort(r.schemaVersion);
    PatternsShort(r.requestId);
    PatternsShort(r.requestDigest);
    PatternsShort(r.receiptId);
    PatternsShort(r.status);
    PatternsShort(r.reasonCode);
    PatternsShort(r.digest);
    VerifiedSignature(r.signature);
  }

  ghost predicate ResultBounded(r: Result)
  {
    && Bounded(Str(r.schemaVersion)) && Bounded(Str(r.requestId)) && Bounded(Str(r.requestDigest)) && Bounded(Str(r.receiptId))
    && Bounded(Str(r.status)) && Bounded(Str(r.reasonCode)) && Bounded(Str(r.providerReference)) && Bounded(Str(r.recordedAt))
    && Bounded(Str(r.digest)) && Bounded(SignatureTree(r.signature))
  }

  lemma ResultTextsBounded(env: Env, r: Result)
    requires ResultDigestOk(env, r) && ShortResult(r)
    ensures ResultBounded(r)
  {
    ResultTextsShort(env, r);
    hide ResultDigestOk, Short, ShortSignature, Bounded, Integer, SignatureTree;
    TextBounded(r.schemaVersion); TextBounded(r.requestId); TextBounded(r.requestDigest); TextBounded(r.receiptId);
    TextBounded(r.status); TextBounded(r.reasonCode); TextBounded(r.providerReference); TextBounded(r.recordedAt);
    TextBounded(r.digest);
    SignatureBounded(r.signature);
  }

  lemma ResultValuesBounded(r: Result)
    requires ResultBounded(r)
    ensures forall i :: 0 <= i < |ResultValues(r)| ==> Bounded(ResultValues(r)[i])
  {
    hide Bounded, Integer, SignatureTree;
  }

  /** The canonical bytes of a verified dispatch result stay below the limit, as long as none of its unlimited texts has
      more than 6000 bytes. */
  lemma ResultFits(env: Env, r: Result)
    requires ResultDigestOk(env, r) && ShortResult(r)
    ensures CanonicalBytes(ResultTree(r)).Some? && |CanonicalBytes(ResultTree(r)).value| < OBJECT_LIMIT
  {
    ResultRoundTrip(r);
    ResultTextsBounded(env, r);
    ResultValuesBounded(r);
    KeysShort();
    hide ResultDigestOk, Bounded, Print, Printable, Struct, ShortKeys, ReadResult, CanonicalBytes, ResultValues, ResultBounded;
    RecordBound(RESULT_KEYS, ResultValues(r));
  }

  predicate ShortReceipt(r: Receipt) { Short(r.recordedAt) && Short(r.signature.value) }

  lemma AuditObjectShort(env: Env, r: Receipt)
    requires Sound(env) && ValidReceipt(env, r)
    ensures |r.auditObject| <= 100
  {
    hide IsReasonCode, IsProviderReference, IsRepository;
  }

  lemma ReceiptLengths(env: Env, r: Receipt)
    requires ReceiptDigestOk(env, r)
    ensures |r.schemaVersion| <= 1500 && |r.receiptId| <= 1500 && |r.requestId| <= 1500 && |r.requestDigest| <= 1500
    ensures |r.operation| <= 1500 && |r.repository| <= 1500 && |r.status| <= 1500 && |r.reasonCode| <= 1500 && |r.digest| <= 1500
    ensures Short(r.providerReference) && ValidSignature(r.signature, "")
  {
    hide Digest, ReceiptTree, ValidSignature, Utf8.ByteLen, AuditObject;
  }

  lemma ReceiptTextsShort(env: Env, r: Receipt)
    requires Sound(env) && ReceiptDigestOk(env, r) && ShortReceipt(r)
    ensures Short(r.schemaVersion) && Short(r.receiptId) && Short(r.requestId) && Short(r.requestDigest) && Short(r.operation) && Short(r.repository)
    ensures Short(r.status) && Short(r.reasonCode) && Short(r.providerReference) && Short(r.auditObject) && Short(r.digest) && ShortSignature(r.signature)
  {
    ReceiptLengths(env, r);
    AuditObjectShort(env, r);
    hide ReceiptDigestOk, Sound, Short, ShortSignature, ValidSignature;
    PatternsShort(r.schemaVersion);
    PatternsShort(r.receiptId);
    PatternsShort(r.requestId);
    PatternsShort(r.requestDigest);
    PatternsShort(r.operation);
    PatternsShort(r.repository);
    PatternsShort(r.status);
    PatternsShort(r.reasonCode);
    PatternsShort(r.auditObject);
    PatternsShort(r.digest);
    VerifiedSignature(r.signature);
  }

  ghost predicate ReceiptBounded(r: Receipt)
  {
    && Bounded(Str(r.schemaVersion)) && Bounded(Str(r.receiptId)) && Bounded(Str(r.requestId)) && Bounded(Str(r.requestDigest))
    && Bounded(Str(r.operation)) && Bounded(Str(r.repository)) && Bounded(Str(r.status)) && Bounded(Str(r.reasonCode))
    && Bounded(Str(r.providerReference)) && Bounded(Str(r.recordedAt)) && Bounded(Str(r.auditObject)) && Bounded(Str(r.digest))
    && Bounded(SignatureTree(r.signature))
  }

  lemma ReceiptTextsBounded(env: Env, r: Receipt)
    requires Sound(env) && ReceiptDigestOk(env, r) && ShortReceipt(r)
    ensures ReceiptBounded(r)
  {
    ReceiptTextsShort(env, r);
    hide ReceiptDigestOk, Short, ShortSignature, Bounded, Integer, SignatureTree;
    TextBounded(r.schemaVersion); TextBounded(r.receiptId); TextBounded(r.requestId); TextBounded(r.requestDigest);
    TextBounded(r.operation); TextBounded(r.repository); TextBounded(r.status); TextBounded(r.reasonCode);
    TextBounded(r.providerReference); TextBounded(r.recordedAt); TextBounded(r.auditObject); TextBounded(r.digest);
    SignatureBounded(r.signature);
  }

  lemma ReceiptValuesBounded(r: Receipt)
    requires ReceiptBounded(r)
    ensures forall i :: 0 <= i < |ReceiptValues(r)| ==> Bounded(ReceiptValues(r)[i])
  {
    hide Bounded, Integer, SignatureTree;
  }

  /** The canonical bytes of a verified receipt stay below the limit, as long as none of its unlimited texts has
      more than 6000 bytes. */
  lemma ReceiptFits(env: Env, r: Receipt)
    requires Sound(env) && ReceiptDigestOk(env, r) && ShortReceipt(r)
    ensures CanonicalBytes(ReceiptTree(r)).Some? && |CanonicalBytes(ReceiptTree(r)).value| < OBJECT_LIMIT
  {
    ReceiptRoundTrip(r);
    ReceiptTextsBounded(env, r);
    ReceiptValuesBounded(r);
    KeysShort();
    hide ReceiptDigestOk, Bounded, Print, Printable, Struct, ShortKeys, ReadReceipt, CanonicalBytes, ReceiptValues, ReceiptBounded;
    RecordBound(RECEIPT_KEYS, ReceiptValues(r));
  }
}
