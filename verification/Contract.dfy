/** The sealed records of internal/contract/models.go: what makes each valid, how it is digested
    and signed, and how a stored copy is verified. Hashing, signing and calendar arithmetic enter
    as parameters of `Env`; no assumption is made that the hash is injective. */
module Contract {
  import opened Prelude
  import opened Patterns
  import opened CanonicalJson
  import Utf8
  import Base64Url

  type Int64 = n: int | IsInt64(n)

  const SECOND: int := 1_000_000_000
  const MINUTE: int := 60 * SECOND
  const HOUR: int := 60 * MINUTE

  /** The primitives the service is given: SHA-256 with its prefix, an Ed25519 key pair and its
      identity, and RFC 3339 time in nanoseconds. */
  datatype Env = Env(
    hash: seq<Byte> -> string,
    sign: string -> seq<Byte>,
    verify: (string, seq<Byte>) -> bool,
    keyId: string,
    parseTime: string -> Option<int>,
    formatSecond: int -> string,
    day: int -> string)

  predicate IsDay(s: string)
  {
    |s| == 10 && s[4] == '/' && s[7] == '/' && forall i :: 0 <= i < 10 && i != 4 && i != 7 ==> IsDigit(s[i])
  }

  /** What is assumed of the primitives. Ed25519 accepts its own signatures (section 5.1 of
      RFC 8032); a formatted second parses back to itself. */
  ghost predicate Sound(env: Env)
  {
    && (forall b :: IsDigest(env.hash(b)))
    && (forall d :: |env.sign(d)| == 64 && env.verify(d, env.sign(d)))
    && IsKeyId(env.keyId)
    && (forall t :: env.parseTime(env.formatSecond(t)) == Some(t * SECOND))
    && (forall t :: IsDay(env.day(t)))
  }

  /** Two byte strings with one digest: what SHA-256 is trusted never to show. */
  ghost predicate Collision(env: Env, a: seq<Byte>, b: seq<Byte>)
  {
    a != b && env.hash(a) == env.hash(b)
  }

  predicate IsTime(env: Env, s: string) { env.parseTime(s).Some? }

  /** `Timestamp`: whole seconds, in the one form the service writes. */
  function Timestamp(env: Env, t: int): string { env.formatSecond(t / SECOND) }

  // ---------------------------------------------------------------- records

  const REFRESH: string := "refresh_estate_health"
  const RERUN: string := "rerun_failed_required_workflow"
  const CANCEL: string := "cancel_superseded_workflow_run"

  predicate AllowedOperation(operation: string)
  {
    operation == REFRESH || operation == RERUN || operation == CANCEL
  }

  const ACCEPTED: string := "accepted"
  const REJECTED: string := "rejected"

  const EVIDENCE_SCHEMA: string := "estate.evidence/v2"
  const REQUEST_SCHEMA: string := "estate.operation-request/v1"
  const RECEIPT_SCHEMA: string := "estate.operation-receipt/v1"
  const DISPATCH_SCHEMA: string := "estate.operation-dispatch/v1"
  const RESULT_SCHEMA: string := "estate.operation-dispatch-result/v1"

  datatype Signature = Signature(algorithm: string, keyId: string, value: string)

  const NO_SIGNATURE: Signature := Signature("", "", "")

  datatype Intent = Intent(
    schemaVersion: string, requestId: string, operation: string, repository: string,
    workflowId: Int64, workflowRunId: Int64, protectedMainSha: string, planDigest: string,
    evidenceDigest: string, reason: string, expiresAt: string)

  datatype Request = Request(
    schemaVersion: string, requestId: string, operation: string, repository: string,
    workflowId: Int64, workflowRunId: Int64, protectedMainSha: string, planDigest: string,
    evidenceDigest: string, reason: string, requestedBy: string, issuedAt: string,
    expiresAt: string, nonce: string, digest: string, signature: Signature)

  datatype Dispatch = Dispatch(
    schemaVersion: string, requestId: string, requestDigest: string, receiptId: string,
    recoveryToken: string, preparedAt: string, digest: string, signature: Signature)

  datatype Result = Result(
    schemaVersion: string, requestId: string, requestDigest: string, receiptId: string,
    status: string, reasonCode: string, providerReference: string, recordedAt: string,
    digest: string, signature: Signature)

  datatype Receipt = Receipt(
    schemaVersion: string, receiptId: string, requestId: string, requestDigest: string,
    operation: string, repository: string, status: string, reasonCode: string,
    providerReference: string, recordedAt: string, auditObject: string,
    digest: string, signature: Signature)

  datatype Approval = Approval(
    approvalId: string, operation: string, requestedBy: string, reason: string,
    approvers: seq<string>, approvedAt: string, decision: string)

  datatype Evidence = Evidence(
    schemaVersion: string, repository: string, workflowId: Int64, workflowRunId: Int64,
    protectedMainSha: string, planDigest: string, conclusion: string, superseded: bool,
    approval: Approval, observedAt: string, expiresAt: string, digest: string)

  // ---------------------------------------------------------------- JSON of a record

  predicate DistinctKeys(keys: seq<string>)
  {
    forall i, j :: 0 <= i < j < |keys| ==> keys[i] != keys[j]
  }

  function IndexOf(keys: seq<string>, key: string): (i: nat)
    requires key in keys
    ensures i < |keys| && keys[i] == key
  {
    if keys[0] == key then 0 else 1 + IndexOf(keys[1..], key)
  }

  /** The object that a struct with these JSON names and these values marshals to. */
  function Struct(keys: seq<string>, values: seq<Json>): Json
    requires |keys| == |values|
  {
    Obj(map key | key in keys :: values[IndexOf(keys, key)])
  }

  /** The values of a struct, when the object has exactly its fields. */
  function Unstruct(keys: seq<string>, t: Json): Option<seq<Json>>
  {
    if t.Obj? && t.fields.Keys == (set key | key in keys) then
      Some(seq(|keys|, i requires 0 <= i < |keys| => t.fields[keys[i]]))
    else None
  }

  lemma StructRoundTrip(keys: seq<string>, values: seq<Json>)
    requires |keys| == |values| && DistinctKeys(keys)
    ensures Unstruct(keys, Struct(keys, values)) == Some(values)
  {
    var t := Struct(keys, values);
    forall i | 0 <= i < |keys| ensures t.fields[keys[i]] == values[i] {
      var j := IndexOf(keys, keys[i]);
      assert i == j;
    }
    assert t.fields.Keys == set key | key in keys;
    assert Unstruct(keys, t).value == values;
  }

  lemma StructPrintable(keys: seq<string>, values: seq<Json>)
    requires |keys| == |values| && forall i :: 0 <= i < |values| ==> Printable(values[i])
    ensures Printable(Struct(keys, values))
  {}

  function Integer(n: Int64): Json { Num(Itoa(n)) }

  function ReadInteger(t: Json): (r: Option<Int64>)
  {
    if t.Num? && Int64Literal(t.literal) then Some(LiteralValue(t.literal)) else None
  }

  lemma IntegerRoundTrip(n: Int64)
    ensures Printable(Integer(n)) && ReadInteger(Integer(n)) == Some(n)
  {
    ItoaRoundTrip(n);
  }

  const SIGNATURE_KEYS: seq<string> := ["algorithm", "key_id", "value"]

  function SignatureTree(s: Signature): Json
  {
    Struct(SIGNATURE_KEYS, [Str(s.algorithm), Str(s.keyId), Str(s.value)])
  }

  function ReadSignature(t: Json): Option<Signature>
  {
    match Unstruct(SIGNATURE_KEYS, t)
    case Some(v) => if v[0].Str? && v[1].Str? && v[2].Str? then Some(Signature(v[0].text, v[1].text, v[2].text)) else None
    case None => None
  }

  lemma SignatureRoundTrip(s: Signature)
    ensures Printable(SignatureTree(s)) && ReadSignature(SignatureTree(s)) == Some(s)
  {
    StructRoundTrip(SIGNATURE_KEYS, [Str(s.algorithm), Str(s.keyId), Str(s.value)]);
  }

  // ---------------------------------------------------------------- digests and signatures

  function Digest(env: Env, t: Json): Option<string>
  {
    match CanonicalBytes(t)
    case Some(bytes) => Some(env.hash(bytes))
    case None => None
  }

  /** Equal digests of distinct trees are a collision of their canonical bytes. */
  lemma DigestBinds(env: Env, a: Json, b: Json)
    requires Digest(env, a).Some? && Digest(env, a) == Digest(env, b)
    ensures a == b || Collision(env, CanonicalBytes(a).value, CanonicalBytes(b).value)
  {
    if CanonicalBytes(a) == CanonicalBytes(b) {
      CanonicalBytesInjective(a, b);
    }
  }

  function Sign(env: Env, digest: string): Signature
  {
    Signature("Ed25519", env.keyId, Base64Url.Encode(env.sign(digest)))
  }

  /** `validateSignature`: the envelope, and the trusted key when one is expected. */
  predicate ValidSignature(s: Signature, expectedKeyId: string)
  {
    && s.algorithm == "Ed25519" && IsKeyId(s.keyId)
    && Base64Url.Decode(s.value).Some? && |Base64Url.Decode(s.value).value| == 64
    && (expectedKeyId == "" || s.keyId == expectedKeyId)
  }

  /** The checks shared by every `VerifyDigest` once the record's own material is valid. */
  predicate DigestHolds(env: Env, material: Json, digest: string, signature: Signature)
  {
    IsDigest(digest) && ValidSignature(signature, "") && Digest(env, material) == Some(digest)
  }

  /** The checks that `VerifySignature` adds, against the service's own key. */
  predicate SignatureHolds(env: Env, material: Json, digest: string, signature: Signature)
  {
    && DigestHolds(env, material, digest, signature)
    && ValidSignature(signature, env.keyId)
    && env.verify(digest, Base64Url.Decode(signature.value).value)
  }

  /** The digest is the hash of the canonical bytes, and the service's own key accepts the signature of it. */
  ghost predicate Signed(env: Env, t: Json, digest: string, signature: Signature)
  {
    && CanonicalBytes(t).Some? && digest == env.hash(CanonicalBytes(t).value)
    && signature.algorithm == "Ed25519" && signature.keyId == env.keyId
    && Base64Url.Decode(signature.value).Some? && |Base64Url.Decode(signature.value).value| == 64
    && env.verify(digest, Base64Url.Decode(signature.value).value)
  }

  lemma KeyIsNamed(env: Env)
    requires Sound(env)
    ensures env.keyId != ""
  {}

  lemma SignedHolds(env: Env, material: Json, digest: string)
    requires Sound(env) && Digest(env, material) == Some(digest)
    ensures SignatureHolds(env, material, digest, Sign(env, digest))
  {
    Base64Url.RoundTrip(env.sign(digest));
  }

  // ---------------------------------------------------------------- requests

  const REQUEST_KEYS: seq<string> := [
    "schema_version", "request_id", "operation", "repository", "workflow_id", "workflow_run_id",
    "protected_main_sha", "plan_digest", "evidence_digest", "reason", "requested_by", "issued_at",
    "expires_at", "nonce", "digest", "signature"]

  function RequestValues(r: Request): seq<Json>
  {
    [Str(r.schemaVersion), Str(r.requestId), Str(r.operation), Str(r.repository),
     Integer(r.workflowId), Integer(r.workflowRunId), Str(r.protectedMainSha), Str(r.planDigest),
     Str(r.evidenceDigest), Str(r.reason), Str(r.requestedBy), Str(r.issuedAt), Str(r.expiresAt),
     Str(r.nonce), Str(r.digest), SignatureTree(r.signature)]
  }

  function RequestTree(r: Request): Json { Struct(REQUEST_KEYS, RequestValues(r)) }

  function ReadRequest(t: Json): Option<Request>
  {
    match Unstruct(REQUEST_KEYS, t)
    case None => None
    case Some(v) =>
      var signature := ReadSignature(v[15]);
      if (forall i :: 0 <= i < 15 && i != 4 && i != 5 ==> v[i].Str?)
         && ReadInteger(v[4]).Some? && ReadInteger(v[5]).Some? && signature.Some?
      then Some(Request(v[0].text, v[1].text, v[2].text, v[3].text, ReadInteger(v[4]).value,
                        ReadInteger(v[5]).value, v[6].text, v[7].text, v[8].text, v[9].text,
                        v[10].text, v[11].text, v[12].text, v[13].text, v[14].text, signature.value))
      else None
  }

  lemma RequestPrintable(r: Request)
    ensures Printable(RequestTree(r))
  {
    hide Integer, SignatureTree, Struct;
    IntegerRoundTrip(r.workflowId);
    IntegerRoundTrip(r.workflowRunId);
    SignatureRoundTrip(r.signature);
    StructPrintable(REQUEST_KEYS, RequestValues(r));
  }

  lemma RequestRoundTrip(r: Request)
    ensures Printable(RequestTree(r)) && ReadRequest(RequestTree(r)) == Some(r)
  {
    hide Integer, ReadInteger, SignatureTree, ReadSignature, Struct, Unstruct, Printable;
    RequestPrintable(r);
    IntegerRoundTrip(r.workflowId);
    IntegerRoundTrip(r.workflowRunId);
    SignatureRoundTrip(r.signature);
    StructRoundTrip(REQUEST_KEYS, RequestValues(r));
  }

  function RequestMaterial(r: Request): Request { r.(digest := "", signature := NO_SIGNATURE) }

  /** `Validate` at a given instant, or at none (the zero time). */
  predicate ValidRequest(env: Env, r: Request, now: Option<int>)
  {
    && r.schemaVersion == REQUEST_SCHEMA && IsUuid(r.requestId)
    && AllowedOperation(r.operation) && IsRepository(r.repository)
    && r.workflowId > 0 && r.workflowRunId >= 0 && IsSha(r.protectedMainSha)
    && IsDigest(r.planDigest) && IsDigest(r.evidenceDigest)
    && IsReason(r.reason) && IsEmail(r.requestedBy) && IsNonce(r.nonce)
    && IsTime(env, r.issuedAt) && IsTime(env, r.expiresAt)
    && var issued, expires := env.parseTime(r.issuedAt).value, env.parseTime(r.expiresAt).value;
    && issued < expires <= issued + 10 * MINUTE
    && (now.Some? ==> issued <= now.value + 30 * SECOND && now.value < expires)
    && (if r.operation == REFRESH then r.workflowRunId == 0 else r.workflowRunId > 0)
  }

  /** A request is valid at an instant exactly when it is valid at none, was issued at most 30 seconds later and
      has not expired; it lives for ten minutes at most. */
  lemma RequestValidAt(env: Env, r: Request, now: int)
    ensures ValidRequest(env, r, Some(now)) <==>
              && ValidRequest(env, r, None) && env.parseTime(r.issuedAt).value <= now + 30_000_000_000 && now < env.parseTime(r.expiresAt).value
    ensures ValidRequest(env, r, None) ==>
              && IsTime(env, r.issuedAt) && IsTime(env, r.expiresAt)
              && 0 < env.parseTime(r.expiresAt).value - env.parseTime(r.issuedAt).value <= 600_000_000_000
  {
    hide IsUuid, AllowedOperation, IsRepository, IsSha, IsDigest, IsReason, IsEmail, IsNonce;
  }

  /** A time the service writes reads back as the same second. */
  lemma TimestampReads(env: Env, t: int)
    requires Sound(env)
    ensures env.parseTime(Timestamp(env, t)) == Some(t - t % 1_000_000_000)
  {
    assert t == t / SECOND * SECOND + t % SECOND;
    hide IsDigest, IsKeyId, IsDay;
  }

  function SealRequest(env: Env, r: Request): Option<Request>
  {
    var named := if r.schemaVersion == "" then r.(schemaVersion := REQUEST_SCHEMA) else r;
    if !ValidRequest(env, named, None) then None
    else
      match Digest(env, RequestTree(RequestMaterial(named)))
      case None => None
      case Some(digest) => Some(named.(digest := digest, signature := Sign(env, digest)))
  }

  predicate RequestDigestOk(env: Env, r: Request, now: Option<int>)
  {
    ValidRequest(env, r, now) && DigestHolds(env, RequestTree(RequestMaterial(r)), r.digest, r.signature)
  }

  predicate RequestOk(env: Env, r: Request)
  {
    ValidRequest(env, r, None) && SignatureHolds(env, RequestTree(RequestMaterial(r)), r.digest, r.signature)
  }

  /** Sealing fills in the schema, the digest and the signature, and nothing else. */
  lemma SealedRequestFields(env: Env, r: Request)
    ensures SealRequest(env, r).Some? ==>
              var s := SealRequest(env, r).value;
              s == r.(schemaVersion := s.schemaVersion, digest := s.digest, signature := s.signature)
  {}

  /** Sealing succeeds exactly on valid material, and a sealed request verifies. */
  lemma SealedRequestVerifies(env: Env, r: Request)
    requires Sound(env)
    ensures var named := if r.schemaVersion == "" then r.(schemaVersion := REQUEST_SCHEMA) else r;
            SealRequest(env, r).Some? <==> ValidRequest(env, named, None)
    ensures var s := SealRequest(env, r);
            s.Some? ==> RequestOk(env, s.value) && SealRequest(env, s.value) == s
  {
    var named := if r.schemaVersion == "" then r.(schemaVersion := REQUEST_SCHEMA) else r;
    RequestRoundTrip(RequestMaterial(named));
    hide Printable, Print, RequestTree, Sign, SignatureHolds, ValidRequest;
    NamedBySchema(env, named);
    if ValidRequest(env, named, None) {
      var digest := Digest(env, RequestTree(RequestMaterial(named))).value;
      SignedHolds(env, RequestTree(RequestMaterial(named)), digest);
      assert RequestMaterial(named.(digest := digest, signature := Sign(env, digest))) == RequestMaterial(named);
      ValidityIgnoresSeal(env, named, digest, Sign(env, digest));
    }
  }

  lemma NamedBySchema(env: Env, r: Request)
    ensures ValidRequest(env, r, None) ==> r.schemaVersion == REQUEST_SCHEMA && r.schemaVersion != ""
  {
    hide IsUuid, AllowedOperation, IsRepository, IsSha, IsDigest, IsReason, IsEmail, IsNonce, IsTime;
  }

  lemma ValidityIgnoresSeal(env: Env, r: Request, digest: string, signature: Signature)
    ensures ValidRequest(env, r.(digest := digest, signature := signature), None) == ValidRequest(env, r, None)
  {
    hide IsUuid, AllowedOperation, IsRepository, IsSha, IsDigest, IsReason, IsEmail, IsNonce;
  }

  /** Two requests that verify under one digest agree on every field but the signature, unless the canonical
      bytes of the two, without digest and signature, collide. */
  lemma RequestDigestBinds(env: Env, a: Request, b: Request)
    requires RequestDigestOk(env, a, None) && RequestDigestOk(env, b, None) && a.digest == b.digest
    ensures var x, y := a.(digest := "", signature := NO_SIGNATURE), b.(digest := "", signature := NO_SIGNATURE);
            || x == y
            || (CanonicalBytes(RequestTree(x)).Some? && CanonicalBytes(RequestTree(y)).Some?
                && Collision(env, CanonicalBytes(RequestTree(x)).value, CanonicalBytes(RequestTree(y)).value))
  {
    var x, y := RequestMaterial(a), RequestMaterial(b);
    RequestRoundTrip(x);
    RequestRoundTrip(y);
    DigestBinds(env, RequestTree(x), RequestTree(y));
  }

  /** A request is verified exactly when it is valid and signed: its digest is the hash of all its fields but digest
      and signature, and the service's own key accepts the signature of that digest. */
  lemma RequestIsSigned(env: Env, r: Request)
    requires Sound(env)
    ensures RequestOk(env, r) <==> ValidRequest(env, r, None) && Signed(env, RequestTree(r.(digest := "", signature := NO_SIGNATURE)), r.digest, r.signature)
  {
    hide RequestTree, ValidRequest;
    KeyIsNamed(env);
  }

  // ---------------------------------------------------------------- dispatch records

  const DISPATCH_KEYS: seq<string> := [
    "schema_version", "request_id", "request_digest", "receipt_id", "recovery_token",
    "prepared_at", "digest", "signature"]

  function DispatchValues(d: Dispatch): seq<Json>
  {
    [Str(d.schemaVersion), Str(d.requestId), Str(d.requestDigest), Str(d.receiptId),
     Str(d.recoveryToken), Str(d.preparedAt), Str(d.digest), SignatureTree(d.signature)]
  }

  function DispatchTree(d: Dispatch): Json { Struct(DISPATCH_KEYS, DispatchValues(d)) }

  function ReadDispatch(t: Json): Option<Dispatch>
  {
    match Unstruct(DISPATCH_KEYS, t)
    case None => None
    case Some(v) =>
      var signature := ReadSignature(v[7]);
      if (forall i :: 0 <= i < 7 ==> v[i].Str?) && signature.Some?
      then Some(Dispatch(v[0].text, v[1].text, v[2].text, v[3].text, v[4].text, v[5].text, v[6].text, signature.value))
      else None
  }

  lemma DispatchRoundTrip(d: Dispatch)
    ensures Printable(DispatchTree(d)) && ReadDispatch(DispatchTree(d)) == Some(d)
  {
    hide SignatureTree, ReadSignature, Struct, Unstruct;
    SignatureRoundTrip(d.signature);
    StructRoundTrip(DISPATCH_KEYS, DispatchValues(d));
    StructPrintable(DISPATCH_KEYS, DispatchValues(d));
  }

  function DispatchMaterial(d: Dispatch): Dispatch { d.(digest := "", signature := NO_SIGNATURE) }

  predicate IsRecoveryToken(s: string)
  {
    0 < |s| <= 4096 && forall i :: 0 <= i < |s| ==> Base64Url.IsSymbol(s[i])
  }

  predicate ValidDispatch(env: Env, d: Dispatch)
  {
    && d.schemaVersion == DISPATCH_SCHEMA && IsUuid(d.requestId) && IsUuid(d.receiptId)
    && IsDigest(d.requestDigest) && IsRecoveryToken(d.recoveryToken) && IsTime(env, d.preparedAt)
  }

  function SealDispatch(env: Env, d: Dispatch): Option<Dispatch>
  {
    var named := if d.schemaVersion == "" then d.(schemaVersion := DISPATCH_SCHEMA) else d;
    if !ValidDispatch(env, named) then None
    else
      match Digest(env, DispatchTree(DispatchMaterial(named)))
      case None => None
      case Some(digest) => Some(named.(digest := digest, signature := Sign(env, digest)))
  }

  predicate DispatchDigestOk(env: Env, d: Dispatch)
  {
    ValidDispatch(env, d) && DigestHolds(env, DispatchTree(DispatchMaterial(d)), d.digest, d.signature)
  }

  predicate DispatchOk(env: Env, d: Dispatch)
  {
    ValidDispatch(env, d) && SignatureHolds(env, DispatchTree(DispatchMaterial(d)), d.digest, d.signature)
  }

  /** Sealing fills in the schema, the digest and the signature, and nothing else. */
  lemma SealedDispatchFields(env: Env, d: Dispatch)
    ensures SealDispatch(env, d).Some? ==>
              var s := SealDispatch(env, d).value;
              s == d.(schemaVersion := s.schemaVersion, digest := s.digest, signature := s.signature)
  {}

  lemma SealedDispatchVerifies(env: Env, d: Dispatch)
    requires Sound(env)
    ensures var named := if d.schemaVersion == "" then d.(schemaVersion := DISPATCH_SCHEMA) else d;
            SealDispatch(env, d).Some? <==> ValidDispatch(env, named)
    ensures var s := SealDispatch(env, d);
            s.Some? ==> DispatchOk(env, s.value) && SealDispatch(env, s.value) == s
  {
    var named := if d.schemaVersion == "" then d.(schemaVersion := DISPATCH_SCHEMA) else d;
    DispatchRoundTrip(DispatchMaterial(named));
    hide Printable, Print, DispatchTree, Sign, SignatureHolds;
    if ValidDispatch(env, named) {
      var digest := Digest(env, DispatchTree(DispatchMaterial(named))).value;
      SignedHolds(env, DispatchTree(DispatchMaterial(named)), digest);
      assert DispatchMaterial(named.(digest := digest, signature := Sign(env, digest))) == DispatchMaterial(named);
    }
  }

  /** Two dispatch records that verify under one digest agree on every field but the signature, unless the canonical
      bytes of the two, without digest and signature, collide. */
  lemma DispatchDigestBinds(env: Env, a: Dispatch, b: Dispatch)
    requires DispatchDigestOk(env, a) && DispatchDigestOk(env, b) && a.digest == b.digest
    ensures var x, y := a.(digest := "", signature := NO_SIGNATURE), b.(digest := "", signature := NO_SIGNATURE);
            || x == y
            || (CanonicalBytes(DispatchTree(x)).Some? && CanonicalBytes(DispatchTree(y)).Some?
                && Collision(env, CanonicalBytes(DispatchTree(x)).value, CanonicalBytes(DispatchTree(y)).value))
  {
    var x, y := DispatchMaterial(a), DispatchMaterial(b);
    DispatchRoundTrip(x);
    DispatchRoundTrip(y);
    DigestBinds(env, DispatchTree(x), DispatchTree(y));
  }

  /** A dispatch record is verified exactly when it is valid and signed: its digest is the hash of all its fields but digest
      and signature, and the service's own key accepts the signature of that digest. */
  lemma DispatchIsSigned(env: Env, r: Dispatch)
    requires Sound(env)
    ensures DispatchOk(env, r) <==> ValidDispatch(env, r) && Signed(env, DispatchTree(r.(digest := "", signature := NO_SIGNATURE)), r.digest, r.signature)
  {
    hide DispatchTree, ValidDispatch;
    KeyIsNamed(env);
  }

  // ---------------------------------------------------------------- dispatch results

  const RESULT_KEYS: seq<string> := [
    "schema_version", "request_id", "request_digest", "receipt_id", "status", "reason_code",
    "provider_reference", "recorded_at", "digest", "signature"]

  function ResultValues(r: Result): seq<Json>
  {
    [Str(r.schemaVersion), Str(r.requestId), Str(r.requestDigest), Str(r.receiptId), Str(r.status),
     Str(r.reasonCode), Str(r.providerReference), Str(r.recordedAt), Str(r.digest), SignatureTree(r.signature)]
  }

  function ResultTree(r: Result): Json { Struct(RESULT_KEYS, ResultValues(r)) }

  function ReadResult(t: Json): Option<Result>
  {
    match Unstruct(RESULT_KEYS, t)
    case None => None
    case Some(v) =>
      var signature := ReadSignature(v[9]);
      if (forall i :: 0 <= i < 9 ==> v[i].Str?) && signature.Some?
      then Some(Result(v[0].text, v[1].text, v[2].text, v[3].text, v[4].text, v[5].text, v[6].text,
                       v[7].text, v[8].text, signature.value))
      else None
  }

  lemma ResultRoundTrip(r: Result)
    ensures Printable(ResultTree(r)) && ReadResult(ResultTree(r)) == Some(r)
  {
    hide SignatureTree, ReadSignature, Struct, Unstruct;
    SignatureRoundTrip(r.signature);
    StructRoundTrip(RESULT_KEYS, ResultValues(r));
    StructPrintable(RESULT_KEYS, ResultValues(r));
  }

  function ResultMaterial(r: Result): Result { r.(digest := "", signature := NO_SIGNATURE) }

  predicate ValidResult(env: Env, r: Result)
  {
    && r.schemaVersion == RESULT_SCHEMA && IsUuid(r.requestId) && IsUuid(r.receiptId)
    && IsDigest(r.requestDigest) && (r.status == ACCEPTED || r.status == REJECTED)
    && IsReasonCode(r.reasonCode) && IsProviderReference(r.providerReference) && IsTime(env, r.recordedAt)
  }

  function SealResult(env: Env, r: Result): Option<Result>
  {
    var named := if r.schemaVersion == "" then r.(schemaVersion := RESULT_SCHEMA) else r;
    if !ValidResult(env, named) then None
    else
      match Digest(env, ResultTree(ResultMaterial(named)))
      case None => None
      case Some(digest) => Some(named.(digest := digest, signature := Sign(env, digest)))
  }

  predicate ResultDigestOk(env: Env, r: Result)
  {
    ValidResult(env, r) && DigestHolds(env, ResultTree(ResultMaterial(r)), r.digest, r.signature)
  }

  predicate ResultOk(env: Env, r: Result)
  {
    ValidResult(env, r) && SignatureHolds(env, ResultTree(ResultMaterial(r)), r.digest, r.signature)
  }

  /** Sealing fills in the schema, the digest and the signature, and nothing else. */
  lemma SealedResultFields(env: Env, r: Result)
    ensures SealResult(env, r).Some? ==>
              var s := SealResult(env, r).value;
              s == r.(schemaVersion := s.schemaVersion, digest := s.digest, signature := s.signature)
  {}

  lemma SealedResultVerifies(env: Env, r: Result)
    requires Sound(env)
    ensures var named := if r.schemaVersion == "" then r.(schemaVersion := RESULT_SCHEMA) else r;
            SealResult(env, r).Some? <==> ValidResult(env, named)
    ensures var s := SealResult(env, r);
            s.Some? ==> ResultOk(env, s.value) && SealResult(env, s.value) == s
  {
    var named := if r.schemaVersion == "" then r.(schemaVersion := RESULT_SCHEMA) else r;
    ResultRoundTrip(ResultMaterial(named));
    hide Printable, Print, ResultTree, Sign, SignatureHolds;
    if ValidResult(env, named) {
      var digest := Digest(env, ResultTree(ResultMaterial(named))).value;
      SignedHolds(env, ResultTree(ResultMaterial(named)), digest);
      assert ResultMaterial(named.(digest := digest, signature := Sign(env, digest))) == ResultMaterial(named);
    }
  }

  /** Two dispatch results that verify under one digest agree on every field but the signature, unless the canonical
      bytes of the two, without digest and signature, collide. */
  lemma ResultDigestBinds(env: Env, a: Result, b: Result)
    requires ResultDigestOk(env, a) && ResultDigestOk(env, b) && a.digest == b.digest
    ensures var x, y := a.(digest := "", signature := NO_SIGNATURE), b.(digest := "", signature := NO_SIGNATURE);
            || x == y
            || (CanonicalBytes(ResultTree(x)).Some? && CanonicalBytes(ResultTree(y)).Some?
                && Collision(env, CanonicalBytes(ResultTree(x)).value, CanonicalBytes(ResultTree(y)).value))
  {
    var x, y := ResultMaterial(a), ResultMaterial(b);
    ResultRoundTrip(x);
    ResultRoundTrip(y);
    DigestBinds(env, ResultTree(x), ResultTree(y));
  }

  /** A dispatch result is verified exactly when it is valid and signed: its digest is the hash of all its fields but digest
      and signature, and the service's own key accepts the signature of that digest. */
  lemma ResultIsSigned(env: Env, r: Result)
    requires Sound(env)
    ensures ResultOk(env, r) <==> ValidResult(env, r) && Signed(env, ResultTree(r.(digest := "", signature := NO_SIGNATURE)), r.digest, r.signature)
  {
    hide ResultTree, ValidResult;
    KeyIsNamed(env);
  }

  // ---------------------------------------------------------------- receipts

  const RECEIPT_KEYS: seq<string> := [
    "schema_version", "receipt_id", "request_id", "request_digest", "operation", "repository",
    "status", "reason_code", "provider_reference", "recorded_at", "audit_object", "digest", "signature"]

  function ReceiptValues(r: Receipt): seq<Json>
  {
    [Str(r.schemaVersion), Str(r.receiptId), Str(r.requestId), Str(r.requestDigest), Str(r.operation),
     Str(r.repository), Str(r.status), Str(r.reasonCode), Str(r.providerReference), Str(r.recordedAt),
     Str(r.auditObject), Str(r.digest), SignatureTree(r.signature)]
  }

  function ReceiptTree(r: Receipt): Json { Struct(RECEIPT_KEYS, ReceiptValues(r)) }

  function ReadReceipt(t: Json): Option<Receipt>
  {
    match Unstruct(RECEIPT_KEYS, t)
    case None => None
    case Some(v) =>
      var signature := ReadSignature(v[12]);
      if (forall i :: 0 <= i < 12 ==> v[i].Str?) && signature.Some?
      then Some(Receipt(v[0].text, v[1].text, v[2].text, v[3].text, v[4].text, v[5].text, v[6].text,
                        v[7].text, v[8].text, v[9].text, v[10].text, v[11].text, signature.value))
      else None
  }

  lemma ReceiptRoundTrip(r: Receipt)
    ensures Printable(ReceiptTree(r)) && ReadReceipt(ReceiptTree(r)) == Some(r)
  {
    hide SignatureTree, ReadSignature, Struct, Unstruct;
    SignatureRoundTrip(r.signature);
    StructRoundTrip(RECEIPT_KEYS, ReceiptValues(r));
    StructPrintable(RECEIPT_KEYS, ReceiptValues(r));
  }

  function ReceiptMaterial(r: Receipt): Receipt { r.(digest := "", signature := NO_SIGNATURE) }

  /** `ReceiptObject`: the dated audit object, or nothing when the time does not parse. */
  function AuditObject(env: Env, recordedAt: string, receiptId: string): string
  {
    match env.parseTime(recordedAt)
    case None => ""
    case Some(t) => "audit/operations/" + env.day(t) + "/" + receiptId + ".json"
  }

  predicate ValidReceipt(env: Env, r: Receipt)
  {
    && r.schemaVersion == RECEIPT_SCHEMA && IsUuid(r.receiptId) && IsUuid(r.requestId)
    && IsDigest(r.requestDigest) && AllowedOperation(r.operation) && IsRepository(r.repository)
    && (r.status == ACCEPTED || r.status == REJECTED)
    && IsReasonCode(r.reasonCode) && IsProviderReference(r.providerReference) && IsTime(env, r.recordedAt)
    && r.auditObject == AuditObject(env, r.recordedAt, r.receiptId)
  }

  function SealReceipt(env: Env, r: Receipt): Option<Receipt>
  {
    var named := if r.schemaVersion == "" then r.(schemaVersion := RECEIPT_SCHEMA) else r;
    if !ValidReceipt(env, named) then None
    else
      match Digest(env, ReceiptTree(ReceiptMaterial(named)))
      case None => None
      case Some(digest) => Some(named.(digest := digest, signature := Sign(env, digest)))
  }

  predicate ReceiptDigestOk(env: Env, r: Receipt)
  {
    ValidReceipt(env, r) && DigestHolds(env, ReceiptTree(ReceiptMaterial(r)), r.digest, r.signature)
  }

  predicate ReceiptOk(env: Env, r: Receipt)
  {
    ValidReceipt(env, r) && SignatureHolds(env, ReceiptTree(ReceiptMaterial(r)), r.digest, r.signature)
  }

  /** Sealing fills in the schema, the digest and the signature, and nothing else. */
  lemma SealedReceiptFields(env: Env, r: Receipt)
    ensures SealReceipt(env, r).Some? ==>
              var s := SealReceipt(env, r).value;
              s == r.(schemaVersion := s.schemaVersion, digest := s.digest, signature := s.signature)
  {}

  lemma SealedReceiptVerifies(env: Env, r: Receipt)
    requires Sound(env)
    ensures var named := if r.schemaVersion == "" then r.(schemaVersion := RECEIPT_SCHEMA) else r;
            SealReceipt(env, r).Some? <==> ValidReceipt(env, named)
    ensures var s := SealReceipt(env, r);
            s.Some? ==> ReceiptOk(env, s.value) && SealReceipt(env, s.value) == s
  {
    var named := if r.schemaVersion == "" then r.(schemaVersion := RECEIPT_SCHEMA) else r;
    ReceiptRoundTrip(ReceiptMaterial(named));
    hide Printable, Print, ReceiptTree, Sign, SignatureHolds;
    if ValidReceipt(env, named) {
      var digest := Digest(env, ReceiptTree(ReceiptMaterial(named))).value;
      SignedHolds(env, ReceiptTree(ReceiptMaterial(named)), digest);
      assert ReceiptMaterial(named.(digest := digest, signature := Sign(env, digest))) == ReceiptMaterial(named);
    }
  }

  /** Two receipts that verify under one digest agree on every field but the signature, unless the canonical
      bytes of the two, without digest and signature, collide. */
  lemma ReceiptDigestBinds(env: Env, a: Receipt, b: Receipt)
    requires ReceiptDigestOk(env, a) && ReceiptDigestOk(env, b) && a.digest == b.digest
    ensures var x, y := a.(digest := "", signature := NO_SIGNATURE), b.(digest := "", signature := NO_SIGNATURE);
            || x == y
            || (CanonicalBytes(ReceiptTree(x)).Some? && CanonicalBytes(ReceiptTree(y)).Some?
                && Collision(env, CanonicalBytes(ReceiptTree(x)).value, CanonicalBytes(ReceiptTree(y)).value))
  {
    var x, y := ReceiptMaterial(a), ReceiptMaterial(b);
    ReceiptRoundTrip(x);
    ReceiptRoundTrip(y);
    DigestBinds(env, ReceiptTree(x), ReceiptTree(y));
  }

  /** A receipt is verified exactly when it is valid and signed: its digest is the hash of all its fields but digest
      and signature, and the service's own key accepts the signature of that digest. */
  lemma ReceiptIsSigned(env: Env, r: Receipt)
    requires Sound(env)
    ensures ReceiptOk(env, r) <==> ValidReceipt(env, r) && Signed(env, ReceiptTree(r.(digest := "", signature := NO_SIGNATURE)), r.digest, r.signature)
  {
    hide ReceiptTree, ValidReceipt;
    KeyIsNamed(env);
  }

  // ---------------------------------------------------------------- evidence

  const APPROVAL_KEYS: seq<string> := [
    "approval_id", "operation", "requested_by", "reason", "approvers", "approved_at", "decision"]

  const EVIDENCE_KEYS: seq<string> := [
    "schema_version", "repository", "workflow_id", "workflow_run_id", "protected_main_sha",
    "plan_digest", "conclusion", "superseded", "approval", "observed_at", "expires_at", "digest"]

  function Texts(s: seq<string>): (r: seq<Json>)
    ensures |r| == |s| && forall i :: 0 <= i < |s| ==> r[i] == Str(s[i])
  {
    seq(|s|, i requires 0 <= i < |s| => Str(s[i]))
  }

  function ApprovalValues(a: Approval): seq<Json>
  {
    [Str(a.approvalId), Str(a.operation), Str(a.requestedBy), Str(a.reason), Arr(Texts(a.approvers)),
     Str(a.approvedAt), Str(a.decision)]
  }

  function ApprovalTree(a: Approval): Json { Struct(APPROVAL_KEYS, ApprovalValues(a)) }

  function EvidenceValues(e: Evidence): seq<Json>
  {
    [Str(e.schemaVersion), Str(e.repository), Integer(e.workflowId), Integer(e.workflowRunId),
     Str(e.protectedMainSha), Str(e.planDigest), Str(e.conclusion), Json.Bool(e.superseded),
     ApprovalTree(e.approval), Str(e.observedAt), Str(e.expiresAt), Str(e.digest)]
  }

  function EvidenceTree(e: Evidence): Json { Struct(EVIDENCE_KEYS, EvidenceValues(e)) }

  lemma ApprovalTreeInjective(a: Approval, b: Approval)
    ensures Printable(ApprovalTree(a))
    ensures ApprovalTree(a) == ApprovalTree(b) ==> a == b
  {
    hide Struct, Unstruct;
    StructPrintable(APPROVAL_KEYS, ApprovalValues(a));
    StructRoundTrip(APPROVAL_KEYS, ApprovalValues(a));
    StructRoundTrip(APPROVAL_KEYS, ApprovalValues(b));
    if ApprovalTree(a) == ApprovalTree(b) {
      assert ApprovalValues(a)[0] == ApprovalValues(b)[0] && ApprovalValues(a)[1] == ApprovalValues(b)[1];
      assert Texts(a.approvers) == Texts(b.approvers) by {
        assert ApprovalValues(a)[4] == ApprovalValues(b)[4];
      }
      forall i | 0 <= i < |a.approvers| ensures a.approvers[i] == b.approvers[i] {
        assert Texts(a.approvers)[i] == Texts(b.approvers)[i];
      }
      assert a.approvers == b.approvers;
    }
  }

  lemma EvidenceTreeInjective(a: Evidence, b: Evidence)
    ensures Printable(EvidenceTree(a))
    ensures EvidenceTree(a) == EvidenceTree(b) ==> a == b
  {
    hide Struct, Unstruct, Integer, ReadInteger, ApprovalTree;
    IntegerRoundTrip(a.workflowId);
    IntegerRoundTrip(a.workflowRunId);
    IntegerRoundTrip(b.workflowId);
    IntegerRoundTrip(b.workflowRunId);
    ApprovalTreeInjective(a.approval, b.approval);
    StructPrintable(EVIDENCE_KEYS, EvidenceValues(a));
    StructRoundTrip(EVIDENCE_KEYS, EvidenceValues(a));
    StructRoundTrip(EVIDENCE_KEYS, EvidenceValues(b));
  }

  predicate SortedEmails(approvers: seq<string>)
  {
    && (forall i :: 0 <= i < |approvers| ==> IsEmail(approvers[i]))
    && (forall i :: 1 <= i < |approvers| ==> StrLess(approvers[i - 1], approvers[i]))
  }

  predicate ValidEvidence(env: Env, e: Evidence, now: Option<int>)
  {
    && e.schemaVersion == EVIDENCE_SCHEMA && IsRepository(e.repository)
    && e.workflowId > 0 && e.workflowRunId >= 0
    && IsSha(e.protectedMainSha) && IsDigest(e.planDigest)
    && e.conclusion == "success" && e.approval.decision == "approved"
    && IsUuid(e.approval.approvalId) && AllowedOperation(e.approval.operation)
    && IsEmail(e.approval.requestedBy) && IsReason(e.approval.reason)
    && IsTime(env, e.approval.approvedAt) && IsTime(env, e.observedAt) && IsTime(env, e.expiresAt)
    && var approved, observed, expires :=
         env.parseTime(e.approval.approvedAt).value, env.parseTime(e.observedAt).value, env.parseTime(e.expiresAt).value;
    && observed - 24 * HOUR <= approved <= observed + 30 * SECOND
    && observed < expires <= observed + 24 * HOUR
    && (now.Some? ==> observed <= now.value + 30 * SECOND && now.value < expires)
    && 1 <= |e.approval.approvers| <= 10
    && (e.digest == "" || IsDigest(e.digest))
    && SortedEmails(e.approval.approvers)
  }

  /** At the instant the evidence was observed at most 30 seconds later and has not expired. */
  predicate CurrentAt(env: Env, e: Evidence, now: int)
  {
    && env.parseTime(e.observedAt).Some? && env.parseTime(e.observedAt).value <= now + 30_000_000_000
    && env.parseTime(e.expiresAt).Some? && now < env.parseTime(e.expiresAt).value
  }

  /** Evidence is valid at an instant exactly when it is valid at none and current at that instant. */
  lemma EvidenceValidAt(env: Env, e: Evidence, now: int)
    ensures ValidEvidence(env, e, Some(now)) <==> ValidEvidence(env, e, None) && CurrentAt(env, e, now)
    ensures EvidenceDigestOk(env, e, Some(now)) <==> EvidenceDigestOk(env, e, None) && CurrentAt(env, e, now)
  {
    hide IsRepository, IsSha, IsDigest, IsUuid, IsEmail, IsReason, AllowedOperation, SortedEmails, Digest, EvidenceTree;
  }

  /** Valid evidence is an approval of a successful run: approved between a day before it was observed and 30
      seconds after, and valid for a day at most. */
  ghost predicate InForce(env: Env, e: Evidence)
  {
    && e.conclusion == "success" && e.approval.decision == "approved" && 1 <= |e.approval.approvers| <= 10
    && IsTime(env, e.approval.approvedAt) && IsTime(env, e.observedAt) && IsTime(env, e.expiresAt)
    && var approved, observed, expires :=
         env.parseTime(e.approval.approvedAt).value, env.parseTime(e.observedAt).value, env.parseTime(e.expiresAt).value;
    && observed - 86_400_000_000_000 <= approved <= observed + 30_000_000_000
    && observed < expires <= observed + 86_400_000_000_000
    && forall i, j :: 0 <= i < j < |e.approval.approvers| ==> e.approval.approvers[i] != e.approval.approvers[j]
  }

  lemma ValidIsInForce(env: Env, e: Evidence, now: Option<int>)
    requires ValidEvidence(env, e, now)
    ensures InForce(env, e)
  {
    hide IsRepository, IsSha, IsDigest, IsUuid, IsEmail, IsReason, AllowedOperation, StrLess;
    var approvers := e.approval.approvers;
    forall i, j | 0 <= i < j < |approvers| ensures approvers[i] != approvers[j] {
      SortedLess(approvers, i, j);
      StrLessTotal(approvers[i], approvers[i]);
    }
  }

  lemma {:induction false} SortedLess(s: seq<string>, i: nat, j: nat)
    requires i < j < |s| && forall k :: 1 <= k < |s| ==> StrLess(s[k - 1], s[k])
    ensures StrLess(s[i], s[j])
  {
    hide StrLess;
    if i < j - 1 {
      SortedLess(s, i, j - 1);
      StrLessTrans(s[i], s[j - 1], s[j]);
    }
  }

  predicate EvidenceDigestOk(env: Env, e: Evidence, now: Option<int>)
  {
    ValidEvidence(env, e, now) && e.digest != "" && Digest(env, EvidenceTree(e.(digest := ""))) == Some(e.digest)
  }

  function InsertText(x: string, sorted: seq<string>): seq<string>
  {
    if sorted == [] || !StrLess(sorted[0], x) then [x] + sorted else [sorted[0]] + InsertText(x, sorted[1..])
  }

  /** `sort.Strings`; equal strings are indistinguishable, so the order is determined. */
  function SortTexts(s: seq<string>): seq<string>
  {
    if s == [] then [] else InsertText(s[0], SortTexts(s[1..]))
  }

  function LowerAll(s: seq<string>): (r: seq<string>)
    ensures |r| == |s|
  {
    seq(|s|, i requires 0 <= i < |s| => ToLower(s[i]))
  }

  /** What `Seal` does to the fields before it validates them. */
  function Normalized(e: Evidence): Evidence
  {
    e.(schemaVersion := if e.schemaVersion == "" then EVIDENCE_SCHEMA else e.schemaVersion,
       approval := e.approval.(approvers := SortTexts(LowerAll(e.approval.approvers)), requestedBy := ToLower(e.approval.requestedBy)))
  }

  function SealEvidence(env: Env, e: Evidence): Option<Evidence>
  {
    var n := Normalized(e);
    if !ValidEvidence(env, n, None) then None
    else
      match Digest(env, EvidenceTree(n.(digest := "")))
      case None => None
      case Some(digest) => Some(n.(digest := digest))
  }

  lemma SealedEvidenceVerifies(env: Env, e: Evidence)
    requires Sound(env) && SealEvidence(env, e).Some?
    ensures EvidenceDigestOk(env, SealEvidence(env, e).value, None)
  {
    var s := SealEvidence(env, e).value;
    assert s.(digest := "") == Normalized(e).(digest := "");
    hide EvidenceTree, Digest, Normalized;
    assert IsDigest(s.digest);
  }

  lemma {:induction false} SortTextsPermutes(s: seq<string>)
    ensures multiset(SortTexts(s)) == multiset(s)
  {
    hide InsertText;
    if s != [] {
      SortTextsPermutes(s[1..]);
      InsertTextPermutes(s[0], SortTexts(s[1..]));
      assert s == [s[0]] + s[1..];
    }
  }

  lemma {:induction false} InsertTextPermutes(x: string, sorted: seq<string>)
    ensures multiset(InsertText(x, sorted)) == multiset(sorted) + multiset{x}
  {
    hide StrLess;
    if sorted != [] && StrLess(sorted[0], x) {
      InsertTextPermutes(x, sorted[1..]);
      assert sorted == [sorted[0]] + sorted[1..];
    }
  }

  /** Sealing keeps every field but the schema, the digest and the letter case and order of the people: the
      approvers are the same people, in lower case and in strict order. */
  lemma SealedEvidenceFields(env: Env, e: Evidence)
    requires SealEvidence(env, e).Some?
    ensures var s := SealEvidence(env, e).value;
            && s.schemaVersion == "estate.evidence/v2"
            && s == e.(schemaVersion := s.schemaVersion, digest := s.digest,
                       approval := e.approval.(approvers := s.approval.approvers, requestedBy := ToLower(e.approval.requestedBy)))
            && multiset(s.approval.approvers) == multiset(LowerAll(e.approval.approvers))
            && SortedEmails(s.approval.approvers)
            && CanonicalBytes(EvidenceTree(s.(digest := ""))).Some? && s.digest == env.hash(CanonicalBytes(EvidenceTree(s.(digest := ""))).value)
  {
    SortTextsPermutes(LowerAll(e.approval.approvers));
    var s := SealEvidence(env, e).value;
    assert s.(digest := "") == Normalized(e).(digest := "");
    hide EvidenceTree, SortTexts, LowerAll, ToLower, IsEmail, StrLess, IsReason, IsRepository;
  }

  lemma {:induction false} SortedStaysSorted(s: seq<string>)
    requires forall i :: 1 <= i < |s| ==> StrLess(s[i - 1], s[i])
    ensures SortTexts(s) == s
  {
    hide StrLess;
    if s != [] {
      forall i | 1 <= i < |s[1..]| ensures StrLess(s[1..][i - 1], s[1..][i]) {
        assert StrLess(s[i], s[i + 1]);
      }
      SortedStaysSorted(s[1..]);
      if |s| > 1 {
        assert StrLess(s[0], s[1]);
        StrLessTotal(s[0], s[1]);
      }
      assert s == [s[0]] + s[1..];
    }
  }

  /** Valid evidence is in the form to which sealing brings it. */
  lemma ValidEvidenceIsNormal(env: Env, e: Evidence)
    requires ValidEvidence(env, e, None)
    ensures Normalized(e) == e
  {
    hide IsEmail, IsReason, IsDigest, StrLess, ToLower, IsUuid, IsSha, IsTime, IsRepository;
    EmailIsLower(e.approval.requestedBy);
    var approvers := e.approval.approvers;
    forall i | 0 <= i < |approvers| ensures LowerAll(approvers)[i] == approvers[i] { EmailIsLower(approvers[i]); }
    assert LowerAll(approvers) == approvers;
    SortedStaysSorted(approvers);
  }

  /** Sealing sealed evidence again changes nothing. */
  lemma ResealedEvidence(env: Env, e: Evidence)
    requires Sound(env) && SealEvidence(env, e).Some?
    ensures SealEvidence(env, SealEvidence(env, e).value) == SealEvidence(env, e)
  {
    SealedEvidenceVerifies(env, e);
    var s := SealEvidence(env, e).value;
    assert s.(digest := "") == Normalized(e).(digest := "");
    hide Digest, EvidenceTree, ValidEvidence, Normalized;
    ValidEvidenceIsNormal(env, s);
  }

  lemma EvidenceDigestBinds(env: Env, a: Evidence, b: Evidence)
    requires EvidenceDigestOk(env, a, None) && EvidenceDigestOk(env, b, None) && a.digest == b.digest
    ensures a == b || Collision(env, CanonicalBytes(EvidenceTree(a.(digest := ""))).value, CanonicalBytes(EvidenceTree(b.(digest := ""))).value)
  {
    var x, y := a.(digest := ""), b.(digest := "");
    EvidenceTreeInjective(x, y);
    EvidenceTreeInjective(y, x);
    DigestBinds(env, EvidenceTree(x), EvidenceTree(y));
  }

  // ---------------------------------------------------------------- the assumptions can be met

  /** Reads back what `Itoa` writes. */
  function ReadSecond(s: string): Option<int>
  {
    if Magnitude(s) != "" && forall i :: 0 <= i < |Magnitude(s)| ==> IsDigit(Magnitude(s)[i]) then Some(LiteralValue(s) * SECOND) else None
  }

  lemma ReadsItoa(n: int)
    ensures ReadSecond(Itoa(n)) == Some(n * SECOND)
  {
    DecimalValue(if n < 0 then -n else n);
    if n < 0 { assert Magnitude(Itoa(n)) == Decimal(-n); } else { assert IsDigit(Decimal(n)[0]); }
  }

  function Zeros(n: nat): string { seq(n, i => '0') }

  function SampleEnv(): Env
  {
    Env(b => "sha256:" + Zeros(64), d => seq(64, i => 0), (d, s) => true, "key", ReadSecond, Itoa, t => "0000/00/00")
  }

  lemma SampleTexts()
    ensures IsDigest("sha256:" + Zeros(64)) && IsKeyId("key") && IsDay("0000/00/00")
  {
    var digest := "sha256:" + Zeros(64);
    assert digest[7..] == Zeros(64) && digest[..7] == "sha256:";
  }

  /** There are primitives as assumed. */
  lemma SoundEnvExists()
    ensures exists env :: Sound(env)
  {
    SampleTexts();
    forall t ensures ReadSecond(Itoa(t)) == Some(t * SECOND) { ReadsItoa(t); }
    hide IsDigest, IsKeyId, IsDay, Zeros, ReadSecond, Itoa;
    assert Sound(SampleEnv());
  }
}
