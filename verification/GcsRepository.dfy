/** The bucket repository (internal/storage/gcs.go:189-320): records as canonical bytes in one flat
    bucket. It is proved to keep the same create-only maps as the in-memory repository. */
module GcsRepository {
  import opened Prelude
  import opened Patterns
  import opened CanonicalJson
  import opened Contract
  import opened Protocol
  import opened GcsNames
  import opened RecordSize

  /** What a read finds; `Broken` is an object that does not hold what it should. */
  datatype Lookup<+T> = Found(value: T) | Missing | Broken

  function Bytes(t: Json): seq<Byte>
  {
    match CanonicalBytes(t)
    case Some(bytes) => bytes
    case None => []
  }

  // ---------------------------------------------------------------- loading what was stored

  function LoadRequest(env: Env, raw: seq<Byte>): Option<Request>
  {
    match ParseBytes(raw)
    case None => None
    case Some(tree) =>
      match ReadRequest(tree)
      case None => None
      case Some(request) => if RequestDigestOk(env, request, None) then Some(request) else None
  }

  function LoadDispatch(env: Env, raw: seq<Byte>): Option<Dispatch>
  {
    match ParseBytes(raw)
    case None => None
    case Some(tree) =>
      match ReadDispatch(tree)
      case None => None
      case Some(dispatch) => if DispatchDigestOk(env, dispatch) then Some(dispatch) else None
  }

  function LoadResult(env: Env, raw: seq<Byte>): Option<Result>
  {
    match ParseBytes(raw)
    case None => None
    case Some(tree) =>
      match ReadResult(tree)
      case None => None
      case Some(result) => if ResultDigestOk(env, result) then Some(result) else None
  }

  function LoadReceipt(env: Env, raw: seq<Byte>): Option<Receipt>
  {
    match ParseBytes(raw)
    case None => None
    case Some(tree) =>
      match ReadReceipt(tree)
      case None => None
      case Some(receipt) => if ReceiptDigestOk(env, receipt) then Some(receipt) else None
  }

  lemma TreeParses(t: Json)
    requires Printable(t)
    ensures CanonicalBytes(t) == Some(Bytes(t)) && ParseBytes(Bytes(t)) == Some(t)
  {
    BytesParseExactly(Bytes(t), t);
  }

  /** What was stored as canonical bytes loads as the record that was stored. */
  lemma StoredRequestLoads(env: Env, r: Request)
    requires RequestDigestOk(env, r, None)
    ensures CanonicalBytes(RequestTree(r)).Some? && LoadRequest(env, Bytes(RequestTree(r))) == Some(r)
  {
    RequestRoundTrip(r);
    hide RequestTree, RequestDigestOk, ReadRequest, Printable;
    TreeParses(RequestTree(r));
  }

  lemma StoredDispatchLoads(env: Env, d: Dispatch)
    requires DispatchDigestOk(env, d)
    ensures CanonicalBytes(DispatchTree(d)).Some? && LoadDispatch(env, Bytes(DispatchTree(d))) == Some(d)
  {
    DispatchRoundTrip(d);
    hide DispatchTree, DispatchDigestOk, ReadDispatch, Printable;
    TreeParses(DispatchTree(d));
  }

  lemma StoredResultLoads(env: Env, r: Result)
    requires ResultDigestOk(env, r)
    ensures CanonicalBytes(ResultTree(r)).Some? && LoadResult(env, Bytes(ResultTree(r))) == Some(r)
  {
    ResultRoundTrip(r);
    hide ResultTree, ResultDigestOk, ReadResult, Printable;
    TreeParses(ResultTree(r));
  }

  lemma StoredReceiptLoads(env: Env, r: Receipt)
    requires ReceiptDigestOk(env, r)
    ensures CanonicalBytes(ReceiptTree(r)).Some? && LoadReceipt(env, Bytes(ReceiptTree(r))) == Some(r)
  {
    ReceiptRoundTrip(r);
    hide ReceiptTree, ReceiptDigestOk, ReadReceipt, Printable;
    TreeParses(ReceiptTree(r));
  }

  // ---------------------------------------------------------------- the bucket as maps

  type Objects = map<string, seq<Byte>>

  /** The object of one key says what the store says about it. Receipts are kept under their audit object. */
  ghost predicate HoldsKey(env: Env, objects: Objects, s: Store, k: Key)
  {
    match k
    case ReplayRequest(id) => id in s.reservations <==> NameOf(k) in objects
    case ReplayBinding(hex) => "sha256:" + hex in s.bindings <==> NameOf(k) in objects
    case ReplayApproval(id) => id in s.approvals <==> NameOf(k) in objects
    case RequestRecord(id) =>
      && (id in s.requests <==> NameOf(k) in objects)
      && (id in s.requests ==> RequestDigestOk(env, s.requests[id], None) && objects[NameOf(k)] == Bytes(RequestTree(s.requests[id])))
    case DispatchRecord(id) =>
      && (id in s.dispatches <==> NameOf(k) in objects)
      && (id in s.dispatches ==> DispatchDigestOk(env, s.dispatches[id]) && objects[NameOf(k)] == Bytes(DispatchTree(s.dispatches[id])))
    case ResultRecord(id) =>
      && (id in s.results <==> NameOf(k) in objects)
      && (id in s.results ==> ResultDigestOk(env, s.results[id]) && objects[NameOf(k)] == Bytes(ResultTree(s.results[id])))
    case ReceiptRecord(_, _) =>
      && (NameOf(k) in s.receipts <==> NameOf(k) in objects)
      && (NameOf(k) in s.receipts ==>
           && s.receipts[NameOf(k)].auditObject == NameOf(k) && ReceiptDigestOk(env, s.receipts[NameOf(k)])
           && objects[NameOf(k)] == Bytes(ReceiptTree(s.receipts[NameOf(k)])))
    case EvidenceRecord(_) => true
  }

  /** The bucket holds exactly the maps of the store, each kind under its own names. */
  ghost predicate Holds(env: Env, objects: Objects, s: Store)
  {
    forall k :: ValidKey(k) ==> HoldsKey(env, objects, s, k)
  }

  ghost predicate SameAt<V>(a: map<string, V>, b: map<string, V>, key: string)
  {
    (key in a <==> key in b) && (key in a ==> a[key] == b[key])
  }

  /** The stores differ at most in what they say about `k`. */
  ghost predicate SameBut(s: Store, v: Store, k: Key)
  {
    && (forall id :: k != ReplayRequest(id) ==> (id in s.reservations <==> id in v.reservations))
    && (forall hex :: k != ReplayBinding(hex) ==> ("sha256:" + hex in s.bindings <==> "sha256:" + hex in v.bindings))
    && (forall id :: k != ReplayApproval(id) ==> (id in s.approvals <==> id in v.approvals))
    && (forall id :: k != RequestRecord(id) ==> SameAt(s.requests, v.requests, id))
    && (forall id :: k != DispatchRecord(id) ==> SameAt(s.dispatches, v.dispatches, id))
    && (forall id :: k != ResultRecord(id) ==> SameAt(s.results, v.results, id))
    && (forall name :: name != NameOf(k) ==> SameAt(s.receipts, v.receipts, name))
  }

  lemma OtherKeyHeld(env: Env, before: Objects, after: Objects, s: Store, v: Store, k: Key, l: Key)
    requires ValidKey(k) && ValidKey(l) && k != l && HoldsKey(env, before, s, l) && SameBut(s, v, k)
    requires forall name :: name != NameOf(k) ==> (name in before <==> name in after) && (name in before ==> before[name] == after[name])
    ensures HoldsKey(env, after, v, l)
  {
    hide NameOf, ValidKey, RequestDigestOk, DispatchDigestOk, ResultDigestOk, ReceiptDigestOk, Bytes, RequestTree,
         DispatchTree, ResultTree, ReceiptTree;
    if NameOf(l) == NameOf(k) { NamesApart(l, k); }
    assert NameOf(l) in before <==> NameOf(l) in after;
    match l
    case RequestRecord(id) => assert SameAt(s.requests, v.requests, id);
    case DispatchRecord(id) => assert SameAt(s.dispatches, v.dispatches, id);
    case ResultRecord(id) => assert SameAt(s.results, v.results, id);
    case ReceiptRecord(_, _) => assert SameAt(s.receipts, v.receipts, NameOf(l));
    case _ =>
  }

  /** A new object under one name, with the store changed accordingly there, disturbs nothing else. */
  lemma ObjectAdded(env: Env, before: Objects, s: Store, v: Store, k: Key, data: seq<Byte>)
    requires ValidKey(k) && Holds(env, before, s) && SameBut(s, v, k) && HoldsKey(env, before[NameOf(k) := data], v, k)
    ensures Holds(env, before[NameOf(k) := data], v)
  {
    hide HoldsKey, SameBut, NameOf, ValidKey;
    forall l | ValidKey(l) ensures HoldsKey(env, before[NameOf(k) := data], v, l) {
      if l != k { OtherKeyHeld(env, before, before[NameOf(k) := data], s, v, k, l); }
    }
  }

  // ---------------------------------------------------------------- the repository

  class GcsRepository {
    const env: Env
    const bucket: string
    var objects: Objects
    /** The maps that the bucket stands for. */
    ghost var store: Store

    ghost predicate Valid()
      reads this
    {
      Sound(env) && IsBucket(bucket) && Holds(env, objects, store)
    }

    constructor (e: Env, name: string)
      requires Sound(e) && IsBucket(name)
      ensures Valid() && env == e && bucket == name && store == EMPTY
    {
      env, bucket, objects := e, name, map[];
      store := EMPTY;
    }

    /** `Create` of the object store: never overwrites. */
    method CreateObject(name: string, data: seq<Byte>) returns (reaction: Reaction)
      modifies this`objects
      ensures reaction == if ValidAddress(bucket, name) then React(name in old(objects), Answered) else Failed
      ensures objects == if reaction.Failed? then old(objects) else Put(old(objects), name, data, Answered)
    {
      hide ValidAddress;
      if !ValidAddress(bucket, name) { return Failed; }
      if name in objects { return Conflict; }
      objects := objects[name := data];
      return Stored;
    }

    method GetObject(name: string) returns (r: Lookup<seq<Byte>>)
      ensures r == if !ValidAddress(bucket, name) then Broken
                   else if name !in objects then Missing
                   else if |objects[name]| > 2_097_152 then Broken else Found(objects[name])
    {
      hide ValidAddress;
      if !ValidAddress(bucket, name) { return Broken; }
      if name !in objects { return Missing; }
      if |objects[name]| > OBJECT_LIMIT { return Broken; }
      return Found(objects[name]);
    }

    method PutRequest(request: Request) returns (reaction: Reaction)
      requires Valid()
      modifies this
      ensures Valid()
      ensures reaction == if RequestDigestOk(env, request, None) then React(request.requestId in old(store.requests), Answered) else Failed
      ensures store == if reaction.Failed? then old(store)
                       else old(store).(requests := Put(old(store.requests), request.requestId, request, Answered))
    {
      hide RequestDigestOk, Holds, Sound, IsBucket, ValidAddress, RequestTree, NameOf, CanonicalBytes;
      if !RequestDigestOk(env, request, None) { return Failed; }
      RequestKeyValid(env, request);
      StoredRequestLoads(env, request);
      var k := RequestRecord(request.requestId);
      var payload := CanonicalBytes(RequestTree(request)).value;
      NameIsAddress(bucket, k);
      KeyHeld(env, objects, store, k);
      reaction := CreateObject(NameOf(k), payload);
      if reaction.Stored? {
        RequestHeld(env, old(objects), store, request);
        store := store.(requests := store.requests[request.requestId := request]);
      }
    }

    method GetRequest(requestId: string) returns (r: Lookup<Request>)
      requires Valid()
      ensures r == if !IsUuid(requestId) || requestId !in store.requests then Missing
                   else if |Bytes(RequestTree(store.requests[requestId]))| > OBJECT_LIMIT then Broken
                   else Found(store.requests[requestId])
      ensures IsUuid(requestId) && requestId in store.requests && ShortRequest(store.requests[requestId]) ==> r == Found(store.requests[requestId])
    {
      hide RequestDigestOk, Holds, Sound, IsBucket, IsUuid, ValidAddress, RequestTree, NameOf, CanonicalBytes,
           ParseBytes, ReadRequest, ShortRequest;
      if !IsUuid(requestId) { return Missing; }
      var k := RequestRecord(requestId);
      NameIsAddress(bucket, k);
      KeyHeld(env, objects, store, k);
      if requestId in store.requests {
        StoredRequestLoads(env, store.requests[requestId]);
        if ShortRequest(store.requests[requestId]) { RequestFits(env, store.requests[requestId]); }
      }
      var raw := GetObject(NameOf(k));
      match raw
      case Missing => return Missing;
      case Broken => return Broken;
      case Found(data) =>
        var loaded := LoadRequest(env, data);
        r := if loaded.Some? then Found(loaded.value) else Broken;
    }

    method PutDispatch(dispatch: Dispatch) returns (reaction: Reaction)
      requires Valid()
      modifies this
      ensures Valid()
      ensures reaction == if DispatchDigestOk(env, dispatch) then React(dispatch.requestId in old(store.dispatches), Answered) else Failed
      ensures store == if reaction.Failed? then old(store)
                       else old(store).(dispatches := Put(old(store.dispatches), dispatch.requestId, dispatch, Answered))
    {
      hide DispatchDigestOk, Holds, Sound, IsBucket, ValidAddress, DispatchTree, NameOf, CanonicalBytes;
      if !DispatchDigestOk(env, dispatch) { return Failed; }
      DispatchKeyValid(env, dispatch);
      StoredDispatchLoads(env, dispatch);
      var k := DispatchRecord(dispatch.requestId);
      var payload := CanonicalBytes(DispatchTree(dispatch)).value;
      NameIsAddress(bucket, k);
      KeyHeld(env, objects, store, k);
      reaction := CreateObject(NameOf(k), payload);
      if reaction.Stored? {
        DispatchHeld(env, old(objects), store, dispatch);
        store := store.(dispatches := store.dispatches[dispatch.requestId := dispatch]);
      }
    }

    method GetDispatch(requestId: string) returns (r: Lookup<Dispatch>)
      requires Valid()
      ensures r == if !IsUuid(requestId) || requestId !in store.dispatches then Missing
                   else if |Bytes(DispatchTree(store.dispatches[requestId]))| > OBJECT_LIMIT then Broken
                   else Found(store.dispatches[requestId])
      ensures IsUuid(requestId) && requestId in store.dispatches && ShortDispatch(store.dispatches[requestId]) ==> r == Found(store.dispatches[requestId])
    {
      hide DispatchDigestOk, Holds, Sound, IsBucket, IsUuid, ValidAddress, DispatchTree, NameOf, CanonicalBytes,
           ParseBytes, ReadDispatch, ShortDispatch;
      if !IsUuid(requestId) { return Missing; }
      var k := DispatchRecord(requestId);
      NameIsAddress(bucket, k);
      KeyHeld(env, objects, store, k);
      if requestId in store.dispatches {
        StoredDispatchLoads(env, store.dispatches[requestId]);
        if ShortDispatch(store.dispatches[requestId]) { DispatchFits(env, store.dispatches[requestId]); }
      }
      var raw := GetObject(NameOf(k));
      match raw
      case Missing => return Missing;
      case Broken => return Broken;
      case Found(data) =>
        var loaded := LoadDispatch(env, data);
        r := if loaded.Some? then Found(loaded.value) else Broken;
    }

    method PutDispatchResult(result: Result) returns (reaction: Reaction)
      requires Valid()
      modifies this
      ensures Valid()
      ensures reaction == if ResultDigestOk(env, result) then React(result.requestId in old(store.results), Answered) else Failed
      ensures store == if reaction.Failed? then old(store)
                       else old(store).(results := Put(old(store.results), result.requestId, result, Answered))
    {
      hide ResultDigestOk, Holds, Sound, IsBucket, ValidAddress, ResultTree, NameOf, CanonicalBytes;
      if !ResultDigestOk(env, result) { return Failed; }
      ResultKeyValid(env, result);
      StoredResultLoads(env, result);
      var k := ResultRecord(result.requestId);
      var payload := CanonicalBytes(ResultTree(result)).value;
      NameIsAddress(bucket, k);
      KeyHeld(env, objects, store, k);
      reaction := CreateObject(NameOf(k), payload);
      if reaction.Stored? {
        ResultHeld(env, old(objects), store, result);
        store := store.(results := store.results[result.requestId := result]);
      }
    }

    method GetDispatchResult(requestId: string) returns (r: Lookup<Result>)
      requires Valid()
      ensures r == if !IsUuid(requestId) || requestId !in store.results then Missing
                   else if |Bytes(ResultTree(store.results[requestId]))| > OBJECT_LIMIT then Broken
                   else Found(store.results[requestId])
      ensures IsUuid(requestId) && requestId in store.results && ShortResult(store.results[requestId]) ==> r == Found(store.results[requestId])
    {
      hide ResultDigestOk, Holds, Sound, IsBucket, IsUuid, ValidAddress, ResultTree, NameOf, CanonicalBytes,
           ParseBytes, ReadResult, ShortResult;
      if !IsUuid(requestId) { return Missing; }
      var k := ResultRecord(requestId);
      NameIsAddress(bucket, k);
      KeyHeld(env, objects, store, k);
      if requestId in store.results {
        StoredResultLoads(env, store.results[requestId]);
        if ShortResult(store.results[requestId]) { ResultFits(env, store.results[requestId]); }
      }
      var raw := GetObject(NameOf(k));
      match raw
      case Missing => return Missing;
      case Broken => return Broken;
      case Found(data) =>
        var loaded := LoadResult(env, data);
        r := if loaded.Some? then Found(loaded.value) else Broken;
    }

    method PutReceipt(receipt: Receipt) returns (reaction: Reaction)
      requires Valid()
      modifies this
      ensures Valid()
      ensures reaction == if ReceiptDigestOk(env, receipt) then React(receipt.auditObject in old(store.receipts), Answered) else Failed
      ensures store == if reaction.Failed? then old(store)
                       else old(store).(receipts := Put(old(store.receipts), receipt.auditObject, receipt, Answered))
    {
      hide ReceiptDigestOk, Holds, Sound, IsBucket, ValidAddress, ReceiptTree, NameOf, CanonicalBytes;
      if !ReceiptDigestOk(env, receipt) { return Failed; }
      StoredReceiptLoads(env, receipt);
      ghost var k := ReceiptKeyValid(env, receipt);
      var payload := CanonicalBytes(ReceiptTree(receipt)).value;
      NameIsAddress(bucket, k);
      KeyHeld(env, objects, store, k);
      reaction := CreateObject(receipt.auditObject, payload);
      if reaction.Stored? {
        ReceiptHeld(env, old(objects), store, receipt, k);
        store := store.(receipts := store.receipts[receipt.auditObject := receipt]);
      }
    }

    method GetReceiptByObject(objectName: string) returns (r: Lookup<Receipt>)
      requires Valid()
      ensures r == if !IsReceiptName(objectName) || objectName !in store.receipts then Missing
                   else if |Bytes(ReceiptTree(store.receipts[objectName]))| > OBJECT_LIMIT then Broken
                   else Found(store.receipts[objectName])
      ensures IsReceiptName(objectName) && objectName in store.receipts && ShortReceipt(store.receipts[objectName]) ==> r == Found(store.receipts[objectName])
    {
      hide ReceiptDigestOk, Holds, Sound, IsBucket, IsReceiptName, ValidKey, ValidAddress, ReceiptTree, NameOf,
           CanonicalBytes, ParseBytes, ReadReceipt, ShortReceipt;
      if !IsReceiptName(objectName) { return Missing; }
      ReceiptNames(objectName);
      ghost var k :| ValidKey(k) && k.ReceiptRecord? && NameOf(k) == objectName;
      NameIsAddress(bucket, k);
      KeyHeld(env, objects, store, k);
      if objectName in store.receipts {
        StoredReceiptLoads(env, store.receipts[objectName]);
        if ShortReceipt(store.receipts[objectName]) { ReceiptFits(env, store.receipts[objectName]); }
      }
      var raw := GetObject(objectName);
      match raw
      case Missing => return Missing;
      case Broken => return Broken;
      case Found(data) =>
        var loaded := LoadReceipt(env, data);
        r := if loaded.Some? && loaded.value.auditObject == objectName then Found(loaded.value) else Broken;
    }

    /** One write of a reservation, whose content nobody reads. */
    method CreateReplayKey(k: Key, payload: seq<Byte>) returns (taken: bool)
      requires Valid() && ValidKey(k)
      modifies this`objects
      ensures taken <==> NameOf(k) in old(objects)
      ensures objects == if taken then old(objects) else old(objects)[NameOf(k) := payload]
    {
      hide Holds, Sound, IsBucket, ValidAddress, NameOf;
      NameIsAddress(bucket, k);
      var reaction := CreateObject(NameOf(k), payload);
      taken := reaction.Conflict?;
    }

    /** Three writes in a row. It reserves exactly when all three keys were free, as the atomic
        reservation does, but a reservation that is refused keeps the keys that it had already taken. */
    method ReserveRequest(requestId: string, bindingDigest: string, approvalId: string, nonce: string, expiresAt: string) returns (reaction: Reaction)
      requires Valid()
      modifies this
      ensures Valid()
      ensures var request, binding, approval :=
                requestId in old(store.reservations), bindingDigest in old(store.bindings), approvalId in old(store.approvals);
              if !ValidReservation(env, requestId, bindingDigest, approvalId, nonce, expiresAt) then reaction.Failed? && store == old(store)
              else
                && reaction == React(request || binding || approval, Answered)
                && store == old(store).(
                     reservations := Put(old(store.reservations), requestId, nonce + ":" + expiresAt, Answered),
                     bindings := if request then old(store.bindings) else Put(old(store.bindings), bindingDigest, requestId, Answered),
                     approvals := if request || binding then old(store.approvals) else Put(old(store.approvals), approvalId, requestId, Answered))
    {
      hide Holds, Sound, IsBucket, IsUuid, IsDigest, IsNonce, IsTime, NameOf;
      if !ValidReservation(env, requestId, bindingDigest, approvalId, nonce, expiresAt) { return Failed; }
      var payload := ReservationPayload(requestId, bindingDigest, approvalId, nonce, expiresAt);
      BindingHex(bindingDigest);
      var taken := ReserveRequestKey(requestId, nonce + ":" + expiresAt, payload);
      if taken { return Conflict; }
      taken := ReserveBindingKey(bindingDigest, requestId, payload);
      if taken { return Conflict; }
      taken := ReserveApprovalKey(approvalId, requestId, payload);
      return if taken then Conflict else Stored;
    }

    method ReserveRequestKey(id: string, value: string, payload: seq<Byte>) returns (taken: bool)
      requires Valid() && IsUuid(id)
      modifies this
      ensures Valid() && (taken <==> id in old(store.reservations))
      ensures store == old(store).(reservations := Put(old(store.reservations), id, value, Answered))
    {
      hide Holds, Sound, IsBucket, IsUuid, NameOf;
      KeyHeld(env, objects, store, ReplayRequest(id));
      taken := CreateReplayKey(ReplayRequest(id), payload);
      if !taken {
        RequestKeyHeld(env, old(objects), store, id, value, payload);
        store := store.(reservations := store.reservations[id := value]);
      }
    }

    method ReserveBindingKey(digest: string, id: string, payload: seq<Byte>) returns (taken: bool)
      requires Valid() && IsDigest(digest) && IsHex64(digest[7..]) && "sha256:" + digest[7..] == digest
      modifies this
      ensures Valid() && (taken <==> digest in old(store.bindings))
      ensures store == old(store).(bindings := Put(old(store.bindings), digest, id, Answered))
    {
      hide Holds, Sound, IsBucket, IsHex64, NameOf;
      var k := ReplayBinding(digest[7..]);
      KeyHeld(env, objects, store, k);
      taken := CreateReplayKey(k, payload);
      if !taken {
        BindingKeyHeld(env, old(objects), store, digest[7..], id, payload);
        store := store.(bindings := store.bindings[digest := id]);
      }
    }

    method ReserveApprovalKey(approval: string, id: string, payload: seq<Byte>) returns (taken: bool)
      requires Valid() && IsUuid(approval)
      modifies this
      ensures Valid() && (taken <==> approval in old(store.approvals))
      ensures store == old(store).(approvals := Put(old(store.approvals), approval, id, Answered))
    {
      hide Holds, Sound, IsBucket, IsUuid, NameOf;
      KeyHeld(env, objects, store, ReplayApproval(approval));
      taken := CreateReplayKey(ReplayApproval(approval), payload);
      if !taken {
        ApprovalKeyHeld(env, old(objects), store, approval, id, payload);
        store := store.(approvals := store.approvals[approval := id]);
      }
    }
  }

  lemma KeyHeld(env: Env, objects: Objects, s: Store, k: Key)
    requires Holds(env, objects, s) && ValidKey(k)
    ensures HoldsKey(env, objects, s, k)
  {}

  lemma RequestKeyValid(env: Env, r: Request)
    requires RequestDigestOk(env, r, None)
    ensures IsUuid(r.requestId) && ValidKey(RequestRecord(r.requestId))
  {
    hide IsUuid;
  }

  lemma RequestHeld(env: Env, objects: Objects, s: Store, r: Request)
    requires Holds(env, objects, s) && ValidKey(RequestRecord(r.requestId)) && r.requestId !in s.requests && RequestDigestOk(env, r, None)
    ensures Holds(env, objects[NameOf(RequestRecord(r.requestId)) := Bytes(RequestTree(r))], s.(requests := s.requests[r.requestId := r]))
  {
    hide Holds, RequestDigestOk, RequestTree, Bytes, NameOf, ValidKey;
    ObjectAdded(env, objects, s, s.(requests := s.requests[r.requestId := r]), RequestRecord(r.requestId), Bytes(RequestTree(r)));
  }

  lemma DispatchKeyValid(env: Env, r: Dispatch)
    requires DispatchDigestOk(env, r)
    ensures IsUuid(r.requestId) && ValidKey(DispatchRecord(r.requestId))
  {
    hide IsUuid;
  }

  lemma DispatchHeld(env: Env, objects: Objects, s: Store, r: Dispatch)
    requires Holds(env, objects, s) && ValidKey(DispatchRecord(r.requestId)) && r.requestId !in s.dispatches && DispatchDigestOk(env, r)
    ensures Holds(env, objects[NameOf(DispatchRecord(r.requestId)) := Bytes(DispatchTree(r))], s.(dispatches := s.dispatches[r.requestId := r]))
  {
    hide Holds, DispatchDigestOk, DispatchTree, Bytes, NameOf, ValidKey;
    ObjectAdded(env, objects, s, s.(dispatches := s.dispatches[r.requestId := r]), DispatchRecord(r.requestId), Bytes(DispatchTree(r)));
  }

  lemma ResultKeyValid(env: Env, r: Result)
    requires ResultDigestOk(env, r)
    ensures IsUuid(r.requestId) && ValidKey(ResultRecord(r.requestId))
  {
    hide IsUuid;
  }

  lemma ResultHeld(env: Env, objects: Objects, s: Store, r: Result)
    requires Holds(env, objects, s) && ValidKey(ResultRecord(r.requestId)) && r.requestId !in s.results && ResultDigestOk(env, r)
    ensures Holds(env, objects[NameOf(ResultRecord(r.requestId)) := Bytes(ResultTree(r))], s.(results := s.results[r.requestId := r]))
  {
    hide Holds, ResultDigestOk, ResultTree, Bytes, NameOf, ValidKey;
    ObjectAdded(env, objects, s, s.(results := s.results[r.requestId := r]), ResultRecord(r.requestId), Bytes(ResultTree(r)));
  }

  /** A valid receipt's audit object is the name of a receipt record. */
  lemma ReceiptKeyValid(env: Env, r: Receipt) returns (k: Key)
    requires Sound(env) && ReceiptDigestOk(env, r)
    ensures ValidKey(k) && k.ReceiptRecord? && NameOf(k) == r.auditObject
  {
    hide DigestHolds, IsRepository, IsReasonCode, IsProviderReference, AllowedOperation, IsDigest;
    k := ReceiptRecord(env.day(env.parseTime(r.recordedAt).value), r.receiptId);
    UuidIsReceiptText(r.receiptId);
  }

  lemma UuidIsReceiptText(s: string)
    requires IsUuid(s)
    ensures IsReceiptText(s)
  {}

  lemma ReceiptHeld(env: Env, objects: Objects, s: Store, r: Receipt, k: Key)
    requires Holds(env, objects, s) && ValidKey(k) && k.ReceiptRecord? && NameOf(k) == r.auditObject
    requires r.auditObject !in s.receipts && ReceiptDigestOk(env, r)
    ensures Holds(env, objects[r.auditObject := Bytes(ReceiptTree(r))], s.(receipts := s.receipts[r.auditObject := r]))
  {
    hide Holds, ReceiptDigestOk, ReceiptTree, Bytes, NameOf, ValidKey;
    ObjectAdded(env, objects, s, s.(receipts := s.receipts[r.auditObject := r]), k, Bytes(ReceiptTree(r)));
  }

  const RESERVATION_KEYS: seq<string> := ["request_id", "binding_digest", "approval_id", "nonce", "expires_at"]

  function ReservationPayload(requestId: string, bindingDigest: string, approvalId: string, nonce: string, expiresAt: string): seq<Byte>
  {
    Bytes(Struct(RESERVATION_KEYS, [Str(requestId), Str(bindingDigest), Str(approvalId), Str(nonce), Str(expiresAt)]))
  }

  lemma BindingHex(digest: string)
    requires IsDigest(digest)
    ensures |digest| >= 7 && IsHex64(digest[7..]) && "sha256:" + digest[7..] == digest
  {
    hide AllLowerHex;
    assert digest == digest[..7] + digest[7..];
  }

  lemma RequestKeyHeld(env: Env, objects: Objects, s: Store, id: string, value: string, payload: seq<Byte>)
    requires Holds(env, objects, s) && ValidKey(ReplayRequest(id))
    ensures Holds(env, objects[NameOf(ReplayRequest(id)) := payload], s.(reservations := s.reservations[id := value]))
  {
    hide Holds, NameOf, ValidKey;
    ObjectAdded(env, objects, s, s.(reservations := s.reservations[id := value]), ReplayRequest(id), payload);
  }

  lemma BindingKeyHeld(env: Env, objects: Objects, s: Store, hex: string, id: string, payload: seq<Byte>)
    requires Holds(env, objects, s) && ValidKey(ReplayBinding(hex))
    ensures Holds(env, objects[NameOf(ReplayBinding(hex)) := payload], s.(bindings := s.bindings["sha256:" + hex := id]))
  {
    hide Holds, NameOf, ValidKey;
    forall other ensures "sha256:" + other == "sha256:" + hex ==> other == hex {
      assert ("sha256:" + other)[7..] == other && ("sha256:" + hex)[7..] == hex;
    }
    ObjectAdded(env, objects, s, s.(bindings := s.bindings["sha256:" + hex := id]), ReplayBinding(hex), payload);
  }

  lemma ApprovalKeyHeld(env: Env, objects: Objects, s: Store, approval: string, id: string, payload: seq<Byte>)
    requires Holds(env, objects, s) && ValidKey(ReplayApproval(approval))
    ensures Holds(env, objects[NameOf(ReplayApproval(approval)) := payload], s.(approvals := s.approvals[approval := id]))
  {
    hide Holds, NameOf, ValidKey;
    ObjectAdded(env, objects, s, s.(approvals := s.approvals[approval := id]), ReplayApproval(approval), payload);
  }
}
