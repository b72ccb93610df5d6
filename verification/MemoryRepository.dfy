/** The in-memory repository (internal/storage/repository.go:42-261): maps behind one mutex, every
    write create-only. Its contents are the `Store` of the protocol. */
module MemoryRepository {
  import opened Prelude
  import opened Contract
  import opened Health
  import opened Protocol

  // ---------------------------------------------------------------- newest first

  function Reversed<T>(s: seq<T>): (r: seq<T>)
    ensures |r| == |s| && forall i :: 0 <= i < |s| ==> r[i] == s[|s| - 1 - i]
  {
    seq(|s|, i requires 0 <= i < |s| => s[|s| - 1 - i])
  }

  /** The last `limit` values, newest first. */
  function Newest<T>(s: seq<T>, limit: nat): seq<T>
  {
    Reversed(if |s| > limit then s[|s| - limit..] else s)
  }

  /** Newest-first listings are consistent: a longer limit only adds older values at the end. */
  lemma NewestIsPrefix<T>(s: seq<T>, shorter: nat, longer: nat)
    requires shorter <= longer
    ensures Newest(s, shorter) <= Newest(s, longer)
    ensures s != [] && shorter > 0 ==> Newest(s, shorter)[0] == s[|s| - 1]
  {}

  method ReverseInPlace<T>(a: array<T>)
    modifies a
    ensures a[..] == Reversed(old(a[..]))
  {
    var left, right := 0, a.Length - 1;
    while left < right
      invariant 0 <= left && left + right == a.Length - 1 && left <= right + 1
      invariant forall k :: 0 <= k < left || right < k < a.Length ==> a[k] == old(a[a.Length - 1 - k])
      invariant forall k :: left <= k <= right ==> a[k] == old(a[k])
    {
      a[left], a[right] := a[right], a[left];
      left, right := left + 1, right - 1;
    }
  }

  // ---------------------------------------------------------------- the repository

  class MemoryRepository {
    const env: Env
    var snapshots: seq<Snapshot>
    var evidence: map<string, Evidence>
    var reservations: map<string, string>
    var bindings: map<string, string>
    var approvals: map<string, string>
    var requests: map<string, Request>
    var dispatches: map<string, Dispatch>
    var results: map<string, Result>
    var receipts: map<string, Receipt>

    function Contents(): Store
      reads this
    {
      Store(evidence, reservations, bindings, approvals, requests, dispatches, results, receipts)
    }

    constructor (e: Env)
      ensures env == e && Contents() == EMPTY && snapshots == []
    {
      env := e;
      snapshots := [];
      evidence, reservations, bindings, approvals := map[], map[], map[], map[];
      requests, dispatches, results, receipts := map[], map[], map[], map[];
    }

    method SeedSnapshot(snapshot: Snapshot) returns (reaction: Reaction)
      modifies this`snapshots
      ensures reaction == if SnapshotDigestOk(env, snapshot) then Stored else Failed
      ensures snapshots == if reaction.Stored? then old(snapshots) + [snapshot] else old(snapshots)
    {
      hide ValidSnapshot, SnapshotTree;
      var sealed := new EstateHealthSnapshot(snapshot);
      var ok := sealed.VerifyDigest(env);
      if !ok { return Failed; }
      snapshots := snapshots + [snapshot];
      return Stored;
    }

    method SeedEvidence(e: Evidence) returns (reaction: Reaction)
      modifies this`evidence
      ensures reaction == if EvidenceDigestOk(env, e, None) then React(e.digest in old(evidence), Answered) else Failed
      ensures evidence == if reaction.Stored? then Put(old(evidence), e.digest, e, Answered) else old(evidence)
    {
      hide EvidenceDigestOk;
      if !EvidenceDigestOk(env, e, None) { return Failed; }
      if e.digest in evidence { return Conflict; }
      evidence := evidence[e.digest := e];
      return Stored;
    }

    method LatestSnapshot() returns (r: Option<Snapshot>)
      ensures r == if snapshots == [] then None else Some(snapshots[|snapshots| - 1])
    {
      if |snapshots| == 0 { return None; }
      return Some(snapshots[|snapshots| - 1]);
    }

    method ListSnapshots(limit: int) returns (r: Option<seq<Snapshot>>)
      ensures r == if 0 < limit <= 100 then Some(Newest(snapshots, limit)) else None
    {
      if limit <= 0 || limit > 100 { return None; }
      var start := |snapshots| - limit;
      if start < 0 { start := 0; }
      var all := snapshots;
      var result := new Snapshot[|all| - start](i requires 0 <= i < |all| - start => all[start + i]);
      assert result[..] == all[start..];
      ReverseInPlace(result);
      return Some(result[..]);
    }

    /** All three keys are free and taken together, or nothing changes. */
    method ReserveRequest(requestId: string, bindingDigest: string, approvalId: string, nonce: string, expiresAt: string) returns (reaction: Reaction)
      modifies this`reservations, this`bindings, this`approvals
      ensures reaction ==
              if !ValidReservation(env, requestId, bindingDigest, approvalId, nonce, expiresAt) then Failed
              else React(requestId in old(reservations) || bindingDigest in old(bindings) || approvalId in old(approvals), Answered)
      ensures if reaction.Stored?
              then && reservations == old(reservations)[requestId := nonce + ":" + expiresAt]
                   && bindings == old(bindings)[bindingDigest := requestId] && approvals == old(approvals)[approvalId := requestId]
              else Contents() == old(Contents())
    {
      hide ValidReservation;
      if !ValidReservation(env, requestId, bindingDigest, approvalId, nonce, expiresAt) { return Failed; }
      if requestId in reservations { return Conflict; }
      if bindingDigest in bindings { return Conflict; }
      if approvalId in approvals { return Conflict; }
      reservations := reservations[requestId := nonce + ":" + expiresAt];
      bindings := bindings[bindingDigest := requestId];
      approvals := approvals[approvalId := requestId];
      return Stored;
    }

    method PutRequest(request: Request) returns (reaction: Reaction)
      modifies this`requests
      ensures reaction == if RequestDigestOk(env, request, None) then React(request.requestId in old(requests), Answered) else Failed
      ensures requests == if reaction.Failed? then old(requests) else Put(old(requests), request.requestId, request, Answered)
    {
      hide RequestDigestOk;
      if !RequestDigestOk(env, request, None) { return Failed; }
      if request.requestId in requests { return Conflict; }
      requests := requests[request.requestId := request];
      return Stored;
    }

    method PutDispatch(dispatch: Dispatch) returns (reaction: Reaction)
      modifies this`dispatches
      ensures reaction == if DispatchDigestOk(env, dispatch) then React(dispatch.requestId in old(dispatches), Answered) else Failed
      ensures dispatches == if reaction.Failed? then old(dispatches) else Put(old(dispatches), dispatch.requestId, dispatch, Answered)
    {
      hide DispatchDigestOk;
      if !DispatchDigestOk(env, dispatch) { return Failed; }
      if dispatch.requestId in dispatches { return Conflict; }
      dispatches := dispatches[dispatch.requestId := dispatch];
      return Stored;
    }

    method PutDispatchResult(result: Result) returns (reaction: Reaction)
      modifies this`results
      ensures reaction == if ResultDigestOk(env, result) then React(result.requestId in old(results), Answered) else Failed
      ensures results == if reaction.Failed? then old(results) else Put(old(results), result.requestId, result, Answered)
    {
      hide ResultDigestOk;
      if !ResultDigestOk(env, result) { return Failed; }
      if result.requestId in results { return Conflict; }
      results := results[result.requestId := result];
      return Stored;
    }

    method PutReceipt(receipt: Receipt) returns (reaction: Reaction)
      modifies this`receipts
      ensures reaction == if ReceiptDigestOk(env, receipt) then React(receipt.receiptId in old(receipts), Answered) else Failed
      ensures receipts == if reaction.Failed? then old(receipts) else Put(old(receipts), receipt.receiptId, receipt, Answered)
    {
      hide ReceiptDigestOk;
      if !ReceiptDigestOk(env, receipt) { return Failed; }
      if receipt.receiptId in receipts { return Conflict; }
      receipts := receipts[receipt.receiptId := receipt];
      return Stored;
    }

    method GetEvidence(digest: string) returns (r: Option<Evidence>)
      ensures r == if digest in evidence then Some(evidence[digest]) else None
    {
      r := if digest in evidence then Some(evidence[digest]) else None;
    }

    method GetRequest(requestId: string) returns (r: Option<Request>)
      ensures r == if requestId in requests then Some(requests[requestId]) else None
    {
      r := if requestId in requests then Some(requests[requestId]) else None;
    }

    method GetDispatch(requestId: string) returns (r: Option<Dispatch>)
      ensures r == if requestId in dispatches then Some(dispatches[requestId]) else None
    {
      r := if requestId in dispatches then Some(dispatches[requestId]) else None;
    }

    method GetDispatchResult(requestId: string) returns (r: Option<Result>)
      ensures r == if requestId in results then Some(results[requestId]) else None
    {
      r := if requestId in results then Some(results[requestId]) else None;
    }

    /** Scans the receipts in whatever order the map yields them. */
    method GetReceiptByObject(objectName: string) returns (r: Option<Receipt>)
      ensures r.Some? ==> r.value.auditObject == objectName && exists key :: key in receipts && receipts[key] == r.value
      ensures r.None? ==> forall key :: key in receipts ==> receipts[key].auditObject != objectName
    {
      var remaining := receipts.Keys;
      while remaining != {}
        invariant remaining <= receipts.Keys
        invariant forall key :: key in receipts && key !in remaining ==> receipts[key].auditObject != objectName
        decreases |remaining|
      {
        var key :| key in remaining;
        if receipts[key].auditObject == objectName { return Some(receipts[key]); }
        remaining := remaining - {key};
      }
      return None;
    }
  }
}
