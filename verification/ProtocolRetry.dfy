/** Retries and crashes: when a repeated intent is recognised, and how a retry finishes what a
    crashed call began. */
module ProtocolRetry {
  import opened Prelude
  import opened Patterns
  import opened Contract
  import opened Catalog
  import opened Broker
  import opened Protocol
  import opened ProtocolInvariant
  import opened ProtocolSteps
  import opened ProtocolSafety
  import opened ProtocolProgress

  // ---------------------------------------------------------------- recognising a retry

  /** The text is how the service itself writes the instant it denotes. */
  predicate IsTimestamp(env: Env, s: string)
  {
    IsTime(env, s) && Timestamp(env, env.parseTime(s).value) == s
  }

  lemma StoredMatches(env: Env, o: Origin, request: Request, requester: string)
    requires Admitted(env, o, request) && EqualFold(o.requester, requester)
    ensures MatchesIntent(request, o.intent, requester) <==> IsTimestamp(env, o.intent.expiresAt)
  {
    hide EvidenceAccepted, SealRequest, EqualFold, ToLower;
    AdmittedServes(env, o, request);
    RequesterFolds(env, o, request);
    FoldTrans(request.requestedBy, o.requester, requester);
    FoldTrans(o.requester, request.requestedBy, requester);
  }

  /** A request matches one intent only: a retry that differs in any field, or whose requester differs
      in more than letter case, does not match. */
  lemma OneIntentMatches(request: Request, a: Intent, b: Intent, requester: string, other: string)
    requires MatchesIntent(request, a, requester) && MatchesIntent(request, b, other)
    ensures a == b.(schemaVersion := a.schemaVersion) && EqualFold(requester, other)
  {
    hide EqualFold;
    FoldTrans(request.requestedBy, requester, other);
  }

  ghost predicate AtStart(w: World, i: nat)
  {
    i < |w.calls| && w.calls[i].pc == ReadingRequest && w.calls[i].intent.requestId in w.facts.store.requests
  }

  /** The world in which only the position of call `i` differs. */
  function Moved(w: World, i: nat, pc: Pc): World
    requires i < |w.calls|
  {
    w.(calls := w.calls[i := w.calls[i].(pc := pc)])
  }

  lemma GoMoves(cfg: Config, w: World, i: nat, a: Action, pc: Pc)
    requires i < |w.calls| && Step(cfg, w.facts.store, w.calls[i], a) == Go(w.facts.store, w.calls[i], pc)
    ensures Apply(cfg, w, Act(i, a)) == Moved(w, i, pc)
  {
    hide Step;
  }

  /** A call for a request ID that is stored either resumes that request or is refused as a replay,
      according to whether every bound field matches; either way it writes nothing. */
  lemma StoredIdResumesOrReplays(cfg: Config, w: World, i: nat)
    requires Sound(cfg.env) && Reachable(cfg, w) && AtStart(w, i)
    ensures var c := w.calls[i]; var stored := w.facts.store.requests[c.intent.requestId];
            Apply(cfg, w, Act(i, Read(false))) ==
            Moved(w, i, if MatchesIntent(stored, c.intent, c.requester) then Resuming(stored) else Fail(Replay))
  {
    hide Reachable, Sound, HistorySound, CallSound, MatchesIntent, Admitted, RequestOk, EvidenceStored,
         BindingReserved, ApprovalReserved, DispatchSound, ResultSound, ReceiptSound, Apply;
    ReachableKeeps(cfg, w);
    var c := w.calls[i];
    assert RequestSound(cfg, w.facts, c.intent.requestId);
    GoMoves(cfg, w, i, Read(false), StepReadRequest(cfg.env, w.facts.store, c, false));
  }

  /** Repeating the intent of a stored request, in any letter case of the requester, is recognised
      exactly when its expiry is in the service's own form; otherwise it is refused as a replay. */
  lemma RepeatIsRecognised(cfg: Config, w: World, i: nat)
    requires Sound(cfg.env) && Reachable(cfg, w) && AtStart(w, i)
    requires w.calls[i].intent.requestId in w.facts.origins
    requires w.facts.origins[w.calls[i].intent.requestId].intent == w.calls[i].intent
    requires EqualFold(w.facts.origins[w.calls[i].intent.requestId].requester, w.calls[i].requester)
    ensures var c := w.calls[i]; var id := c.intent.requestId;
            Apply(cfg, w, Act(i, Read(false))) ==
            Moved(w, i, if IsTimestamp(cfg.env, c.intent.expiresAt)
                        then Resuming(w.facts.store.requests[id]) else Fail(Replay))
  {
    hide Reachable, Sound, HistorySound, CallSound, MatchesIntent, Admitted, RequestOk, EvidenceStored,
         BindingReserved, ApprovalReserved, DispatchSound, ResultSound, ReceiptSound, Apply, IsTimestamp, EqualFold;
    ReachableKeeps(cfg, w);
    var c := w.calls[i];
    assert RequestSound(cfg, w.facts, c.intent.requestId);
    StoredMatches(cfg.env, w.facts.origins[c.intent.requestId], w.facts.store.requests[c.intent.requestId], c.requester);
    StoredIdResumesOrReplays(cfg, w, i);
  }

  // ---------------------------------------------------------------- sealing never strands an outcome

  lemma RecoverSeals(target: RepositoryTarget, request: Request, token: string, observed: Observation)
    requires DecodeState(token, target, request).Some? ==> IsProviderReference(DecodeState(token, target, request).value.providerReference)
    ensures Sealable(Recover(target, request, token, observed))
  {
    hide DecodeState, Candidates, IsProviderReference, IsReasonCode;
    ReasonCodesAreValid();
    EmptyReference();
    if DecodeState(token, target, request).Some? {
      RefreshSeals(Listing(observed), DecodeState(token, target, request).value.baselineRunId, request);
    }
  }

  lemma DecodedReference(target: RepositoryTarget, request: Request, token: string)
    requires token == REJECTED_TOKEN || Readable(token, request)
    ensures DecodeState(token, target, request).Some? ==> IsProviderReference(DecodeState(token, target, request).value.providerReference)
  {
    RejectedDoesNotDecode(target, request);
    hide ReadToken, IsProviderReference;
  }

  lemma NewResultSeals(env: Env, request: Request, dispatch: Dispatch, outcome: Outcome, now: int)
    requires Sound(env) && RequestOk(env, request) && DispatchOk(env, dispatch) && outcome.final && Sealable(outcome)
    ensures NewResult(env, request, dispatch, outcome, now).Some?
    ensures var result := NewResult(env, request, dispatch, outcome, now).value;
            && result.requestId == request.requestId && result.requestDigest == request.digest && result.receiptId == dispatch.receiptId
            && result.status == (if outcome.accepted then ACCEPTED else REJECTED) && ResultOk(env, result)
            && result.reasonCode == outcome.reasonCode && result.providerReference == outcome.providerReference
            && result.recordedAt == Timestamp(env, now)
  {
    hide IsReasonCode, IsProviderReference, DispatchTree, RequestTree, ResultTree, Digest, IsUuid, ResultOk,
         ValidSignature, Sign;
    var draft := Result("", request.requestId, request.digest, dispatch.receiptId,
                        if outcome.accepted then ACCEPTED else REJECTED, outcome.reasonCode,
                        outcome.providerReference, Timestamp(env, now), "", NO_SIGNATURE);
    SealedResultVerifies(env, draft);
    SealedResultFields(env, draft);
  }

  lemma FinalReceiptSeals(env: Env, request: Request, result: Result)
    requires Sound(env) && RequestOk(env, request) && ResultOk(env, result)
    requires result.requestId == request.requestId && result.requestDigest == request.digest
    ensures FinalReceipt(env, request, result).Some? && ReceiptOk(env, FinalReceipt(env, request, result).value)
  {
    hide IsReasonCode, IsProviderReference, RequestTree, ResultTree, ReceiptTree, Digest, IsUuid, IsRepository,
         ReceiptOk, ValidSignature, Sign, AuditObject;
    SealedReceiptVerifies(env, Receipt(RECEIPT_SCHEMA, result.receiptId, request.requestId, request.digest, request.operation,
                             request.repository, result.status, result.reasonCode, result.providerReference,
                             result.recordedAt, AuditObject(env, result.recordedAt, result.receiptId), "", NO_SIGNATURE));
  }

  // ---------------------------------------------------------------- a retry finishes what a crash left

  /** The world after more labels. */
  ghost function Run(cfg: Config, w: World, labels: seq<Label>): World
    decreases |labels|
  {
    if labels == [] then w else Run(cfg, Apply(cfg, w, labels[0]), labels[1..])
  }

  lemma {:induction false} RunConcat(cfg: Config, w: World, a: seq<Label>, b: seq<Label>)
    ensures Run(cfg, w, a + b) == Run(cfg, Run(cfg, w, a), b)
    decreases |a|
  {
    hide Apply;
    if a == [] {
      assert a + b == b;
    } else {
      RunConcat(cfg, Apply(cfg, w, a[0]), a[1..], b);
      assert (a + b)[1..] == a[1..] + b;
    }
  }

  /** A run continues a run. */
  lemma {:induction false} RunExtends(cfg: Config, before: seq<Label>, after: seq<Label>)
    ensures Run(cfg, Exec(cfg, before), after) == Exec(cfg, before + after)
    decreases |after|
  {
    hide Apply;
    if after == [] {
      assert before + after == before;
    } else {
      var longer := before + [after[0]];
      assert longer[..|longer| - 1] == before;
      RunExtends(cfg, longer, after[1..]);
      assert longer + after[1..] == before + after;
    }
  }

  /** No other stored result uses this receipt ID. */
  ghost predicate OwnReceiptId(f: Facts, id: string, receiptId: string)
  {
    forall other :: other in f.store.results && other != id ==> f.store.results[other].receiptId != receiptId
  }

  /** An audit object names one receipt ID. */
  lemma AuditObjectNamesReceipt(env: Env, a: Receipt, b: Receipt)
    requires ValidReceipt(env, a) && ValidReceipt(env, b) && a.auditObject == b.auditObject
    ensures a.receiptId == b.receiptId
  {
    hide IsRepository, AllowedOperation, IsReasonCode, IsProviderReference;
    var x, y := a.auditObject, b.auditObject;
    assert |a.receiptId| == 36 && |b.receiptId| == 36;
    assert x[|x| - 41..][..36] == a.receiptId && y[|y| - 41..][..36] == b.receiptId;
  }

  /** A stored receipt with the key or the audit object of an outcome is that outcome's receipt. */
  lemma SameKeySameReceipt(cfg: Config, f: Facts, id: string, receipt: Receipt, key: string)
    requires Sound(cfg.env) && StoreSound(cfg, f) && Concludes(cfg, f, id, receipt)
    requires OwnReceiptId(f, id, receipt.receiptId) && key in f.store.receipts
    requires key == ReceiptKey(cfg, receipt) || f.store.receipts[key].auditObject == receipt.auditObject
    ensures f.store.receipts[key] == receipt && ReceiptOk(cfg.env, receipt)
  {
    hide Sound, FinalReceipt, ReceiptOk, ResultOk, RequestOk, ValidReceipt, AuditObject, Admitted, EvidenceStored,
         BindingReserved, ApprovalReserved, DispatchSound, Justified;
    var stored := f.store.receipts[key];
    assert ReceiptSound(cfg, f, key);
    Verified(cfg, f, id, receipt);
    Verified(cfg, f, stored.requestId, stored);
    FinalReceiptFields(cfg.env, f.store.requests[id], f.store.results[id]);
    FinalReceiptFields(cfg.env, f.store.requests[stored.requestId], f.store.results[stored.requestId]);
    if stored.auditObject == receipt.auditObject { AuditObjectNamesReceipt(cfg.env, stored, receipt); }
    assert stored.receiptId == receipt.receiptId;
  }

  lemma Verified(cfg: Config, f: Facts, id: string, receipt: Receipt)
    requires Sound(cfg.env) && StoreSound(cfg, f) && Concludes(cfg, f, id, receipt)
    ensures ReceiptOk(cfg.env, receipt) && ValidReceipt(cfg.env, receipt) && ReceiptDigestOk(cfg.env, receipt)
  {
    hide Sound, FinalReceipt, ResultOk, RequestOk, ValidReceipt, AuditObject, Admitted, EvidenceStored,
         BindingReserved, ApprovalReserved, DispatchSound, Justified, DigestHolds;
    assert RequestSound(cfg, f, id) && ResultSound(cfg, f, id);
    FinalReceiptSeals(cfg.env, f.store.requests[id], f.store.results[id]);
  }

  /** The labels of an undisturbed `PutReceipt`, and of the read after a conflict. */
  function Storing(i: nat, clock: int): seq<Label>
  {
    [Act(i, Create(Answered, clock)), Act(i, Read(false))]
  }

  /** The call returned this receipt, with an error exactly when it does not say "accepted". */
  predicate Answers(pc: Pc, receipt: Receipt)
  {
    pc == Returned(Answer(Some(receipt), if receipt.status == "accepted" then None else Some(Error.Unready)))
  }

  lemma DeliverAnswers(receipt: Receipt)
    ensures Answers(Deliver(receipt), receipt)
  {}

  /** Call `i` returned this receipt, which is stored; nothing else was written, dispatched or observed. */
  ghost predicate Concluded(cfg: Config, w: World, v: World, i: nat, receipt: Receipt)
  {
    && i < |w.calls| == |v.calls| && Answers(v.calls[i].pc, receipt)
    && Durable(cfg, v.facts, receipt)
    && v.facts == w.facts.(store := w.facts.store.(receipts := v.facts.store.receipts))
  }

  lemma RunTwo(cfg: Config, w: World, a: Label, b: Label)
    ensures Run(cfg, w, [a, b]) == Apply(cfg, Apply(cfg, w, a), b)
  {
    hide Apply;
    assert [a, b][1..] == [b] && [b][1..] == [];
    assert Run(cfg, Apply(cfg, w, a), [b]) == Run(cfg, Apply(cfg, Apply(cfg, w, a), b), []);
  }

  ghost predicate Ready(cfg: Config, w: World, i: nat, id: string, receipt: Receipt)
  {
    && i < |w.calls| && w.calls[i].pc.StoringReceipt? && w.calls[i].pc.receipt == receipt
    && w.calls[i].pc.request.requestId == id && w.calls[i].pc.request.digest == receipt.requestDigest
    && Concludes(cfg, w.facts, id, receipt) && OwnReceiptId(w.facts, id, receipt.receiptId)
  }

  /** With its own receipt ID, a call at `PutReceipt` returns its receipt whether or not it is the
      one that stores it. */
  lemma ReceiptConcludes(cfg: Config, w: World, i: nat, id: string, receipt: Receipt, clock: int)
    requires Sound(cfg.env) && StoreSound(cfg, w.facts) && Ready(cfg, w, i, id, receipt)
    ensures Concluded(cfg, w, Run(cfg, w, Storing(i, clock)), i, receipt)
  {
    hide Sound, StoreSound, FinalReceipt, Concludes, OwnReceiptId, ReceiptOk, ReceiptDigestOk, ValidReceipt;
    Verified(cfg, w.facts, id, receipt);
    RunTwo(cfg, w, Act(i, Create(Answered, clock)), Act(i, Read(false)));
    if ReceiptKey(cfg, receipt) in w.facts.store.receipts {
      SameKeySameReceipt(cfg, w.facts, id, receipt, ReceiptKey(cfg, receipt));
      ConflictConcludes(cfg, w, i, id, receipt, clock);
    } else {
      FreshConcludes(cfg, w, i, id, receipt, clock);
    }
  }

  lemma FreshConcludes(cfg: Config, w: World, i: nat, id: string, receipt: Receipt, clock: int)
    requires Ready(cfg, w, i, id, receipt) && ReceiptDigestOk(cfg.env, receipt)
    requires ReceiptKey(cfg, receipt) !in w.facts.store.receipts
    ensures Concluded(cfg, w, Apply(cfg, Apply(cfg, w, Act(i, Create(Answered, clock))), Act(i, Read(false))), i, receipt)
  {
    hide Concludes, OwnReceiptId, ReceiptOk, ReceiptDigestOk, ReceiptKey, FindReceipt;
    var c := w.calls[i];
    var key := ReceiptKey(cfg, receipt);
    var v := Apply(cfg, w, Act(i, Create(Answered, clock)));
    assert Step(cfg, w.facts.store, c, Create(Answered, clock)) == StepStoreReceipt(cfg, w.facts.store, c, Answered);
    assert v.calls[i].pc == Deliver(receipt) && v.facts.store == w.facts.store.(receipts := w.facts.store.receipts[key := receipt]);
    hide Deliver;
    GoMoves(cfg, v, i, Read(false), v.calls[i].pc);
  }

  lemma ConflictConcludes(cfg: Config, w: World, i: nat, id: string, receipt: Receipt, clock: int)
    requires Sound(cfg.env) && StoreSound(cfg, w.facts) && Ready(cfg, w, i, id, receipt)
    requires ReceiptOk(cfg.env, receipt) && ReceiptDigestOk(cfg.env, receipt)
    requires ReceiptKey(cfg, receipt) in w.facts.store.receipts && w.facts.store.receipts[ReceiptKey(cfg, receipt)] == receipt
    ensures Concluded(cfg, w, Apply(cfg, Apply(cfg, w, Act(i, Create(Answered, clock))), Act(i, Read(false))), i, receipt)
  {
    hide Sound, StoreSound, Concludes, OwnReceiptId, ReceiptOk, ReceiptDigestOk, ReceiptKey, Deliver, Apply,
         FindReceipt;
    ConflictWaits(cfg, w, i, receipt, clock);
    var waiting := ReadingStoredReceipt(w.calls[i].pc.request, receipt);
    var v := Moved(w, i, waiting);
    var found := FindReceipt(w.facts.store.receipts, receipt.auditObject);
    var key :| key in w.facts.store.receipts && w.facts.store.receipts[key] == found.value;
    SameKeySameReceipt(cfg, w.facts, id, receipt, key);
    GoMoves(cfg, v, i, Read(false), Deliver(receipt));
    MovedTwice(w, i, waiting, Deliver(receipt));
    DeliverAnswers(receipt);
  }

  lemma ConflictWaits(cfg: Config, w: World, i: nat, receipt: Receipt, clock: int)
    requires i < |w.calls| && w.calls[i].pc.StoringReceipt? && w.calls[i].pc.receipt == receipt && ReceiptDigestOk(cfg.env, receipt)
    requires ReceiptKey(cfg, receipt) in w.facts.store.receipts
    ensures Apply(cfg, w, Act(i, Create(Answered, clock))) == Moved(w, i, ReadingStoredReceipt(w.calls[i].pc.request, receipt))
  {
    hide ReceiptDigestOk, ReceiptKey, Apply;
    assert Put(w.facts.store.receipts, ReceiptKey(cfg, receipt), receipt, Answered) == w.facts.store.receipts;
    GoMoves(cfg, w, i, Create(Answered, clock), ReadingStoredReceipt(w.calls[i].pc.request, receipt));
  }

  lemma MovedTwice(w: World, i: nat, a: Pc, b: Pc)
    requires i < |w.calls|
    ensures Moved(Moved(w, i, a), i, b) == Moved(w, i, b)
  {
    assert w.calls[i := w.calls[i].(pc := a)][i := w.calls[i].(pc := b)] == w.calls[i := w.calls[i].(pc := b)];
  }

  /** The labels of an undisturbed `Create` up to the answer about the stored result. */
  function Resumption(i: nat): seq<Label>
  {
    [Act(i, Read(false)), Act(i, Read(false)), Act(i, Read(false))]
  }

  lemma RunThree(cfg: Config, w: World, a: Label, b: Label, c: Label)
    ensures Run(cfg, w, [a, b, c]) == Apply(cfg, Apply(cfg, Apply(cfg, w, a), b), c)
  {
    hide Apply, Run;
    assert [a, b, c] == [a, b] + [c];
    RunConcat(cfg, w, [a, b], [c]);
    RunTwo(cfg, w, a, b);
    RunOne(cfg, Run(cfg, w, [a, b]), c);
  }

  lemma RunOne(cfg: Config, w: World, a: Label)
    ensures Run(cfg, w, [a]) == Apply(cfg, w, a)
  {
    hide Apply;
    assert [a][1..] == [];
    assert Run(cfg, w, [a]) == Run(cfg, Apply(cfg, w, a), []);
  }

  /** A retry that matches a stored request and finds its dispatch. */
  ghost predicate Retries(w: World, i: nat, id: string)
  {
    && AtStart(w, i) && w.calls[i].intent.requestId == id && id in w.facts.store.dispatches
    && MatchesIntent(w.facts.store.requests[id], w.calls[i].intent, w.calls[i].requester)
  }

  /** Where three reads take such a retry: to the receipt of a stored result, or else to `Recover`. */
  lemma ResumptionLeads(cfg: Config, w: World, i: nat, id: string)
    requires Sound(cfg.env) && Reachable(cfg, w) && Retries(w, i, id)
    ensures var request, dispatch := w.facts.store.requests[id], w.facts.store.dispatches[id];
            Run(cfg, w, Resumption(i)) ==
            Moved(w, i, if id in w.facts.store.results then Finalize(cfg.env, request, dispatch, w.facts.store.results[id])
                        else Recovering(request, dispatch))
  {
    hide Sound, Reachable, HistorySound, CallSound, Apply, Run, Moved, MatchesIntent, DispatchOk, ResultOk, RequestOk,
         Finalize, Readable, Admitted, EvidenceStored, BindingReserved, ApprovalReserved, Justified, ReceiptSound;
    var s, request := w.facts.store, w.facts.store.requests[id];
    var dispatch := s.dispatches[id];
    ReachableKeeps(cfg, w);
    assert RequestSound(cfg, w.facts, id) && DispatchSound(cfg, w.facts, id);
    RunThree(cfg, w, Act(i, Read(false)), Act(i, Read(false)), Act(i, Read(false)));
    StoredIdResumesOrReplays(cfg, w, i);
    ResumeReads(cfg, w, i, request);
    if id in s.results { assert ResultSound(cfg, w.facts, id); }
    ResultReads(cfg, w, i, request, dispatch);
  }

  lemma ResumeReads(cfg: Config, w: World, i: nat, request: Request)
    requires i < |w.calls| && request.requestId in w.facts.store.dispatches
    requires w.facts.store.dispatches[request.requestId].requestDigest == request.digest
    requires DispatchOk(cfg.env, w.facts.store.dispatches[request.requestId])
    ensures Apply(cfg, Moved(w, i, Resuming(request)), Act(i, Read(false))) ==
            Moved(w, i, ReadingResult(request, w.facts.store.dispatches[request.requestId]))
  {
    hide Apply, DispatchOk;
    var v := Moved(w, i, Resuming(request));
    var next := ReadingResult(request, w.facts.store.dispatches[request.requestId]);
    GoMoves(cfg, v, i, Read(false), next);
    MovedTwice(w, i, Resuming(request), next);
  }

  lemma ResultReads(cfg: Config, w: World, i: nat, request: Request, dispatch: Dispatch)
    requires i < |w.calls|
    requires request.requestId in w.facts.store.results ==> ResultOk(cfg.env, w.facts.store.results[request.requestId])
    ensures Apply(cfg, Moved(w, i, ReadingResult(request, dispatch)), Act(i, Read(false))) ==
            Moved(w, i, if request.requestId in w.facts.store.results
                        then Finalize(cfg.env, request, dispatch, w.facts.store.results[request.requestId])
                        else Recovering(request, dispatch))
  {
    hide Apply, ResultOk, Finalize;
    var v := Moved(w, i, ReadingResult(request, dispatch));
    var next := StepReadResult(cfg.env, w.facts.store, v.calls[i], false);
    GoMoves(cfg, v, i, Read(false), next);
    MovedTwice(w, i, ReadingResult(request, dispatch), next);
  }

  /** A stored result always finalizes to its receipt. */
  lemma OutcomeReady(cfg: Config, f: Facts, id: string)
    requires Sound(cfg.env) && StoreSound(cfg, f) && id in f.store.results
    ensures id in f.store.requests && id in f.store.dispatches
    ensures var request, result := f.store.requests[id], f.store.results[id];
            var receipt := FinalReceipt(cfg.env, request, result);
            && receipt.Some? && Concludes(cfg, f, id, receipt.value) && request.requestId == id
            && receipt.value.requestDigest == request.digest && receipt.value.receiptId == result.receiptId
            && Finalize(cfg.env, request, f.store.dispatches[id], result) == StoringReceipt(request, receipt.value)
  {
    hide Sound, DispatchOk, ResultOk, RequestOk, Readable, FinalReceipt, Admitted, EvidenceStored, BindingReserved,
         ApprovalReserved, Justified, ReceiptSound;
    assert RequestSound(cfg, f, id) && ResultSound(cfg, f, id);
    FinalReceiptSeals(cfg.env, f.store.requests[id], f.store.results[id]);
    FinalReceiptFields(cfg.env, f.store.requests[id], f.store.results[id]);
  }

  /** Once a result is stored, an undisturbed matching retry returns its receipt without any call of
      the dispatcher, provided that no other result has its receipt ID. */
  lemma ResultConverges(cfg: Config, w: World, i: nat, id: string, clock: int)
    requires Sound(cfg.env) && Reachable(cfg, w) && Retries(w, i, id) && id in w.facts.store.results
    requires OwnReceiptId(w.facts, id, w.facts.store.results[id].receiptId)
    ensures var receipt := FinalReceipt(cfg.env, w.facts.store.requests[id], w.facts.store.results[id]);
            receipt.Some? && Concluded(cfg, w, Run(cfg, w, Resumption(i) + Storing(i, clock)), i, receipt.value)
  {
    hide Sound, Reachable, StoreSound, HistorySound, CallSound, Apply, Run, MatchesIntent, FinalReceipt, Finalize,
         Storing, Resumption, OwnReceiptId, ReceiptKey, Concludes;
    ReachableKeeps(cfg, w);
    OutcomeReady(cfg, w.facts, id);
    var request := w.facts.store.requests[id];
    var receipt := FinalReceipt(cfg.env, request, w.facts.store.results[id]).value;
    RunConcat(cfg, w, Resumption(i), Storing(i, clock));
    ResumptionLeads(cfg, w, i, id);
    var u := Moved(w, i, StoringReceipt(request, receipt));
    ReceiptConcludes(cfg, u, i, id, receipt, clock);
  }

  /** The labels of an undisturbed recovery up to the stored result. */
  function Recovery(i: nat, observed: Observation, clock: int): seq<Label>
  {
    [Act(i, Observe(observed, clock)), Act(i, Create(Answered, clock))]
  }

  lemma RecoveryStores(cfg: Config, w: World, i: nat, request: Request, dispatch: Dispatch, observed: Observation, clock: int, result: Result)
    requires i < |w.calls| && w.calls[i].pc == Recovering(request, dispatch)
    requires var outcome := Recover(w.calls[i].target, request, dispatch.recoveryToken, observed);
             outcome.final && NewResult(cfg.env, request, dispatch, outcome, clock) == Some(result)
    requires ResultDigestOk(cfg.env, result) && result.requestId !in w.facts.store.results
    ensures var v := Run(cfg, w, Recovery(i, observed, clock));
            && |v.calls| == |w.calls| && v.calls[i] == w.calls[i].(pc := Finalize(cfg.env, request, dispatch, result))
            && v.facts == w.facts.(store := w.facts.store.(results := w.facts.store.results[result.requestId := result]),
                                   sightings := w.facts.sightings + [Sighting(w.calls[i].target, request, dispatch.recoveryToken, observed)])
  {
    hide NewResult, Recover, ResultDigestOk, Finalize;
    RunTwo(cfg, w, Act(i, Observe(observed, clock)), Act(i, Create(Answered, clock)));
    var c := w.calls[i];
    var u := Apply(cfg, w, Act(i, Observe(observed, clock)));
    assert Step(cfg, w.facts.store, c, Observe(observed, clock)) == StepRecover(cfg.env, w.facts.store, c, observed, clock);
    assert u.calls[i] == c.(pc := StoringResult(request, dispatch, result)) && u.facts.store == w.facts.store;
    assert Step(cfg, u.facts.store, u.calls[i], Create(Answered, clock)) == StepStoreResult(cfg.env, u.facts.store, u.calls[i], Answered);
  }

  lemma RunReachable(cfg: Config, w: World, labels: seq<Label>)
    requires Reachable(cfg, w)
    ensures Reachable(cfg, Run(cfg, w, labels))
  {
    hide Exec, Run;
    var before :| Exec(cfg, before) == w;
    RunExtends(cfg, before, labels);
    assert Exec(cfg, before + labels) == Run(cfg, w, labels);
  }

  ghost predicate SealsAs(cfg: Config, request: Request, dispatch: Dispatch, outcome: Outcome, clock: int)
  {
    var result := NewResult(cfg.env, request, dispatch, outcome, clock);
    && result.Some? && result.value.requestId == request.requestId && result.value.receiptId == dispatch.receiptId
    && result.value.status == (if outcome.accepted then ACCEPTED else REJECTED)
    && ResultDigestOk(cfg.env, result.value)
  }

  /** A final recovery always seals. */
  lemma RecoveredResult(cfg: Config, f: Facts, id: string, target: RepositoryTarget, observed: Observation, clock: int)
    requires Sound(cfg.env) && StoreSound(cfg, f) && id in f.store.dispatches && id in f.store.requests
    requires Recover(target, f.store.requests[id], f.store.dispatches[id].recoveryToken, observed).final
    ensures f.store.requests[id].requestId == id
    ensures SealsAs(cfg, f.store.requests[id], f.store.dispatches[id],
                    Recover(target, f.store.requests[id], f.store.dispatches[id].recoveryToken, observed), clock)
  {
    hide Sound, ResultSound, Readable, Admitted, EvidenceStored, BindingReserved, ApprovalReserved, ReceiptSound,
         Recover, NewResult, Sealable, ResultOk, RequestOk, DispatchOk, ResultDigestOk, DecodeState,
         IsProviderReference;
    assert RequestSound(cfg, f, id) && DispatchSound(cfg, f, id);
    var request, dispatch := f.store.requests[id], f.store.dispatches[id];
    DecodedReference(target, request, dispatch.recoveryToken);
    RecoverSeals(target, request, dispatch.recoveryToken, observed);
    var outcome := Recover(target, request, dispatch.recoveryToken, observed);
    NewResultSeals(cfg.env, request, dispatch, outcome, clock);
    ResultOkDigest(cfg.env, NewResult(cfg.env, request, dispatch, outcome, clock).value);
  }

  lemma ResultOkDigest(env: Env, r: Result)
    requires ResultOk(env, r)
    ensures ResultDigestOk(env, r)
  {
    hide ValidResult, DigestHolds;
  }

  /** The recovery stored this result and its receipt and returned it, without any dispatch. */
  ghost predicate RecoveryConcluded(cfg: Config, w: World, v: World, i: nat, id: string, result: Result, receipt: Receipt)
    requires id in w.facts.store.requests
  {
    && i < |v.calls| && Answers(v.calls[i].pc, receipt) && Durable(cfg, v.facts, receipt)
    && v.facts.store.results == w.facts.store.results[id := result]
    && FinalReceipt(cfg.env, w.facts.store.requests[id], result) == Some(receipt)
    && v.facts.history == w.facts.history
  }

  /** Once a dispatch is stored and `Recover` gives a final outcome, one undisturbed matching retry
      stores the result and the receipt and returns it, provided that no other result has its receipt ID. */
  lemma RecoveryConverges(cfg: Config, w: World, i: nat, id: string, observed: Observation, clock: int)
    requires Sound(cfg.env) && Reachable(cfg, w) && Retries(w, i, id) && id !in w.facts.store.results
    requires OwnReceiptId(w.facts, id, w.facts.store.dispatches[id].receiptId)
    requires Recover(w.calls[i].target, w.facts.store.requests[id], w.facts.store.dispatches[id].recoveryToken, observed).final
    ensures var request, dispatch := w.facts.store.requests[id], w.facts.store.dispatches[id];
            var result := NewResult(cfg.env, request, dispatch, Recover(w.calls[i].target, request, dispatch.recoveryToken, observed), clock);
            && result.Some? && FinalReceipt(cfg.env, request, result.value).Some?
            && RecoveryConcluded(cfg, w, Run(cfg, w, Resumption(i) + Recovery(i, observed, clock) + Storing(i, clock)), i, id,
                                 result.value, FinalReceipt(cfg.env, request, result.value).value)
  {
    hide Sound, Reachable, StoreSound, HistorySound, CallSound, Apply, Run, MatchesIntent, FinalReceipt, Finalize,
         Storing, Resumption, Recovery, ReceiptKey, Concludes, NewResult, Recover, ResultDigestOk;
    var request, dispatch := w.facts.store.requests[id], w.facts.store.dispatches[id];
    ReachableKeeps(cfg, w);
    RecoveredResult(cfg, w.facts, id, w.calls[i].target, observed, clock);
    var result := NewResult(cfg.env, request, dispatch, Recover(w.calls[i].target, request, dispatch.recoveryToken, observed), clock).value;
    ResumptionLeads(cfg, w, i, id);
    RunConcat(cfg, w, Resumption(i), Recovery(i, observed, clock));
    RecoveryStores(cfg, Moved(w, i, Recovering(request, dispatch)), i, request, dispatch, observed, clock, result);
    var u := Run(cfg, w, Resumption(i) + Recovery(i, observed, clock));
    RunReachable(cfg, w, Resumption(i) + Recovery(i, observed, clock));
    ReachableKeeps(cfg, u);
    OutcomeReady(cfg, u.facts, id);
    RunConcat(cfg, w, Resumption(i) + Recovery(i, observed, clock), Storing(i, clock));
    ReceiptConcludes(cfg, u, i, id, FinalReceipt(cfg.env, request, result).value, clock);
  }

  // ---------------------------------------------------------------- a refused preparation is receipted

  lemma RejectedTokenIsToken()
    ensures IsRecoveryToken(REJECTED_TOKEN)
  {}

  lemma RefusedDispatchSeals(env: Env, request: Request, receiptId: string, clock: int)
    requires Sound(env) && RequestOk(env, request) && IsUuid(receiptId)
    ensures var dispatch := NewDispatch(env, request, receiptId, REJECTED_TOKEN, clock);
            && dispatch.Some? && DispatchOk(env, dispatch.value) && DispatchDigestOk(env, dispatch.value)
            && dispatch.value.requestId == request.requestId && dispatch.value.receiptId == receiptId
  {
    hide IsUuid, RequestTree, DispatchTree, Digest, ValidSignature, Sign, IsRecoveryToken;
    RejectedTokenIsToken();
    var draft := Dispatch("", request.requestId, request.digest, receiptId, REJECTED_TOKEN, Timestamp(env, clock), "", NO_SIGNATURE);
    SealedDispatchVerifies(env, draft);
    SealedDispatchFields(env, draft);
  }

  /** The labels of an undisturbed `prepare` whose preparation is refused, up to the stored result. */
  function Refusal(i: nat, observed: Observation, receiptId: string, clock: int): seq<Label>
  {
    [Act(i, Provide(observed, Some(receiptId), clock)), Act(i, Create(Answered, clock)), Act(i, Create(Answered, clock))]
  }

  lemma RefusalPrepares(cfg: Config, w: World, i: nat, request: Request, observed: Observation, receiptId: string, clock: int, dispatch: Dispatch)
    requires i < |w.calls| && w.calls[i].pc == Preparing(request)
    requires NewDispatch(cfg.env, request, receiptId, Prepare(w.calls[i].target, request, observed).0, clock) == Some(dispatch)
    ensures var u := Apply(cfg, w, Act(i, Provide(observed, Some(receiptId), clock)));
            && |u.calls| == |w.calls| && u.facts.store == w.facts.store && u.facts.history == w.facts.history
            && u.calls[i].pc == StoringDispatch(request, dispatch, Prepare(w.calls[i].target, request, observed).1)
  {
    hide NewDispatch, Prepare;
    assert Step(cfg, w.facts.store, w.calls[i], Provide(observed, Some(receiptId), clock))
        == StepPrepare(cfg.env, w.facts.store, w.calls[i], Provide(observed, Some(receiptId), clock));
  }

  lemma RefusalDispatches(cfg: Config, u: World, i: nat, request: Request, dispatch: Dispatch, prepared: Outcome, clock: int, result: Result)
    requires i < |u.calls| && u.calls[i].pc == StoringDispatch(request, dispatch, prepared) && prepared.final
    requires DispatchDigestOk(cfg.env, dispatch) && dispatch.requestId !in u.facts.store.dispatches
    requires NewResult(cfg.env, request, dispatch, prepared, clock) == Some(result)
    ensures var v := Apply(cfg, u, Act(i, Create(Answered, clock)));
            && |v.calls| == |u.calls| && v.calls[i].pc == StoringResult(request, dispatch, result) && v.facts.history == u.facts.history
            && v.facts.store == u.facts.store.(dispatches := u.facts.store.dispatches[dispatch.requestId := dispatch])
  {
    hide NewResult, DispatchDigestOk;
    assert Step(cfg, u.facts.store, u.calls[i], Create(Answered, clock)) == StepStoreDispatch(cfg.env, u.facts.store, u.calls[i], Answered, clock);
  }

  lemma ResultLands(cfg: Config, u: World, i: nat, request: Request, dispatch: Dispatch, result: Result, clock: int)
    requires i < |u.calls| && u.calls[i].pc == StoringResult(request, dispatch, result)
    requires ResultDigestOk(cfg.env, result) && result.requestId !in u.facts.store.results
    ensures var v := Apply(cfg, u, Act(i, Create(Answered, clock)));
            && |v.calls| == |u.calls| && v.calls[i].pc == Finalize(cfg.env, request, dispatch, result) && v.facts.history == u.facts.history
            && v.facts.store == u.facts.store.(results := u.facts.store.results[result.requestId := result])
  {
    hide Finalize, ResultDigestOk;
    assert Step(cfg, u.facts.store, u.calls[i], Create(Answered, clock)) == StepStoreResult(cfg.env, u.facts.store, u.calls[i], Answered);
  }

  ghost predicate Refuses(w: World, i: nat, request: Request, observed: Observation)
  {
    && i < |w.calls| && w.calls[i].pc == Preparing(request) && request.requestId !in w.facts.store.dispatches
    && Prepare(w.calls[i].target, request, observed).1.final
  }

  /** What is known of a call that is about to prepare. */
  lemma RefusingKnows(cfg: Config, w: World, i: nat, request: Request, observed: Observation)
    requires StoreSound(cfg, w.facts) && Refuses(w, i, request, observed) && CallSound(cfg, w.facts, i, w.calls[i])
    ensures Settled(w.facts, request) && RequestOk(cfg.env, request) && request.requestId !in w.facts.store.results
    ensures TargetFits(w.calls[i].target, request)
  {
    hide RequestOk, Admitted, EvidenceStored, BindingReserved, ApprovalReserved, ReceiptSound, DispatchOk, ResultOk,
         Usable, Justified, Prepare;
    assert RequestSound(cfg, w.facts, request.requestId);
    assert request.requestId in w.facts.store.results ==> ResultSound(cfg, w.facts, request.requestId);
    AuthorizedFits(w.calls[i], request);
  }

  lemma RefusedOutcome(target: RepositoryTarget, request: Request, observed: Observation)
    requires TargetFits(target, request) && Prepare(target, request, observed).1.final
    ensures Prepare(target, request, observed).0 == REJECTED_TOKEN && !Prepare(target, request, observed).1.accepted
    ensures Sealable(Prepare(target, request, observed).1)
  {
    hide EncodeState, PrepareState, Sealable;
    RejectedTokenIsToken();
    FinalOutcomesSeal(target, request, observed, target, NoReply, observed);
  }

  /** A precondition that fails ends in a stored, signed rejection: undisturbed, `prepare` then stores the
      dispatch, a rejected result and its receipt and returns it, without any dispatch. */
  lemma RefusalConverges(cfg: Config, w: World, i: nat, request: Request, observed: Observation, receiptId: string, clock: int)
    requires Sound(cfg.env) && Reachable(cfg, w) && Refuses(w, i, request, observed) && IsUuid(receiptId)
    requires OwnReceiptId(w.facts, request.requestId, receiptId)
    ensures var v := Run(cfg, w, Refusal(i, observed, receiptId, clock) + Storing(i, clock));
            && i < |v.calls| && v.facts.history == w.facts.history && request.requestId in v.facts.store.results
            && v.facts.store.results[request.requestId].status == REJECTED
            && v.facts.store.results[request.requestId].reasonCode == Prepare(w.calls[i].target, request, observed).1.reasonCode
            && exists receipt :: FinalReceipt(cfg.env, request, v.facts.store.results[request.requestId]) == Some(receipt)
                                 && v.calls[i].pc == Returned(Answer(Some(receipt), Some(Error.Unready))) && Durable(cfg, v.facts, receipt)
  {
    hide Sound, Reachable, StoreSound, HistorySound, CallSound, Apply, Run, FinalReceipt, Finalize, Storing,
         ReceiptKey, Concludes, NewResult, NewDispatch, Prepare, ResultDigestOk, ResultOk, DispatchOk,
         DispatchDigestOk, RequestOk, IsUuid, TargetFits, Sealable, Deliver;
    ReachableKeeps(cfg, w);
    RefusingKnows(cfg, w, i, request, observed);
    RefusedOutcome(w.calls[i].target, request, observed);
    var prepared := Prepare(w.calls[i].target, request, observed).1;
    RefusedDispatchSeals(cfg.env, request, receiptId, clock);
    var dispatch := NewDispatch(cfg.env, request, receiptId, REJECTED_TOKEN, clock).value;
    NewResultSeals(cfg.env, request, dispatch, prepared, clock);
    var result := NewResult(cfg.env, request, dispatch, prepared, clock).value;
    ResultOkDigest(cfg.env, result);
    RefusalPrepares(cfg, w, i, request, observed, receiptId, clock, dispatch);
    var u1 := Apply(cfg, w, Act(i, Provide(observed, Some(receiptId), clock)));
    RefusalDispatches(cfg, u1, i, request, dispatch, prepared, clock, result);
    var u2 := Apply(cfg, u1, Act(i, Create(Answered, clock)));
    ResultLands(cfg, u2, i, request, dispatch, result, clock);
    RunThree(cfg, w, Act(i, Provide(observed, Some(receiptId), clock)), Act(i, Create(Answered, clock)), Act(i, Create(Answered, clock)));
    var u := Run(cfg, w, Refusal(i, observed, receiptId, clock));
    RunReachable(cfg, w, Refusal(i, observed, receiptId, clock));
    RunConcat(cfg, w, Refusal(i, observed, receiptId, clock), Storing(i, clock));
    RefusalEnds(cfg, u, i, request, dispatch, result, clock);
    FinalReceiptFields(cfg.env, request, result);
    var receipt := FinalReceipt(cfg.env, request, result).value;
    assert receipt.status == REJECTED && Answers(Run(cfg, u, Storing(i, clock)).calls[i].pc, receipt);
  }

  lemma RefusalEnds(cfg: Config, u: World, i: nat, request: Request, dispatch: Dispatch, result: Result, clock: int)
    requires Sound(cfg.env) && Reachable(cfg, u) && i < |u.calls|
    requires u.calls[i].pc == Finalize(cfg.env, request, dispatch, result)
    requires request.requestId in u.facts.store.requests && u.facts.store.requests[request.requestId] == request
    requires request.requestId in u.facts.store.dispatches && u.facts.store.dispatches[request.requestId] == dispatch
    requires request.requestId in u.facts.store.results && u.facts.store.results[request.requestId] == result
    requires OwnReceiptId(u.facts, request.requestId, result.receiptId)
    ensures var v := Run(cfg, u, Storing(i, clock)); var receipt := FinalReceipt(cfg.env, request, result);
            receipt.Some? && Concluded(cfg, u, v, i, receipt.value)
  {
    hide Sound, Reachable, StoreSound, HistorySound, CallSound, Run, FinalReceipt, Finalize, Storing, ReceiptKey,
         Concludes, OwnReceiptId, Concluded;
    ReachableKeeps(cfg, u);
    OutcomeReady(cfg, u.facts, request.requestId);
    ReceiptConcludes(cfg, u, i, request.requestId, FinalReceipt(cfg.env, request, result).value, clock);
  }
}
