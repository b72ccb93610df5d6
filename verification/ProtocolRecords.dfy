/** What each record says of the step that made it, which records a call acts on, and what a failure is answered
    with. These hold for every store, also for one that somebody else has written to. */
module ProtocolRecords {
  import opened Prelude
  import opened Patterns
  import opened Contract
  import opened Catalog
  import opened Broker
  import opened Protocol
  import opened ProtocolAnswers
  import opened RecordRules

  // ---------------------------------------------------------------- what a record says

  lemma SealedSays(env: Env, o: Origin)
    requires IsTime(env, o.intent.expiresAt) && SealedAt(env, o).Reserving?
    ensures var r, intent := SealedAt(env, o).request, o.intent;
            && r.schemaVersion == "estate.operation-request/v1" && r.requestId == intent.requestId && r.operation == intent.operation
            && r.repository == intent.repository && r.workflowId == intent.workflowId && r.workflowRunId == intent.workflowRunId
            && r.protectedMainSha == intent.protectedMainSha && r.planDigest == intent.planDigest
            && r.evidenceDigest == intent.evidenceDigest && r.reason == intent.reason && r.requestedBy == ToLower(o.requester)
            && r.issuedAt == env.formatSecond(o.now / 1_000_000_000)
            && r.expiresAt == env.formatSecond(env.parseTime(intent.expiresAt).value / 1_000_000_000) && r.nonce == o.nonce
  {
    hide ValidRequest, Digest, Sign, RequestTree;
  }

  lemma SecondsAreWhole(clock: int)
    ensures Seconds(clock) / 1_000_000_000 == clock / 1_000_000_000
  {}

  lemma ReservingSays(cfg: Config, s: Store, c: Call, a: Action)
    requires a.Admit? && StepAdmit(cfg.env, s, c, a).Reserving?
    ensures c.intent.evidenceDigest in s.evidence && a.nonce.Some? && IsTime(cfg.env, c.intent.expiresAt)
    ensures StepAdmit(cfg.env, s, c, a) == SealedAt(cfg.env, OriginAt(s, c, a, a.nonce.value))
  {
    AdmitBranches(cfg, s, c, a);
    hide StepAdmit, SealedAt, Acceptable;
  }

  /** The new request says what its intent says, who asked and when. */
  lemma RequestSays(cfg: Config, s: Store, c: Call, a: Action)
    requires c.pc.ReadingEvidence? && a.Admit? && Step(cfg, s, c, a).call.pc.Reserving?
    ensures var r, intent := Step(cfg, s, c, a).call.pc.request, c.intent;
            && r.schemaVersion == "estate.operation-request/v1" && r.requestId == intent.requestId && r.operation == intent.operation
            && r.repository == intent.repository && r.workflowId == intent.workflowId && r.workflowRunId == intent.workflowRunId
            && r.protectedMainSha == intent.protectedMainSha && r.planDigest == intent.planDigest
            && r.evidenceDigest == intent.evidenceDigest && r.reason == intent.reason && r.requestedBy == ToLower(c.requester)
            && r.issuedAt == cfg.env.formatSecond(a.clock / 1_000_000_000)
            && cfg.env.parseTime(intent.expiresAt).Some?
            && r.expiresAt == cfg.env.formatSecond(cfg.env.parseTime(intent.expiresAt).value / 1_000_000_000)
            && Some(r.nonce) == a.nonce
  {
    assert Step(cfg, s, c, a).call.pc == StepAdmit(cfg.env, s, c, a) by { hide StepAdmit; }
    hide Step, StepAdmit, SealedAt, Seconds;
    ReservingSays(cfg, s, c, a);
    SealedSays(cfg.env, OriginAt(s, c, a, a.nonce.value));
    SecondsAreWhole(a.clock);
  }

  /** The dispatch record says which request it is for, which receipt it will have, what was observed and when. */
  lemma DispatchSays(cfg: Config, s: Store, c: Call, a: Action)
    requires c.pc.Preparing? && a.Provide? && Step(cfg, s, c, a).call.pc.StoringDispatch?
    ensures var pc := Step(cfg, s, c, a).call.pc; var d, request := pc.dispatch, c.pc.request;
            && pc.request == request && pc.prepared == Prepare(c.target, request, a.observed).1
            && d.schemaVersion == "estate.operation-dispatch/v1" && d.requestId == request.requestId && d.requestDigest == request.digest
            && Some(d.receiptId) == a.receiptId && d.recoveryToken == Prepare(c.target, request, a.observed).0
            && d.preparedAt == cfg.env.formatSecond(a.clock / 1_000_000_000)
  {
    hide Prepare, ValidDispatch, Digest, Sign, DispatchTree;
  }

  /** What the provider was found to say at the step of a call that is about to store a result, and when. */
  function OutcomeAt(c: Call, a: Action): Option<(Outcome, int)>
  {
    match (c.pc, a)
    case (StoringDispatch(_, _, prepared), Create(_, clock)) => Some((prepared, clock))
    case (Dispatching(request, dispatch), Mutate(reply, clock)) =>
      Some((DispatchOutcome(c.target, request, dispatch.recoveryToken, reply), clock))
    case (Recovering(request, dispatch), Observe(observed, clock)) =>
      Some((Recover(c.target, request, dispatch.recoveryToken, observed), clock))
    case _ => None
  }

  lemma CompleteSays(env: Env, request: Request, dispatch: Dispatch, outcome: Outcome, now: int)
    requires Complete(env, request, dispatch, outcome, now).StoringResult?
    ensures var pc := Complete(env, request, dispatch, outcome, now); var r := pc.result;
            && pc.request == request && pc.dispatch == dispatch && outcome.final
            && r.schemaVersion == "estate.operation-dispatch-result/v1" && r.requestId == request.requestId
            && r.requestDigest == request.digest && r.receiptId == dispatch.receiptId
            && r.status == (if outcome.accepted then "accepted" else "rejected")
            && r.reasonCode == outcome.reasonCode && r.providerReference == outcome.providerReference
            && r.recordedAt == env.formatSecond(now / 1_000_000_000)
  {
    hide ValidResult, Digest, Sign, ResultTree;
  }

  /** The result says what the provider was found to say, of which dispatch and when; it is of a final outcome. */
  lemma ResultSays(cfg: Config, s: Store, c: Call, a: Action)
    requires Step(cfg, s, c, a).call.pc.StoringResult? && Step(cfg, s, c, a).call.pc != c.pc
    ensures OutcomeAt(c, a).Some?
    ensures var pc := Step(cfg, s, c, a).call.pc; var r := pc.result; var (outcome, clock) := OutcomeAt(c, a).value;
            && pc.request == c.pc.request && pc.dispatch == c.pc.dispatch && outcome.final
            && r.schemaVersion == "estate.operation-dispatch-result/v1" && r.requestId == pc.request.requestId
            && r.requestDigest == pc.request.digest && r.receiptId == pc.dispatch.receiptId
            && r.status == (if outcome.accepted then "accepted" else "rejected")
            && r.reasonCode == outcome.reasonCode && r.providerReference == outcome.providerReference
            && r.recordedAt == cfg.env.formatSecond(clock / 1_000_000_000)
  {
    ResultComes(cfg, s, c, a);
    hide Step, Complete, OutcomeAt;
    var (outcome, clock) := OutcomeAt(c, a).value;
    CompleteSays(cfg.env, c.pc.request, c.pc.dispatch, outcome, clock);
  }

  lemma ResultComes(cfg: Config, s: Store, c: Call, a: Action)
    requires Step(cfg, s, c, a).call.pc.StoringResult? && Step(cfg, s, c, a).call.pc != c.pc
    ensures (c.pc.StoringDispatch? || c.pc.Dispatching? || c.pc.Recovering?) && OutcomeAt(c, a).Some?
    ensures Step(cfg, s, c, a).call.pc == Complete(cfg.env, c.pc.request, c.pc.dispatch, OutcomeAt(c, a).value.0, OutcomeAt(c, a).value.1)
  {
    hide Prepare, DispatchOutcome, Recover, Complete, DecodeState, DispatchDigestOk, DispatchOk, ResultOk, ResultDigestOk, RequestOk, RequestDigestOk,
         EvidenceAccepted, InWindow, SealRequest, Draft, MatchesIntent, NewDispatch, FinalReceipt, ValidReservation, BindingDigest, Payload,
         ReceiptOk, ReceiptDigestOk, ReceiptKey, FindReceipt;
  }

  /** The receipt says what the result says, of which request, and where it is kept. */
  lemma ReceiptSays(env: Env, request: Request, dispatch: Dispatch, result: Result)
    requires Finalize(env, request, dispatch, result).StoringReceipt?
    ensures var pc := Finalize(env, request, dispatch, result); var r := pc.receipt;
            && pc.request == request && r.schemaVersion == "estate.operation-receipt/v1" && r.receiptId == result.receiptId == dispatch.receiptId
            && r.requestId == request.requestId == result.requestId && r.requestDigest == request.digest == result.requestDigest
            && r.operation == request.operation && r.repository == request.repository && r.status == result.status
            && r.reasonCode == result.reasonCode && r.providerReference == result.providerReference && r.recordedAt == result.recordedAt
            && env.parseTime(r.recordedAt).Some?
            && r.auditObject == "audit/operations/" + env.day(env.parseTime(r.recordedAt).value) + "/" + r.receiptId + ".json"
  {
    hide Digest, Sign, ReceiptTree, IsUuid, IsDigest, IsRepository, AllowedOperation, IsReasonCode, IsProviderReference;
  }

  // ---------------------------------------------------------------- which records a call acts on

  /** A call takes up only a request that keeps the rules, is signed by the service's own key and says what the
      call's intent says. */
  lemma ResumesOnlySigned(cfg: Config, s: Store, c: Call, fault: bool)
    requires Sound(cfg.env) && (c.pc.ReadingRequest? || c.pc.ReadingWinner?) && Step(cfg, s, c, Read(fault)).call.pc.Resuming?
    ensures var r, intent := Step(cfg, s, c, Read(fault)).call.pc.request, c.intent;
            && !fault && intent.requestId in s.requests && r == s.requests[intent.requestId] && RequestRules(cfg.env, r) && RequestSigned(cfg.env, r)
            && r.requestId == intent.requestId && r.operation == intent.operation && r.repository == intent.repository
            && r.workflowId == intent.workflowId && r.workflowRunId == intent.workflowRunId
            && r.protectedMainSha == intent.protectedMainSha && r.planDigest == intent.planDigest
            && r.evidenceDigest == intent.evidenceDigest && r.reason == intent.reason && EqualFold(r.requestedBy, c.requester)
            && r.expiresAt == intent.expiresAt
  {
    hide RequestOk, RequestRules, RequestTree, Signed, Sound, EqualFold;
    RequestRulesExact(cfg.env, s.requests[c.intent.requestId]);
  }

  /** It goes on from a dispatch record only when that is signed and is of its request. */
  lemma InspectsOnlySigned(cfg: Config, s: Store, c: Call, fault: bool)
    requires Sound(cfg.env) && c.pc.Resuming? && Step(cfg, s, c, Read(fault)).call.pc.ReadingResult?
    ensures var pc := Step(cfg, s, c, Read(fault)).call.pc; var d := pc.dispatch;
            && !fault && pc.request == c.pc.request && pc.request.requestId in s.dispatches && d == s.dispatches[pc.request.requestId]
            && DispatchRules(cfg.env, d) && DispatchSigned(cfg.env, d) && d.requestDigest == pc.request.digest
  {
    hide DispatchOk, DispatchRules, DispatchTree, Signed, Sound;
    DispatchRulesExact(cfg.env, s.dispatches[c.pc.request.requestId]);
  }

  /** It makes a receipt from a stored result only when that is signed and is of its request and dispatch. */
  lemma FinalizesOnlySigned(cfg: Config, s: Store, c: Call, fault: bool)
    requires Sound(cfg.env) && (c.pc.ReadingResult? || c.pc.ReadingStoredResult?) && Step(cfg, s, c, Read(fault)).call.pc.StoringReceipt?
    ensures var pc := Step(cfg, s, c, Read(fault)).call.pc; var id := c.pc.request.requestId;
            && !fault && pc.request == c.pc.request && id in s.results && ResultRules(cfg.env, s.results[id]) && ResultSigned(cfg.env, s.results[id])
            && s.results[id].requestId == id && s.results[id].requestDigest == c.pc.request.digest
            && s.results[id].receiptId == c.pc.dispatch.receiptId
            && pc == Finalize(cfg.env, c.pc.request, c.pc.dispatch, s.results[id])
  {
    hide ResultOk, ResultRules, ResultTree, Signed, Sound, FinalReceipt;
    ResultRulesExact(cfg.env, s.results[c.pc.request.requestId]);
  }

  /** It hands out a stored receipt only when that is signed, is of its request and has the identity of its own. */
  lemma DeliversOnlySigned(cfg: Config, s: Store, c: Call, fault: bool)
    requires Sound(cfg.env) && c.pc.ReadingStoredReceipt?
    requires Step(cfg, s, c, Read(fault)).call.pc.Returned? && Step(cfg, s, c, Read(fault)).call.pc.answer.receipt.Some?
    ensures var r := Step(cfg, s, c, Read(fault)).call.pc.answer.receipt.value;
            && !fault && r in s.receipts.Values && ReceiptRules(cfg.env, r) && ReceiptSigned(cfg.env, r)
            && r.requestDigest == c.pc.request.digest && r.receiptId == c.pc.receipt.receiptId && r.auditObject == c.pc.receipt.auditObject
  {
    hide ReceiptOk, ReceiptRules, ReceiptTree, Signed, Sound;
    var found := FindReceipt(s.receipts, c.pc.receipt.auditObject);
    ReceiptRulesExact(cfg.env, found.value);
  }

  // ---------------------------------------------------------------- failures

  function Told(error: Error): Pc { Returned(Answer(None, Some(error))) }

  /** A read that fails is told to the caller as an internal error while no result is on its way to the store, as a
      replay when it was to tell who won, and as pending afterwards. */
  lemma FailedReads(cfg: Config, s: Store, c: Call)
    ensures var pc := Step(cfg, s, c, Read(true)).call.pc;
            && (c.pc.ReadingRequest? || c.pc.Resuming? || c.pc.ReadingResult? ==> pc == Told(Internal))
            && (c.pc.ReadingWinner? ==> pc == Told(Replay))
            && (c.pc.ReadingStoredResult? || c.pc.ReadingStoredReceipt? ==> pc == Told(Pending))
  {}

  /** A write whose outcome is unknown, whether it was performed or not, ends the call: as an internal error up to
      the dispatch record, and as pending from the result on. */
  lemma FailedWrites(cfg: Config, s: Store, c: Call, write: Write, clock: int)
    requires !write.Answered?
    ensures var pc := Step(cfg, s, c, Create(write, clock)).call.pc;
            && (c.pc.Reserving? || c.pc.ReservingBinding? || c.pc.ReservingApproval? || c.pc.StoringRequest? || c.pc.StoringDispatch? ==>
                  pc == Told(Internal))
            && (c.pc.StoringResult? || c.pc.StoringReceipt? ==> pc == Told(Pending))
  {
    hide BindingDigest, ValidReservation, Payload, RequestDigestOk, DispatchDigestOk, ResultDigestOk, ReceiptDigestOk, ReceiptKey, Put;
  }
}
