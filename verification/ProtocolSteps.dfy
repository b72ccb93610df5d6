/** Every label keeps the invariant: one lemma for each position of a call, then for a whole run. */
module ProtocolSteps {
  import opened Prelude
  import opened Patterns
  import opened Contract
  import opened Catalog
  import opened Broker
  import opened Protocol
  import opened ProtocolInvariant

  // ---------------------------------------------------------------- shapes of a step

  /** What a write has to establish: the new keys are sound and the acting call knows what it says. */
  ghost predicate NewKeysSound(cfg: Config, w: Facts, v: Facts)
  {
    && (forall id :: id in v.store.requests && id !in w.store.requests ==> RequestSound(cfg, v, id))
    && (forall id :: id in v.store.dispatches && id !in w.store.dispatches ==> DispatchSound(cfg, v, id))
    && (forall id :: id in v.store.results && id !in w.store.results ==> ResultSound(cfg, v, id))
    && (forall key :: key in v.store.receipts && key !in w.store.receipts ==> ReceiptSound(cfg, v, key))
    && (forall id :: id in v.origins ==> id in v.store.requests)
    && (forall id :: id in v.reserver ==> id in v.store.reservations)
    && (forall id :: id in v.writer ==> id in v.store.dispatches)
  }

  /** The facts grew by a sound write of call `i`, which now stands at a sound position. */
  ghost predicate Kept(cfg: Config, w: Facts, v: Facts, i: nat, c: Call)
  {
    Grows(w, v, i) && NewKeysSound(cfg, w, v) && HistorySound(v) && CallSound(cfg, v, i, c)
  }

  lemma NothingWritten(cfg: Config, w: Facts, i: nat, c: Call)
    requires StoreSound(cfg, w) && HistorySound(w) && CallSound(cfg, w, i, c)
    ensures Kept(cfg, w, w, i, c)
  {
    hide CallSound, HistorySound, RequestSound, DispatchSound, ResultSound, ReceiptSound;
  }

  lemma WriteKeeps(cfg: Config, w: World, v: World, i: nat)
    requires Inv(cfg, w) && i < |w.calls| == |v.calls| && v.calls == w.calls[i := v.calls[i]]
    requires Kept(cfg, w.facts, v.facts, i, v.calls[i])
    ensures Inv(cfg, v)
  {
    hide CallSound, RequestSound, DispatchSound, ResultSound, ReceiptSound, HistorySound, Grows;
    ChainKept(cfg, w.facts, v.facts, i);
    forall j | 0 <= j < |v.calls| && j != i ensures CallSound(cfg, v.facts, j, v.calls[j]) {
      OthersKeep(cfg, w.facts, v.facts, i, j, w.calls[j]);
    }
  }

  // ---------------------------------------------------------------- what the parts of a step establish

  lemma AdmittedServes(env: Env, o: Origin, request: Request)
    requires Admitted(env, o, request)
    ensures request.requestId == o.intent.requestId && request.repository == o.intent.repository
    ensures request.operation == o.intent.operation && request.workflowId == o.intent.workflowId
    ensures request.workflowRunId == o.intent.workflowRunId && request.protectedMainSha == o.intent.protectedMainSha
    ensures request.planDigest == o.intent.planDigest && request.evidenceDigest == o.intent.evidenceDigest
    ensures request.reason == o.intent.reason && request.requestedBy == ToLower(o.requester)
    ensures request.expiresAt == Timestamp(env, env.parseTime(o.intent.expiresAt).value)
  {
    SealedRequestFields(env, Draft(env, o));
  }

  /** The requester of an admitted request survives lower-casing: the evidence names the same person by a
      valid e-mail address. */
  lemma RequesterFolds(env: Env, o: Origin, request: Request)
    requires Admitted(env, o, request)
    ensures DOTTED_I !in o.requester && EqualFold(request.requestedBy, o.requester)
  {
    hide EqualFold, ToLower, IsEmail, Approves, SealRequest, Digest, EvidenceTree;
    AdmittedServes(env, o, request);
    FoldsToEmail(o.evidence.approval.requestedBy, o.requester);
  }

  lemma RequestOkFromSeal(env: Env, o: Origin, request: Request)
    requires Sound(env) && Admitted(env, o, request)
    ensures RequestOk(env, request)
  {
    SealedRequestVerifies(env, Draft(env, o));
  }

  lemma AuthorizedFits(c: Call, request: Request)
    requires Authorized(c) && Serves(c, request)
    ensures TargetFits(c.target, request) && Enabled(c.target, request.repository, request.operation, request.workflowId)
  {}

  lemma ReadableDecodes(token: string, target: RepositoryTarget, request: Request)
    requires Readable(token, request) && TargetFits(target, request)
    ensures DecodeState(token, target, request) == Some(ReadToken(token).value)
    ensures token != REJECTED_TOKEN
  {
    hide ReadToken;
    RejectedTokenUnreadable();
  }

  /** A preparation yields the rejected token, or a token that reads as a state of the request. */
  lemma PreparationReadable(target: RepositoryTarget, request: Request, observed: Observation)
    requires TargetFits(target, request) && |Prepare(target, request, observed).0| <= 4096
    ensures var (token, prepared) := Prepare(target, request, observed);
            && !prepared.accepted
            && (if prepared.final then token == REJECTED_TOKEN else Readable(token, request))
  {
    hide EncodeState, ReadToken, Baseline, IsProviderReference;
    EmptyReference();
    match PrepareState(target, request, observed)
    case Refused(_) =>
    case Observed(state) =>
      TokenRoundTrip(state);
      LinkIsReference(state.providerReference);
  }

  lemma CompleteSound(cfg: Config, w: Facts, i: nat, c: Call, request: Request, dispatch: Dispatch, outcome: Outcome, now: int)
    requires Sound(cfg.env) && Authorized(c) && Serves(c, request) && Recorded(w, request, dispatch)
    requires c.pc == Complete(cfg.env, request, dispatch, outcome, now)
    requires outcome.final ==> Justified(w, request, dispatch.recoveryToken, if outcome.accepted then ACCEPTED else REJECTED)
    ensures CallSound(cfg, w, i, c)
  {
    hide ResultOk, Justified, Readable, Enabled, SealResult;
    if outcome.final {
      var draft := Result("", request.requestId, request.digest, dispatch.receiptId,
                          if outcome.accepted then ACCEPTED else REJECTED, outcome.reasonCode,
                          outcome.providerReference, Timestamp(cfg.env, now), "", NO_SIGNATURE);
      SealedResultFields(cfg.env, draft);
      SealedResultVerifies(cfg.env, draft);
    }
  }

  lemma FinalizeSound(cfg: Config, w: Facts, i: nat, c: Call, request: Request, dispatch: Dispatch, result: Result)
    requires Authorized(c) && Serves(c, request) && Settled(w, request)
    requires request.requestId in w.store.results && w.store.results[request.requestId] == result
    requires c.pc == Finalize(cfg.env, request, dispatch, result)
    ensures CallSound(cfg, w, i, c)
  {
    hide FinalReceipt, Enabled;
  }

  lemma FinalReceiptFields(env: Env, request: Request, result: Result)
    ensures FinalReceipt(env, request, result).Some? ==>
              var receipt := FinalReceipt(env, request, result).value;
              && receipt.requestId == request.requestId && receipt.receiptId == result.receiptId
              && receipt.requestDigest == request.digest && receipt.status == result.status
              && receipt.operation == request.operation && receipt.repository == request.repository
              && receipt.reasonCode == result.reasonCode && receipt.providerReference == result.providerReference
              && receipt.recordedAt == result.recordedAt
              && receipt.auditObject == AuditObject(env, result.recordedAt, result.receiptId)
  {
    SealedReceiptFields(env, Receipt(RECEIPT_SCHEMA, result.receiptId, request.requestId, request.digest, request.operation,
                             request.repository, result.status, result.reasonCode, result.providerReference,
                             result.recordedAt, AuditObject(env, result.recordedAt, result.receiptId), "", NO_SIGNATURE));
  }

  lemma DeliveredAnswer(cfg: Config, w: Facts, c: Call, request: Request, own: Receipt, delivered: Receipt, id: string)
    requires Serves(c, request) && Settled(w, request)
    requires Concludes(cfg, w, request.requestId, own) && Concludes(cfg, w, id, delivered)
    requires delivered.requestDigest == request.digest && delivered.receiptId == own.receiptId && Durable(cfg, w, delivered)
    ensures AnswerSound(cfg, w, c, delivered)
  {
    hide FinalReceipt, AuditObject, ReceiptKey;
    FinalReceiptFields(cfg.env, w.store.requests[request.requestId], w.store.results[request.requestId]);
    FinalReceiptFields(cfg.env, w.store.requests[id], w.store.results[id]);
    assert Deliverable(cfg, w, request, delivered);
  }

  lemma DeliverSound(cfg: Config, w: Facts, i: nat, c: Call, request: Request, own: Receipt, delivered: Receipt, id: string)
    requires Serves(c, request) && Settled(w, request)
    requires Concludes(cfg, w, request.requestId, own) && Concludes(cfg, w, id, delivered)
    requires delivered.requestDigest == request.digest && delivered.receiptId == own.receiptId && Durable(cfg, w, delivered)
    requires c.pc == Deliver(delivered)
    ensures CallSound(cfg, w, i, c)
  {
    DeliveredAnswer(cfg, w, c, request, own, delivered, id);
    hide CallSound, AnswerSound;
    ReturnedSound(cfg, w, i, c);
  }

  lemma ReturnedSound(cfg: Config, w: Facts, i: nat, c: Call)
    requires c.pc.Returned? && (c.pc.answer.receipt.Some? ==> AnswerSound(cfg, w, c, c.pc.answer.receipt.value))
    ensures CallSound(cfg, w, i, c)
  {
    hide AnswerSound;
  }

  lemma ReadingStoredReceiptKnows(cfg: Config, w: Facts, i: nat, c: Call)
    requires CallSound(cfg, w, i, c) && c.pc.ReadingStoredReceipt?
    ensures Serves(c, c.pc.request) && Settled(w, c.pc.request) && Concludes(cfg, w, c.pc.request.requestId, c.pc.receipt)
  {
    hide Enabled, FinalReceipt;
  }

  // ---------------------------------------------------------------- reading steps

  lemma ReadRequestKeeps(cfg: Config, w: Facts, i: nat, c: Call, fault: bool)
    requires CallSound(cfg, w, i, c) && c.pc.ReadingRequest?
    requires c.intent.requestId in w.store.requests ==> RequestSound(cfg, w, c.intent.requestId)
    ensures CallSound(cfg, w, i, c.(pc := StepReadRequest(cfg.env, w.store, c, fault)))
  {
    hide RequestOk, Enabled, Admitted, BindingDigest;
  }

  lemma ReadWinnerKeeps(cfg: Config, w: Facts, i: nat, c: Call, fault: bool)
    requires CallSound(cfg, w, i, c) && c.pc.ReadingWinner?
    requires c.intent.requestId in w.store.requests ==> RequestSound(cfg, w, c.intent.requestId)
    ensures CallSound(cfg, w, i, c.(pc := StepReadWinner(cfg.env, w.store, c, fault)))
  {
    hide RequestOk, Enabled, Admitted, BindingDigest;
  }

  lemma AdmitKeeps(cfg: Config, w: Facts, i: nat, c: Call, a: Action)
    requires CallSound(cfg, w, i, c) && c.pc.ReadingEvidence? && a.Admit?
    ensures CallSound(cfg, w, i, c.(pc := StepAdmit(cfg.env, w.store, c, a)))
  {
    hide EvidenceAccepted, Enabled, SealRequest, InWindow, Draft;
    var pc := StepAdmit(cfg.env, w.store, c, a);
    if pc.Reserving? {
      AdmittedServes(cfg.env, pc.origin, pc.request);
    }
  }

  lemma TokenInLimit(env: Env, d: Dispatch)
    requires DispatchOk(env, d)
    ensures |d.recoveryToken| <= 4096
  {}

  lemma ResumeKeeps(cfg: Config, w: Facts, i: nat, c: Call, fault: bool)
    requires CallSound(cfg, w, i, c) && c.pc.Resuming?
    ensures CallSound(cfg, w, i, c.(pc := StepResume(cfg.env, w.store, c, fault)))
  {
    hide DispatchOk, Enabled;
  }

  lemma ReadResultKeeps(cfg: Config, w: Facts, i: nat, c: Call, fault: bool)
    requires CallSound(cfg, w, i, c) && c.pc.ReadingResult?
    ensures CallSound(cfg, w, i, c.(pc := StepReadResult(cfg.env, w.store, c, fault)))
  {
    hide ResultOk, Enabled, Finalize;
    var id := c.pc.request.requestId;
    if !fault && id in w.store.results && ResultOk(cfg.env, w.store.results[id]) {
      FinalizeSound(cfg, w, i, c.(pc := StepReadResult(cfg.env, w.store, c, fault)), c.pc.request, c.pc.dispatch, w.store.results[id]);
    }
  }

  lemma ReadStoredResultKeeps(cfg: Config, w: Facts, i: nat, c: Call, fault: bool)
    requires CallSound(cfg, w, i, c) && c.pc.ReadingStoredResult?
    ensures CallSound(cfg, w, i, c.(pc := StepReadStoredResult(cfg.env, w.store, c, fault)))
  {
    hide ResultOk, Enabled, Finalize;
    var id := c.pc.request.requestId;
    if !fault && id in w.store.results && ResultOk(cfg.env, w.store.results[id]) {
      FinalizeSound(cfg, w, i, c.(pc := StepReadStoredResult(cfg.env, w.store, c, fault)), c.pc.request, c.pc.dispatch, w.store.results[id]);
    }
  }

  /** A recovery rests on what the provider just showed, a rejection on a rejected preparation. */
  lemma RecoveryJustified(c: Call, v: Facts, request: Request, token: string, observed: Observation)
    requires Authorized(c) && Serves(c, request)
    requires token == REJECTED_TOKEN || Readable(token, request)
    requires Recover(c.target, request, token, observed).final
    requires |v.sightings| > 0 && v.sightings[|v.sightings| - 1] == Sighting(c.target, request, token, observed)
    ensures Justified(v, request, token, if Recover(c.target, request, token, observed).accepted then ACCEPTED else REJECTED)
  {
    hide Enabled, Recover, Readable, DecodeState, TargetFits, ProviderRefused, ProviderConfirmed;
    AuthorizedFits(c, request);
    RecoverRejectsOnlyUnreadable(c.target, request, token, observed);
    AcceptedNotPending(c.target, request, token, observed);
    if token == REJECTED_TOKEN {
      RejectedDoesNotDecode(c.target, request);
    } else {
      ReadableDecodes(token, c.target, request);
      if Recover(c.target, request, token, observed).accepted {
        assert Recovers(v.sightings[|v.sightings| - 1]);
      }
    }
  }

  lemma RejectedDoesNotDecode(target: RepositoryTarget, request: Request)
    ensures DecodeState(REJECTED_TOKEN, target, request) == None
  {
    hide ReadToken;
    RejectedTokenUnreadable();
  }

  /** An accepted recovery means that the token decoded. */
  lemma AcceptedNotPending(target: RepositoryTarget, request: Request, token: string, observed: Observation)
    ensures Recover(target, request, token, observed).accepted ==> DecodeState(token, target, request).Some?
  {
    hide DecodeState;
  }

  lemma ReadStoredReceiptKeeps(cfg: Config, w: Facts, i: nat, c: Call, fault: bool)
    requires CallSound(cfg, w, i, c) && c.pc.ReadingStoredReceipt?
    requires forall key :: key in w.store.receipts ==> ReceiptSound(cfg, w, key)
    ensures CallSound(cfg, w, i, c.(pc := StepReadStoredReceipt(cfg.env, w.store, c, fault)))
  {
    ReadingStoredReceiptKnows(cfg, w, i, c);
    hide ReceiptOk, CallSound, Concludes, FindReceipt, ReceiptKey, AnswerSound, Serves, Settled;
    var moved := c.(pc := StepReadStoredReceipt(cfg.env, w.store, c, fault));
    var stored := FindReceipt(w.store.receipts, c.pc.receipt.auditObject);
    if moved.pc.answer.receipt.Some? {
      var key :| key in w.store.receipts && w.store.receipts[key] == stored.value;
      assert ReceiptSound(cfg, w, key);
      ServesMoved(c, moved, c.pc.request);
      DeliveredAnswer(cfg, w, moved, c.pc.request, c.pc.receipt, stored.value, stored.value.requestId);
    }
    ReturnedSound(cfg, w, i, moved);
  }

  lemma ServesMoved(c: Call, moved: Call, request: Request)
    requires Serves(c, request) && moved.intent == c.intent
    ensures Serves(moved, request)
  {}

  // ---------------------------------------------------------------- steps that extend the facts

  lemma KeptFrom(cfg: Config, w: Facts, v: Facts, i: nat, c: Call)
    requires HistorySound(w) && Fine(cfg, w, v, i) && CallSound(cfg, v, i, c)
    ensures Kept(cfg, w, v, i, c)
  {
    hide CallSound, HistorySound, NewKeysSound;
    HistoryKept(w, v, i);
  }

  /** A reservation key that is free belongs to no stored request and has no reserver. */
  lemma FreeReservation(cfg: Config, w: Facts, id: string)
    requires StoreSound(cfg, w) && id !in w.store.reservations
    ensures id !in w.store.requests && id !in w.reserver
  {
    hide Admitted, BindingReserved, ApprovalReserved, RequestOk;
    assert id in w.store.requests ==> RequestSound(cfg, w, id);
  }

  ghost predicate Fine(cfg: Config, w: Facts, v: Facts, i: nat)
  {
    Grows(w, v, i) && NewKeysSound(cfg, w, v) && v.history == w.history
  }

  lemma NothingNew(cfg: Config, w: Facts, i: nat)
    requires StoreSound(cfg, w)
    ensures Fine(cfg, w, w, i)
  {
    hide RequestSound, DispatchSound, ResultSound, ReceiptSound;
  }

  lemma ExtendsItself(w: Facts)
    ensures Extends(w.store.evidence, w.store.evidence) && Extends(w.store.reservations, w.store.reservations)
    ensures Extends(w.store.bindings, w.store.bindings) && Extends(w.store.approvals, w.store.approvals)
    ensures Extends(w.store.requests, w.store.requests) && Extends(w.store.dispatches, w.store.dispatches)
    ensures Extends(w.store.results, w.store.results) && Extends(w.store.receipts, w.store.receipts)
    ensures Extends(w.origins, w.origins) && Extends(w.reserver, w.reserver) && Extends(w.writer, w.writer)
  {}

  lemma NewKey<V>(m: map<string, V>, key: string, value: V)
    ensures key !in m ==> Extends(m, m[key := value])
  {}

  /** New reservation, binding or approval keys; the reserver is told only about a new reservation. */
  lemma KeysAdded(cfg: Config, w: Facts, v: Facts, i: nat, id: string)
    requires StoreSound(cfg, w)
    requires Extends(w.store.reservations, v.store.reservations) && Extends(w.store.bindings, v.store.bindings)
    requires Extends(w.store.approvals, v.store.approvals)
    requires v == w.(store := w.store.(reservations := v.store.reservations, bindings := v.store.bindings, approvals := v.store.approvals),
                     reserver := v.reserver)
    requires v.reserver == w.reserver || (id !in w.reserver && id in v.store.reservations && v.reserver == w.reserver[id := i])
    ensures Fine(cfg, w, v, i)
  {
    hide RequestSound, DispatchSound, ResultSound, ReceiptSound;
    ExtendsItself(w);
    NewKey(w.reserver, id, i);
    assert forall k :: k in w.reserver ==> k in v.store.reservations;
    hide Extends, StoreSound;
  }

  lemma DispatchAdded(cfg: Config, w: Facts, v: Facts, i: nat, d: Dispatch)
    requires StoreSound(cfg, w) && d.requestId !in w.store.dispatches
    requires v == w.(store := w.store.(dispatches := w.store.dispatches[d.requestId := d]), writer := v.writer)
    requires v.writer == w.writer || v.writer == w.writer[d.requestId := i]
    requires DispatchSound(cfg, v, d.requestId)
    ensures Fine(cfg, w, v, i)
  {
    hide RequestSound, DispatchSound, ResultSound, ReceiptSound, Extends;
    ExtendsItself(w);
    NewKey(w.store.dispatches, d.requestId, d);
    NewKey(w.writer, d.requestId, i);
  }

  lemma ResultAdded(cfg: Config, w: Facts, v: Facts, i: nat, r: Result)
    requires StoreSound(cfg, w) && r.requestId !in w.store.results
    requires v == w.(store := w.store.(results := w.store.results[r.requestId := r]))
    requires ResultSound(cfg, v, r.requestId)
    ensures Fine(cfg, w, v, i)
  {
    hide RequestSound, DispatchSound, ResultSound, ReceiptSound, Extends;
    ExtendsItself(w);
    NewKey(w.store.results, r.requestId, r);
  }

  lemma ReceiptAdded(cfg: Config, w: Facts, v: Facts, i: nat, key: string, r: Receipt)
    requires StoreSound(cfg, w) && key !in w.store.receipts
    requires v == w.(store := w.store.(receipts := w.store.receipts[key := r]))
    requires ReceiptSound(cfg, v, key)
    ensures Fine(cfg, w, v, i)
  {
    hide RequestSound, DispatchSound, ResultSound, ReceiptSound, Extends;
    ExtendsItself(w);
    NewKey(w.store.receipts, key, r);
  }

  lemma RequestAdded(cfg: Config, w: Facts, v: Facts, i: nat, o: Origin, r: Request)
    requires StoreSound(cfg, w) && Holds(w, i, r)
    requires v == w.(store := w.store.(requests := w.store.requests[r.requestId := r]), origins := w.origins[r.requestId := o])
    requires RequestSound(cfg, v, r.requestId)
    ensures Fine(cfg, w, v, i)
  {
    hide RequestSound, DispatchSound, ResultSound, ReceiptSound, Extends;
    ExtendsItself(w);
    NewKey(w.store.requests, r.requestId, r);
    NewKey(w.origins, r.requestId, o);
  }

  lemma ReserveGcsGrows(cfg: Config, w: Facts, i: nat, c: Call, write: Write)
    requires c.pc.Reserving? && c.intent.requestId == c.pc.request.requestId && cfg.backend.Gcs?
    requires StoreSound(cfg, w)
    ensures Fine(cfg, w, Remember(w, i, c.intent.requestId, StepReserve(cfg, w.store, c, write)), i)
  {
    hide StoreSound, BindingDigest, ValidReservation, Fine, Extends;
    var id := c.pc.request.requestId;
    if id !in w.store.reservations { FreeReservation(cfg, w, id); }
    ExtendsItself(w);
    NewKey(w.store.reservations, id, Payload(c.pc.request));
    KeysAdded(cfg, w, Remember(w, i, c.intent.requestId, StepReserve(cfg, w.store, c, write)), i, id);
  }

  /** The atomic reservation adds its three keys or none. */
  lemma ReserveMemoryShape(cfg: Config, w: Facts, i: nat, c: Call, write: Write)
    requires c.pc.Reserving? && cfg.backend.Memory?
    ensures var id, approval := c.pc.request.requestId, c.pc.origin.evidence.approval.approvalId;
            var binding := BindingDigest(cfg.env, c.pc.request);
            var e := StepReserve(cfg, w.store, c, write);
            var added := w.store.(reservations := w.store.reservations[id := Payload(c.pc.request)], bindings := w.store.bindings[binding := id],
                                  approvals := w.store.approvals[approval := id]);
            && Remember(w, i, c.intent.requestId, e) ==
                 w.(store := e.store, reserver := if e.reserved then w.reserver[c.intent.requestId := i] else w.reserver)
            && ((e.store == w.store && !e.reserved)
                || (e.store == added && id !in w.store.reservations && binding !in w.store.bindings && approval !in w.store.approvals))
  {
    hide BindingDigest, ValidReservation, Payload;
  }

  lemma ReserveMemoryGrows(cfg: Config, w: Facts, i: nat, c: Call, write: Write)
    requires c.pc.Reserving? && c.intent.requestId == c.pc.request.requestId && cfg.backend.Memory?
    requires StoreSound(cfg, w)
    ensures Fine(cfg, w, Remember(w, i, c.intent.requestId, StepReserve(cfg, w.store, c, write)), i)
  {
    hide StoreSound, BindingDigest, ValidReservation, Fine, Extends, StepReserve, Remember, Payload;
    var id := c.pc.request.requestId;
    ReserveMemoryShape(cfg, w, i, c, write);
    ExtendsItself(w);
    if id !in w.store.reservations { FreeReservation(cfg, w, id); }
    NewKey(w.store.reservations, id, Payload(c.pc.request));
    NewKey(w.store.bindings, BindingDigest(cfg.env, c.pc.request), id);
    NewKey(w.store.approvals, c.pc.origin.evidence.approval.approvalId, id);
    KeysAdded(cfg, w, Remember(w, i, c.intent.requestId, StepReserve(cfg, w.store, c, write)), i, id);
  }

  lemma ReserveCall(cfg: Config, w: Facts, i: nat, c: Call, write: Write)
    requires c.pc.Reserving? && AdmittedCall(cfg, w, c, c.pc.origin, c.pc.request) && Authorized(c)
    requires c.pc.request.requestId !in w.store.reservations ==> c.pc.request.requestId !in w.store.requests
    ensures var e := StepReserve(cfg, w.store, c, write);
            CallSound(cfg, Remember(w, i, c.intent.requestId, e), i, e.call)
  {
    hide Admitted, Enabled, BindingDigest, ValidReservation;
    if cfg.backend.Memory? {
      assert c.intent.requestId == c.pc.request.requestId;
    }
  }

  lemma ReserveKeeps(cfg: Config, w: Facts, i: nat, c: Call, write: Write)
    requires StoreSound(cfg, w) && HistorySound(w) && CallSound(cfg, w, i, c) && c.pc.Reserving?
    ensures var e := StepReserve(cfg, w.store, c, write);
            Kept(cfg, w, Remember(w, i, c.intent.requestId, e), i, e.call)
  {
    hide StoreSound, HistorySound, StepReserve, Remember, Kept, Admitted, Enabled, Fine;
    var e := StepReserve(cfg, w.store, c, write);
    if c.pc.request.requestId !in w.store.reservations { FreeReservation(cfg, w, c.pc.request.requestId); }
    if cfg.backend.Memory? { ReserveMemoryGrows(cfg, w, i, c, write); } else { ReserveGcsGrows(cfg, w, i, c, write); }
    ReserveCall(cfg, w, i, c, write);
    KeptFrom(cfg, w, Remember(w, i, c.intent.requestId, e), i, e.call);
  }

  lemma ReserveBindingGrows(cfg: Config, w: Facts, i: nat, c: Call, write: Write)
    requires c.pc.ReservingBinding? && StoreSound(cfg, w)
    ensures Fine(cfg, w, Remember(w, i, c.intent.requestId, StepReserveBinding(cfg, w.store, c, write)), i)
  {
    hide BindingDigest, StoreSound, Fine, Extends;
    ExtendsItself(w);
    NewKey(w.store.bindings, BindingDigest(cfg.env, c.pc.request), c.pc.request.requestId);
    KeysAdded(cfg, w, Remember(w, i, c.intent.requestId, StepReserveBinding(cfg, w.store, c, write)), i, c.intent.requestId);
  }

  lemma ReserveBindingKeeps(cfg: Config, w: Facts, i: nat, c: Call, write: Write)
    requires StoreSound(cfg, w) && HistorySound(w) && CallSound(cfg, w, i, c) && c.pc.ReservingBinding?
    ensures var e := StepReserveBinding(cfg, w.store, c, write);
            Kept(cfg, w, Remember(w, i, c.intent.requestId, e), i, e.call)
  {
    hide Admitted, Enabled, BindingDigest, HistorySound, StoreSound, Fine, Kept;
    var e := StepReserveBinding(cfg, w.store, c, write);
    ReserveBindingGrows(cfg, w, i, c, write);
    KeptFrom(cfg, w, Remember(w, i, c.intent.requestId, e), i, e.call);
  }

  lemma ReserveApprovalGrows(cfg: Config, w: Facts, i: nat, c: Call, write: Write)
    requires c.pc.ReservingApproval? && StoreSound(cfg, w)
    ensures Fine(cfg, w, Remember(w, i, c.intent.requestId, StepReserveApproval(w.store, c, write)), i)
  {
    hide StoreSound, Fine, Extends;
    ExtendsItself(w);
    NewKey(w.store.approvals, c.pc.origin.evidence.approval.approvalId, c.pc.request.requestId);
    KeysAdded(cfg, w, Remember(w, i, c.intent.requestId, StepReserveApproval(w.store, c, write)), i, c.intent.requestId);
  }

  lemma ReserveApprovalKeeps(cfg: Config, w: Facts, i: nat, c: Call, write: Write)
    requires StoreSound(cfg, w) && HistorySound(w) && CallSound(cfg, w, i, c) && c.pc.ReservingApproval?
    ensures var e := StepReserveApproval(w.store, c, write);
            Kept(cfg, w, Remember(w, i, c.intent.requestId, e), i, e.call)
  {
    hide Admitted, Enabled, BindingDigest, HistorySound, StoreSound, Fine, Kept;
    var e := StepReserveApproval(w.store, c, write);
    ReserveApprovalGrows(cfg, w, i, c, write);
    KeptFrom(cfg, w, Remember(w, i, c.intent.requestId, e), i, e.call);
  }

  lemma StoreRequestGrows(cfg: Config, w: Facts, i: nat, c: Call, write: Write)
    requires c.pc.StoringRequest? && RequestOk(cfg.env, c.pc.request)
    requires AdmittedCall(cfg, w, c, c.pc.origin, c.pc.request) && Holds(w, i, c.pc.request)
    requires BindingReserved(cfg, w, c.pc.request) && ApprovalReserved(w, c.pc.origin, c.pc.request)
    requires StoreSound(cfg, w)
    ensures Fine(cfg, w, Remember(w, i, c.intent.requestId, StepStoreRequest(cfg.env, w.store, c, write)), i)
  {
    hide StoreSound, Fine, Admitted, RequestOk, RequestDigestOk, RequestSound, EvidenceStored, BindingReserved,
         ApprovalReserved;
    var v := Remember(w, i, c.intent.requestId, StepStoreRequest(cfg.env, w.store, c, write));
    if v == w {
      NothingNew(cfg, w, i);
    } else {
      LandedRequestSound(cfg, w, v, c.pc.origin, c.pc.request);
      RequestAdded(cfg, w, v, i, c.pc.origin, c.pc.request);
    }
  }

  lemma LandedRequestSound(cfg: Config, w: Facts, v: Facts, o: Origin, request: Request)
    requires RequestOk(cfg.env, request) && Admitted(cfg.env, o, request) && EvidenceStored(w, o)
    requires BindingReserved(cfg, w, request) && ApprovalReserved(w, o, request)
    requires IdReserved(w, request) && request.requestId in w.reserver
    requires v.store == w.store.(requests := w.store.requests[request.requestId := request])
    requires v.reserver == w.reserver && v.origins == w.origins[request.requestId := o]
    ensures RequestSound(cfg, v, request.requestId)
  {
    hide Admitted, BindingDigest, RequestOk;
  }

  lemma StoreRequestCall(cfg: Config, w: Facts, i: nat, c: Call, write: Write)
    requires c.pc.StoringRequest? && Authorized(c) && Serves(c, c.pc.request)
    ensures var e := StepStoreRequest(cfg.env, w.store, c, write);
            CallSound(cfg, Remember(w, i, c.intent.requestId, e), i, e.call)
  {
    hide Enabled, RequestDigestOk;
  }

  lemma StoreRequestKeeps(cfg: Config, w: Facts, i: nat, c: Call, write: Write)
    requires Sound(cfg.env)
    requires StoreSound(cfg, w) && HistorySound(w) && CallSound(cfg, w, i, c) && c.pc.StoringRequest?
    ensures var e := StepStoreRequest(cfg.env, w.store, c, write);
            Kept(cfg, w, Remember(w, i, c.intent.requestId, e), i, e.call)
  {
    hide StoreSound, HistorySound, StepStoreRequest, Remember, Kept, Admitted, Enabled, Fine, RequestOk, Sound;
    var e := StepStoreRequest(cfg.env, w.store, c, write);
    RequestOkFromSeal(cfg.env, c.pc.origin, c.pc.request);
    StoreRequestGrows(cfg, w, i, c, write);
    StoreRequestCall(cfg, w, i, c, write);
    KeptFrom(cfg, w, Remember(w, i, c.intent.requestId, e), i, e.call);
  }

  lemma PrepareShape(cfg: Config, w: Facts, i: nat, c: Call, a: Action)
    requires c.pc.Preparing? && a.Provide?
    ensures var e := StepPrepare(cfg.env, w.store, c, a);
            var (token, prepared) := Prepare(c.target, c.pc.request, a.observed);
            && e.call == c.(preparations := c.preparations + 1, pc := e.call.pc)
            && Remember(w, i, c.intent.requestId, e) == w.(observations := w.observations + [Sighting(c.target, c.pc.request, token, a.observed)])
            && (if a.receiptId.Some? && NewDispatch(cfg.env, c.pc.request, a.receiptId.value, token, a.clock).Some?
                then e.call.pc == StoringDispatch(c.pc.request, NewDispatch(cfg.env, c.pc.request, a.receiptId.value, token, a.clock).value, prepared)
                else e.call.pc == Fail(Internal))
  {
    hide Prepare, NewDispatch;
  }

  lemma PreparingKnows(cfg: Config, w: Facts, i: nat, c: Call)
    requires CallSound(cfg, w, i, c) && c.pc.Preparing?
    ensures Authorized(c) && Serves(c, c.pc.request) && Settled(w, c.pc.request)
  {
    hide Enabled;
  }

  lemma StoringDispatchSound(cfg: Config, w: Facts, i: nat, c: Call)
    requires c.pc.StoringDispatch? && Authorized(c) && Serves(c, c.pc.request) && Settled(w, c.pc.request)
    requires DispatchMade(cfg, w, c.pc.request, c.pc.dispatch, c.pc.prepared)
    ensures CallSound(cfg, w, i, c)
  {
    hide Enabled, DispatchMade;
  }

  /** A prepared dispatch has the rejected token, or a token that the preparation just made. */
  lemma PreparedDispatch(cfg: Config, v: Facts, target: RepositoryTarget, request: Request, observed: Observation, receiptId: string, clock: int)
    requires Sound(cfg.env) && TargetFits(target, request)
    requires |v.observations| > 0
    requires v.observations[|v.observations| - 1] == Sighting(target, request, Prepare(target, request, observed).0, observed)
    ensures var (token, prepared) := Prepare(target, request, observed);
            var dispatch := NewDispatch(cfg.env, request, receiptId, token, clock);
            dispatch.Some? ==> DispatchMade(cfg, v, request, dispatch.value, prepared)
  {
    hide Prepare, DispatchOk, SealDispatch, Readable, TargetFits, Sound;
    var token := Prepare(target, request, observed).0;
    var draft := Dispatch("", request.requestId, request.digest, receiptId, token, Timestamp(cfg.env, clock), "", NO_SIGNATURE);
    SealedDispatchFields(cfg.env, draft);
    SealedDispatchVerifies(cfg.env, draft);
    if SealDispatch(cfg.env, draft).Some? {
      TokenInLimit(cfg.env, SealDispatch(cfg.env, draft).value);
      PreparationReadable(target, request, observed);
      ProceedsOrRejects(target, request, observed);
      if !Prepare(target, request, observed).1.final { assert Proceeds(v.observations[|v.observations| - 1]); }
    }
  }

  lemma ProceedsOrRejects(target: RepositoryTarget, request: Request, observed: Observation)
    ensures Prepare(target, request, observed).1.final || Prepare(target, request, observed).1 == PROCEED
  {
    hide EncodeState, PrepareState;
  }

  lemma ObservationAdded(cfg: Config, w: Facts, v: Facts, i: nat, s: Sighting)
    requires StoreSound(cfg, w) && v == w.(observations := w.observations + [s])
    ensures Fine(cfg, w, v, i)
  {
    hide RequestSound, DispatchSound, ResultSound, ReceiptSound, Extends;
    ExtendsItself(w);
  }

  lemma StillSettled(w: Facts, v: Facts, request: Request)
    requires Settled(w, request) && v.store == w.store
    ensures Settled(v, request)
  {}

  lemma PrepareKeeps(cfg: Config, w: Facts, i: nat, c: Call, a: Action)
    requires Sound(cfg.env)
    requires StoreSound(cfg, w) && HistorySound(w) && CallSound(cfg, w, i, c) && c.pc.Preparing? && a.Provide?
    ensures var e := StepPrepare(cfg.env, w.store, c, a);
            Kept(cfg, w, Remember(w, i, c.intent.requestId, e), i, e.call)
  {
    hide Authorized, Serves, Settled, Sound, StoreSound, HistorySound, CallSound, Fine, Kept, StepPrepare, Remember,
         Prepare, NewDispatch, DispatchMade, TargetFits, Enabled;
    PreparingKnows(cfg, w, i, c);
    PrepareShape(cfg, w, i, c, a);
    var request := c.pc.request;
    var token := Prepare(c.target, request, a.observed).0;
    var sighting := Sighting(c.target, request, token, a.observed);
    var e := StepPrepare(cfg.env, w.store, c, a);
    var v := w.(observations := w.observations + [sighting]);
    SameCaller(c, e.call, request);
    StillSettled(w, v, request);
    AuthorizedFits(c, request);
    if e.call.pc.StoringDispatch? {
      PreparedDispatch(cfg, v, c.target, request, a.observed, a.receiptId.value, a.clock);
      StoringDispatchSound(cfg, v, i, e.call);
    } else {
      ReturnedSound(cfg, v, i, e.call);
    }
    ObservationAdded(cfg, w, v, i, sighting);
    KeptFrom(cfg, w, v, i, e.call);
  }

  /** A dispatch key that is free has no writer, and nothing was sent for it. */
  lemma FreeDispatch(w: Facts, id: string)
    requires HistorySound(w) && id !in w.store.dispatches
    ensures Unsent(w.history, id)
  {
    hide Usable, Enabled;
    assert forall k :: 0 <= k < |w.history| ==> EventSound(w, w.history[k]);
  }

  lemma StoreDispatchGrows(cfg: Config, w: Facts, i: nat, c: Call, write: Write, clock: int)
    requires c.pc.StoringDispatch? && Serves(c, c.pc.request) && Settled(w, c.pc.request)
    requires DispatchMade(cfg, w, c.pc.request, c.pc.dispatch, c.pc.prepared)
    requires StoreSound(cfg, w)
    ensures Fine(cfg, w, Remember(w, i, c.intent.requestId, StepStoreDispatch(cfg.env, w.store, c, write, clock)), i)
  {
    hide StoreSound, Fine, Usable, DispatchOk, DispatchDigestOk, Complete;
    var v := Remember(w, i, c.intent.requestId, StepStoreDispatch(cfg.env, w.store, c, write, clock));
    if v.store == w.store {
      NothingNew(cfg, w, i);
    } else {
      assert DispatchSound(cfg, v, c.pc.dispatch.requestId);
      DispatchAdded(cfg, w, v, i, c.pc.dispatch);
    }
  }

  lemma StoreDispatchCall(cfg: Config, w: Facts, i: nat, c: Call, write: Write, clock: int)
    requires Sound(cfg.env) && c.pc.StoringDispatch? && Authorized(c) && Serves(c, c.pc.request) && Settled(w, c.pc.request)
    requires DispatchMade(cfg, w, c.pc.request, c.pc.dispatch, c.pc.prepared)
    requires c.pc.dispatch.requestId !in w.store.dispatches ==> Unsent(w.history, c.pc.dispatch.requestId)
    ensures var e := StepStoreDispatch(cfg.env, w.store, c, write, clock);
            CallSound(cfg, Remember(w, i, c.intent.requestId, e), i, e.call)
  {
    hide Usable, Enabled, DispatchOk, DispatchDigestOk, Complete, Sound;
    var e := StepStoreDispatch(cfg.env, w.store, c, write, clock);
    if e.wrote && c.pc.prepared.final {
      CompleteSound(cfg, Remember(w, i, c.intent.requestId, e), i, e.call, c.pc.request, c.pc.dispatch, c.pc.prepared, clock);
    }
  }

  lemma StoreDispatchKeeps(cfg: Config, w: Facts, i: nat, c: Call, write: Write, clock: int)
    requires Sound(cfg.env)
    requires StoreSound(cfg, w) && HistorySound(w) && CallSound(cfg, w, i, c) && c.pc.StoringDispatch?
    ensures var e := StepStoreDispatch(cfg.env, w.store, c, write, clock);
            Kept(cfg, w, Remember(w, i, c.intent.requestId, e), i, e.call)
  {
    hide StoreSound, HistorySound, StepStoreDispatch, Remember, Kept, Enabled, Usable, DispatchOk, Fine, Sound,
         Unsent;
    var e := StepStoreDispatch(cfg.env, w.store, c, write, clock);
    if c.pc.dispatch.requestId !in w.store.dispatches { FreeDispatch(w, c.pc.dispatch.requestId); }
    StoreDispatchGrows(cfg, w, i, c, write, clock);
    StoreDispatchCall(cfg, w, i, c, write, clock);
    KeptFrom(cfg, w, Remember(w, i, c.intent.requestId, e), i, e.call);
  }

  lemma DispatchShape(cfg: Config, w: Facts, i: nat, c: Call, reply: Reply, clock: int)
    requires c.pc.Dispatching? && DecodeState(c.pc.dispatch.recoveryToken, c.target, c.pc.request).Some?
    ensures var e := StepDispatch(cfg.env, w.store, c, reply, clock);
            var outcome := DispatchOutcome(c.target, c.pc.request, c.pc.dispatch.recoveryToken, reply);
            && e.call == c.(pc := Complete(cfg.env, c.pc.request, c.pc.dispatch, outcome, clock))
            && Remember(w, i, c.intent.requestId, e) == w.(history := w.history + [Event(c.target, c.pc.request, Some(reply))])
  {
    hide Complete, DecodeState, DispatchOutcome;
  }

  lemma DispatchingKnows(cfg: Config, w: Facts, i: nat, c: Call)
    requires CallSound(cfg, w, i, c) && c.pc.Dispatching?
    ensures Authorized(c) && Serves(c, c.pc.request) && Recorded(w, c.pc.request, c.pc.dispatch)
    ensures Usable(w.observations, c.pc.dispatch.recoveryToken, c.pc.request)
    ensures c.pc.request.requestId in w.writer && w.writer[c.pc.request.requestId] == i && Unsent(w.history, c.pc.request.requestId)
  {
    hide Enabled, Usable;
  }

  lemma EventAdded(cfg: Config, w: Facts, v: Facts, i: nat, ev: Event)
    requires StoreSound(cfg, w) && HistorySound(w) && v == w.(history := w.history + [ev])
    requires EventSound(w, ev) && w.writer[ev.request.requestId] == i && Unsent(w.history, ev.request.requestId)
    ensures Grows(w, v, i) && NewKeysSound(cfg, w, v) && HistorySound(v)
  {
    hide RequestSound, DispatchSound, ResultSound, ReceiptSound, Extends, Usable, Enabled;
    ExtendsItself(w);
    forall k | 0 <= k < |v.history| ensures EventSound(v, v.history[k]) {
      if k < |w.history| { assert EventSound(w, w.history[k]); }
    }
  }

  lemma UsableReads(observations: seq<Sighting>, token: string, request: Request)
    requires Usable(observations, token, request)
    ensures Readable(token, request)
  {}

  lemma EventIsSound(w: Facts, ev: Event, dispatch: Dispatch)
    requires Recorded(w, ev.request, dispatch) && ev.request.requestId in w.writer
    requires Usable(w.observations, dispatch.recoveryToken, ev.request) && ev.mutation.Some?
    requires Enabled(ev.target, ev.request.repository, ev.request.operation, ev.request.workflowId)
    ensures EventSound(w, ev)
  {
    hide Usable, Enabled;
  }

  /** A final outcome of a dispatch rests on the answer that was just recorded. */
  lemma DispatchJustified(c: Call, v: Facts, request: Request, token: string, reply: Reply)
    requires DecodeState(token, c.target, request).Some? && Readable(token, request)
    requires |v.history| > 0 && v.history[|v.history| - 1] == Event(c.target, request, Some(reply))
    requires DispatchOutcome(c.target, request, token, reply).final
    ensures Justified(v, request, token, if DispatchOutcome(c.target, request, token, reply).accepted then ACCEPTED else REJECTED)
  {
    hide DecodeState, Readable, ProviderObserved;
    var last := v.history[|v.history| - 1];
    assert last.request == request && last.mutation == Some(reply);
  }

  lemma DispatchKeeps(cfg: Config, w: Facts, i: nat, c: Call, reply: Reply, clock: int)
    requires Sound(cfg.env)
    requires StoreSound(cfg, w) && HistorySound(w) && CallSound(cfg, w, i, c) && c.pc.Dispatching?
    ensures var e := StepDispatch(cfg.env, w.store, c, reply, clock);
            Kept(cfg, w, Remember(w, i, c.intent.requestId, e), i, e.call)
  {
    hide Complete, Authorized, Serves, Recorded, Readable, Usable, Justified, Sound, StoreSound, HistorySound,
         CallSound, StepDispatch, Remember, DecodeState, DispatchOutcome, Enabled, TargetFits, ReadToken, Grows,
         NewKeysSound, Unsent;
    DispatchingKnows(cfg, w, i, c);
    UsableReads(w.observations, c.pc.dispatch.recoveryToken, c.pc.request);
    AuthorizedFits(c, c.pc.request);
    var request, dispatch := c.pc.request, c.pc.dispatch;
    ReadableDecodes(dispatch.recoveryToken, c.target, request);
    DispatchShape(cfg, w, i, c, reply, clock);
    var e := StepDispatch(cfg.env, w.store, c, reply, clock);
    var ev := Event(c.target, request, Some(reply));
    var v := w.(history := w.history + [ev]);
    var outcome := DispatchOutcome(c.target, request, dispatch.recoveryToken, reply);
    if outcome.final { DispatchJustified(c, v, request, dispatch.recoveryToken, reply); }
    SameCaller(c, e.call, request);
    StillRecorded(w, v, request, dispatch);
    CompleteSound(cfg, v, i, e.call, request, dispatch, outcome, clock);
    EventIsSound(w, ev, dispatch);
    EventAdded(cfg, w, v, i, ev);
  }

  lemma RecoveringKnows(cfg: Config, w: Facts, i: nat, c: Call)
    requires CallSound(cfg, w, i, c) && c.pc.Recovering?
    ensures Authorized(c) && Serves(c, c.pc.request) && Recorded(w, c.pc.request, c.pc.dispatch)
  {
    hide Enabled;
  }

  lemma SightingAdded(cfg: Config, w: Facts, v: Facts, i: nat, s: Sighting)
    requires StoreSound(cfg, w) && v == w.(sightings := w.sightings + [s])
    ensures Fine(cfg, w, v, i)
  {
    hide RequestSound, DispatchSound, ResultSound, ReceiptSound, Extends;
    ExtendsItself(w);
  }

  lemma TokenKnown(cfg: Config, w: Facts, request: Request, dispatch: Dispatch)
    requires StoreSound(cfg, w) && Recorded(w, request, dispatch)
    ensures dispatch.recoveryToken == REJECTED_TOKEN || Readable(dispatch.recoveryToken, request)
  {
    hide Readable, DispatchOk, RequestSound, ResultSound, ReceiptSound;
    assert DispatchSound(cfg, w, request.requestId);
  }

  lemma RecoverShape(cfg: Config, w: Facts, i: nat, c: Call, observed: Observation, clock: int)
    requires c.pc.Recovering?
    ensures var e := StepRecover(cfg.env, w.store, c, observed, clock);
            var sighting := Sighting(c.target, c.pc.request, c.pc.dispatch.recoveryToken, observed);
            var outcome := Recover(c.target, c.pc.request, c.pc.dispatch.recoveryToken, observed);
            && e.call == c.(pc := Complete(cfg.env, c.pc.request, c.pc.dispatch, outcome, clock))
            && Remember(w, i, c.intent.requestId, e) == w.(sightings := w.sightings + [sighting])
  {
    hide Complete, Recover;
  }

  lemma RecoverKeeps(cfg: Config, w: Facts, i: nat, c: Call, observed: Observation, clock: int)
    requires Sound(cfg.env)
    requires StoreSound(cfg, w) && HistorySound(w) && CallSound(cfg, w, i, c) && c.pc.Recovering?
    ensures var e := StepRecover(cfg.env, w.store, c, observed, clock);
            Kept(cfg, w, Remember(w, i, c.intent.requestId, e), i, e.call)
  {
    hide Complete, Authorized, Serves, Recorded, Recover, Readable, Justified, Sound, StoreSound, HistorySound,
         CallSound, Fine, Kept, StepRecover, Remember;
    RecoveringKnows(cfg, w, i, c);
    TokenKnown(cfg, w, c.pc.request, c.pc.dispatch);
    RecoverShape(cfg, w, i, c, observed, clock);
    var request, dispatch := c.pc.request, c.pc.dispatch;
    var sighting := Sighting(c.target, request, dispatch.recoveryToken, observed);
    var e := StepRecover(cfg.env, w.store, c, observed, clock);
    var v := w.(sightings := w.sightings + [sighting]);
    var outcome := Recover(c.target, request, dispatch.recoveryToken, observed);
    if outcome.final {
      RecoveryJustified(c, v, request, dispatch.recoveryToken, observed);
    }
    SameCaller(c, e.call, request);
    StillRecorded(w, v, request, dispatch);
    CompleteSound(cfg, v, i, e.call, request, dispatch, outcome, clock);
    SightingAdded(cfg, w, v, i, sighting);
    KeptFrom(cfg, w, v, i, e.call);
  }

  lemma StillRecorded(w: Facts, v: Facts, request: Request, dispatch: Dispatch)
    requires Recorded(w, request, dispatch) && v.store == w.store
    ensures Recorded(v, request, dispatch)
  {}

  lemma SameCaller(c: Call, moved: Call, request: Request)
    requires Authorized(c) && Serves(c, request) && moved.intent == c.intent && moved.target == c.target
    ensures Authorized(moved) && Serves(moved, request)
  {}

  lemma StoreResultGrows(cfg: Config, w: Facts, i: nat, c: Call, write: Write)
    requires c.pc.StoringResult? && Recorded(w, c.pc.request, c.pc.dispatch)
    requires ResultMade(cfg, w, c.pc.request, c.pc.dispatch, c.pc.result)
    requires StoreSound(cfg, w)
    ensures Fine(cfg, w, Remember(w, i, c.intent.requestId, StepStoreResult(cfg.env, w.store, c, write)), i)
  {
    hide StoreSound, Fine, Justified, ResultOk, ResultDigestOk, Finalize;
    var v := Remember(w, i, c.intent.requestId, StepStoreResult(cfg.env, w.store, c, write));
    if v == w {
      NothingNew(cfg, w, i);
    } else {
      SameRecord(w, v, c.pc.request, c.pc.dispatch.recoveryToken, c.pc.result.status);
      assert ResultSound(cfg, v, c.pc.result.requestId);
      ResultAdded(cfg, w, v, i, c.pc.result);
    }
  }

  lemma SameRecord(w: Facts, v: Facts, request: Request, token: string, status: string)
    requires Justified(w, request, token, status) && v.history == w.history && v.sightings == w.sightings
    ensures Justified(v, request, token, status)
  {}

  lemma StoreResultCall(cfg: Config, w: Facts, i: nat, c: Call, write: Write)
    requires c.pc.StoringResult? && Authorized(c) && Serves(c, c.pc.request) && Recorded(w, c.pc.request, c.pc.dispatch)
    requires ResultMade(cfg, w, c.pc.request, c.pc.dispatch, c.pc.result)
    ensures var e := StepStoreResult(cfg.env, w.store, c, write);
            CallSound(cfg, Remember(w, i, c.intent.requestId, e), i, e.call)
  {
    hide Justified, Enabled, ResultOk, ResultDigestOk, Finalize;
    var e := StepStoreResult(cfg.env, w.store, c, write);
    var v := Remember(w, i, c.intent.requestId, e);
    if e.call.pc == Finalize(cfg.env, c.pc.request, c.pc.dispatch, c.pc.result) && c.pc.request.requestId in v.store.results
       && v.store.results[c.pc.request.requestId] == c.pc.result {
      FinalizeSound(cfg, v, i, e.call, c.pc.request, c.pc.dispatch, c.pc.result);
    }
  }

  lemma StoreResultKeeps(cfg: Config, w: Facts, i: nat, c: Call, write: Write)
    requires StoreSound(cfg, w) && HistorySound(w) && CallSound(cfg, w, i, c) && c.pc.StoringResult?
    ensures var e := StepStoreResult(cfg.env, w.store, c, write);
            Kept(cfg, w, Remember(w, i, c.intent.requestId, e), i, e.call)
  {
    hide StoreSound, HistorySound, StepStoreResult, Remember, Kept, Enabled, Justified, ResultOk, Fine;
    var e := StepStoreResult(cfg.env, w.store, c, write);
    StoreResultGrows(cfg, w, i, c, write);
    StoreResultCall(cfg, w, i, c, write);
    KeptFrom(cfg, w, Remember(w, i, c.intent.requestId, e), i, e.call);
  }

  lemma StoreReceiptGrows(cfg: Config, w: Facts, i: nat, c: Call, write: Write)
    requires c.pc.StoringReceipt? && Concludes(cfg, w, c.pc.request.requestId, c.pc.receipt)
    requires c.pc.receipt.requestId == c.pc.request.requestId
    requires StoreSound(cfg, w)
    ensures Fine(cfg, w, Remember(w, i, c.intent.requestId, StepStoreReceipt(cfg, w.store, c, write)), i)
  {
    hide StoreSound, Fine, ReceiptDigestOk, FinalReceipt, ReceiptKey;
    var v := Remember(w, i, c.intent.requestId, StepStoreReceipt(cfg, w.store, c, write));
    var key := ReceiptKey(cfg, c.pc.receipt);
    if v == w {
      NothingNew(cfg, w, i);
    } else {
      assert ReceiptSound(cfg, v, key);
      ReceiptAdded(cfg, w, v, i, key, c.pc.receipt);
    }
  }

  lemma StoreReceiptCall(cfg: Config, w: Facts, i: nat, c: Call, write: Write)
    requires c.pc.StoringReceipt? && Authorized(c) && Serves(c, c.pc.request) && Settled(w, c.pc.request)
    requires Concludes(cfg, w, c.pc.request.requestId, c.pc.receipt)
    requires c.pc.receipt.requestDigest == c.pc.request.digest
    ensures var e := StepStoreReceipt(cfg, w.store, c, write);
            CallSound(cfg, Remember(w, i, c.intent.requestId, e), i, e.call)
  {
    hide Enabled, ReceiptDigestOk, FinalReceipt, ReceiptKey;
    var e := StepStoreReceipt(cfg, w.store, c, write);
    if e.call.pc == Deliver(c.pc.receipt) {
      DeliverSound(cfg, Remember(w, i, c.intent.requestId, e), i, e.call, c.pc.request, c.pc.receipt, c.pc.receipt, c.pc.request.requestId);
    }
  }

  lemma StoreReceiptKeeps(cfg: Config, w: Facts, i: nat, c: Call, write: Write)
    requires StoreSound(cfg, w) && HistorySound(w) && CallSound(cfg, w, i, c) && c.pc.StoringReceipt?
    ensures var e := StepStoreReceipt(cfg, w.store, c, write);
            Kept(cfg, w, Remember(w, i, c.intent.requestId, e), i, e.call)
  {
    hide StoreSound, HistorySound, StepStoreReceipt, Remember, Kept, Fine, FinalReceipt, Enabled;
    var e := StepStoreReceipt(cfg, w.store, c, write);
    FinalReceiptFields(cfg.env, c.pc.request, w.store.results[c.pc.request.requestId]);
    StoreReceiptGrows(cfg, w, i, c, write);
    StoreReceiptCall(cfg, w, i, c, write);
    KeptFrom(cfg, w, Remember(w, i, c.intent.requestId, e), i, e.call);
  }

  // ---------------------------------------------------------------- every label, every run

  /** Steps that read the store, the evidence or the provider and write nothing. */
  lemma QuietStepKeeps(cfg: Config, w: Facts, i: nat, c: Call, a: Action)
    requires Sound(cfg.env) && StoreSound(cfg, w) && CallSound(cfg, w, i, c)
    requires !a.Create? && !a.Mutate? && !a.Observe? && !a.Provide?
    ensures CallSound(cfg, w, i, Step(cfg, w.store, c, a).call)
    ensures Remember(w, i, c.intent.requestId, Step(cfg, w.store, c, a)) == w
  {
    hide CallSound, RequestSound, DispatchSound, ResultSound, ReceiptSound, Sound;
    hide StepReadRequest, StepAdmit, StepReadWinner, StepPrepare, StepResume, StepReadResult, StepReadStoredResult,
         StepReadStoredReceipt, StepReserve, StepReserveBinding, StepReserveApproval, StepStoreRequest,
         StepStoreDispatch, StepDispatch, StepRecover, StepStoreResult, StepStoreReceipt;
    assert c.(pc := c.pc) == c;
    match c.pc
    case ReadingRequest => if a.Read? { ReadRequestKeeps(cfg, w, i, c, a.fault); }
    case ReadingEvidence => if a.Admit? { AdmitKeeps(cfg, w, i, c, a); }
    case ReadingWinner => if a.Read? { ReadWinnerKeeps(cfg, w, i, c, a.fault); }
    case Resuming(_) => if a.Read? { ResumeKeeps(cfg, w, i, c, a.fault); }
    case ReadingResult(_, _) => if a.Read? { ReadResultKeeps(cfg, w, i, c, a.fault); }
    case ReadingStoredResult(_, _) => if a.Read? { ReadStoredResultKeeps(cfg, w, i, c, a.fault); }
    case ReadingStoredReceipt(_, _) => if a.Read? { ReadStoredReceiptKeeps(cfg, w, i, c, a.fault); }
    case _ =>
  }

  lemma StepKeeps(cfg: Config, w: Facts, i: nat, c: Call, a: Action)
    requires Sound(cfg.env) && StoreSound(cfg, w) && HistorySound(w) && CallSound(cfg, w, i, c)
    ensures var e := Step(cfg, w.store, c, a);
            Kept(cfg, w, Remember(w, i, c.intent.requestId, e), i, e.call)
  {
    hide Kept, CallSound, StoreSound, HistorySound, Sound;
    hide StepReadRequest, StepAdmit, StepReadWinner, StepPrepare, StepResume, StepReadResult, StepReadStoredResult,
         StepReadStoredReceipt, StepReserve, StepReserveBinding, StepReserveApproval, StepStoreRequest,
         StepStoreDispatch, StepDispatch, StepRecover, StepStoreResult, StepStoreReceipt;
    assert c.(pc := c.pc) == c;
    if !a.Create? && !a.Mutate? && !a.Observe? && !a.Provide? {
      QuietStepKeeps(cfg, w, i, c, a);
      NothingWritten(cfg, w, i, Step(cfg, w.store, c, a).call);
    } else {
      match c.pc
      case Reserving(_, _) => if a.Create? { ReserveKeeps(cfg, w, i, c, a.write); } else { NothingWritten(cfg, w, i, c); }
      case ReservingBinding(_, _) => if a.Create? { ReserveBindingKeeps(cfg, w, i, c, a.write); } else { NothingWritten(cfg, w, i, c); }
      case ReservingApproval(_, _) => if a.Create? { ReserveApprovalKeeps(cfg, w, i, c, a.write); } else { NothingWritten(cfg, w, i, c); }
      case StoringRequest(_, _) => if a.Create? { StoreRequestKeeps(cfg, w, i, c, a.write); } else { NothingWritten(cfg, w, i, c); }
      case StoringDispatch(_, _, _) => if a.Create? { StoreDispatchKeeps(cfg, w, i, c, a.write, a.clock); } else { NothingWritten(cfg, w, i, c); }
      case Preparing(_) => if a.Provide? { PrepareKeeps(cfg, w, i, c, a); } else { NothingWritten(cfg, w, i, c); }
      case Recovering(_, _) => if a.Observe? { RecoverKeeps(cfg, w, i, c, a.observed, a.clock); } else { NothingWritten(cfg, w, i, c); }
      case Dispatching(_, _) => if a.Mutate? { DispatchKeeps(cfg, w, i, c, a.reply, a.clock); } else { NothingWritten(cfg, w, i, c); }
      case StoringResult(_, _, _) => if a.Create? { StoreResultKeeps(cfg, w, i, c, a.write); } else { NothingWritten(cfg, w, i, c); }
      case StoringReceipt(_, _) => if a.Create? { StoreReceiptKeeps(cfg, w, i, c, a.write); } else { NothingWritten(cfg, w, i, c); }
      case _ => NothingWritten(cfg, w, i, c);
    }
  }

  lemma BeginSound(cfg: Config, w: Facts, i: nat, requester: string, role: int, catalog: Catalog, intent: Intent)
    requires WellFormed(catalog)
    ensures CallSound(cfg, w, i, Begin(requester, role, catalog, intent))
  {
    GrantedExactly(catalog, intent);
    hide Enabled, WellFormed, IsUuid;
  }

  lemma PublishKeeps(cfg: Config, w: World, name: string, evidence: Evidence)
    requires Inv(cfg, w)
    ensures Inv(cfg, Apply(cfg, w, Publish(name, evidence)))
  {
    hide CallSound, RequestSound, DispatchSound, ResultSound, ReceiptSound, Readable, Enabled;
    var v := Apply(cfg, w, Publish(name, evidence));
    assert Grows(w.facts, v.facts, |w.calls|);
    ChainKept(cfg, w.facts, v.facts, |w.calls|);
    HistoryKept(w.facts, v.facts, |w.calls|);
    forall j | 0 <= j < |v.calls| ensures CallSound(cfg, v.facts, j, v.calls[j]) {
      OthersKeep(cfg, w.facts, v.facts, |w.calls|, j, w.calls[j]);
    }
  }

  lemma ApplyKeeps(cfg: Config, w: World, step: Label)
    requires Sound(cfg.env) && Inv(cfg, w)
    ensures Inv(cfg, Apply(cfg, w, step))
  {
    hide CallSound, StoreSound, HistorySound, Kept, Step, Sound;
    match step
    case Enter(requester, role, catalog, intent) =>
      if WellFormed(catalog) { BeginSound(cfg, w.facts, |w.calls|, requester, role, catalog, intent); }
    case Publish(name, evidence) => PublishKeeps(cfg, w, name, evidence);
    case Act(i, action) =>
      if i < |w.calls| {
        StepKeeps(cfg, w.facts, i, w.calls[i], action);
        WriteKeeps(cfg, w, Apply(cfg, w, step), i);
      }
  }

  /** The invariant holds after every run. */
  lemma {:induction false} ExecKeeps(cfg: Config, labels: seq<Label>)
    requires Sound(cfg.env)
    ensures Inv(cfg, Exec(cfg, labels))
  {
    hide Apply, CallSound, Sound;
    if labels != [] {
      ExecKeeps(cfg, labels[..|labels| - 1]);
      ApplyKeeps(cfg, Exec(cfg, labels[..|labels| - 1]), labels[|labels| - 1]);
    }
  }
}
