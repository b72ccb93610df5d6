/** The whole way of an approved operation: from its entry, undisturbed, to exactly one call of the
    provider, an accepted result and a stored receipt. */
module ProtocolDelivery {
  import opened Prelude
  import opened Patterns
  import opened CanonicalJson
  import opened Contract
  import opened Catalog
  import opened Broker
  import opened Protocol
  import opened ProtocolInvariant
  import opened ProtocolSteps
  import opened ProtocolSafety
  import opened ProtocolTrace
  import opened ProtocolRetry
  import opened ProtocolToken

  // ---------------------------------------------------------------- admission

  /** What the call enters, what the clock, the random source and the role lookups say, and the stored evidence. */
  function OriginFrom(s: Store, c: Call, a: Action): Origin
    requires a.Admit? && a.nonce.Some? && c.intent.evidenceDigest in s.evidence
  {
    Origin(a.clock / SECOND * SECOND, a.nonce.value, c.requester, c.intent, s.evidence[c.intent.evidenceDigest], a.answers)
  }

  /** A new call that will be admitted with this request. */
  ghost predicate Approvable(cfg: Config, w: World, i: nat, a: Action, request: Request)
  {
    && i < |w.calls| && w.calls[i].pc == ReadingRequest && a.Admit? && !a.fault && a.nonce.Some?
    && w.calls[i].intent.evidenceDigest in w.facts.store.evidence
    && Admitted(cfg.env, OriginFrom(w.facts.store, w.calls[i], a), request)
  }

  /** None of the three keys is reserved. */
  ghost predicate KeysFree(cfg: Config, s: Store, o: Origin, request: Request)
  {
    && request.requestId !in s.reservations && BindingDigest(cfg.env, request) !in s.bindings
    && o.evidence.approval.approvalId !in s.approvals
  }

  /** The store with the three keys reserved for a request. */
  function Reserved(cfg: Config, s: Store, o: Origin, request: Request): Store
  {
    s.(reservations := s.reservations[request.requestId := Payload(request)],
       bindings := s.bindings[BindingDigest(cfg.env, request) := request.requestId],
       approvals := s.approvals[o.evidence.approval.approvalId := request.requestId])
  }

  /** The writes of an undisturbed `ReserveRequest`. */
  function Reservations(cfg: Config, i: nat, clock: int): seq<Label>
  {
    var write := Act(i, Create(Answered, clock));
    if cfg.backend.Memory? then [write] else [write, write, write]
  }

  /** The labels of an undisturbed `Create` of a new request up to its first preparation. */
  function Admission(cfg: Config, i: nat, a: Action, clock: int): seq<Label>
  {
    [Act(i, Read(false)), Act(i, a)] + Reservations(cfg, i, clock) + [Act(i, Create(Answered, clock))]
  }

  lemma AdmittedReserves(env: Env, o: Origin, request: Request)
    requires Sound(env) && Admitted(env, o, request)
    ensures ValidReservation(env, request.requestId, BindingDigest(env, request), o.evidence.approval.approvalId, request.nonce, request.expiresAt)
    ensures RequestDigestOk(env, request, None)
  {
    hide IsUuid, IsDigest, IsNonce, Approves, BindingTree, Printable, Print, EvidenceTree, RequestTree, SealRequest, IsEmail, IsReason;
    RequestOkFromSeal(env, o, request);
    BindingPrintable(request);
  }

  lemma BindingPrintable(request: Request)
    ensures Printable(BindingTree(request))
  {
    hide Integer, Struct, Printable;
    IntegerRoundTrip(request.workflowId);
    IntegerRoundTrip(request.workflowRunId);
    TextPrintable(request.operation); TextPrintable(request.repository); TextPrintable(request.protectedMainSha);
    TextPrintable(request.planDigest); TextPrintable(request.evidenceDigest); TextPrintable(request.requestedBy);
    TextPrintable(request.reason);
    StructPrintable(BINDING_KEYS, [Str(request.operation), Str(request.repository), Integer(request.workflowId), Integer(request.workflowRunId),
                          Str(request.protectedMainSha), Str(request.planDigest), Str(request.evidenceDigest), Str(request.requestedBy), Str(request.reason)]);
  }

  lemma TextPrintable(s: string)
    ensures Printable(Str(s))
  {}

  lemma AdmissionEnters(cfg: Config, w: World, i: nat, a: Action, request: Request)
    requires Approvable(cfg, w, i, a, request) && w.calls[i].intent.requestId !in w.facts.store.requests
    ensures Apply(cfg, Apply(cfg, w, Act(i, Read(false))), Act(i, a)) ==
            Moved(w, i, Reserving(OriginFrom(w.facts.store, w.calls[i], a), request))
  {
    hide Apply, EvidenceAccepted, InWindow, SealRequest, Draft;
    GoMoves(cfg, w, i, Read(false), ReadingEvidence);
    var v := Moved(w, i, ReadingEvidence);
    var next := Reserving(OriginFrom(w.facts.store, w.calls[i], a), request);
    GoMoves(cfg, v, i, a, next);
    MovedTwice(w, i, ReadingEvidence, next);
  }

  /** Call `i` reserved all three keys for its request; nothing else was written or sent. */
  ghost predicate HasReserved(cfg: Config, w: World, v: World, i: nat, o: Origin, request: Request)
  {
    && i < |w.calls| == |v.calls| && v.calls[i] == w.calls[i].(pc := StoringRequest(o, request))
    && v.facts.store == Reserved(cfg, w.facts.store, o, request) && v.facts.history == w.facts.history
    && v.facts.origins == w.facts.origins
  }

  ghost predicate CanReserve(cfg: Config, w: World, i: nat, o: Origin, request: Request)
  {
    && i < |w.calls| && w.calls[i].pc == Reserving(o, request) && KeysFree(cfg, w.facts.store, o, request)
    && ValidReservation(cfg.env, request.requestId, BindingDigest(cfg.env, request), o.evidence.approval.approvalId, request.nonce, request.expiresAt)
  }

  lemma MemoryReserves(cfg: Config, w: World, i: nat, o: Origin, request: Request, clock: int)
    requires cfg.backend.Memory? && CanReserve(cfg, w, i, o, request)
    ensures HasReserved(cfg, w, Apply(cfg, w, Act(i, Create(Answered, clock))), i, o, request)
  {
    hide BindingDigest, ValidReservation, Payload;
    assert Step(cfg, w.facts.store, w.calls[i], Create(Answered, clock)) == StepReserve(cfg, w.facts.store, w.calls[i], Answered);
  }

  lemma GcsReservesId(cfg: Config, w: World, i: nat, o: Origin, request: Request, clock: int)
    requires cfg.backend.Gcs? && CanReserve(cfg, w, i, o, request)
    ensures var v := Apply(cfg, w, Act(i, Create(Answered, clock)));
            && |v.calls| == |w.calls| && v.calls[i] == w.calls[i].(pc := ReservingBinding(o, request)) && v.facts.history == w.facts.history
            && v.facts.origins == w.facts.origins
            && v.facts.store == w.facts.store.(reservations := w.facts.store.reservations[request.requestId := Payload(request)])
  {
    hide BindingDigest, ValidReservation, Payload;
    assert Step(cfg, w.facts.store, w.calls[i], Create(Answered, clock)) == StepReserve(cfg, w.facts.store, w.calls[i], Answered);
  }

  lemma GcsReservesBinding(cfg: Config, w: World, i: nat, o: Origin, request: Request, clock: int)
    requires i < |w.calls| && w.calls[i].pc == ReservingBinding(o, request) && BindingDigest(cfg.env, request) !in w.facts.store.bindings
    ensures var v := Apply(cfg, w, Act(i, Create(Answered, clock)));
            && |v.calls| == |w.calls| && v.calls[i] == w.calls[i].(pc := ReservingApproval(o, request)) && v.facts.history == w.facts.history
            && v.facts.origins == w.facts.origins
            && v.facts.store == w.facts.store.(bindings := w.facts.store.bindings[BindingDigest(cfg.env, request) := request.requestId])
  {
    hide BindingDigest;
    assert Step(cfg, w.facts.store, w.calls[i], Create(Answered, clock)) == StepReserveBinding(cfg, w.facts.store, w.calls[i], Answered);
  }

  lemma GcsReservesApproval(cfg: Config, w: World, i: nat, o: Origin, request: Request, clock: int)
    requires i < |w.calls| && w.calls[i].pc == ReservingApproval(o, request) && o.evidence.approval.approvalId !in w.facts.store.approvals
    ensures var v := Apply(cfg, w, Act(i, Create(Answered, clock)));
            && |v.calls| == |w.calls| && v.calls[i] == w.calls[i].(pc := StoringRequest(o, request)) && v.facts.history == w.facts.history
            && v.facts.origins == w.facts.origins
            && v.facts.store == w.facts.store.(approvals := w.facts.store.approvals[o.evidence.approval.approvalId := request.requestId])
  {
    assert Step(cfg, w.facts.store, w.calls[i], Create(Answered, clock)) == StepReserveApproval(w.facts.store, w.calls[i], Answered);
  }

  /** With the three keys free, the undisturbed reservation of either repository takes all of them. */
  lemma ReservationTakes(cfg: Config, w: World, i: nat, o: Origin, request: Request, clock: int)
    requires CanReserve(cfg, w, i, o, request)
    ensures HasReserved(cfg, w, Run(cfg, w, Reservations(cfg, i, clock)), i, o, request)
  {
    hide Apply, Run, BindingDigest, ValidReservation, Payload;
    var write := Act(i, Create(Answered, clock));
    if cfg.backend.Memory? {
      MemoryReserves(cfg, w, i, o, request, clock);
      RunOne(cfg, w, write);
    } else {
      GcsReservesId(cfg, w, i, o, request, clock);
      var u := Apply(cfg, w, write);
      GcsReservesBinding(cfg, u, i, o, request, clock);
      GcsReservesApproval(cfg, Apply(cfg, u, write), i, o, request, clock);
      RunThree(cfg, w, write, write, write);
    }
  }

  /** Call `i` has stored its request and is about to prepare it. */
  ghost predicate HasStored(cfg: Config, w: World, v: World, i: nat, o: Origin, request: Request)
  {
    && i < |w.calls| == |v.calls| && v.calls[i] == w.calls[i].(pc := Preparing(request))
    && v.facts.store == Reserved(cfg, w.facts.store, o, request).(requests := w.facts.store.requests[request.requestId := request])
    && v.facts.history == w.facts.history && v.facts.origins == w.facts.origins[request.requestId := o]
  }

  lemma RequestLands(cfg: Config, w: World, u: World, i: nat, o: Origin, request: Request, clock: int)
    requires HasReserved(cfg, w, u, i, o, request) && RequestDigestOk(cfg.env, request, None) && request.requestId !in w.facts.store.requests
    requires i < |w.calls| && request.requestId == w.calls[i].intent.requestId
    ensures HasStored(cfg, w, Apply(cfg, u, Act(i, Create(Answered, clock))), i, o, request)
  {
    hide RequestDigestOk, BindingDigest, Payload;
    assert Step(cfg, u.facts.store, u.calls[i], Create(Answered, clock)) == StepStoreRequest(cfg.env, u.facts.store, u.calls[i], Answered);
  }

  /** An approvable call with free keys, undisturbed, reserves all three, stores its request and prepares it. */
  lemma AdmissionLeads(cfg: Config, w: World, i: nat, a: Action, request: Request, clock: int)
    requires Sound(cfg.env) && Reachable(cfg, w) && Approvable(cfg, w, i, a, request)
    requires KeysFree(cfg, w.facts.store, OriginFrom(w.facts.store, w.calls[i], a), request)
    ensures HasStored(cfg, w, Run(cfg, w, Admission(cfg, i, a, clock)), i, OriginFrom(w.facts.store, w.calls[i], a), request)
    ensures request.requestId == w.calls[i].intent.requestId && request.requestId !in w.facts.store.requests
  {
    hide Sound, Reachable, StoreSound, HistorySound, CallSound, Apply, Run, Admitted, RequestDigestOk, ValidReservation,
         Reservations, HasReserved, HasStored;
    var o := OriginFrom(w.facts.store, w.calls[i], a);
    AdmittedServes(cfg.env, o, request);
    AdmittedReserves(cfg.env, o, request);
    ReachableKeeps(cfg, w);
    FreeIdFreeRequest(cfg, w.facts, request.requestId);
    AdmissionEnters(cfg, w, i, a, request);
    var v := Moved(w, i, Reserving(o, request));
    ReservationTakes(cfg, v, i, o, request, clock);
    RunTwo(cfg, w, Act(i, Read(false)), Act(i, a));
    var front := [Act(i, Read(false)), Act(i, a)];
    RunConcat(cfg, w, front, Reservations(cfg, i, clock));
    var u := Run(cfg, v, Reservations(cfg, i, clock));
    RequestLands(cfg, v, u, i, o, request, clock);
    RunOne(cfg, u, Act(i, Create(Answered, clock)));
    RunConcat(cfg, w, front + Reservations(cfg, i, clock), [Act(i, Create(Answered, clock))]);
    StoredFrom(cfg, w, i, Reserving(o, request), Apply(cfg, u, Act(i, Create(Answered, clock))), o, request);
  }

  lemma StoredFrom(cfg: Config, w: World, i: nat, pc: Pc, v: World, o: Origin, request: Request)
    requires i < |w.calls| && HasStored(cfg, Moved(w, i, pc), v, i, o, request)
    ensures HasStored(cfg, w, v, i, o, request)
  {
    hide BindingDigest, Payload;
  }

  /** A free request ID has no request. */
  lemma FreeIdFreeRequest(cfg: Config, f: Facts, id: string)
    requires StoreSound(cfg, f) && id !in f.store.reservations
    ensures id !in f.store.requests
  {
    hide RequestOk, Admitted, EvidenceStored, BindingReserved, ApprovalReserved, DispatchSound, ResultSound, ReceiptSound;
    assert id in f.store.requests ==> RequestSound(cfg, f, id);
  }

  // ---------------------------------------------------------------- delivery

  /** The labels of an undisturbed `prepare` whose mutation is confirmed, up to the stored result. */
  function Delivery(i: nat, observed: Observation, receiptId: string, operation: string, clock: int, answered: int): seq<Label>
  {
    [Act(i, Provide(observed, Some(receiptId), clock)), Act(i, Create(Answered, clock)),
     Act(i, Mutate(Status(ExpectedStatus(operation)), answered)), Act(i, Create(Answered, answered))]
  }

  /** A call about to prepare a request that has no dispatch, and a provider that shows it ready. */
  ghost predicate ReadyToDeliver(w: World, i: nat, request: Request, observed: Observation)
  {
    && i < |w.calls| && w.calls[i].pc == Preparing(request) && request.requestId !in w.facts.store.dispatches
    && ShowsReady(request, observed) && ObservationFits(request, observed)
  }

  lemma RecordDispatches(cfg: Config, u: World, i: nat, request: Request, dispatch: Dispatch, clock: int)
    requires i < |u.calls| && u.calls[i].pc == StoringDispatch(request, dispatch, PROCEED)
    requires DispatchDigestOk(cfg.env, dispatch) && dispatch.requestId !in u.facts.store.dispatches
    ensures var v := Apply(cfg, u, Act(i, Create(Answered, clock)));
            && |v.calls| == |u.calls| && v.calls[i] == u.calls[i].(pc := Dispatching(request, dispatch)) && v.facts.history == u.facts.history
            && v.facts.store == u.facts.store.(dispatches := u.facts.store.dispatches[dispatch.requestId := dispatch])
  {
    hide DispatchDigestOk;
    assert Step(cfg, u.facts.store, u.calls[i], Create(Answered, clock)) == StepStoreDispatch(cfg.env, u.facts.store, u.calls[i], Answered, clock);
  }

  /** The provider confirms the mutation. */
  lemma ConfirmedStep(cfg: Config, u: World, i: nat, request: Request, dispatch: Dispatch, reply: Reply, clock: int, result: Result)
    requires i < |u.calls| && u.calls[i].pc == Dispatching(request, dispatch)
    requires DecodeState(dispatch.recoveryToken, u.calls[i].target, request).Some?
    requires var outcome := DispatchOutcome(u.calls[i].target, request, dispatch.recoveryToken, reply);
             outcome.final && NewResult(cfg.env, request, dispatch, outcome, clock) == Some(result)
    ensures var v := Apply(cfg, u, Act(i, Mutate(reply, clock)));
            && |v.calls| == |u.calls| && v.calls[i].pc == StoringResult(request, dispatch, result) && v.facts.store == u.facts.store
            && v.facts.history == u.facts.history + [Event(u.calls[i].target, request, Some(reply))]
  {
    hide DecodeState, DispatchOutcome, NewResult;
    assert Step(cfg, u.facts.store, u.calls[i], Mutate(reply, clock)) == StepDispatch(cfg.env, u.facts.store, u.calls[i], reply, clock);
  }

  /** The outcome of a confirmed mutation is an acceptance that seals. */
  lemma ConfirmedOutcome(target: RepositoryTarget, request: Request, observed: Observation)
    requires TargetFits(target, request) && Prepare(target, request, observed).1 == PROCEED
    requires IsRecoveryToken(Prepare(target, request, observed).0)
    ensures var token := Prepare(target, request, observed).0;
            var outcome := DispatchOutcome(target, request, token, Status(ExpectedStatus(request.operation)));
            && DecodeState(token, target, request).Some? && outcome.final && outcome.accepted && Sealable(outcome)
  {
    hide Prepare, DecodeState, Sealable;
    assert |Prepare(target, request, observed).0| <= 4096;
    hide IsRecoveryToken;
    FinalOutcomesSeal(target, request, observed, target, Status(ExpectedStatus(request.operation)), observed);
    ObservedTokenDecodes(target, request, observed);
  }

  lemma ObservedTokenDecodes(target: RepositoryTarget, request: Request, observed: Observation)
    requires TargetFits(target, request) && Prepare(target, request, observed).1 == PROCEED
    requires IsRecoveryToken(Prepare(target, request, observed).0)
    ensures DecodeState(Prepare(target, request, observed).0, target, request).Some?
  {
    hide Prepare, ReadToken, DecodeState;
    PreparationReadable(target, request, observed);
    ReadableDecodes(Prepare(target, request, observed).0, target, request);
  }

  /** One call of the provider was made and confirmed; its accepted result and this receipt are stored and
      the receipt was returned. */
  ghost predicate DeliveredOnce(cfg: Config, w: World, v: World, i: nat, request: Request, receipt: Receipt)
  {
    && i < |w.calls| == |v.calls| && v.calls[i].pc == Returned(Answer(Some(receipt), None)) && Durable(cfg, v.facts, receipt)
    && v.facts.history == w.facts.history + [Event(w.calls[i].target, request, Some(Status(ExpectedStatus(request.operation))))]
    && request.requestId in v.facts.store.results && v.facts.store.results[request.requestId].status == ACCEPTED
    && FinalReceipt(cfg.env, request, v.facts.store.results[request.requestId]) == Some(receipt)
  }

  lemma FourLabels(cfg: Config, w: World, a: Label, b: Label, c: Label, d: Label)
    ensures Run(cfg, w, [a, b, c, d]) == Apply(cfg, Apply(cfg, Apply(cfg, Apply(cfg, w, a), b), c), d)
  {
    hide Apply, Run;
    assert [a, b, c, d] == [a, b, c] + [d];
    RunConcat(cfg, w, [a, b, c], [d]);
    RunThree(cfg, w, a, b, c);
    RunOne(cfg, Run(cfg, w, [a, b, c]), d);
  }

  ghost predicate Mutated(cfg: Config, w: World, u: World, i: nat, request: Request, dispatch: Dispatch, result: Result)
  {
    && i < |w.calls| == |u.calls| && u.calls[i].pc == Finalize(cfg.env, request, dispatch, result)
    && u.facts.store == w.facts.store.(dispatches := w.facts.store.dispatches[request.requestId := dispatch],
                                       results := w.facts.store.results[request.requestId := result])
    && u.facts.history == w.facts.history + [Event(w.calls[i].target, request, Some(Status(ExpectedStatus(request.operation))))]
  }

  /** The records that a delivery makes. */
  ghost predicate Makes(cfg: Config, w: World, i: nat, request: Request, observed: Observation, receiptId: string, clock: int, answered: int,
                        dispatch: Dispatch, result: Result)
    requires i < |w.calls|
  {
    var target := w.calls[i].target;
    var (token, prepared) := Prepare(target, request, observed);
    var outcome := DispatchOutcome(target, request, token, Status(ExpectedStatus(request.operation)));
    && prepared == PROCEED && NewDispatch(cfg.env, request, receiptId, token, clock) == Some(dispatch) && outcome.final
    && dispatch.recoveryToken == token && DispatchDigestOk(cfg.env, dispatch) && dispatch.requestId == request.requestId
    && DecodeState(token, target, request).Some?
    && NewResult(cfg.env, request, dispatch, outcome, answered) == Some(result) && ResultDigestOk(cfg.env, result)
    && result.requestId == request.requestId && result.status == ACCEPTED && result.receiptId == receiptId
  }

  lemma DeliveryMakes(cfg: Config, w: World, i: nat, request: Request, observed: Observation, receiptId: string, clock: int, answered: int)
      returns (dispatch: Dispatch, result: Result)
    requires Sound(cfg.env) && i < |w.calls| && RequestOk(cfg.env, request) && IsUuid(receiptId)
    requires TargetFits(w.calls[i].target, request) && w.calls[i].target.mainBranch == "main"
    requires ShowsReady(request, observed) && ObservationFits(request, observed)
    ensures Makes(cfg, w, i, request, observed, receiptId, clock, answered, dispatch, result)
  {
    hide Sound, RequestOk, IsUuid, TargetFits, ShowsReady, ObservationFits, Prepare, NewDispatch, NewResult, DispatchOutcome, DecodeState,
         Sealable, DispatchOk, DispatchDigestOk, ResultOk, ResultDigestOk, IsRecoveryToken;
    var target := w.calls[i].target;
    ProceedsExactly(target, request, observed);
    PreparedRecordExactly(cfg.env, target, request, observed, receiptId, clock);
    var token := Prepare(target, request, observed).0;
    DispatchSealsExactly(cfg.env, request, receiptId, token, clock);
    dispatch := NewDispatch(cfg.env, request, receiptId, token, clock).value;
    ConfirmedOutcome(target, request, observed);
    var outcome := DispatchOutcome(target, request, token, Status(ExpectedStatus(request.operation)));
    NewResultSeals(cfg.env, request, dispatch, outcome, answered);
    result := NewResult(cfg.env, request, dispatch, outcome, answered).value;
    ResultOkDigest(cfg.env, result);
  }

  lemma DeliveryMutates(cfg: Config, w: World, i: nat, request: Request, observed: Observation, receiptId: string, clock: int, answered: int,
                        dispatch: Dispatch, result: Result)
    requires ReadyToDeliver(w, i, request, observed) && request.requestId !in w.facts.store.results
    requires Makes(cfg, w, i, request, observed, receiptId, clock, answered, dispatch, result)
    ensures Mutated(cfg, w, Run(cfg, w, Delivery(i, observed, receiptId, request.operation, clock, answered)), i, request, dispatch, result)
  {
    hide Apply, Run, Prepare, NewDispatch, NewResult, DispatchOutcome, DecodeState, Finalize, DispatchDigestOk, ResultDigestOk,
         ShowsReady, ObservationFits;
    var reply := Status(ExpectedStatus(request.operation));
    PreparingMoves(cfg, w, i, observed, Some(receiptId), clock);
    var u1 := Apply(cfg, w, Act(i, Provide(observed, Some(receiptId), clock)));
    PreparingKeepsTarget(cfg, w, i, observed, receiptId, clock);
    RecordDispatches(cfg, u1, i, request, dispatch, clock);
    var u2 := Apply(cfg, u1, Act(i, Create(Answered, clock)));
    ConfirmedStep(cfg, u2, i, request, dispatch, reply, answered, result);
    var u3 := Apply(cfg, u2, Act(i, Mutate(reply, answered)));
    ResultLands(cfg, u3, i, request, dispatch, result, answered);
    FourLabels(cfg, w, Act(i, Provide(observed, Some(receiptId), clock)), Act(i, Create(Answered, clock)), Act(i, Mutate(reply, answered)),
               Act(i, Create(Answered, answered)));
  }

  lemma PreparingKeepsTarget(cfg: Config, w: World, i: nat, observed: Observation, receiptId: string, clock: int)
    requires i < |w.calls|
    ensures var v := Apply(cfg, w, Act(i, Provide(observed, Some(receiptId), clock)));
            |v.calls| == |w.calls| && v.calls[i].target == w.calls[i].target
  {
    hide Step;
    StepKeepsCaller(cfg, w.facts.store, w.calls[i], Provide(observed, Some(receiptId), clock));
  }

  /** An approved request that the provider shows ready and whose mutation is confirmed is dispatched exactly
      once and ends, undisturbed, with an accepted result and its stored receipt. */
  lemma DeliveryConverges(cfg: Config, w: World, i: nat, request: Request, observed: Observation, receiptId: string, clock: int, answered: int)
    requires Sound(cfg.env) && Reachable(cfg, w) && ReadyToDeliver(w, i, request, observed) && IsUuid(receiptId)
    requires OwnReceiptId(w.facts, request.requestId, receiptId)
    ensures exists receipt :: DeliveredOnce(cfg, w, Run(cfg, w, Delivery(i, observed, receiptId, request.operation, clock, answered) + Storing(i, answered)),
                                            i, request, receipt)
  {
    hide Sound, Reachable, StoreSound, HistorySound, CallSound, Run, RequestOk, IsUuid, TargetFits, ShowsReady, ObservationFits, Makes,
         Delivery, Storing, FinalReceipt, Finalize, Durable;
    ReachableKeeps(cfg, w);
    PreparingTarget(cfg, w, i);
    NoResultYet(cfg, w.facts, request.requestId);
    var dispatch, result := DeliveryMakes(cfg, w, i, request, observed, receiptId, clock, answered);
    MadeFields(cfg, w, i, request, observed, receiptId, clock, answered, dispatch, result);
    DeliveryMutates(cfg, w, i, request, observed, receiptId, clock, answered, dispatch, result);
    var labels := Delivery(i, observed, receiptId, request.operation, clock, answered);
    var u := Run(cfg, w, labels);
    RunReachable(cfg, w, labels);
    RunConcat(cfg, w, labels, Storing(i, answered));
    RefusalEnds(cfg, u, i, request, dispatch, result, answered);
    FinalReceiptFields(cfg.env, request, result);
    assert DeliveredOnce(cfg, w, Run(cfg, u, Storing(i, answered)), i, request, FinalReceipt(cfg.env, request, result).value);
  }

  lemma MadeFields(cfg: Config, w: World, i: nat, request: Request, observed: Observation, receiptId: string, clock: int, answered: int,
                   dispatch: Dispatch, result: Result)
    requires i < |w.calls| && Makes(cfg, w, i, request, observed, receiptId, clock, answered, dispatch, result)
    ensures result.status == ACCEPTED && result.receiptId == receiptId && result.requestId == request.requestId
  {
    hide Prepare, NewDispatch, NewResult, DispatchOutcome, DecodeState, DispatchDigestOk, ResultDigestOk;
  }

  /** Without a dispatch there is no result. */
  lemma NoResultYet(cfg: Config, f: Facts, id: string)
    requires StoreSound(cfg, f) && id !in f.store.dispatches
    ensures id !in f.store.results
  {
    hide RequestSound, DispatchSound, ReceiptSound, ResultOk, Justified;
    assert id in f.store.results ==> ResultSound(cfg, f, id);
  }

  /** An approvable call whose keys are free, whose request the provider shows ready and whose mutation it
      confirms: undisturbed, from its first read on, it calls the provider exactly once and returns an
      accepted, stored receipt. */
  lemma ApprovedCallDelivers(cfg: Config, w: World, i: nat, a: Action, request: Request, observed: Observation, receiptId: string,
                             clock: int, answered: int)
    requires Sound(cfg.env) && Reachable(cfg, w) && Approvable(cfg, w, i, a, request)
    requires KeysFree(cfg, w.facts.store, OriginFrom(w.facts.store, w.calls[i], a), request)
    requires ShowsReady(request, observed) && ObservationFits(request, observed)
    requires IsUuid(receiptId) && OwnReceiptId(w.facts, request.requestId, receiptId)
    ensures exists receipt ::
              DeliveredOnce(cfg, w, Run(cfg, w, Admission(cfg, i, a, clock)
                                                + (Delivery(i, observed, receiptId, request.operation, clock, answered) + Storing(i, answered))),
                            i, request, receipt)
  {
    var o := OriginFrom(w.facts.store, w.calls[i], a);
    hide Sound, Reachable, StoreSound, HistorySound, CallSound, Run, Approvable, KeysFree, ShowsReady, ObservationFits, IsUuid, Admission,
         Delivery, Storing, HasStored, DeliveredOnce, OwnReceiptId;
    AdmissionLeads(cfg, w, i, a, request, clock);
    var rest := Delivery(i, observed, receiptId, request.operation, clock, answered) + Storing(i, answered);
    var v := Run(cfg, w, Admission(cfg, i, a, clock));
    RunReachable(cfg, w, Admission(cfg, i, a, clock));
    RunConcat(cfg, w, Admission(cfg, i, a, clock), rest);
    ReachableKeeps(cfg, w);
    NoDispatchYet(cfg, w.facts, request.requestId);
    StoredIsReady(cfg, w, v, i, o, request, receiptId);
    DeliveryConverges(cfg, v, i, request, observed, receiptId, clock, answered);
    var receipt :| DeliveredOnce(cfg, v, Run(cfg, v, rest), i, request, receipt);
    DeliveredFrom(cfg, w, v, Run(cfg, v, rest), i, o, request, receipt);
  }

  lemma StoredIsReady(cfg: Config, w: World, v: World, i: nat, o: Origin, request: Request, receiptId: string)
    requires HasStored(cfg, w, v, i, o, request) && request.requestId !in w.facts.store.dispatches
    requires OwnReceiptId(w.facts, request.requestId, receiptId)
    ensures i < |v.calls| && v.calls[i].pc == Preparing(request) && request.requestId !in v.facts.store.dispatches
    ensures OwnReceiptId(v.facts, request.requestId, receiptId)
  {
    hide BindingDigest, Payload;
  }

  lemma DeliveredFrom(cfg: Config, w: World, v: World, u: World, i: nat, o: Origin, request: Request, receipt: Receipt)
    requires HasStored(cfg, w, v, i, o, request) && DeliveredOnce(cfg, v, u, i, request, receipt)
    ensures DeliveredOnce(cfg, w, u, i, request, receipt)
  {
    hide BindingDigest, Payload, Reserved, Durable, FinalReceipt;
  }

  /** Without a request there is no dispatch. */
  lemma NoDispatchYet(cfg: Config, f: Facts, id: string)
    requires StoreSound(cfg, f) && id !in f.store.requests
    ensures id !in f.store.dispatches
  {
    hide RequestSound, ResultSound, ReceiptSound, DispatchOk, Usable;
    assert id in f.store.dispatches ==> DispatchSound(cfg, f, id);
  }
}
