/** The operation outbox (internal/operations/service.go:57-244) as a state machine: any number of
    concurrent `Create` calls against one create-only store and one provider. A label is one call of
    the repository or of the dispatcher together with the answer it got; a run is any sequence of
    labels. A call that is never scheduled again has crashed, so every prefix of a call is covered. */
module Protocol {
  import opened Prelude
  import opened Patterns
  import opened CanonicalJson
  import opened Contract
  import opened Catalog
  import opened Broker
  import Roles

  /** The two repositories: one reserves atomically and keys receipts by identity, the other
      reserves in three writes and keys receipts by audit object. */
  datatype Backend = Memory | Gcs

  datatype Config = Config(env: Env, backend: Backend)

  // ---------------------------------------------------------------- the store

  datatype Store = Store(
    evidence: map<string, Evidence>,
    reservations: map<string, string>,
    bindings: map<string, string>,
    approvals: map<string, string>,
    requests: map<string, Request>,
    dispatches: map<string, Dispatch>,
    results: map<string, Result>,
    receipts: map<string, Receipt>)

  const EMPTY: Store := Store(map[], map[], map[], map[], map[], map[], map[], map[])

  /** How a create-only write went: answered, performed but reported as an error, or not performed. */
  datatype Write = Answered | AnswerLost | NotPerformed

  datatype Reaction = Stored | Conflict | Failed

  function React(present: bool, write: Write): Reaction
  {
    if !write.Answered? then Failed else if present then Conflict else Stored
  }

  function Put<V>(m: map<string, V>, key: string, value: V, write: Write): map<string, V>
  {
    if key in m || write.NotPerformed? then m else m[key := value]
  }

  // ---------------------------------------------------------------- admission

  const OPERATOR: int := Roles.OPERATOR
  const APPROVER: int := Roles.APPROVER
  const ADMIN: int := Roles.ADMIN

  datatype RoleAnswer = Role(role: int) | RoleError

  /** The approver loop: the requester is skipped, an error or the end of the list denies. */
  function Approves(approvers: seq<string>, requester: string, answers: map<string, RoleAnswer>): bool
  {
    if approvers == [] then false
    else if EqualFold(approvers[0], requester) then Approves(approvers[1..], requester, answers)
    else if approvers[0] !in answers || answers[approvers[0]].RoleError? then false
    else if answers[approvers[0]].role >= APPROVER then true
    else Approves(approvers[1..], requester, answers)
  }

  /** `validateEvidence`. */
  predicate EvidenceAccepted(env: Env, now: int, requester: string, intent: Intent, evidence: Evidence, answers: map<string, RoleAnswer>)
  {
    && EvidenceDigestOk(env, evidence, Some(now))
    && evidence.digest == intent.evidenceDigest && evidence.repository == intent.repository
    && evidence.workflowId == intent.workflowId && evidence.protectedMainSha == intent.protectedMainSha
    && evidence.planDigest == intent.planDigest
    && evidence.approval.operation == intent.operation && EqualFold(evidence.approval.requestedBy, requester)
    && evidence.approval.reason == intent.reason
    && (if intent.operation == REFRESH then intent.workflowRunId == 0 else evidence.workflowRunId == intent.workflowRunId)
    && (intent.operation == CANCEL ==> evidence.superseded)
    && Approves(evidence.approval.approvers, requester, answers)
  }

  /** Everything a request was created from. */
  datatype Origin = Origin(now: int, nonce: string, requester: string, intent: Intent, evidence: Evidence, answers: map<string, RoleAnswer>)

  /** The expiry window, at a clock truncated to seconds. */
  predicate InWindow(env: Env, now: int, expiresAt: string)
  {
    IsTime(env, expiresAt) && now < env.parseTime(expiresAt).value <= now + 10 * MINUTE
  }

  function Draft(env: Env, o: Origin): Request
    requires IsTime(env, o.intent.expiresAt)
  {
    Request(REQUEST_SCHEMA, o.intent.requestId, o.intent.operation, o.intent.repository, o.intent.workflowId,
            o.intent.workflowRunId, o.intent.protectedMainSha, o.intent.planDigest, o.intent.evidenceDigest,
            o.intent.reason, ToLower(o.requester), Timestamp(env, o.now),
            Timestamp(env, env.parseTime(o.intent.expiresAt).value), o.nonce, "", NO_SIGNATURE)
  }

  /** The request was sealed from this origin, whose evidence was acceptable at that moment. */
  predicate Admitted(env: Env, o: Origin, request: Request)
  {
    && InWindow(env, o.now, o.intent.expiresAt)
    && EvidenceAccepted(env, o.now, o.requester, o.intent, o.evidence, o.answers)
    && SealRequest(env, Draft(env, o)) == Some(request)
  }

  predicate MatchesIntent(request: Request, intent: Intent, requester: string)
  {
    && request.requestId == intent.requestId && request.operation == intent.operation && request.repository == intent.repository
    && request.workflowId == intent.workflowId && request.workflowRunId == intent.workflowRunId
    && request.protectedMainSha == intent.protectedMainSha && request.planDigest == intent.planDigest
    && request.evidenceDigest == intent.evidenceDigest && request.reason == intent.reason
    && EqualFold(request.requestedBy, requester) && request.expiresAt == intent.expiresAt
  }

  const BINDING_KEYS: seq<string> := [
    "operation", "repository", "workflow_id", "workflow_run_id", "protected_main_sha", "plan_digest",
    "evidence_digest", "requested_by", "reason"]

  function BindingTree(r: Request): Json
  {
    Struct(BINDING_KEYS, [Str(r.operation), Str(r.repository), Integer(r.workflowId), Integer(r.workflowRunId),
                          Str(r.protectedMainSha), Str(r.planDigest), Str(r.evidenceDigest), Str(r.requestedBy), Str(r.reason)])
  }

  /** `operationBindingDigest`. */
  function BindingDigest(env: Env, r: Request): string
  {
    match Digest(env, BindingTree(r))
    case Some(digest) => digest
    case None => ""
  }

  predicate ValidReservation(env: Env, requestId: string, bindingDigest: string, approvalId: string, nonce: string, expiresAt: string)
  {
    IsUuid(requestId) && IsUuid(approvalId) && IsDigest(bindingDigest) && IsNonce(nonce) && IsTime(env, expiresAt)
  }

  /** What a reservation keeps under the request ID. */
  function Payload(request: Request): string { request.nonce + ":" + request.expiresAt }

  // ---------------------------------------------------------------- records a call makes

  function NewDispatch(env: Env, request: Request, receiptId: string, token: string, now: int): Option<Dispatch>
  {
    SealDispatch(env, Dispatch("", request.requestId, request.digest, receiptId, token, Timestamp(env, now), "", NO_SIGNATURE))
  }

  function NewResult(env: Env, request: Request, dispatch: Dispatch, outcome: Outcome, now: int): Option<Result>
  {
    SealResult(env, Result("", request.requestId, request.digest, dispatch.receiptId,
                           if outcome.accepted then ACCEPTED else REJECTED, outcome.reasonCode,
                           outcome.providerReference, Timestamp(env, now), "", NO_SIGNATURE))
  }

  /** The one receipt that a stored result determines. */
  function FinalReceipt(env: Env, request: Request, result: Result): Option<Receipt>
  {
    SealReceipt(env, Receipt(RECEIPT_SCHEMA, result.receiptId, request.requestId, request.digest, request.operation,
                             request.repository, result.status, result.reasonCode, result.providerReference,
                             result.recordedAt, AuditObject(env, result.recordedAt, result.receiptId), "", NO_SIGNATURE))
  }

  function ReceiptKey(cfg: Config, receipt: Receipt): string
  {
    if cfg.backend.Memory? then receipt.receiptId else receipt.auditObject
  }

  /** `GetReceiptByObject`. */
  ghost function FindReceipt(receipts: map<string, Receipt>, objectName: string): (r: Option<Receipt>)
    ensures r.Some? ==> r.value.auditObject == objectName && exists key :: key in receipts && receipts[key] == r.value
    ensures r.None? ==> forall key :: key in receipts ==> receipts[key].auditObject != objectName
  {
    if exists key :: key in receipts && receipts[key].auditObject == objectName then
      var key :| key in receipts && receipts[key].auditObject == objectName;
      Some(receipts[key])
    else None
  }

  // ---------------------------------------------------------------- calls

  datatype Error = Denied | Invalid | Replay | Unready | Pending | NotCatalogued | OperationDisabled | Internal

  datatype Answer = Answer(receipt: Option<Receipt>, error: Option<Error>)

  /** Where a call stands: which repository or dispatcher call it makes next, and its locals. */
  datatype Pc =
    | ReadingRequest
    | ReadingEvidence
    | Reserving(origin: Origin, request: Request)
    | ReservingBinding(origin: Origin, request: Request)
    | ReservingApproval(origin: Origin, request: Request)
    | StoringRequest(origin: Origin, request: Request)
    | ReadingWinner
    | Preparing(request: Request)
    | StoringDispatch(request: Request, dispatch: Dispatch, prepared: Outcome)
    | Dispatching(request: Request, dispatch: Dispatch)
    | Resuming(request: Request)
    | ReadingResult(request: Request, dispatch: Dispatch)
    | Recovering(request: Request, dispatch: Dispatch)
    | StoringResult(request: Request, dispatch: Dispatch, result: Result)
    | ReadingStoredResult(request: Request, dispatch: Dispatch)
    | StoringReceipt(request: Request, receipt: Receipt)
    | ReadingStoredReceipt(request: Request, receipt: Receipt)
    | Returned(answer: Answer)

  datatype Call = Call(intent: Intent, requester: string, target: RepositoryTarget, pc: Pc, preparations: nat)

  function Fail(error: Error): Pc { Returned(Answer(None, Some(error))) }

  const INTENT_SCHEMA: string := "estate.operation-intent/v1"

  const NO_TARGET: RepositoryTarget := RepositoryTarget("", "", None, None)

  /** The front of `Create`, before any repository call. */
  function Begin(requester: string, role: int, catalog: Catalog, intent: Intent): Call
  {
    if role < OPERATOR || role > ADMIN then Call(intent, requester, NO_TARGET, Fail(Denied), 0)
    else if intent.schemaVersion != INTENT_SCHEMA || !IsUuid(intent.requestId) || !AllowedOperation(intent.operation) then
      Call(intent, requester, NO_TARGET, Fail(Invalid), 0)
    else
      match Authorize(catalog, intent)
      case NotCatalogued => Call(intent, requester, NO_TARGET, Fail(Error.NotCatalogued), 0)
      case Disabled => Call(intent, requester, NO_TARGET, Fail(OperationDisabled), 0)
      case Unready => Call(intent, requester, NO_TARGET, Fail(Error.Unready), 0)
      case Granted(target) => Call(intent, requester, target, ReadingRequest, 0)
  }

  /** What the environment supplies to one step. */
  datatype Action =
    | Read(fault: bool)
    | Admit(fault: bool, clock: int, nonce: Option<string>, answers: map<string, RoleAnswer>)
    | Create(write: Write, clock: int)
    | Provide(observed: Observation, receiptId: Option<string>, clock: int)
    | Mutate(reply: Reply, clock: int)
    | Observe(observed: Observation, clock: int)

  /** A call of `Dispatcher.Dispatch`; `mutation` is the provider's answer when a mutation was sent. */
  datatype Event = Event(target: RepositoryTarget, request: Request, mutation: Option<Reply>)

  /** A call of `Dispatcher.Prepare` or `Dispatcher.Recover` and what the provider then showed. */
  datatype Sighting = Sighting(target: RepositoryTarget, request: Request, token: string, observed: Observation)

  /** The consequences of a step: the new store and call, and what history has to remember. */
  datatype Effect = Effect(store: Store, call: Call, sent: Option<Event>, landed: Option<Origin>, reserved: bool, wrote: bool,
                           seen: Option<Sighting> := None, prepared: Option<Sighting> := None)

  function Go(s: Store, c: Call, pc: Pc): Effect { Effect(s, c.(pc := pc), None, None, false, false) }

  /** `finalize` up to its `PutReceipt`. */
  function Finalize(env: Env, request: Request, dispatch: Dispatch, result: Result): Pc
  {
    if result.requestId != request.requestId || result.requestDigest != request.digest || result.receiptId != dispatch.receiptId
    then Fail(Internal)
    else
      match FinalReceipt(env, request, result)
      case None => Fail(Pending)
      case Some(receipt) => StoringReceipt(request, receipt)
  }

  /** `complete` up to its `PutDispatchResult`. */
  function Complete(env: Env, request: Request, dispatch: Dispatch, outcome: Outcome, now: int): Pc
  {
    if !outcome.final then Fail(Pending)
    else
      match NewResult(env, request, dispatch, outcome, now)
      case None => Fail(Pending)
      case Some(result) => StoringResult(request, dispatch, result)
  }

  function Deliver(receipt: Receipt): Pc
  {
    Returned(Answer(Some(receipt), if receipt.status != ACCEPTED then Some(Error.Unready) else None))
  }

  function StepReadRequest(env: Env, s: Store, c: Call, fault: bool): Pc
  {
    if fault then Fail(Internal)
    else if c.intent.requestId !in s.requests then ReadingEvidence
    else
      var existing := s.requests[c.intent.requestId];
      if !RequestOk(env, existing) then Fail(Internal)
      else if !MatchesIntent(existing, c.intent, c.requester) then Fail(Replay)
      else Resuming(existing)
  }

  function StepAdmit(env: Env, s: Store, c: Call, a: Action): Pc
    requires a.Admit?
  {
    var now := a.clock / SECOND * SECOND;
    if !InWindow(env, now, c.intent.expiresAt) then Fail(Invalid)
    else if a.fault || c.intent.evidenceDigest !in s.evidence then Fail(Invalid)
    else
      var evidence := s.evidence[c.intent.evidenceDigest];
      if !EvidenceAccepted(env, now, c.requester, c.intent, evidence, a.answers) then Fail(Denied)
      else if a.nonce.None? then Fail(Internal)
      else
        var origin := Origin(now, a.nonce.value, c.requester, c.intent, evidence, a.answers);
        match SealRequest(env, Draft(env, origin))
        case None => Fail(Invalid)
        case Some(request) => Reserving(origin, request)
  }

  function StepReserve(cfg: Config, s: Store, c: Call, write: Write): Effect
    requires c.pc.Reserving?
  {
    var request, id, approval := c.pc.request, c.pc.request.requestId, c.pc.origin.evidence.approval.approvalId;
    var binding := BindingDigest(cfg.env, request);
    var payload := Payload(request);
    if !ValidReservation(cfg.env, id, binding, approval, request.nonce, request.expiresAt) then Go(s, c, Fail(Internal))
    else if cfg.backend.Memory? then
      var taken := id in s.reservations || binding in s.bindings || approval in s.approvals;
      var s' := if taken || write.NotPerformed? then s
                else s.(reservations := s.reservations[id := payload], bindings := s.bindings[binding := id],
                        approvals := s.approvals[approval := id]);
      match React(taken, write)
      case Stored => Effect(s', c.(pc := StoringRequest(c.pc.origin, request)), None, None, true, false)
      case Conflict => Go(s', c, ReadingWinner)
      case Failed => Go(s', c, Fail(Internal))
    else
      var s' := s.(reservations := Put(s.reservations, id, payload, write));
      match React(id in s.reservations, write)
      case Stored => Effect(s', c.(pc := ReservingBinding(c.pc.origin, request)), None, None, true, false)
      case Conflict => Go(s', c, ReadingWinner)
      case Failed => Go(s', c, Fail(Internal))
  }

  function StepReserveBinding(cfg: Config, s: Store, c: Call, write: Write): Effect
    requires c.pc.ReservingBinding?
  {
    var binding := BindingDigest(cfg.env, c.pc.request);
    var s' := s.(bindings := Put(s.bindings, binding, c.pc.request.requestId, write));
    match React(binding in s.bindings, write)
    case Stored => Go(s', c, ReservingApproval(c.pc.origin, c.pc.request))
    case Conflict => Go(s', c, ReadingWinner)
    case Failed => Go(s', c, Fail(Internal))
  }

  function StepReserveApproval(s: Store, c: Call, write: Write): Effect
    requires c.pc.ReservingApproval?
  {
    var approval := c.pc.origin.evidence.approval.approvalId;
    var s' := s.(approvals := Put(s.approvals, approval, c.pc.request.requestId, write));
    match React(approval in s.approvals, write)
    case Stored => Go(s', c, StoringRequest(c.pc.origin, c.pc.request))
    case Conflict => Go(s', c, ReadingWinner)
    case Failed => Go(s', c, Fail(Internal))
  }

  function StepStoreRequest(env: Env, s: Store, c: Call, write: Write): Effect
    requires c.pc.StoringRequest?
  {
    var request, id := c.pc.request, c.pc.request.requestId;
    if !RequestDigestOk(env, request, None) then Go(s, c, Fail(Internal))
    else
      var s' := s.(requests := Put(s.requests, id, request, write));
      var landed := if id in s.requests || write.NotPerformed? then None else Some(c.pc.origin);
      match React(id in s.requests, write)
      case Stored => Effect(s', c.(pc := Preparing(request)), None, landed, false, false)
      case Conflict => Effect(s', c.(pc := ReadingWinner), None, landed, false, false)
      case Failed => Effect(s', c.(pc := Fail(Internal)), None, landed, false, false)
  }

  function StepReadWinner(env: Env, s: Store, c: Call, fault: bool): Pc
  {
    if !fault && c.intent.requestId in s.requests && RequestOk(env, s.requests[c.intent.requestId])
       && MatchesIntent(s.requests[c.intent.requestId], c.intent, c.requester)
    then Resuming(s.requests[c.intent.requestId])
    else Fail(Replay)
  }

  function StepPrepare(env: Env, s: Store, c: Call, a: Action): Effect
    requires c.pc.Preparing? && a.Provide?
  {
    var (token, prepared) := Prepare(c.target, c.pc.request, a.observed);
    var next :=
      if a.receiptId.None? then Fail(Internal)
      else
        match NewDispatch(env, c.pc.request, a.receiptId.value, token, a.clock)
        case None => Fail(Internal)
        case Some(dispatch) => StoringDispatch(c.pc.request, dispatch, prepared);
    Effect(s, c.(preparations := c.preparations + 1, pc := next), None, None, false, false, None,
           Some(Sighting(c.target, c.pc.request, token, a.observed)))
  }

  function StepStoreDispatch(env: Env, s: Store, c: Call, write: Write, clock: int): Effect
    requires c.pc.StoringDispatch?
  {
    var request, dispatch, id := c.pc.request, c.pc.dispatch, c.pc.dispatch.requestId;
    if !DispatchDigestOk(env, dispatch) then Go(s, c, Fail(Internal))
    else
      var s' := s.(dispatches := Put(s.dispatches, id, dispatch, write));
      match React(id in s.dispatches, write)
      case Stored =>
        var next := if c.pc.prepared.final then Complete(env, request, dispatch, c.pc.prepared, clock) else Dispatching(request, dispatch);
        Effect(s', c.(pc := next), None, None, false, true)
      case Conflict => Go(s', c, Resuming(request))
      case Failed => Go(s', c, Fail(Internal))
  }

  function StepDispatch(env: Env, s: Store, c: Call, reply: Reply, clock: int): Effect
    requires c.pc.Dispatching?
  {
    var request, dispatch := c.pc.request, c.pc.dispatch;
    var mutation := if DecodeState(dispatch.recoveryToken, c.target, request).Some? then Some(reply) else None;
    var outcome := DispatchOutcome(c.target, request, dispatch.recoveryToken, reply);
    Effect(s, c.(pc := Complete(env, request, dispatch, outcome, clock)), Some(Event(c.target, request, mutation)), None, false, false)
  }

  function StepResume(env: Env, s: Store, c: Call, fault: bool): Pc
    requires c.pc.Resuming?
  {
    var request := c.pc.request;
    if fault then Fail(Internal)
    else if request.requestId !in s.dispatches then Preparing(request)
    else
      var dispatch := s.dispatches[request.requestId];
      if dispatch.requestDigest != request.digest || !DispatchOk(env, dispatch) then Fail(Internal)
      else ReadingResult(request, dispatch)
  }

  function StepReadResult(env: Env, s: Store, c: Call, fault: bool): Pc
    requires c.pc.ReadingResult?
  {
    var request, dispatch := c.pc.request, c.pc.dispatch;
    if fault then Fail(Internal)
    else if request.requestId !in s.results then Recovering(request, dispatch)
    else if !ResultOk(env, s.results[request.requestId]) then Fail(Internal)
    else Finalize(env, request, dispatch, s.results[request.requestId])
  }

  function StepRecover(env: Env, s: Store, c: Call, observed: Observation, clock: int): Effect
    requires c.pc.Recovering?
  {
    var request, dispatch := c.pc.request, c.pc.dispatch;
    var outcome := Recover(c.target, request, dispatch.recoveryToken, observed);
    Effect(s, c.(pc := Complete(env, request, dispatch, outcome, clock)), None, None, false, false,
           Some(Sighting(c.target, request, dispatch.recoveryToken, observed)))
  }

  function StepStoreResult(env: Env, s: Store, c: Call, write: Write): Effect
    requires c.pc.StoringResult?
  {
    var request, dispatch, result := c.pc.request, c.pc.dispatch, c.pc.result;
    if !ResultDigestOk(env, result) then Go(s, c, Fail(Pending))
    else
      var s' := s.(results := Put(s.results, result.requestId, result, write));
      match React(result.requestId in s.results, write)
      case Stored => Go(s', c, Finalize(env, request, dispatch, result))
      case Conflict => Go(s', c, ReadingStoredResult(request, dispatch))
      case Failed => Go(s', c, Fail(Pending))
  }

  function StepReadStoredResult(env: Env, s: Store, c: Call, fault: bool): Pc
    requires c.pc.ReadingStoredResult?
  {
    var id := c.pc.request.requestId;
    if fault || id !in s.results || !ResultOk(env, s.results[id]) then Fail(Pending)
    else Finalize(env, c.pc.request, c.pc.dispatch, s.results[id])
  }

  function StepStoreReceipt(cfg: Config, s: Store, c: Call, write: Write): Effect
    requires c.pc.StoringReceipt?
  {
    var receipt, key := c.pc.receipt, ReceiptKey(cfg, c.pc.receipt);
    if !ReceiptDigestOk(cfg.env, receipt) then Go(s, c, Fail(Pending))
    else
      var s' := s.(receipts := Put(s.receipts, key, receipt, write));
      match React(key in s.receipts, write)
      case Stored => Go(s', c, Deliver(receipt))
      case Conflict => Go(s', c, ReadingStoredReceipt(c.pc.request, receipt))
      case Failed => Go(s', c, Fail(Pending))
  }

  ghost function StepReadStoredReceipt(env: Env, s: Store, c: Call, fault: bool): Pc
    requires c.pc.ReadingStoredReceipt?
  {
    var stored := FindReceipt(s.receipts, c.pc.receipt.auditObject);
    if fault || stored.None? || !ReceiptOk(env, stored.value) || stored.value.requestDigest != c.pc.request.digest
       || stored.value.receiptId != c.pc.receipt.receiptId
    then Fail(Pending)
    else Deliver(stored.value)
  }

  /** One step of a call; an action that does not fit the call's position changes nothing. */
  ghost function Step(cfg: Config, s: Store, c: Call, a: Action): Effect
  {
    match c.pc
    case ReadingRequest => Go(s, c, if a.Read? then StepReadRequest(cfg.env, s, c, a.fault) else c.pc)
    case ReadingEvidence => Go(s, c, if a.Admit? then StepAdmit(cfg.env, s, c, a) else c.pc)
    case Reserving(_, _) => if a.Create? then StepReserve(cfg, s, c, a.write) else Go(s, c, c.pc)
    case ReservingBinding(_, _) => if a.Create? then StepReserveBinding(cfg, s, c, a.write) else Go(s, c, c.pc)
    case ReservingApproval(_, _) => if a.Create? then StepReserveApproval(s, c, a.write) else Go(s, c, c.pc)
    case StoringRequest(_, _) => if a.Create? then StepStoreRequest(cfg.env, s, c, a.write) else Go(s, c, c.pc)
    case ReadingWinner => Go(s, c, if a.Read? then StepReadWinner(cfg.env, s, c, a.fault) else c.pc)
    case Preparing(_) => if a.Provide? then StepPrepare(cfg.env, s, c, a) else Go(s, c, c.pc)
    case StoringDispatch(_, _, _) => if a.Create? then StepStoreDispatch(cfg.env, s, c, a.write, a.clock) else Go(s, c, c.pc)
    case Dispatching(_, _) => if a.Mutate? then StepDispatch(cfg.env, s, c, a.reply, a.clock) else Go(s, c, c.pc)
    case Resuming(_) => Go(s, c, if a.Read? then StepResume(cfg.env, s, c, a.fault) else c.pc)
    case ReadingResult(_, _) => Go(s, c, if a.Read? then StepReadResult(cfg.env, s, c, a.fault) else c.pc)
    case Recovering(_, _) => if a.Observe? then StepRecover(cfg.env, s, c, a.observed, a.clock) else Go(s, c, c.pc)
    case StoringResult(_, _, _) => if a.Create? then StepStoreResult(cfg.env, s, c, a.write) else Go(s, c, c.pc)
    case ReadingStoredResult(_, _) => Go(s, c, if a.Read? then StepReadStoredResult(cfg.env, s, c, a.fault) else c.pc)
    case StoringReceipt(_, _) => if a.Create? then StepStoreReceipt(cfg, s, c, a.write) else Go(s, c, c.pc)
    case ReadingStoredReceipt(_, _) => Go(s, c, if a.Read? then StepReadStoredReceipt(cfg.env, s, c, a.fault) else c.pc)
    case Returned(_) => Go(s, c, c.pc)
  }

  // ---------------------------------------------------------------- runs

  /** The store and history: every dispatch, every recovery and every preparation, the origin of every stored request,
      and which call was told that its reservation or its dispatch record was written. */
  datatype Facts = Facts(store: Store, history: seq<Event>, origins: map<string, Origin>,
                         reserver: map<string, nat>, writer: map<string, nat>, sightings: seq<Sighting>,
                         observations: seq<Sighting>)

  datatype World = World(facts: Facts, calls: seq<Call>)

  const INITIAL: World := World(Facts(EMPTY, [], map[], map[], map[], [], []), [])

  datatype Label =
    | Enter(requester: string, role: int, catalog: Catalog, intent: Intent)
    | Publish(name: string, evidence: Evidence)
    | Act(call: nat, action: Action)

  function Remember(f: Facts, i: nat, id: string, e: Effect): Facts
  {
    Facts(e.store,
          if e.sent.Some? then f.history + [e.sent.value] else f.history,
          if e.landed.Some? then f.origins[id := e.landed.value] else f.origins,
          if e.reserved then f.reserver[id := i] else f.reserver,
          if e.wrote then f.writer[id := i] else f.writer,
          if e.seen.Some? then f.sightings + [e.seen.value] else f.sightings,
          if e.prepared.Some? then f.observations + [e.prepared.value] else f.observations)
  }

  ghost function Apply(cfg: Config, w: World, step: Label): World
  {
    match step
    case Enter(requester, role, catalog, intent) =>
      if WellFormed(catalog) then w.(calls := w.calls + [Begin(requester, role, catalog, intent)]) else w
    case Publish(name, evidence) =>
      w.(facts := w.facts.(store := w.facts.store.(evidence := Put(w.facts.store.evidence, name, evidence, Answered))))
    case Act(i, action) =>
      if i >= |w.calls| then w
      else
        var e := Step(cfg, w.facts.store, w.calls[i], action);
        World(Remember(w.facts, i, w.calls[i].intent.requestId, e), w.calls[i := e.call])
  }

  /** The world after a run. */
  ghost function Exec(cfg: Config, labels: seq<Label>): World
  {
    if labels == [] then INITIAL else Apply(cfg, Exec(cfg, labels[..|labels| - 1]), labels[|labels| - 1])
  }
}
