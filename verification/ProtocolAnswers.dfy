/** What a caller is told: which error it gets and what that error means for the operation, and what a
    stored record vouches for. */
module ProtocolAnswers {
  import opened Prelude
  import opened Patterns
  import opened CanonicalJson
  import opened Contract
  import opened Catalog
  import opened Broker
  import opened Protocol
  import opened ProtocolInvariant
  import opened ProtocolSteps
  import opened ProtocolSafety
  import opened ProtocolProgress
  import opened ProtocolTrace
  import opened ProtocolRetry
  import opened ProtocolCrash
  import opened ProtocolToken
  import opened ProtocolDelivery

  // ---------------------------------------------------------------- entry

  /** Why a call is turned away before it reads anything: the role, the intent itself, or the document from
      which the catalogue was compiled. */
  lemma EntryDecides(requester: string, role: int, document: Document, catalog: Catalog, intent: Intent)
    requires Compiles(document, catalog)
    ensures var pc := Begin(requester, role, catalog, intent).pc;
            var repository, operation := intent.repository, intent.operation;
            var allowed := 2 <= role <= 4;
            var formed := && intent.schemaVersion == "estate.operation-intent/v1" && IsUuid(intent.requestId)
                          && operation in {"refresh_estate_health", "rerun_failed_required_workflow", "cancel_superseded_workflow_run"};
            var listed := document.connected && DeclaresRepository(document, repository);
            && (!allowed ==> pc == Returned(Answer(None, Some(Denied))))
            && (allowed && !formed ==> pc == Returned(Answer(None, Some(Invalid))))
            && (allowed && formed && !listed ==> pc == Returned(Answer(None, Some(Error.Unready))))
            && (allowed && formed && listed && (forall id, enabled :: !DeclaresAs(document, repository, operation, id, enabled)) ==>
                  pc == Returned(Answer(None, Some(Error.NotCatalogued))))
            && (allowed && formed && document.connected && (exists id :: DeclaresAs(document, repository, operation, id, false)) ==>
                  pc == Returned(Answer(None, Some(OperationDisabled))))
            && (allowed && formed && (exists id :: id != intent.workflowId && DeclaresAs(document, repository, operation, id, true)) ==>
                  pc == Returned(Answer(None, Some(Error.Unready))))
            && (allowed && formed && document.connected && DeclaresAs(document, repository, operation, intent.workflowId, true) ==>
                  pc == ReadingRequest)
  {
    hide DeclaresAs, DeclaresRepository, Compiles, Authorize, IsUuid;
    AuthorizedByDocument(document, catalog, intent);
  }

  /** A clock reading, truncated to whole seconds. */
  function Seconds(clock: int): int { clock - clock % 1_000_000_000 }

  lemma Truncated(clock: int)
    ensures clock / SECOND * SECOND == Seconds(clock)
  {}

  /** The origin that an admission would record, when the evidence is there. */
  function OriginAt(s: Store, c: Call, a: Action, nonce: string): Origin
    requires a.Admit? && c.intent.evidenceDigest in s.evidence
  {
    Origin(Seconds(a.clock), nonce, c.requester, c.intent, s.evidence[c.intent.evidenceDigest], a.answers)
  }

  predicate Timely(env: Env, intent: Intent, a: Action)
    requires a.Admit?
  {
    var now, expires := Seconds(a.clock), env.parseTime(intent.expiresAt);
    expires.Some? && now < expires.value <= now + 600_000_000_000
  }

  ghost predicate Acceptable(cfg: Config, s: Store, c: Call, a: Action)
    requires a.Admit? && c.intent.evidenceDigest in s.evidence
  {
    EvidenceAccepted(cfg.env, Seconds(a.clock), c.requester, c.intent, s.evidence[c.intent.evidenceDigest], a.answers)
  }

  lemma TimelyIsInWindow(env: Env, intent: Intent, a: Action)
    requires a.Admit?
    ensures Timely(env, intent, a) <==> InWindow(env, a.clock / SECOND * SECOND, intent.expiresAt)
  {
    Truncated(a.clock);
  }

  /** The last of the checks: sealing. */
  function SealedAt(env: Env, o: Origin): Pc
    requires IsTime(env, o.intent.expiresAt)
  {
    match SealRequest(env, Draft(env, o))
    case None => Returned(Answer(None, Some(Invalid)))
    case Some(request) => Reserving(o, request)
  }

  lemma AdmitBranches(cfg: Config, s: Store, c: Call, a: Action)
    requires a.Admit?
    ensures var pc := StepAdmit(cfg.env, s, c, a);
            if !Timely(cfg.env, c.intent, a) || a.fault || c.intent.evidenceDigest !in s.evidence then pc == Returned(Answer(None, Some(Invalid)))
            else if !Acceptable(cfg, s, c, a) then pc == Returned(Answer(None, Some(Denied)))
            else if a.nonce.None? then pc == Returned(Answer(None, Some(Internal)))
            else pc == SealedAt(cfg.env, OriginAt(s, c, a, a.nonce.value))
  {
    Truncated(a.clock);
    TimelyIsInWindow(cfg.env, c.intent, a);
    hide EvidenceAccepted, SealRequest, Draft, Seconds, Timely, InWindow;
  }

  lemma SealingDecides(cfg: Config, s: Store, c: Call, a: Action)
    requires a.Admit? && Timely(cfg.env, c.intent, a) && c.intent.evidenceDigest in s.evidence && Acceptable(cfg, s, c, a) && a.nonce.Some?
    ensures var o := OriginAt(s, c, a, a.nonce.value); var pc := SealedAt(cfg.env, o);
            && (forall request :: Admitted(cfg.env, o, request) ==> pc == Reserving(o, request))
            && ((forall request :: !Admitted(cfg.env, o, request)) ==> pc == Returned(Answer(None, Some(Invalid))))
  {
    Truncated(a.clock);
    TimelyIsInWindow(cfg.env, c.intent, a);
    var o := OriginAt(s, c, a, a.nonce.value);
    hide EvidenceAccepted, InWindow, SealRequest, Draft, Seconds;
    if SealedAt(cfg.env, o).Reserving? { assert Admitted(cfg.env, o, SealedAt(cfg.env, o).request); }
  }

  lemma AdmitDecides(cfg: Config, s: Store, c: Call, a: Action)
    requires a.Admit?
    ensures var pc := StepAdmit(cfg.env, s, c, a);
            if !Timely(cfg.env, c.intent, a) || a.fault || c.intent.evidenceDigest !in s.evidence then pc == Returned(Answer(None, Some(Invalid)))
            else if !Acceptable(cfg, s, c, a) then pc == Returned(Answer(None, Some(Denied)))
            else if a.nonce.None? then pc == Returned(Answer(None, Some(Internal)))
            else
              && (forall request :: Admitted(cfg.env, OriginAt(s, c, a, a.nonce.value), request) ==>
                    pc == Reserving(OriginAt(s, c, a, a.nonce.value), request))
              && ((forall request :: !Admitted(cfg.env, OriginAt(s, c, a, a.nonce.value), request)) ==> pc == Returned(Answer(None, Some(Invalid))))
  {
    AdmitBranches(cfg, s, c, a);
    hide StepAdmit, Acceptable, Admitted, SealedAt;
    if Timely(cfg.env, c.intent, a) && c.intent.evidenceDigest in s.evidence && Acceptable(cfg, s, c, a) && a.nonce.Some? {
      SealingDecides(cfg, s, c, a);
    }
    hide Timely;
  }

  /** What the checks before the reservation decide: an expiry outside the next ten minutes or missing evidence
      is invalid, evidence that is not acceptable is denied, without a nonce the call fails, and otherwise it
      reserves exactly the request that its origin admits, if there is one. */
  lemma AdmissionDecides(cfg: Config, s: Store, c: Call, a: Action)
    requires c.pc == ReadingEvidence && a.Admit?
    ensures var pc := Step(cfg, s, c, a).call.pc;
            if !Timely(cfg.env, c.intent, a) || a.fault || c.intent.evidenceDigest !in s.evidence then pc == Returned(Answer(None, Some(Invalid)))
            else if !Acceptable(cfg, s, c, a) then pc == Returned(Answer(None, Some(Denied)))
            else if a.nonce.None? then pc == Returned(Answer(None, Some(Internal)))
            else
              && (forall request :: Admitted(cfg.env, OriginAt(s, c, a, a.nonce.value), request) ==>
                    pc == Reserving(OriginAt(s, c, a, a.nonce.value), request))
              && ((forall request :: !Admitted(cfg.env, OriginAt(s, c, a, a.nonce.value), request)) ==> pc == Returned(Answer(None, Some(Invalid))))
  {
    AdmitDecides(cfg, s, c, a);
    assert Step(cfg, s, c, a).call.pc == StepAdmit(cfg.env, s, c, a) by { hide StepAdmit; }
    hide Step, StepAdmit, Timely, Acceptable, Admitted;
  }

  // ---------------------------------------------------------------- losing a race

  lemma ReservingOwnId(cfg: Config, w: World, i: nat)
    requires Sound(cfg.env) && Reachable(cfg, w) && i < |w.calls| && w.calls[i].pc.Reserving?
    ensures w.calls[i].pc.request.requestId == w.calls[i].intent.requestId
    ensures Admitted(cfg.env, w.calls[i].pc.origin, w.calls[i].pc.request)
    ensures forall id :: id in w.facts.store.requests ==> RequestOk(cfg.env, w.facts.store.requests[id])
  {
    hide Sound, Reachable, HistorySound, Authorized, Admitted, EvidenceStored, RequestOk, BindingReserved, ApprovalReserved, DispatchSound,
         ResultSound, ReceiptSound;
    ReachableKeeps(cfg, w);
    assert CallSound(cfg, w.facts, i, w.calls[i]);
    forall id | id in w.facts.store.requests ensures RequestOk(cfg.env, w.facts.store.requests[id]) { assert RequestSound(cfg, w.facts, id); }
  }

  lemma ConflictReads(cfg: Config, w: World, i: nat, clock: int)
    requires i < |w.calls| && w.calls[i].pc.Reserving? && w.calls[i].pc.request.requestId in w.facts.store.reservations
    requires ValidReservation(cfg.env, w.calls[i].pc.request.requestId, BindingDigest(cfg.env, w.calls[i].pc.request),
                              w.calls[i].pc.origin.evidence.approval.approvalId, w.calls[i].pc.request.nonce, w.calls[i].pc.request.expiresAt)
    ensures Apply(cfg, w, Act(i, Create(Answered, clock))) == Moved(w, i, ReadingWinner)
  {
    hide Apply, BindingDigest, ValidReservation, Payload;
    assert StepReserve(cfg, w.facts.store, w.calls[i], Answered) == Go(w.facts.store, w.calls[i], ReadingWinner);
    GoMoves(cfg, w, i, Create(Answered, clock), ReadingWinner);
  }

  lemma WinnerDecides(cfg: Config, w: World, i: nat)
    requires i < |w.calls|
    requires w.calls[i].intent.requestId in w.facts.store.requests ==> RequestOk(cfg.env, w.facts.store.requests[w.calls[i].intent.requestId])
    ensures var c, id := w.calls[i], w.calls[i].intent.requestId;
            Apply(cfg, Moved(w, i, ReadingWinner), Act(i, Read(false))) ==
            Moved(w, i, if id in w.facts.store.requests && MatchesIntent(w.facts.store.requests[id], c.intent, c.requester)
                        then Resuming(w.facts.store.requests[id]) else Returned(Answer(None, Some(Replay))))
  {
    hide Apply, RequestOk, MatchesIntent;
    var v := Moved(w, i, ReadingWinner);
    var next := StepReadWinner(cfg.env, w.facts.store, v.calls[i], false);
    GoMoves(cfg, v, i, Read(false), next);
    MovedTwice(w, i, ReadingWinner, next);
  }

  /** A call that finds its request ID reserved, undisturbed, goes on with the request that won when that is
      its own, and is told that it is a replay otherwise. */
  lemma ConflictResumesOrReplays(cfg: Config, w: World, i: nat, clock: int)
    requires Sound(cfg.env) && Reachable(cfg, w) && i < |w.calls| && w.calls[i].pc.Reserving?
    requires w.calls[i].intent.requestId in w.facts.store.reservations
    ensures var c, id := w.calls[i], w.calls[i].intent.requestId;
            var v := Run(cfg, w, [Act(i, Create(Answered, clock)), Act(i, Read(false))]);
            && i < |v.calls| && v.facts.store == w.facts.store && v.facts.history == w.facts.history
            && v.calls[i].pc == (if id in w.facts.store.requests && MatchesIntent(w.facts.store.requests[id], c.intent, c.requester)
                                 then Resuming(w.facts.store.requests[id]) else Returned(Answer(None, Some(Replay))))
  {
    hide Sound, Reachable, StoreSound, HistorySound, Apply, MatchesIntent, RequestOk, Admitted, EvidenceStored, BindingReserved,
         ApprovalReserved, DispatchSound, ResultSound, ReceiptSound, ValidReservation;
    var c, id := w.calls[i], w.calls[i].intent.requestId;
    ReservingOwnId(cfg, w, i);
    AdmittedReserves(cfg.env, c.pc.origin, c.pc.request);
    ConflictReads(cfg, w, i, clock);
    WinnerDecides(cfg, w, i);
    RunTwo(cfg, w, Act(i, Create(Answered, clock)), Act(i, Read(false)));
  }

  // ---------------------------------------------------------------- what a stored record vouches for

  ghost predicate RequestSigned(env: Env, r: Request)
  {
    Signed(env, RequestTree(r.(digest := "", signature := NO_SIGNATURE)), r.digest, r.signature)
  }

  ghost predicate DispatchSigned(env: Env, r: Dispatch)
  {
    Signed(env, DispatchTree(r.(digest := "", signature := NO_SIGNATURE)), r.digest, r.signature)
  }

  ghost predicate ResultSigned(env: Env, r: Result)
  {
    Signed(env, ResultTree(r.(digest := "", signature := NO_SIGNATURE)), r.digest, r.signature)
  }

  ghost predicate ReceiptSigned(env: Env, r: Receipt)
  {
    Signed(env, ReceiptTree(r.(digest := "", signature := NO_SIGNATURE)), r.digest, r.signature)
  }

  /** Every record that is ever stored is signed: its digest is the hash of all its fields but digest and
      signature, and the service's own key accepts its signature. */
  lemma EverythingIsSigned(cfg: Config, w: World)
    requires Sound(cfg.env) && Reachable(cfg, w)
    ensures forall id :: id in w.facts.store.requests ==> RequestSigned(cfg.env, w.facts.store.requests[id])
    ensures forall id :: id in w.facts.store.dispatches ==> DispatchSigned(cfg.env, w.facts.store.dispatches[id])
    ensures forall id :: id in w.facts.store.results ==> ResultSigned(cfg.env, w.facts.store.results[id])
    ensures forall key :: key in w.facts.store.receipts ==> ReceiptSigned(cfg.env, w.facts.store.receipts[key])
  {
    hide Sound, Reachable, HistorySound, CallSound, RequestOk, DispatchOk, ResultOk, ReceiptOk, Signed, Admitted, EvidenceStored,
         BindingReserved, ApprovalReserved, Usable, Justified, ReceiptKey, FinalReceipt, ReceiptDigestOk, ValidReceipt;
    ReachableKeeps(cfg, w);
    var s := w.facts.store;
    forall id | id in s.requests ensures RequestSigned(cfg.env, s.requests[id]) {
      assert RequestSound(cfg, w.facts, id);
      RequestIsSigned(cfg.env, s.requests[id]);
    }
    forall id | id in s.dispatches ensures DispatchSigned(cfg.env, s.dispatches[id]) {
      assert DispatchSound(cfg, w.facts, id);
      DispatchIsSigned(cfg.env, s.dispatches[id]);
    }
    forall id | id in s.results ensures ResultSigned(cfg.env, s.results[id]) {
      assert ResultSound(cfg, w.facts, id);
      ResultIsSigned(cfg.env, s.results[id]);
    }
    forall key | key in s.receipts ensures ReceiptSigned(cfg.env, s.receipts[key]) {
      assert ReceiptSound(cfg, w.facts, key);
      Verified(cfg, w.facts, s.receipts[key].requestId, s.receipts[key]);
      ReceiptIsSigned(cfg.env, s.receipts[key]);
    }
  }

  // ---------------------------------------------------------------- what an error means

  /** Call `i` is the one whose dispatch of this request was sent. */
  ghost predicate DidSend(f: Facts, i: nat, id: string)
  {
    id in f.writer && f.writer[id] == i && !Unsent(f.history, id)
  }

  /** Where a call may stand after its mutation was sent. */
  predicate AfterMutation(pc: Pc) { pc.StoringResult? || pc.ReadingStoredResult? || pc.StoringReceipt? || pc.ReadingStoredReceipt? || pc.Returned? }

  /** An answer without a receipt says "pending" only if a dispatch is on record, and anything else only if this
      call sent nothing. */
  ghost predicate MeansWhatItSays(f: Facts, i: nat, c: Call)
  {
    && (DidSend(f, i, c.intent.requestId) ==> AfterMutation(c.pc))
    && (c.pc.Returned? && c.pc.answer.receipt.None? ==>
          if c.pc.answer.error == Some(Pending) then c.intent.requestId in f.store.dispatches
          else !DidSend(f, i, c.intent.requestId))
  }

  /** Where a call stands only when the dispatch of its request is on record. */
  predicate AfterRecord(pc: Pc)
  {
    || pc.Dispatching? || pc.ReadingResult? || pc.Recovering? || pc.StoringResult? || pc.ReadingStoredResult? || pc.StoringReceipt?
    || pc.ReadingStoredReceipt?
  }

  lemma RecordKnown(cfg: Config, f: Facts, i: nat, c: Call)
    requires StoreSound(cfg, f) && CallSound(cfg, f, i, c) && AfterRecord(c.pc)
    ensures c.intent.requestId in f.store.dispatches
  {
    hide Authorized, Usable, ResultOk, DispatchOk, Justified, FinalReceipt, RequestSound, DispatchSound, ReceiptSound;
    if c.pc.StoringReceipt? || c.pc.ReadingStoredReceipt? { assert ResultSound(cfg, f, c.pc.request.requestId); }
  }

  lemma RecordedPending(cfg: Config, s: Store, c: Call, a: Action)
    requires c.pc.StoringDispatch? && Step(cfg, s, c, a).call.pc == Returned(Answer(None, Some(Pending)))
    ensures c.pc.dispatch.requestId in Step(cfg, s, c, a).store.dispatches
  {
    hide DispatchDigestOk, NewResult;
  }

  lemma AdmissionNotPending(cfg: Config, s: Store, c: Call, a: Action)
    requires c.pc.ReadingRequest? || c.pc.ReadingEvidence? || c.pc.Reserving? || c.pc.ReservingBinding? || c.pc.ReservingApproval?
             || c.pc.StoringRequest? || c.pc.ReadingWinner?
    ensures Step(cfg, s, c, a).call.pc != Returned(Answer(None, Some(Pending)))
  {
    hide StepPrepare, StepStoreDispatch, StepDispatch, StepResume, StepReadResult, StepRecover, StepStoreResult,
         StepReadStoredResult, StepStoreReceipt, StepReadStoredReceipt;
    hide RequestOk, RequestDigestOk, MatchesIntent, EvidenceAccepted, InWindow, SealRequest, Draft, BindingDigest, ValidReservation, Put, Payload;
  }

  lemma PreparationNotPending(cfg: Config, s: Store, c: Call, a: Action)
    requires c.pc.Preparing? || c.pc.Resuming?
    ensures Step(cfg, s, c, a).call.pc != Returned(Answer(None, Some(Pending)))
  {
    hide StepReadRequest, StepAdmit, StepReserve, StepReserveBinding, StepReserveApproval, StepStoreRequest, StepReadWinner,
         StepStoreDispatch, StepDispatch, StepReadResult, StepRecover, StepStoreResult, StepReadStoredResult, StepStoreReceipt,
         StepReadStoredReceipt;
    hide DispatchOk, Prepare, NewDispatch;
  }

  /** Only where a dispatch is on record does a step answer "pending". */
  lemma PendingIsRecorded(cfg: Config, f: Facts, i: nat, c: Call, a: Action)
    requires StoreSound(cfg, f) && CallSound(cfg, f, i, c) && !c.pc.Returned?
    requires Step(cfg, f.store, c, a).call.pc == Returned(Answer(None, Some(Pending)))
    ensures c.intent.requestId in f.store.dispatches || c.intent.requestId in Step(cfg, f.store, c, a).store.dispatches
  {
    hide StoreSound, CallSound, Step, AfterRecord;
    if AfterRecord(c.pc) {
      RecordKnown(cfg, f, i, c);
    } else if c.pc.StoringDispatch? {
      SoundOwnDispatch(cfg, f, i, c);
      RecordedPending(cfg, f.store, c, a);
    } else {
      NotAfterRecord(c.pc);
      if c.pc.Preparing? || c.pc.Resuming? { PreparationNotPending(cfg, f.store, c, a); } else { AdmissionNotPending(cfg, f.store, c, a); }
    }
  }

  lemma NotAfterRecord(pc: Pc)
    requires !AfterRecord(pc) && !pc.StoringDispatch? && !pc.Returned?
    ensures || pc.Preparing? || pc.Resuming? || pc.ReadingRequest? || pc.ReadingEvidence? || pc.Reserving? || pc.ReservingBinding?
            || pc.ReservingApproval? || pc.StoringRequest? || pc.ReadingWinner?
  {}

  /** After the mutation a step goes on towards the receipt or answers "pending". */
  lemma MutationStep(cfg: Config, s: Store, c: Call, a: Action)
    requires c.pc.Dispatching?
    ensures var pc := Step(cfg, s, c, a).call.pc;
            || pc.StoringResult? || pc == Returned(Answer(None, Some(Pending))) || (pc == c.pc && Step(cfg, s, c, a).sent == None)
  {
    hide StepReadRequest, StepAdmit, StepReserve, StepReserveBinding, StepReserveApproval, StepStoreRequest, StepReadWinner,
         StepPrepare, StepStoreDispatch, StepResume, StepReadResult, StepRecover, StepStoreResult, StepReadStoredResult, StepStoreReceipt,
         StepReadStoredReceipt;
    hide DecodeState, DispatchOutcome, NewResult;
  }

  predicate GoesOn(pc: Pc)
  {
    AfterMutation(pc) && (pc.Returned? && pc.answer.receipt.None? ==> pc.answer.error == Some(Pending))
  }

  lemma ReceiptStep(cfg: Config, s: Store, c: Call, a: Action)
    requires c.pc.StoringReceipt? || c.pc.ReadingStoredReceipt?
    ensures GoesOn(Step(cfg, s, c, a).call.pc)
  {
    hide StepReadRequest, StepAdmit, StepReserve, StepReserveBinding, StepReserveApproval, StepStoreRequest, StepReadWinner,
         StepPrepare, StepStoreDispatch, StepDispatch, StepResume, StepReadResult, StepRecover, StepStoreResult, StepReadStoredResult;
    hide ReceiptOk, ReceiptDigestOk, ReceiptKey, FindReceipt, Put;
  }

  lemma FittingFinalize(env: Env, request: Request, dispatch: Dispatch, result: Result)
    requires ResultFits(request, dispatch, result)
    ensures GoesOn(Finalize(env, request, dispatch, result))
  {
    hide FinalReceipt;
  }

  lemma ResultStep(cfg: Config, f: Facts, i: nat, c: Call, a: Action)
    requires StoreSound(cfg, f) && CallSound(cfg, f, i, c) && (c.pc.StoringResult? || c.pc.ReadingStoredResult?)
    ensures GoesOn(Step(cfg, f.store, c, a).call.pc)
  {
    ResultsFit(cfg, f, i, c);
    hide StoreSound, CallSound, ResultFits, Finalize, GoesOn;
    if c.pc.StoringResult? {
      FittingFinalize(cfg.env, c.pc.request, c.pc.dispatch, c.pc.result);
    } else if c.pc.request.requestId in f.store.results {
      FittingFinalize(cfg.env, c.pc.request, c.pc.dispatch, f.store.results[c.pc.request.requestId]);
    }
    ResultBranches(cfg, f.store, c, a);
    GoesOnCases(c.pc);
  }

  lemma GoesOnCases(pc: Pc)
    ensures pc.StoringResult? || pc.ReadingStoredResult? ==> GoesOn(pc)
    ensures forall request, dispatch :: GoesOn(ReadingStoredResult(request, dispatch))
    ensures GoesOn(Returned(Answer(None, Some(Pending))))
  {}

  lemma ResultBranches(cfg: Config, s: Store, c: Call, a: Action)
    requires c.pc.StoringResult? || c.pc.ReadingStoredResult?
    ensures var pc := Step(cfg, s, c, a).call.pc; var id := c.pc.request.requestId;
            || pc == c.pc || pc == Returned(Answer(None, Some(Pending)))
            || (c.pc.StoringResult? && (pc == Finalize(cfg.env, c.pc.request, c.pc.dispatch, c.pc.result) || pc == ReadingStoredResult(c.pc.request, c.pc.dispatch)))
            || (c.pc.ReadingStoredResult? && id in s.results && pc == Finalize(cfg.env, c.pc.request, c.pc.dispatch, s.results[id]))
  {
    hide StepReadRequest, StepAdmit, StepReserve, StepReserveBinding, StepReserveApproval, StepStoreRequest, StepReadWinner,
         StepPrepare, StepStoreDispatch, StepDispatch, StepResume, StepReadResult, StepRecover, StepStoreReceipt, StepReadStoredReceipt;
    hide ResultOk, ResultDigestOk, Finalize, Put;
  }

  lemma ResultsFit(cfg: Config, f: Facts, i: nat, c: Call)
    requires StoreSound(cfg, f) && CallSound(cfg, f, i, c)
    ensures c.pc.StoringResult? ==> ResultFits(c.pc.request, c.pc.dispatch, c.pc.result)
    ensures c.pc.ReadingStoredResult? && c.pc.request.requestId in f.store.results ==>
              ResultFits(c.pc.request, c.pc.dispatch, f.store.results[c.pc.request.requestId])
  {
    hide Authorized, Usable, ResultOk, DispatchOk, Justified, FinalReceipt, RequestSound, DispatchSound, ReceiptSound;
    if c.pc.ReadingStoredResult? && c.pc.request.requestId in f.store.results { assert ResultSound(cfg, f, c.pc.request.requestId); }
  }

  /** A call that has not sent anything does so only at `Dispatch`. */
  lemma NotSentBefore(cfg: Config, w: Facts, i: nat, c: Call, a: Action)
    requires HistorySound(w) && CallSound(cfg, w, i, c) && !c.pc.Dispatching? && !DidSend(w, i, c.intent.requestId)
    ensures !DidSend(Remember(w, i, c.intent.requestId, Step(cfg, w.store, c, a)), i, c.intent.requestId)
  {
    SoundOwnDispatch(cfg, w, i, c);
    StepWritesFreeKey(cfg, w.store, c, a);
    StepSends(cfg, w.store, c, a);
    if c.intent.requestId !in w.store.dispatches { FreeDispatch(w, c.intent.requestId); }
    hide Step, HistorySound, CallSound, Unsent, OriginOf;
  }

  lemma ActorMeans(cfg: Config, w: Facts, i: nat, c: Call, a: Action)
    requires Sound(cfg.env) && StoreSound(cfg, w) && HistorySound(w) && CallSound(cfg, w, i, c) && MeansWhatItSays(w, i, c)
    ensures var e := Step(cfg, w.store, c, a); MeansWhatItSays(Remember(w, i, c.intent.requestId, e), i, e.call)
  {
    var e := Step(cfg, w.store, c, a);
    var v := Remember(w, i, c.intent.requestId, e);
    StepKeepsIdentity(cfg, w.store, c, a);
    StepSends(cfg, w.store, c, a);
    hide Sound, StoreSound, HistorySound, CallSound, Step, DidSend, OriginOf, GoesOn;
    if c.pc.Returned? {
      ReturnedStays(cfg, w, i, c, a);
    } else {
      if e.call.pc == Returned(Answer(None, Some(Pending))) {
        PendingIsRecorded(cfg, w, i, c, a);
        StillRecordedAfter(cfg, w, i, c, a);
      }
      if c.pc.Dispatching? {
        MutationStep(cfg, w.store, c, a);
        if e.sent == None { QuietAtDispatch(cfg, w, i, c, a); }
      } else if AfterMutation(c.pc) {
        if c.pc.StoringResult? || c.pc.ReadingStoredResult? { ResultStep(cfg, w, i, c, a); } else { ReceiptStep(cfg, w.store, c, a); }
        GoingOn(e.call.pc);
      } else {
        NotSentBefore(cfg, w, i, c, a);
      }
    }
  }

  lemma GoingOn(pc: Pc)
    requires GoesOn(pc)
    ensures AfterMutation(pc) && (pc.Returned? && pc.answer.receipt.None? ==> pc.answer.error == Some(Pending))
  {}

  lemma ReturnedStays(cfg: Config, w: Facts, i: nat, c: Call, a: Action)
    requires c.pc.Returned?
    ensures Step(cfg, w.store, c, a).call == c && Remember(w, i, c.intent.requestId, Step(cfg, w.store, c, a)) == w
  {
    assert c.(pc := c.pc) == c;
  }

  lemma QuietAtDispatch(cfg: Config, w: Facts, i: nat, c: Call, a: Action)
    requires c.pc.Dispatching? && Step(cfg, w.store, c, a).sent == None
    ensures Step(cfg, w.store, c, a).call == c && Remember(w, i, c.intent.requestId, Step(cfg, w.store, c, a)) == w
  {
    hide DecodeState, DispatchOutcome, Complete;
    assert c.(pc := c.pc) == c;
  }

  lemma StillRecordedAfter(cfg: Config, w: Facts, i: nat, c: Call, a: Action)
    requires Sound(cfg.env) && StoreSound(cfg, w) && HistorySound(w) && CallSound(cfg, w, i, c)
    ensures var e := Step(cfg, w.store, c, a); var v := Remember(w, i, c.intent.requestId, e);
            (c.intent.requestId in w.store.dispatches || c.intent.requestId in e.store.dispatches) ==> c.intent.requestId in v.store.dispatches
  {
    hide Sound, StoreSound, HistorySound, CallSound, Step;
    StepKeeps(cfg, w, i, c, a);
    var v := Remember(w, i, c.intent.requestId, Step(cfg, w.store, c, a));
    if c.intent.requestId in w.store.dispatches { GrownDispatches(w, v, i, c.intent.requestId); }
  }

  /** Nobody else's step changes what a call has sent. */
  lemma OthersMean(w: Facts, v: Facts, actor: nat, i: nat, c: Call)
    requires Grows(w, v, actor) && HistorySound(w) && i != actor && MeansWhatItSays(w, i, c)
    ensures MeansWhatItSays(v, i, c)
  {
    hide EventSound, Extends;
    var id := c.intent.requestId;
    assert DidSend(v, i, id) ==> DidSend(w, i, id) by {
      if DidSend(v, i, id) { SentEarlier(w, v, actor, i, id); }
    }
    if id in w.store.dispatches { GrownDispatches(w, v, actor, id); }
    hide DidSend, Grows;
  }

  lemma SentEarlier(w: Facts, v: Facts, actor: nat, i: nat, id: string)
    requires Grows(w, v, actor) && HistorySound(w) && i != actor && DidSend(v, i, id)
    ensures DidSend(w, i, id)
  {
    hide Usable, Enabled;
    var k :| 0 <= k < |v.history| && v.history[k].request.requestId == id;
    if k < |w.history| {
      assert v.history[k] == v.history[..|w.history|][k];
      assert EventSound(w, w.history[k]);
    }
  }

  ghost predicate AllMean(w: World)
  {
    && (forall id :: id in w.facts.writer ==> w.facts.writer[id] < |w.calls|)
    && forall i :: 0 <= i < |w.calls| ==> MeansWhatItSays(w.facts, i, w.calls[i])
  }

  lemma BeginMeans(f: Facts, i: nat, requester: string, role: int, catalog: Catalog, intent: Intent)
    requires forall id :: id in f.writer ==> f.writer[id] != i
    ensures MeansWhatItSays(f, i, Begin(requester, role, catalog, intent))
  {
    hide Authorize, IsUuid, AllowedOperation, Unsent;
  }

  lemma WritersStay(w: Facts, i: nat, key: string, e: Effect, calls: nat)
    requires i < calls && forall id :: id in w.writer ==> w.writer[id] < calls
    ensures forall id :: id in Remember(w, i, key, e).writer ==> Remember(w, i, key, e).writer[id] < calls
  {}

  lemma ActMeans(cfg: Config, w: World, i: nat, a: Action)
    requires Sound(cfg.env) && Inv(cfg, w) && AllMean(w) && i < |w.calls|
    ensures AllMean(Apply(cfg, w, Act(i, a)))
  {
    hide Sound, StoreSound, HistorySound, CallSound, Step, MeansWhatItSays, Kept, Remember, Grows;
    var e := Step(cfg, w.facts.store, w.calls[i], a);
    var v := Apply(cfg, w, Act(i, a));
    StepKeeps(cfg, w.facts, i, w.calls[i], a);
    KeptGrows(cfg, w.facts, v.facts, i, e.call);
    WritersStay(w.facts, i, w.calls[i].intent.requestId, e, |w.calls|);
    forall j | 0 <= j < |v.calls| ensures MeansWhatItSays(v.facts, j, v.calls[j]) {
      if j == i { ActorMeans(cfg, w.facts, i, w.calls[i], a); } else { OthersMean(w.facts, v.facts, i, j, w.calls[j]); }
    }
  }

  lemma KeptGrows(cfg: Config, w: Facts, v: Facts, i: nat, c: Call)
    requires Kept(cfg, w, v, i, c)
    ensures Grows(w, v, i)
  {
    hide Grows, HistorySound, CallSound, NewKeysSound;
  }

  lemma PublishMeans(w: Facts, v: Facts, i: nat, c: Call)
    requires MeansWhatItSays(w, i, c) && v.writer == w.writer && v.history == w.history && v.store.dispatches == w.store.dispatches
    ensures MeansWhatItSays(v, i, c)
  {
    hide Unsent;
  }

  lemma {:induction false} RunMeans(cfg: Config, labels: seq<Label>)
    requires Sound(cfg.env)
    ensures AllMean(Exec(cfg, labels))
  {
    hide Sound, Inv, MeansWhatItSays, Step, WellFormed, Begin, Remember;
    if labels != [] {
      var before, step := labels[..|labels| - 1], labels[|labels| - 1];
      RunMeans(cfg, before);
      ExecKeeps(cfg, before);
      var w := Exec(cfg, before);
      match step
      case Enter(requester, role, catalog, intent) => BeginMeans(w.facts, |w.calls|, requester, role, catalog, intent);
      case Publish(name, evidence) =>
        forall j | 0 <= j < |w.calls| ensures MeansWhatItSays(Exec(cfg, labels).facts, j, w.calls[j]) {
          PublishMeans(w.facts, Exec(cfg, labels).facts, j, w.calls[j]);
        }
      case Act(i, action) => if i < |w.calls| { ActMeans(cfg, w, i, action); }
    }
  }

  /** In every run: a call that is told "pending" has a dispatch on record, so that a retry can find out what
      became of it, and a call that gets any other error without a receipt has sent nothing itself. So after
      a mutation a caller is given a receipt or told that it is pending, and nothing else. */
  lemma ErrorsMeanWhatTheySay(cfg: Config, w: World, i: nat)
    requires Sound(cfg.env) && Reachable(cfg, w) && i < |w.calls| && w.calls[i].pc.Returned? && w.calls[i].pc.answer.receipt.None?
    ensures var id, error := w.calls[i].intent.requestId, w.calls[i].pc.answer.error;
            && error.Some?
            && (error == Some(Pending) ==> id in w.facts.store.dispatches)
            && (error != Some(Pending) ==> !DidSend(w.facts, i, id))
  {
    hide Sound, Exec, DidSend;
    var labels :| Exec(cfg, labels) == w;
    RunMeans(cfg, labels);
    AnswersFit(cfg, labels, i);
    assert MeansWhatItSays(w.facts, i, w.calls[i]);
  }

  // ---------------------------------------------------------------- internal errors

  const INTERNAL: Pc := Returned(Answer(None, Some(Internal)))

  /** A read or write that failed, a random source that did, or a link that no token holds. */
  ghost predicate SomethingFailed(pc: Pc, a: Action)
  {
    || (a.Read? && a.fault) || (a.Create? && !a.write.Answered?) || (a.Admit? && a.nonce.None?)
    || (pc.Preparing? && a.Provide? && (a.receiptId.None? || !IsUuid(a.receiptId.value) || Oversized(pc.request, a.observed)))
  }

  lemma RequestReadingFails(cfg: Config, f: Facts, i: nat, c: Call, a: Action)
    requires StoreSound(cfg, f) && (c.pc.ReadingRequest? || c.pc.ReadingWinner?) && Step(cfg, f.store, c, a).call.pc == INTERNAL
    ensures a.Read? && a.fault
  {
    hide RequestOk, MatchesIntent, Admitted, EvidenceStored, BindingReserved, ApprovalReserved, DispatchSound, ResultSound, ReceiptSound;
    if c.intent.requestId in f.store.requests { assert RequestSound(cfg, f, c.intent.requestId); }
  }

  lemma ResumingKnows(cfg: Config, f: Facts, i: nat, c: Call)
    requires StoreSound(cfg, f) && CallSound(cfg, f, i, c) && c.pc.Resuming? && c.pc.request.requestId in f.store.dispatches
    ensures f.store.dispatches[c.pc.request.requestId].requestDigest == c.pc.request.digest
    ensures DispatchOk(cfg.env, f.store.dispatches[c.pc.request.requestId])
  {
    hide Authorized, DispatchOk, Usable, RequestSound, ResultSound, ReceiptSound;
    assert DispatchSound(cfg, f, c.pc.request.requestId);
  }

  lemma ResumingFails(cfg: Config, f: Facts, i: nat, c: Call, a: Action)
    requires StoreSound(cfg, f) && CallSound(cfg, f, i, c) && c.pc.Resuming? && Step(cfg, f.store, c, a).call.pc == INTERNAL
    ensures a.Read? && a.fault
  {
    hide StepReadRequest, StepAdmit, StepReserve, StepReserveBinding, StepReserveApproval, StepStoreRequest, StepReadWinner,
         StepPrepare, StepStoreDispatch, StepDispatch, StepReadResult, StepRecover, StepStoreResult, StepReadStoredResult, StepStoreReceipt, StepReadStoredReceipt;
    hide StoreSound, CallSound, DispatchOk;
    if c.pc.request.requestId in f.store.dispatches { ResumingKnows(cfg, f, i, c); }
  }

  lemma ResultKnown(cfg: Config, f: Facts, i: nat, c: Call)
    requires StoreSound(cfg, f) && CallSound(cfg, f, i, c) && c.pc.ReadingResult? && c.pc.request.requestId in f.store.results
    ensures var result := f.store.results[c.pc.request.requestId]; ResultOk(cfg.env, result) && ResultFits(c.pc.request, c.pc.dispatch, result)
  {
    hide Authorized, RequestSound, DispatchSound, ReceiptSound, Justified, ResultOk;
    assert ResultSound(cfg, f, c.pc.request.requestId);
  }

  lemma ResultReadingFails(cfg: Config, f: Facts, i: nat, c: Call, a: Action)
    requires StoreSound(cfg, f) && CallSound(cfg, f, i, c) && c.pc.ReadingResult? && Step(cfg, f.store, c, a).call.pc == INTERNAL
    ensures a.Read? && a.fault
  {
    hide StepReadRequest, StepAdmit, StepReserve, StepReserveBinding, StepReserveApproval, StepStoreRequest, StepReadWinner,
         StepPrepare, StepStoreDispatch, StepDispatch, StepResume, StepRecover, StepStoreResult, StepReadStoredResult, StepStoreReceipt, StepReadStoredReceipt;
    hide StoreSound, CallSound, ResultOk, ResultFits, Finalize;
    if c.pc.request.requestId in f.store.results {
      ResultKnown(cfg, f, i, c);
      FittingFinalize(cfg.env, c.pc.request, c.pc.dispatch, f.store.results[c.pc.request.requestId]);
    }
  }

  lemma AdmissionFails(cfg: Config, f: Facts, i: nat, c: Call, a: Action)
    requires c.pc.ReadingEvidence? && Step(cfg, f.store, c, a).call.pc == INTERNAL
    ensures a.Admit? && a.nonce.None?
  {
    hide EvidenceAccepted, InWindow, SealRequest, Draft;
  }

  lemma ReserveFails(cfg: Config, s: Store, c: Call, write: Write)
    requires c.pc.Reserving? && StepReserve(cfg, s, c, write).call.pc == INTERNAL
    requires ValidReservation(cfg.env, c.pc.request.requestId, BindingDigest(cfg.env, c.pc.request), c.pc.origin.evidence.approval.approvalId,
                              c.pc.request.nonce, c.pc.request.expiresAt)
    ensures !write.Answered?
  {
    hide ValidReservation, BindingDigest, Payload, Put;
  }

  lemma KeysFail(cfg: Config, s: Store, c: Call, write: Write)
    ensures c.pc.ReservingBinding? && StepReserveBinding(cfg, s, c, write).call.pc == INTERNAL ==> !write.Answered?
    ensures c.pc.ReservingApproval? && StepReserveApproval(s, c, write).call.pc == INTERNAL ==> !write.Answered?
  {
    hide BindingDigest, Put;
  }

  lemma StoringFails(env: Env, s: Store, c: Call, write: Write)
    requires c.pc.StoringRequest? && RequestDigestOk(env, c.pc.request, None) && StepStoreRequest(env, s, c, write).call.pc == INTERNAL
    ensures !write.Answered?
  {
    hide RequestDigestOk, Put;
  }

  lemma ReservationFails(cfg: Config, f: Facts, i: nat, c: Call, a: Action)
    requires Sound(cfg.env) && CallSound(cfg, f, i, c) && Step(cfg, f.store, c, a).call.pc == INTERNAL
    requires c.pc.Reserving? || c.pc.ReservingBinding? || c.pc.ReservingApproval? || c.pc.StoringRequest?
    ensures a.Create? && !a.write.Answered?
  {
    hide StepReadRequest, StepAdmit, StepReserve, StepReserveBinding, StepReserveApproval, StepStoreRequest, StepReadWinner,
         StepPrepare, StepStoreDispatch, StepDispatch, StepResume, StepReadResult, StepRecover, StepStoreResult, StepReadStoredResult, StepStoreReceipt, StepReadStoredReceipt;
    hide Sound, CallSound, ValidReservation, RequestDigestOk, BindingDigest, Admitted;
    CallAdmitted(cfg, f, i, c);
    AdmittedReserves(cfg.env, c.pc.origin, c.pc.request);
    if a.Create? {
      KeysFail(cfg, f.store, c, a.write);
      if c.pc.Reserving? { ReserveFails(cfg, f.store, c, a.write); }
      if c.pc.StoringRequest? { StoringFails(cfg.env, f.store, c, a.write); }
    }
  }

  lemma CallAdmitted(cfg: Config, f: Facts, i: nat, c: Call)
    requires CallSound(cfg, f, i, c) && (c.pc.Reserving? || c.pc.ReservingBinding? || c.pc.ReservingApproval? || c.pc.StoringRequest?)
    ensures Admitted(cfg.env, c.pc.origin, c.pc.request)
  {
    hide Authorized, Admitted, Holds, BindingReserved, ApprovalReserved, EvidenceStored;
  }

  lemma RecordingFails(cfg: Config, f: Facts, i: nat, c: Call, a: Action)
    requires CallSound(cfg, f, i, c) && c.pc.StoringDispatch? && Step(cfg, f.store, c, a).call.pc == INTERNAL
    ensures a.Create? && !a.write.Answered?
  {
    hide Authorized, Usable, ValidDispatch, DigestHolds, NewResult;
  }

  lemma LaterNeverInternal(cfg: Config, f: Facts, i: nat, c: Call, a: Action)
    requires StoreSound(cfg, f) && CallSound(cfg, f, i, c) && (AfterRecord(c.pc) && !c.pc.ReadingResult?)
    ensures Step(cfg, f.store, c, a).call.pc != INTERNAL
  {
    hide StoreSound, CallSound, Step, GoesOn;
    if c.pc.StoringResult? || c.pc.ReadingStoredResult? {
      ResultStep(cfg, f, i, c, a);
      GoingOn(Step(cfg, f.store, c, a).call.pc);
    } else if c.pc.StoringReceipt? || c.pc.ReadingStoredReceipt? {
      ReceiptStep(cfg, f.store, c, a);
      GoingOn(Step(cfg, f.store, c, a).call.pc);
    } else if c.pc.Dispatching? {
      MutationStep(cfg, f.store, c, a);
    } else {
      RecoveryNotInternal(cfg, f.store, c, a);
    }
  }

  lemma RecoveryNotInternal(cfg: Config, s: Store, c: Call, a: Action)
    requires c.pc.Recovering?
    ensures Step(cfg, s, c, a).call.pc != INTERNAL
  {
    hide Recover, NewResult;
  }

  lemma PreparationFails(cfg: Config, w: World, i: nat, a: Action)
    requires Sound(cfg.env) && Reachable(cfg, w) && i < |w.calls| && w.calls[i].pc.Preparing? && Step(cfg, w.facts.store, w.calls[i], a).call.pc == INTERNAL
    ensures SomethingFailed(w.calls[i].pc, a)
  {
    hide Sound, Reachable, StepPrepare, Oversized, IsUuid;
    if a.Provide? { PreparationExactly(cfg, w, i, a.observed, a.receiptId, a.clock); }
  }

  /** In every reachable world a call answers with an internal error only at a step at which a read or write
      failed, the random source failed, or a ready run was shown with an oversized link. */
  lemma InternalMeansFailure(cfg: Config, w: World, i: nat, a: Action)
    requires Sound(cfg.env) && Reachable(cfg, w) && i < |w.calls| && !w.calls[i].pc.Returned?
    requires Step(cfg, w.facts.store, w.calls[i], a).call.pc == Returned(Answer(None, Some(Internal)))
    ensures SomethingFailed(w.calls[i].pc, a)
  {
    hide Sound, Reachable, StoreSound, HistorySound, CallSound, Step, AfterRecord, Oversized, IsUuid;
    ReachableKeeps(cfg, w);
    var c := w.calls[i];
    assert CallSound(cfg, w.facts, i, c);
    if c.pc.Preparing? {
      PreparationFails(cfg, w, i, a);
    } else if c.pc.ReadingResult? {
      ResultReadingFails(cfg, w.facts, i, c, a);
    } else if AfterRecord(c.pc) {
      LaterNeverInternal(cfg, w.facts, i, c, a);
    } else if c.pc.StoringDispatch? {
      RecordingFails(cfg, w.facts, i, c, a);
    } else {
      NotAfterRecord(c.pc);
      if c.pc.ReadingEvidence? {
        AdmissionFails(cfg, w.facts, i, c, a);
      } else if c.pc.Reserving? || c.pc.ReservingBinding? || c.pc.ReservingApproval? || c.pc.StoringRequest? {
        ReservationFails(cfg, w.facts, i, c, a);
      } else {
        if c.pc.Resuming? { ResumingFails(cfg, w.facts, i, c, a); } else { RequestReadingFails(cfg, w.facts, i, c, a); }
      }
    }
  }
}
