/** What the outbox promises about every run: at most one provider call per identity, no false
    rejection, one answer per request, a durable chain that never changes, and a trail from every
    dispatch back to an approval. */
module ProtocolSafety {
  import opened Prelude
  import opened Patterns
  import opened CanonicalJson
  import opened Contract
  import opened Catalog
  import opened Broker
  import opened Protocol
  import opened ProtocolInvariant
  import opened ProtocolSteps

  /** Some run ends in this world. */
  ghost predicate Reachable(cfg: Config, w: World)
  {
    exists labels :: Exec(cfg, labels) == w
  }

  lemma ReachableKeeps(cfg: Config, w: World)
    requires Sound(cfg.env) && Reachable(cfg, w)
    ensures StoreSound(cfg, w.facts) && HistorySound(w.facts)
    ensures forall i :: 0 <= i < |w.calls| ==> CallSound(cfg, w.facts, i, w.calls[i])
  {
    hide StoreSound, HistorySound, CallSound;
    var labels :| Exec(cfg, labels) == w;
    ExecKeeps(cfg, labels);
  }

  // ---------------------------------------------------------------- at most once

  ghost predicate ApartEvents(env: Env, f: Facts, a: Request, b: Request)
  {
    && a.requestId != b.requestId
    && a.requestId in f.origins && b.requestId in f.origins
    && f.origins[a.requestId].evidence.approval.approvalId != f.origins[b.requestId].evidence.approval.approvalId
    && a.evidenceDigest != b.evidenceDigest
    && BindingDigest(env, a) != BindingDigest(env, b) && BindingTree(a) != BindingTree(b)
  }

  lemma EventsApart(cfg: Config, f: Facts, j: nat, k: nat)
    requires StoreSound(cfg, f) && HistorySound(f) && j < k < |f.history|
    ensures ApartEvents(cfg.env, f, f.history[j].request, f.history[k].request)
  {
    hide BindingTree, Digest, Admitted, RequestOk, Usable, Enabled, DispatchSound, ResultSound, ReceiptSound;
    var a, b := f.history[j].request, f.history[k].request;
    assert EventSound(f, f.history[j]) && EventSound(f, f.history[k]);
    assert RequestSound(cfg, f, a.requestId) && RequestSound(cfg, f, b.requestId);
    AdmittedServes(cfg.env, f.origins[a.requestId], a);
    AdmittedServes(cfg.env, f.origins[b.requestId], b);
  }

  /** Two calls of `Dispatch` in one run never share a request ID, an approval, an evidence digest or a
      binding. */
  lemma AtMostOnce(cfg: Config, w: World, j: nat, k: nat)
    requires Sound(cfg.env) && Reachable(cfg, w)
    requires j < k < |w.facts.history|
    ensures ApartEvents(cfg.env, w.facts, w.facts.history[j].request, w.facts.history[k].request)
  {
    hide Sound, Reachable, StoreSound, HistorySound, CallSound, ApartEvents;
    ReachableKeeps(cfg, w);
    EventsApart(cfg, w.facts, j, k);
  }

  /** Every call of `Dispatch` reaches the provider: its own token always decodes. */
  lemma DispatchAlwaysMutates(cfg: Config, w: World, k: nat)
    requires Sound(cfg.env) && Reachable(cfg, w) && k < |w.facts.history|
    ensures w.facts.history[k].mutation.Some?
  {
    ReachableKeeps(cfg, w);
    hide Reachable, Sound, CallSound, Readable, Enabled;
    assert EventSound(w.facts, w.facts.history[k]);
  }

  /** The nine fields that make two requests the same operation. */
  predicate SameOperation(a: Request, b: Request)
  {
    && a.operation == b.operation && a.repository == b.repository && a.workflowId == b.workflowId && a.workflowRunId == b.workflowRunId
    && a.protectedMainSha == b.protectedMainSha && a.planDigest == b.planDigest && a.evidenceDigest == b.evidenceDigest
    && a.requestedBy == b.requestedBy && a.reason == b.reason
  }

  function BindingValues(r: Request): seq<Json>
  {
    [Str(r.operation), Str(r.repository), Integer(r.workflowId), Integer(r.workflowRunId), Str(r.protectedMainSha),
     Str(r.planDigest), Str(r.evidenceDigest), Str(r.requestedBy), Str(r.reason)]
  }

  lemma BindingTreeInjective(a: Request, b: Request)
    ensures Printable(BindingTree(a))
    ensures BindingTree(a) == BindingTree(b) ==> SameOperation(a, b)
  {
    hide Struct, Unstruct, Integer, ReadInteger;
    IntegerRoundTrip(a.workflowId);
    IntegerRoundTrip(a.workflowRunId);
    IntegerRoundTrip(b.workflowId);
    IntegerRoundTrip(b.workflowRunId);
    StructPrintable(BINDING_KEYS, BindingValues(a));
    StructRoundTrip(BINDING_KEYS, BindingValues(a));
    StructRoundTrip(BINDING_KEYS, BindingValues(b));
    if BindingTree(a) == BindingTree(b) {
      assert forall i :: 0 <= i < 9 ==> BindingValues(a)[i] == BindingValues(b)[i];
    }
  }

  lemma SameOperationSameTree(a: Request, b: Request)
    requires SameOperation(a, b)
    ensures BindingTree(a) == BindingTree(b)
  {
    hide Struct, Integer;
  }

  /** The bytes whose hash is the binding. */
  function BindingBytes(request: Request): seq<Byte>
  {
    match CanonicalBytes(BindingTree(request))
    case Some(bytes) => bytes
    case None => []
  }

  /** Requests reserve the same binding exactly when they are the same operation, unless canonical
      bytes collide: neither the request ID nor the times or the nonce make a difference. */
  lemma BindingBindsExactly(env: Env, a: Request, b: Request)
    ensures SameOperation(a, b) ==> BindingDigest(env, a) == BindingDigest(env, b)
    ensures BindingDigest(env, a) == BindingDigest(env, b) ==>
              || SameOperation(a, b)
              || Collision(env, BindingBytes(a), BindingBytes(b))
  {
    BindingTreeInjective(a, b);
    BindingTreeInjective(b, a);
    hide Printable, BindingTree, Print, SameOperation;
    if SameOperation(a, b) { SameOperationSameTree(a, b); }
    if BindingDigest(env, a) == BindingDigest(env, b) {
      DigestBinds(env, BindingTree(a), BindingTree(b));
    }
  }

  // ---------------------------------------------------------------- no false rejection

  /** The provider was never asked, or it refused definitely. */
  ghost predicate NeverPerformed(history: seq<Event>, id: string)
  {
    forall k :: 0 <= k < |history| && history[k].request.requestId == id ==>
      history[k].mutation.Some? && DefiniteRefusal(history[k].request.operation, history[k].mutation.value)
  }

  lemma RejectionIsTrue(cfg: Config, f: Facts, id: string)
    requires StoreSound(cfg, f) && HistorySound(f) && id in f.store.results && f.store.results[id].status == REJECTED
    ensures NeverPerformed(f.history, id)
  {
    hide ResultOk, DispatchOk, RequestOk, ReadToken, DefiniteRefusal, Enabled, Admitted, EvidenceStored,
         BindingReserved, ApprovalReserved, ReceiptSound;
    RejectedTokenUnreadable();
    assert ResultSound(cfg, f, id);
    assert RequestSound(cfg, f, id);
    var request, token := f.store.requests[id], f.store.dispatches[id].recoveryToken;
    forall k | 0 <= k < |f.history| && f.history[k].request.requestId == id
      ensures f.history[k].mutation.Some? && DefiniteRefusal(f.history[k].request.operation, f.history[k].mutation.value)
    {
      assert EventSound(f, f.history[k]);
      var n :| 0 <= n < |f.history| && f.history[n].request == request && f.history[n].mutation.Some?
               && DefiniteRefusal(request.operation, f.history[n].mutation.value);
      assert n == k;
    }
  }

  /** What an acceptance rests on: the provider's own confirmation, or an observation of it. */
  ghost predicate WasPerformed(f: Facts, id: string)
  {
    && id in f.store.requests && id in f.store.dispatches
    && (ProviderConfirmed(f.history, f.store.requests[id])
        || ProviderObserved(f.sightings, f.store.requests[id], f.store.dispatches[id].recoveryToken))
  }

  lemma AcceptanceIsTrue(cfg: Config, f: Facts, id: string)
    requires StoreSound(cfg, f) && id in f.store.results && f.store.results[id].status != REJECTED
    ensures f.store.results[id].status == ACCEPTED && WasPerformed(f, id)
  {
    hide RequestSound, DispatchSound, ReceiptSound, Readable, ResultOk, ProviderConfirmed, ProviderObserved;
    assert ResultSound(cfg, f, id);
  }

  /** A stored rejection is never false: for its request the provider was never asked to act, or
      its one answer was a status below 500 other than the expected one. Any other stored result is
      an acceptance that the provider confirmed or that an observation of the provider shows. */
  lemma NoFalseRejection(cfg: Config, w: World, id: string)
    requires Sound(cfg.env) && Reachable(cfg, w) && id in w.facts.store.results
    ensures w.facts.store.results[id].status == REJECTED ==> NeverPerformed(w.facts.history, id)
    ensures w.facts.store.results[id].status != REJECTED ==>
              w.facts.store.results[id].status == ACCEPTED && WasPerformed(w.facts, id)
  {
    hide Sound, Reachable, StoreSound, HistorySound, CallSound, WasPerformed, NeverPerformed;
    ReachableKeeps(cfg, w);
    if w.facts.store.results[id].status == REJECTED {
      RejectionIsTrue(cfg, w.facts, id);
    } else {
      AcceptanceIsTrue(cfg, w.facts, id);
    }
  }

  /** An answer from which nothing follows: none at all, or a server error. */
  predicate Ambiguous(operation: string, reply: Reply)
  {
    reply != Status(ExpectedStatus(operation)) && !DefiniteRefusal(operation, reply)
  }

  /** The one event of a request decides whether the provider confirmed it. */
  lemma OnlyEvent(f: Facts, k: nat)
    requires HistorySound(f) && k < |f.history|
    ensures ProviderConfirmed(f.history, f.history[k].request) ==>
              f.history[k].mutation == Some(Status(ExpectedStatus(f.history[k].request.operation)))
  {
    hide EventSound;
  }

  /** After an ambiguous answer the request is never recorded as rejected, in any continuation:
      a result, if there ever is one, is an acceptance that an observation of the provider showed. */
  lemma AmbiguityIsNeverRejection(cfg: Config, w: World, k: nat)
    requires Sound(cfg.env) && Reachable(cfg, w) && k < |w.facts.history|
    requires w.facts.history[k].mutation.Some?
    requires Ambiguous(w.facts.history[k].request.operation, w.facts.history[k].mutation.value)
    ensures var s, id := w.facts.store, w.facts.history[k].request.requestId;
            id in s.results ==>
              && s.results[id].status == ACCEPTED && id in s.requests && id in s.dispatches
              && ProviderObserved(w.facts.sightings, s.requests[id], s.dispatches[id].recoveryToken)
  {
    hide Sound, Reachable, StoreSound, CallSound, Readable, ProviderConfirmed, ProviderObserved, Enabled,
         DefiniteRefusal;
    ReachableKeeps(cfg, w);
    var f := w.facts;
    var id := f.history[k].request.requestId;
    if id in f.store.results {
      NoFalseRejection(cfg, w, id);
      assert EventSound(f, f.history[k]);
      OnlyEvent(f, k);
    }
  }

  lemma AmbiguousOutcome(target: RepositoryTarget, request: Request, token: string, reply: Reply)
    requires DecodeState(token, target, request).Some? && Ambiguous(request.operation, reply)
    ensures !DispatchOutcome(target, request, token, reply).final
  {
    hide DecodeState;
  }

  /** A call at `Dispatch` can decode its own token. */
  lemma DispatchingDecodes(cfg: Config, f: Facts, i: nat, c: Call)
    requires CallSound(cfg, f, i, c) && c.pc.Dispatching?
    ensures DecodeState(c.pc.dispatch.recoveryToken, c.target, c.pc.request).Some?
  {
    hide CallSound, Authorized, Serves, Recorded, Usable, Readable, Unsent, Enabled, TargetFits, DecodeState;
    DispatchingKnows(cfg, f, i, c);
    AuthorizedFits(c, c.pc.request);
    UsableReads(f.observations, c.pc.dispatch.recoveryToken, c.pc.request);
    ReadableDecodes(c.pc.dispatch.recoveryToken, c.target, c.pc.request);
  }

  lemma AmbiguousStep(cfg: Config, w: World, i: nat, reply: Reply, clock: int)
    requires i < |w.calls| && w.calls[i].pc.Dispatching?
    requires DecodeState(w.calls[i].pc.dispatch.recoveryToken, w.calls[i].target, w.calls[i].pc.request).Some?
    requires !DispatchOutcome(w.calls[i].target, w.calls[i].pc.request, w.calls[i].pc.dispatch.recoveryToken, reply).final
    ensures var v := Apply(cfg, w, Act(i, Mutate(reply, clock)));
            && v.facts == w.facts.(history := w.facts.history + [Event(w.calls[i].target, w.calls[i].pc.request, Some(reply))])
            && v.calls[i].pc == Fail(Pending)
  {
    hide DecodeState, DispatchOutcome, StepDispatch, Remember;
    DispatchShape(cfg, w.facts, i, w.calls[i], reply, clock);
  }

  /** In every reachable world, the step that gets an ambiguous answer records the mutation, writes nothing
      and answers that the outcome is pending. */
  lemma AmbiguityStoresNothing(cfg: Config, w: World, i: nat, reply: Reply, clock: int)
    requires Sound(cfg.env) && Reachable(cfg, w)
    requires i < |w.calls| && w.calls[i].pc.Dispatching? && Ambiguous(w.calls[i].pc.request.operation, reply)
    ensures var v := Apply(cfg, w, Act(i, Mutate(reply, clock)));
            && v.facts == w.facts.(history := w.facts.history + [Event(w.calls[i].target, w.calls[i].pc.request, Some(reply))])
            && v.calls[i].pc == Fail(Pending)
  {
    hide Sound, Reachable, StoreSound, HistorySound, CallSound, DecodeState, Ambiguous, DispatchOutcome, Apply;
    ReachableKeeps(cfg, w);
    DispatchingDecodes(cfg, w.facts, i, w.calls[i]);
    AmbiguousOutcome(w.calls[i].target, w.calls[i].pc.request, w.calls[i].pc.dispatch.recoveryToken, reply);
    AmbiguousStep(cfg, w, i, reply, clock);
  }

  // ---------------------------------------------------------------- agreement

  ghost predicate DigestsCollide(env: Env, requests: map<string, Request>)
  {
    exists a, b :: a in requests && b in requests && Collision(env, MaterialBytes(requests[a]), MaterialBytes(requests[b]))
  }

  /** The bytes whose hash is the digest of a request. */
  function MaterialBytes(request: Request): seq<Byte>
  {
    match CanonicalBytes(RequestTree(RequestMaterial(request)))
    case Some(bytes) => bytes
    case None => []
  }

  lemma SameDigest(cfg: Config, f: Facts, a: string, b: string)
    requires StoreSound(cfg, f) && a in f.store.requests && b in f.store.requests && a != b
    requires f.store.requests[a].digest == f.store.requests[b].digest
    ensures DigestsCollide(cfg.env, f.store.requests)
  {
    hide Admitted, EvidenceStored, BindingReserved, ApprovalReserved, DispatchSound, ResultSound, ReceiptSound,
         ValidRequest, RequestTree, CanonicalBytes, ValidSignature;
    assert RequestSound(cfg, f, a) && RequestSound(cfg, f, b);
    var x, y := f.store.requests[a], f.store.requests[b];
    RequestDigestBinds(cfg.env, x, y);
    RequestRoundTrip(RequestMaterial(x));
    RequestRoundTrip(RequestMaterial(y));
    assert RequestMaterial(x).requestId != RequestMaterial(y).requestId;
    assert Collision(cfg.env, MaterialBytes(x), MaterialBytes(y));
  }

  ghost predicate Delivered(w: World, i: nat, receipt: Receipt)
  {
    i < |w.calls| && w.calls[i].pc.Returned? && w.calls[i].pc.answer.receipt == Some(receipt)
  }

  /** The receipt that a stored request and its stored result determine. */
  ghost predicate IsOutcome(cfg: Config, f: Facts, id: string, receipt: Receipt)
  {
    && Durable(cfg, f, receipt)
    && id in f.store.requests && id in f.store.results
    && receipt.receiptId == f.store.results[id].receiptId && receipt.requestDigest == f.store.requests[id].digest
    && (FinalReceipt(cfg.env, f.store.requests[id], f.store.results[id]) == Some(receipt) || DigestsCollide(cfg.env, f.store.requests))
  }

  lemma SoundAnswerIsOutcome(cfg: Config, f: Facts, c: Call, receipt: Receipt)
    requires StoreSound(cfg, f) && AnswerSound(cfg, f, c, receipt)
    ensures IsOutcome(cfg, f, c.intent.requestId, receipt)
  {
    hide StoreSound, FinalReceipt, Durable, DigestsCollide;
    var id := c.intent.requestId;
    var other :| Concludes(cfg, f, other, receipt) && f.store.requests[other].digest == f.store.requests[id].digest;
    FinalReceiptFields(cfg.env, f.store.requests[other], f.store.results[other]);
    if other != id { SameDigest(cfg, f, id, other); }
  }

  /** A call returns a receipt or an error; next to a receipt it returns no error exactly when the receipt says
      "accepted", and otherwise the error that the operation was not ready. */
  predicate ErrorFits(pc: Pc)
  {
    pc.Returned? ==>
      if pc.answer.receipt.None? then pc.answer.error.Some?
      else if pc.answer.receipt.value.status == "accepted" then pc.answer.error == None
      else pc.answer.error == Some(Error.Unready)
  }

  lemma AdmissionAnswers(cfg: Config, s: Store, c: Call, a: Action)
    requires ErrorFits(c.pc)
    requires c.pc.ReadingRequest? || c.pc.ReadingEvidence? || c.pc.Reserving? || c.pc.ReservingBinding? || c.pc.ReservingApproval?
             || c.pc.StoringRequest? || c.pc.ReadingWinner?
    ensures ErrorFits(Step(cfg, s, c, a).call.pc)
  {
    hide StepPrepare, StepStoreDispatch, StepDispatch, StepResume, StepReadResult, StepRecover, StepStoreResult,
         StepReadStoredResult, StepStoreReceipt, StepReadStoredReceipt;
    hide RequestOk, RequestDigestOk, MatchesIntent, EvidenceAccepted, InWindow, SealRequest, Draft, BindingDigest, ValidReservation, Put;
  }

  lemma DispatchAnswers(cfg: Config, s: Store, c: Call, a: Action)
    requires ErrorFits(c.pc)
    requires c.pc.Preparing? || c.pc.StoringDispatch? || c.pc.Dispatching? || c.pc.Resuming? || c.pc.ReadingResult? || c.pc.Recovering?
    ensures ErrorFits(Step(cfg, s, c, a).call.pc)
  {
    hide StepReadRequest, StepAdmit, StepReserve, StepReserveBinding, StepReserveApproval, StepStoreRequest, StepReadWinner,
         StepStoreResult, StepReadStoredResult, StepStoreReceipt, StepReadStoredReceipt;
    hide DispatchOk, DispatchDigestOk, ResultOk, Prepare, NewDispatch, NewResult, FinalReceipt, DecodeState, DispatchOutcome, Recover, Put;
  }

  lemma CompletionAnswers(cfg: Config, s: Store, c: Call, a: Action)
    requires ErrorFits(c.pc)
    requires c.pc.StoringResult? || c.pc.ReadingStoredResult? || c.pc.StoringReceipt? || c.pc.ReadingStoredReceipt? || c.pc.Returned?
    ensures ErrorFits(Step(cfg, s, c, a).call.pc)
  {
    hide StepReadRequest, StepAdmit, StepReserve, StepReserveBinding, StepReserveApproval, StepStoreRequest, StepReadWinner,
         StepPrepare, StepStoreDispatch, StepDispatch, StepResume, StepReadResult, StepRecover;
    hide ResultOk, ResultDigestOk, ReceiptOk, ReceiptDigestOk, FinalReceipt, ReceiptKey, FindReceipt, Put;
  }

  lemma StepAnswers(cfg: Config, s: Store, c: Call, a: Action)
    requires ErrorFits(c.pc)
    ensures ErrorFits(Step(cfg, s, c, a).call.pc)
  {
    hide Step, ErrorFits;
    if c.pc.Preparing? || c.pc.StoringDispatch? || c.pc.Dispatching? || c.pc.Resuming? || c.pc.ReadingResult? || c.pc.Recovering? {
      DispatchAnswers(cfg, s, c, a);
    } else if c.pc.StoringResult? || c.pc.ReadingStoredResult? || c.pc.StoringReceipt? || c.pc.ReadingStoredReceipt? || c.pc.Returned? {
      CompletionAnswers(cfg, s, c, a);
    } else {
      AdmissionAnswers(cfg, s, c, a);
    }
  }

  lemma BeginAnswers(requester: string, role: int, catalog: Catalog, intent: Intent)
    ensures ErrorFits(Begin(requester, role, catalog, intent).pc)
  {
    hide Authorize, IsUuid, AllowedOperation;
  }

  /** Every answer of every run says in its error what it says in its receipt. */
  lemma {:induction false} AnswersFit(cfg: Config, labels: seq<Label>, i: nat)
    requires i < |Exec(cfg, labels).calls|
    ensures ErrorFits(Exec(cfg, labels).calls[i].pc)
  {
    hide Step, ErrorFits, Begin, WellFormed, Remember;
    if labels != [] {
      var before, step := labels[..|labels| - 1], labels[|labels| - 1];
      var w := Exec(cfg, before);
      if i < |w.calls| {
        AnswersFit(cfg, before, i);
        if step.Act? && step.call == i { StepAnswers(cfg, w.facts.store, w.calls[i], step.action); }
      } else {
        BeginAnswers(step.requester, step.role, step.catalog, step.intent);
      }
    }
  }

  /** A receipt that a caller gets is stored and is the one receipt that the stored request and the
      stored result of its request ID determine, unless two stored requests collide under SHA-256. It comes
      without an error exactly when it says "accepted", and otherwise with the error "unready". */
  lemma AnswerIsTheOutcome(cfg: Config, w: World, i: nat, receipt: Receipt)
    requires Sound(cfg.env) && Reachable(cfg, w) && Delivered(w, i, receipt)
    ensures IsOutcome(cfg, w.facts, w.calls[i].intent.requestId, receipt)
    ensures w.calls[i].pc.answer.error == None <==> receipt.status == "accepted"
    ensures receipt.status != "accepted" ==> w.calls[i].pc.answer.error == Some(Error.Unready)
  {
    hide Sound, StoreSound, HistorySound, IsOutcome, AnswerSound, Authorized, Exec;
    ReachableKeeps(cfg, w);
    assert CallSound(cfg, w.facts, i, w.calls[i]);
    SoundAnswerIsOutcome(cfg, w.facts, w.calls[i], receipt);
    var labels :| Exec(cfg, labels) == w;
    AnswersFit(cfg, labels, i);
  }

  /** Any two callers of one request ID that get a receipt get the same receipt, whatever they
      raced on, unless two stored requests collide under SHA-256. */
  lemma Agreement(cfg: Config, w: World, i: nat, j: nat, a: Receipt, b: Receipt)
    requires Sound(cfg.env) && Reachable(cfg, w) && Delivered(w, i, a) && Delivered(w, j, b)
    requires w.calls[i].intent.requestId == w.calls[j].intent.requestId
    ensures a == b || DigestsCollide(cfg.env, w.facts.store.requests)
  {
    hide Reachable, Sound, FinalReceipt, Durable, DigestsCollide;
    AnswerIsTheOutcome(cfg, w, i, a);
    AnswerIsTheOutcome(cfg, w, j, b);
  }

  // ---------------------------------------------------------------- the durable chain

  ghost predicate ReceiptFollows(cfg: Config, s: Store, key: string)
    requires key in s.receipts
  {
    var r := s.receipts[key];
    && key == ReceiptKey(cfg, r) && r.requestId in s.results && r.requestId in s.requests
    && r.requestDigest == s.requests[r.requestId].digest && r.receiptId == s.results[r.requestId].receiptId
    && r.status == s.results[r.requestId].status && r.reasonCode == s.results[r.requestId].reasonCode
    && r.providerReference == s.results[r.requestId].providerReference && r.recordedAt == s.results[r.requestId].recordedAt
    && r.operation == s.requests[r.requestId].operation && r.repository == s.requests[r.requestId].repository
  }

  ghost predicate ResultFollows(s: Store, id: string)
    requires id in s.results
  {
    && s.results[id].requestId == id && id in s.dispatches && id in s.requests
    && s.results[id].receiptId == s.dispatches[id].receiptId && s.results[id].requestDigest == s.requests[id].digest
  }

  ghost predicate DispatchFollows(s: Store, id: string)
    requires id in s.dispatches
  {
    s.dispatches[id].requestId == id && id in s.requests && s.dispatches[id].requestDigest == s.requests[id].digest
  }

  ghost predicate RequestReserved(cfg: Config, f: Facts, id: string)
    requires id in f.store.requests
  {
    && f.store.requests[id].requestId == id && id in f.origins
    && id in f.store.reservations && f.store.reservations[id] == f.store.requests[id].nonce + ":" + f.store.requests[id].expiresAt
    && BindingReserved(cfg, f, f.store.requests[id]) && ApprovalReserved(f, f.origins[id], f.store.requests[id])
  }

  /** Each receipt has its result, each result its dispatch, each dispatch its request and each
      request its three reservations, with identities and digests equal along the chain. */
  ghost predicate Chained(cfg: Config, f: Facts)
  {
    && (forall key :: key in f.store.receipts ==> ReceiptFollows(cfg, f.store, key))
    && (forall id :: id in f.store.results ==> ResultFollows(f.store, id))
    && (forall id :: id in f.store.dispatches ==> DispatchFollows(f.store, id))
    && (forall id :: id in f.store.requests ==> RequestReserved(cfg, f, id))
  }

  lemma SoundIsChained(cfg: Config, f: Facts)
    requires StoreSound(cfg, f)
    ensures Chained(cfg, f)
  {
    hide FinalReceipt, ReceiptKey, BindingReserved, ApprovalReserved, RequestOk, DispatchOk, ResultOk, Readable,
         Admitted, Justified, EvidenceStored;
    forall id | id in f.store.requests ensures RequestReserved(cfg, f, id) { assert RequestSound(cfg, f, id); }
    forall id | id in f.store.dispatches ensures DispatchFollows(f.store, id) { assert DispatchSound(cfg, f, id); }
    forall id | id in f.store.results ensures ResultFollows(f.store, id) {
      assert ResultSound(cfg, f, id);
      assert RequestSound(cfg, f, id) && DispatchSound(cfg, f, id);
    }
    forall key | key in f.store.receipts ensures ReceiptFollows(cfg, f.store, key) {
      assert ReceiptSound(cfg, f, key);
      var id := f.store.receipts[key].requestId;
      FinalReceiptFields(cfg.env, f.store.requests[id], f.store.results[id]);
    }
  }

  /** The chain holds in every reachable world. */
  lemma DurableChain(cfg: Config, w: World)
    requires Sound(cfg.env) && Reachable(cfg, w)
    ensures Chained(cfg, w.facts)
  {
    hide Sound, Reachable, StoreSound, HistorySound, CallSound, Chained;
    ReachableKeeps(cfg, w);
    SoundIsChained(cfg, w.facts);
  }
}
