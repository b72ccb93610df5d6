/** The inductive invariant of the outbox: what the durable chain looks like in every reachable
    world, what each call knows at each point, and which facts only one call can hold. */
module ProtocolInvariant {
  import opened Prelude
  import opened Patterns
  import opened Contract
  import opened Catalog
  import opened Broker
  import opened Protocol

  // ---------------------------------------------------------------- vocabulary

  ghost predicate TargetFits(target: RepositoryTarget, request: Request)
  {
    target.repository == request.repository && TargetWorkflowId(target, request.operation) == request.workflowId
  }

  ghost predicate StateFits(s: RecoveryState, request: Request)
  {
    && s.operation == request.operation && s.repository == request.repository && s.workflowId == request.workflowId
    && s.workflowRunId == request.workflowRunId && s.protectedMainSha == request.protectedMainSha
    && IsProviderReference(s.providerReference)
  }

  /** The token reads as a state made for this request. */
  ghost predicate Readable(token: string, request: Request)
  {
    ReadToken(token).Some? && StateFits(ReadToken(token).value, request)
  }

  /** `Prepare` went through on what the provider showed, and made this token. */
  ghost predicate Proceeds(s: Sighting)
  {
    Prepare(s.target, s.request, s.observed) == (s.token, PROCEED)
  }

  ghost predicate ObservedBefore(observations: seq<Sighting>, request: Request, token: string)
  {
    exists k :: 0 <= k < |observations| && observations[k].request == request && observations[k].token == token && Proceeds(observations[k])
  }

  /** The token reads as a state of the request, and a preparation of this run made it. */
  ghost predicate Usable(observations: seq<Sighting>, token: string, request: Request)
  {
    Readable(token, request) && ObservedBefore(observations, request, token)
  }

  /** The request is made for this call's intent. */
  ghost predicate Serves(c: Call, request: Request)
  {
    && request.requestId == c.intent.requestId && request.repository == c.intent.repository
    && request.operation == c.intent.operation && request.workflowId == c.intent.workflowId
  }

  ghost predicate Authorized(c: Call)
  {
    Enabled(c.target, c.intent.repository, c.intent.operation, c.intent.workflowId)
  }

  // ---------------------------------------------------------------- the durable chain

  ghost predicate EvidenceStored(w: Facts, o: Origin)
  {
    o.intent.evidenceDigest in w.store.evidence && w.store.evidence[o.intent.evidenceDigest] == o.evidence
  }

  ghost predicate BindingReserved(cfg: Config, w: Facts, request: Request)
  {
    BindingDigest(cfg.env, request) in w.store.bindings && w.store.bindings[BindingDigest(cfg.env, request)] == request.requestId
  }

  ghost predicate ApprovalReserved(w: Facts, o: Origin, request: Request)
  {
    && o.evidence.approval.approvalId in w.store.approvals
    && w.store.approvals[o.evidence.approval.approvalId] == request.requestId
  }

  ghost predicate IdReserved(w: Facts, request: Request)
  {
    request.requestId in w.store.reservations && w.store.reservations[request.requestId] == Payload(request)
  }

  /** A stored request was admitted from its origin and owns all three of its reservations. */
  ghost predicate RequestSound(cfg: Config, w: Facts, id: string)
    requires id in w.store.requests
  {
    var request := w.store.requests[id];
    && request.requestId == id && RequestOk(cfg.env, request)
    && id in w.origins && Admitted(cfg.env, w.origins[id], request) && EvidenceStored(w, w.origins[id])
    && IdReserved(w, request) && id in w.reserver
    && BindingReserved(cfg, w, request) && ApprovalReserved(w, w.origins[id], request)
  }

  /** A stored dispatch belongs to a stored request; its token comes from a preparation that went
      through for that request or is the token of a rejected one. */
  ghost predicate DispatchSound(cfg: Config, w: Facts, id: string)
    requires id in w.store.dispatches
  {
    var dispatch := w.store.dispatches[id];
    && dispatch.requestId == id && DispatchOk(cfg.env, dispatch)
    && id in w.store.requests && dispatch.requestDigest == w.store.requests[id].digest
    && (dispatch.recoveryToken == REJECTED_TOKEN || Usable(w.observations, dispatch.recoveryToken, w.store.requests[id]))
  }

  /** The provider definitely refused a mutation for this request. */
  ghost predicate ProviderRefused(history: seq<Event>, request: Request)
  {
    exists k :: 0 <= k < |history| && history[k].request == request && history[k].mutation.Some?
      && DefiniteRefusal(request.operation, history[k].mutation.value)
  }

  /** The provider confirmed a mutation for this request. */
  ghost predicate ProviderConfirmed(history: seq<Event>, request: Request)
  {
    exists k :: 0 <= k < |history| && history[k].request == request
      && history[k].mutation == Some(Status(ExpectedStatus(request.operation)))
  }

  ghost predicate Recovers(s: Sighting)
  {
    Recover(s.target, s.request, s.token, s.observed).accepted
  }

  /** What the provider showed at some point of the run recovers this request. */
  ghost predicate ProviderObserved(sightings: seq<Sighting>, request: Request, token: string)
  {
    exists k :: 0 <= k < |sightings| && sightings[k].request == request && sightings[k].token == token && Recovers(sightings[k])
  }

  /** What a result's status rests on. */
  ghost predicate Justified(w: Facts, request: Request, token: string, status: string)
  {
    if status == REJECTED then token == REJECTED_TOKEN || ProviderRefused(w.history, request)
    else status == ACCEPTED && Readable(token, request)
         && (ProviderConfirmed(w.history, request) || ProviderObserved(w.sightings, request, token))
  }

  ghost predicate ResultFits(request: Request, dispatch: Dispatch, result: Result)
  {
    result.requestId == request.requestId && result.requestDigest == request.digest && result.receiptId == dispatch.receiptId
  }

  ghost predicate ResultSound(cfg: Config, w: Facts, id: string)
    requires id in w.store.results
  {
    var result := w.store.results[id];
    && ResultOk(cfg.env, result)
    && id in w.store.requests && id in w.store.dispatches
    && ResultFits(w.store.requests[id], w.store.dispatches[id], result)
    && Justified(w, w.store.requests[id], w.store.dispatches[id].recoveryToken, result.status)
  }

  /** The receipt is the one that the stored request and result of `id` determine. */
  ghost predicate Concludes(cfg: Config, w: Facts, id: string, receipt: Receipt)
  {
    id in w.store.requests && id in w.store.results
    && FinalReceipt(cfg.env, w.store.requests[id], w.store.results[id]) == Some(receipt)
  }

  ghost predicate ReceiptSound(cfg: Config, w: Facts, key: string)
    requires key in w.store.receipts
  {
    var receipt := w.store.receipts[key];
    key == ReceiptKey(cfg, receipt) && Concludes(cfg, w, receipt.requestId, receipt)
  }

  ghost predicate StoreSound(cfg: Config, w: Facts)
  {
    && (forall id :: id in w.store.requests ==> RequestSound(cfg, w, id))
    && (forall id :: id in w.store.dispatches ==> DispatchSound(cfg, w, id))
    && (forall id :: id in w.store.results ==> ResultSound(cfg, w, id))
    && (forall key :: key in w.store.receipts ==> ReceiptSound(cfg, w, key))
    && (forall id :: id in w.origins ==> id in w.store.requests)
    && (forall id :: id in w.reserver ==> id in w.store.reservations)
    && (forall id :: id in w.writer ==> id in w.store.dispatches)
  }

  // ---------------------------------------------------------------- history

  ghost predicate Settled(w: Facts, request: Request)
  {
    request.requestId in w.store.requests && w.store.requests[request.requestId] == request
  }

  ghost predicate Recorded(w: Facts, request: Request, dispatch: Dispatch)
  {
    && Settled(w, request) && request.requestId in w.store.dispatches && w.store.dispatches[request.requestId] == dispatch
  }

  /** A dispatch was made for a stored request, under an enabled entry, by the writer of its record. */
  ghost predicate EventSound(w: Facts, ev: Event)
  {
    && Settled(w, ev.request) && ev.request.requestId in w.store.dispatches && ev.request.requestId in w.writer
    && Usable(w.observations, w.store.dispatches[ev.request.requestId].recoveryToken, ev.request)
    && Enabled(ev.target, ev.request.repository, ev.request.operation, ev.request.workflowId)
    && ev.mutation.Some?
  }

  ghost predicate Unsent(history: seq<Event>, id: string)
  {
    forall k :: 0 <= k < |history| ==> history[k].request.requestId != id
  }

  ghost predicate HistorySound(w: Facts)
  {
    && (forall k :: 0 <= k < |w.history| ==> EventSound(w, w.history[k]))
    && (forall j, k :: 0 <= j < k < |w.history| ==> w.history[j].request.requestId != w.history[k].request.requestId)
  }

  // ---------------------------------------------------------------- calls

  /** The call `i` was told that it reserved this request ID, and has not stored the request yet. */
  ghost predicate Holds(w: Facts, i: nat, request: Request)
  {
    && request.requestId in w.reserver && w.reserver[request.requestId] == i
    && IdReserved(w, request) && request.requestId !in w.store.requests
  }

  ghost predicate AdmittedCall(cfg: Config, w: Facts, c: Call, o: Origin, request: Request)
  {
    Admitted(cfg.env, o, request) && o.intent == c.intent && Serves(c, request) && EvidenceStored(w, o)
  }

  /** The receipt concludes a stored request with the digest of the caller's own request. */
  ghost predicate Deliverable(cfg: Config, w: Facts, request: Request, receipt: Receipt)
  {
    exists id :: Concludes(cfg, w, id, receipt) && w.store.requests[id].digest == request.digest
  }

  ghost predicate Durable(cfg: Config, w: Facts, receipt: Receipt)
  {
    ReceiptKey(cfg, receipt) in w.store.receipts && w.store.receipts[ReceiptKey(cfg, receipt)] == receipt
  }

  /** A receipt that a caller was given is stored and concludes the request the caller named. */
  ghost predicate AnswerSound(cfg: Config, w: Facts, c: Call, receipt: Receipt)
  {
    && Durable(cfg, w, receipt)
    && c.intent.requestId in w.store.requests && c.intent.requestId in w.store.results
    && Deliverable(cfg, w, w.store.requests[c.intent.requestId], receipt)
    && receipt.receiptId == w.store.results[c.intent.requestId].receiptId
  }

  ghost predicate DispatchMade(cfg: Config, w: Facts, request: Request, dispatch: Dispatch, prepared: Outcome)
  {
    && dispatch.requestId == request.requestId && dispatch.requestDigest == request.digest && DispatchOk(cfg.env, dispatch)
    && !prepared.accepted
    && (if prepared.final then dispatch.recoveryToken == REJECTED_TOKEN else Usable(w.observations, dispatch.recoveryToken, request))
  }

  ghost predicate ResultMade(cfg: Config, w: Facts, request: Request, dispatch: Dispatch, result: Result)
  {
    && ResultFits(request, dispatch, result) && ResultOk(cfg.env, result)
    && Justified(w, request, dispatch.recoveryToken, result.status)
  }

  /** What call `i` knows where it stands. */
  ghost predicate CallSound(cfg: Config, w: Facts, i: nat, c: Call)
  {
    && (c.pc.Returned? || Authorized(c))
    && match c.pc
       case ReadingRequest => true
       case ReadingEvidence => true
       case Reserving(o, request) => AdmittedCall(cfg, w, c, o, request)
       case ReservingBinding(o, request) => AdmittedCall(cfg, w, c, o, request) && Holds(w, i, request)
       case ReservingApproval(o, request) =>
         AdmittedCall(cfg, w, c, o, request) && Holds(w, i, request) && BindingReserved(cfg, w, request)
       case StoringRequest(o, request) =>
         AdmittedCall(cfg, w, c, o, request) && Holds(w, i, request) && BindingReserved(cfg, w, request) && ApprovalReserved(w, o, request)
       case ReadingWinner => true
       case Preparing(request) => Serves(c, request) && Settled(w, request)
       case StoringDispatch(request, dispatch, prepared) =>
         Serves(c, request) && Settled(w, request) && DispatchMade(cfg, w, request, dispatch, prepared)
       case Dispatching(request, dispatch) =>
         && Serves(c, request) && Recorded(w, request, dispatch) && Usable(w.observations, dispatch.recoveryToken, request)
         && request.requestId in w.writer && w.writer[request.requestId] == i && Unsent(w.history, request.requestId)
       case Resuming(request) => Serves(c, request) && Settled(w, request)
       case ReadingResult(request, dispatch) => Serves(c, request) && Recorded(w, request, dispatch)
       case Recovering(request, dispatch) => Serves(c, request) && Recorded(w, request, dispatch)
       case StoringResult(request, dispatch, result) =>
         Serves(c, request) && Recorded(w, request, dispatch) && ResultMade(cfg, w, request, dispatch, result)
       case ReadingStoredResult(request, dispatch) => Serves(c, request) && Recorded(w, request, dispatch)
       case StoringReceipt(request, receipt) =>
         Serves(c, request) && Settled(w, request) && Concludes(cfg, w, request.requestId, receipt)
       case ReadingStoredReceipt(request, receipt) =>
         Serves(c, request) && Settled(w, request) && Concludes(cfg, w, request.requestId, receipt)
       case Returned(answer) => answer.receipt.Some? ==> AnswerSound(cfg, w, c, answer.receipt.value)
  }

  ghost predicate Inv(cfg: Config, w: World)
  {
    && StoreSound(cfg, w.facts) && HistorySound(w.facts)
    && forall i :: 0 <= i < |w.calls| ==> CallSound(cfg, w.facts, i, w.calls[i])
  }

  // ---------------------------------------------------------------- facts only accumulate

  ghost predicate Extends<V>(a: map<string, V>, b: map<string, V>)
  {
    forall k :: k in a ==> k in b && b[k] == a[k]
  }

  /** `w` became `v`, everything recorded is kept, and the two exclusive facts changed only for `actor`. */
  ghost predicate Grows(w: Facts, v: Facts, actor: nat)
  {
    && Extends(w.store.evidence, v.store.evidence) && Extends(w.store.reservations, v.store.reservations)
    && Extends(w.store.bindings, v.store.bindings) && Extends(w.store.approvals, v.store.approvals)
    && Extends(w.store.requests, v.store.requests) && Extends(w.store.dispatches, v.store.dispatches)
    && Extends(w.store.results, v.store.results) && Extends(w.store.receipts, v.store.receipts)
    && Extends(w.origins, v.origins) && Extends(w.reserver, v.reserver) && Extends(w.writer, v.writer)
    && |w.history| <= |v.history| && v.history[..|w.history|] == w.history
    && |w.sightings| <= |v.sightings| && v.sightings[..|w.sightings|] == w.sightings
    && w.observations <= v.observations
    && (forall id :: id in v.store.requests && id !in w.store.requests ==> id in w.reserver && w.reserver[id] == actor)
    && (forall k :: |w.history| <= k < |v.history| ==>
          v.history[k].request.requestId in w.writer && w.writer[v.history[k].request.requestId] == actor)
  }

  lemma JustifiedGrows(w: Facts, v: Facts, actor: nat, request: Request, token: string, status: string)
    requires Grows(w, v, actor) && Justified(w, request, token, status)
    ensures Justified(v, request, token, status)
  {
    hide Readable, DefiniteRefusal, Recovers;
    assert forall k :: 0 <= k < |w.history| ==> v.history[k] == v.history[..|w.history|][k];
    if ProviderRefused(w.history, request) {
      var k :| 0 <= k < |w.history| && w.history[k].request == request && w.history[k].mutation.Some?
               && DefiniteRefusal(request.operation, w.history[k].mutation.value);
      assert v.history[k] == w.history[k];
    }
    if ProviderConfirmed(w.history, request) {
      var k :| 0 <= k < |w.history| && w.history[k].request == request
               && w.history[k].mutation == Some(Status(ExpectedStatus(request.operation)));
      assert v.history[k] == w.history[k];
    }
    if ProviderObserved(w.sightings, request, token) {
      var k :| 0 <= k < |w.sightings| && w.sightings[k].request == request && w.sightings[k].token == token && Recovers(w.sightings[k]);
      assert v.sightings[k] == v.sightings[..|w.sightings|][k];
    }
  }

  lemma UsableGrows(before: seq<Sighting>, after: seq<Sighting>, token: string, request: Request)
    requires before <= after && Usable(before, token, request)
    ensures Usable(after, token, request)
  {
    hide Readable, Proceeds;
    var k :| 0 <= k < |before| && before[k].request == request && before[k].token == token && Proceeds(before[k]);
    assert after[k] == before[k];
  }

  lemma DeliverableGrows(cfg: Config, w: Facts, v: Facts, actor: nat, request: Request, receipt: Receipt)
    requires Grows(w, v, actor) && Deliverable(cfg, w, request, receipt)
    ensures Deliverable(cfg, v, request, receipt)
  {
    hide FinalReceipt;
    var id :| Concludes(cfg, w, id, receipt) && w.store.requests[id].digest == request.digest;
    assert Concludes(cfg, v, id, receipt);
  }

  /** A call that did not act keeps what it knows. */
  lemma OthersKeep(cfg: Config, w: Facts, v: Facts, actor: nat, i: nat, c: Call)
    requires Grows(w, v, actor) && CallSound(cfg, w, i, c) && i != actor
    ensures CallSound(cfg, v, i, c)
  {
    hide Admitted, Usable, FinalReceipt, Enabled, DispatchOk, ResultOk, BindingDigest, Justified, Deliverable,
         ReceiptKey;
    if c.pc.StoringDispatch? && !c.pc.prepared.final { UsableGrows(w.observations, v.observations, c.pc.dispatch.recoveryToken, c.pc.request); }
    if c.pc.Dispatching? { UsableGrows(w.observations, v.observations, c.pc.dispatch.recoveryToken, c.pc.request); }
    if c.pc.StoringResult? {
      JustifiedGrows(w, v, actor, c.pc.request, c.pc.dispatch.recoveryToken, c.pc.result.status);
    }
    if c.pc.Returned? && c.pc.answer.receipt.Some? {
      DeliverableGrows(cfg, w, v, actor, w.store.requests[c.intent.requestId], c.pc.answer.receipt.value);
    }
    if c.pc.Dispatching? {
      var id := c.pc.request.requestId;
      forall k | 0 <= k < |v.history| ensures v.history[k].request.requestId != id {
        if k < |w.history| { assert v.history[k] == v.history[..|w.history|][k]; }
      }
    }
  }

  /** The chain is kept for the records that were already stored. */
  lemma ChainKept(cfg: Config, w: Facts, v: Facts, actor: nat)
    requires Grows(w, v, actor) && StoreSound(cfg, w)
    ensures forall id :: id in w.store.requests ==> RequestSound(cfg, v, id)
    ensures forall id :: id in w.store.dispatches ==> DispatchSound(cfg, v, id)
    ensures forall id :: id in w.store.results ==> ResultSound(cfg, v, id)
    ensures forall key :: key in w.store.receipts ==> ReceiptSound(cfg, v, key)
  {
    hide Admitted, Usable, FinalReceipt, RequestOk, DispatchOk, ResultOk, BindingDigest, Justified, ReceiptKey;
    forall id | id in w.store.requests ensures RequestSound(cfg, v, id) {
      assert RequestSound(cfg, w, id);
    }
    forall id | id in w.store.dispatches ensures DispatchSound(cfg, v, id) {
      assert DispatchSound(cfg, w, id);
      if w.store.dispatches[id].recoveryToken != REJECTED_TOKEN {
        UsableGrows(w.observations, v.observations, w.store.dispatches[id].recoveryToken, w.store.requests[id]);
      }
    }
    forall id | id in w.store.results ensures ResultSound(cfg, v, id) {
      assert ResultSound(cfg, w, id);
      JustifiedGrows(w, v, actor, w.store.requests[id], w.store.dispatches[id].recoveryToken, w.store.results[id].status);
    }
    forall key | key in w.store.receipts ensures ReceiptSound(cfg, v, key) {
      assert ReceiptSound(cfg, w, key);
    }
  }

  lemma HistoryKept(w: Facts, v: Facts, actor: nat)
    requires Grows(w, v, actor) && HistorySound(w) && v.history == w.history
    ensures HistorySound(v)
  {
    hide Usable, Enabled;
    forall k | 0 <= k < |v.history| ensures EventSound(v, v.history[k]) {
      assert EventSound(w, w.history[k]);
      UsableGrows(w.observations, v.observations, w.store.dispatches[w.history[k].request.requestId].recoveryToken, w.history[k].request);
    }
  }
}
