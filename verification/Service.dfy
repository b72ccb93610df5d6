/** `Service` as the source writes it (internal/operations/service.go:57-302), over the in-memory
    repository: imperative code in which every repository call may be preceded by any steps of other
    callers, may fail, and may be performed although it reports a failure. Each method is proved to
    take its call from one position of the protocol to the answer it returns. */
module Service {
  import opened Prelude
  import opened Patterns
  import opened Contract
  import opened Catalog
  import opened Broker
  import opened Protocol
  import opened ProtocolInvariant
  import opened ProtocolSteps
  import opened ProtocolSafety
  import opened ProtocolProgress
  import opened ProtocolTrace
  import opened ProtocolRetry
  import MemoryRepository

  /** The labels after `before` are steps of other callers than `i`. */
  ghost predicate Elsewhere(before: seq<Label>, after: seq<Label>, i: nat)
  {
    before <= after && forall n :: |before| <= n < |after| && after[n].Act? ==> after[n].call != i
  }

  lemma OtherLeaves(cfg: Config, w: World, step: Label, i: nat)
    requires i < |w.calls| && (step.Act? ==> step.call != i)
    ensures i < |Apply(cfg, w, step).calls| && Apply(cfg, w, step).calls[i] == w.calls[i]
  {
    hide Step, WellFormed, Begin, Remember;
  }

  /** Other callers never move call `i` and never remove a dispatch. */
  lemma {:induction false} OthersLeave(cfg: Config, before: seq<Label>, after: seq<Label>, i: nat)
    requires Sound(cfg.env) && Elsewhere(before, after, i) && i < |Exec(cfg, before).calls|
    ensures i < |Exec(cfg, after).calls| && Exec(cfg, after).calls[i] == Exec(cfg, before).calls[i]
    ensures Extends(Exec(cfg, before).facts.store.dispatches, Exec(cfg, after).facts.store.dispatches)
    decreases |after|
  {
    hide Sound, Apply, Inv, Extends;
    if after == before {
      Unchanged(Exec(cfg, before).facts.store.dispatches);
    } else {
      var last, step := after[..|after| - 1], after[|after| - 1];
      assert before <= last;
      OthersLeave(cfg, before, last, i);
      ExecKeeps(cfg, last);
      OtherLeaves(cfg, Exec(cfg, last), step, i);
      ApplyAccumulates(cfg, Exec(cfg, last), step);
      ExtendsTrans(Exec(cfg, before).facts.store.dispatches, Exec(cfg, last).facts.store.dispatches, Exec(cfg, after).facts.store.dispatches);
    }
  }

  lemma Unchanged<V>(m: map<string, V>)
    ensures Extends(m, m)
  {}

  lemma ExtendsTrans<V>(a: map<string, V>, b: map<string, V>, c: map<string, V>)
    requires Extends(a, b) && Extends(b, c)
    ensures Extends(a, c)
  {}

  /** What the environment supplies to one call: the clock, the random source, the role of each approver, what
      the provider shows and answers; and whether every read and write gets its answer. */
  datatype Given = Given(
    admittedAt: int, nonce: Option<string>, roles: map<string, RoleAnswer>,
    observed: Observation, receiptId: Option<string>, preparedAt: int,
    reply: Reply, seen: Observation, recordedAt: int, reliable: bool)

  predicate FitsGiven(a: Action, x: Given)
  {
    match a
    case Read(fault) => x.reliable ==> !fault
    case Admit(fault, clock, nonce, answers) =>
      (x.reliable ==> !fault) && clock == x.admittedAt && nonce == x.nonce && answers == x.roles
    case Create(write, clock) => (x.reliable ==> write.Answered?) && clock == x.recordedAt
    case Provide(observed, receiptId, clock) => observed == x.observed && receiptId == x.receiptId && clock == x.preparedAt
    case Mutate(reply, clock) => reply == x.reply && clock == x.recordedAt
    case Observe(observed, clock) => observed == x.seen && clock == x.recordedAt
  }

  /** A call of this run, and how long the run was when it came in. */
  datatype Caller = Caller(id: nat, from: nat)

  /** Every step of the caller, from when it came in, is what the environment supplied to it. */
  ghost predicate Follows(labels: seq<Label>, me: Caller, x: Given)
  {
    && me.from <= |labels|
    && forall n :: me.from <= n < |labels| && labels[n].Act? && labels[n].call == me.id ==> FitsGiven(labels[n].action, x)
  }

  lemma OthersFollow(before: seq<Label>, after: seq<Label>, me: Caller, x: Given)
    requires Elsewhere(before, after, me.id) && Follows(before, me, x)
    ensures Follows(after, me, x)
  {
    forall n | me.from <= n < |after| && after[n].Act? && after[n].call == me.id ensures FitsGiven(after[n].action, x) {
      assert n < |before| && after[n] == before[n];
    }
  }

  datatype Admission = Barred(error: Error) | Sealed(request: Request, approvalId: string)

  const NO_INTENT: Intent := Intent("", "", "", "", 0, 0, "", "", "", "", "")

  const NO_ORIGIN: Origin :=
    Origin(0, "", "", NO_INTENT, Evidence("", "", 0, 0, "", "", "", false, Approval("", "", "", "", [], "", ""), "", "", ""), map[])

  class Service {
    const cfg: Config
    const catalog: Catalog
    const memory: MemoryRepository.MemoryRepository
    /** The run so far, of this and every other caller. */
    ghost var labels: seq<Label>

    ghost function World(): World
      reads this
    {
      Exec(cfg, labels)
    }

    ghost predicate Valid()
      reads this, memory
    {
      && Sound(cfg.env) && cfg.backend.Memory? && memory.env == cfg.env && WellFormed(catalog)
      && memory.Contents() == World().facts.store
    }

    /** The caller stands as `c` says, by steps that follow what it was given. */
    ghost predicate At(me: Caller, x: Given, c: Call)
      reads this
    {
      me.id < |World().calls| && World().calls[me.id] == c && Follows(labels, me, x)
    }

    constructor (configuration: Config, operations: Catalog)
      requires Sound(configuration.env) && configuration.backend.Memory? && WellFormed(operations)
      ensures cfg == configuration && catalog == operations && Valid() && labels == [] && fresh(memory)
    {
      cfg, catalog := configuration, operations;
      memory := new MemoryRepository.MemoryRepository(configuration.env);
      labels := [];
    }

    // -------------------------------------------------------------- the environment

    /** Here other callers may take any steps. The contract leaves them open, so whatever is proved
        of a caller of this method holds for every interleaving. */
    method Interfere(ghost i: nat)
      requires Valid()
      modifies this`labels, memory
      ensures Valid() && Elsewhere(old(labels), labels, i)
    {
    }

    method Await(ghost me: Caller, ghost x: Given, ghost c: Call)
      requires Valid() && At(me, x, c)
      modifies this`labels, memory
      ensures Valid() && At(me, x, c) && old(labels) <= labels
      ensures forall k :: k in old(memory.dispatches) ==> k in memory.dispatches
    {
      hide Exec, Follows, Sound, WellFormed;
      Interfere(me.id);
      OthersLeave(cfg, old(labels), labels, me.id);
      OthersFollow(old(labels), labels, me, x);
      assert memory.dispatches == memory.Contents().dispatches;
    }

    ghost method Take(me: Caller, x: Given, c: Call, a: Action)
      requires At(me, x, c) && FitsGiven(a, x)
      modifies this`labels
      ensures old(labels) <= labels
      ensures At(me, x, Step(cfg, old(World()).facts.store, c, a).call)
      ensures World().facts.store == Step(cfg, old(World()).facts.store, c, a).store
    {
      hide Step;
      labels := labels + [Act(me.id, a)];
      assert labels[..|labels| - 1] == old(labels);
    }

    // -------------------------------------------------------------- repository calls

    /** A read of the repository: other callers act first, and the answer may not arrive. */
    method Read(ghost me: Caller, x: Given, ghost c: Call) returns (fault: bool)
      requires Valid() && At(me, x, c)
      modifies this`labels, memory
      ensures Valid() && old(labels) <= labels
      ensures At(me, x, Step(cfg, memory.Contents(), c, Action.Read(fault)).call)
      ensures forall k :: k in old(memory.dispatches) ==> k in memory.dispatches
    {
      hide Step, Exec, Follows, Sound, WellFormed;
      Await(me, x, c);
      fault := *;
      if x.reliable { fault := false; }
      ReadsOnly(cfg, memory.Contents(), c, fault);
      Take(me, x, c, Action.Read(fault));
    }

    /** How a write reaches the repository and how its answer comes back. */
    method Transmission(x: Given) returns (write: Write)
      ensures x.reliable ==> write.Answered?
    {
      var answered: bool := *;
      var performed: bool := *;
      write := if answered || x.reliable then Answered else if performed then AnswerLost else NotPerformed;
    }

    method ReserveRequest(ghost me: Caller, x: Given, ghost c: Call, ghost origin: Origin, request: Request, bindingDigest: string,
                          approvalId: string) returns (reaction: Reaction)
      requires Valid() && At(me, x, c) && c.pc == Reserving(origin, request)
      requires bindingDigest == BindingDigest(cfg.env, request) && approvalId == origin.evidence.approval.approvalId
      modifies this`labels, memory
      ensures Valid() && old(labels) <= labels
      ensures At(me, x, c.(pc := match reaction
                             case Stored => StoringRequest(origin, request)
                             case Conflict => ReadingWinner
                             case Failed => Fail(Internal)))
    {
      hide Exec, Follows, Sound, WellFormed, BindingDigest, ValidReservation;
      hide StepReadRequest, StepAdmit, StepReserveBinding, StepReserveApproval, StepStoreRequest, StepReadWinner,
           StepPrepare, StepStoreDispatch, StepDispatch, StepResume, StepReadResult, StepRecover, StepStoreResult,
           StepReadStoredResult, StepStoreReceipt, StepReadStoredReceipt;
      Await(me, x, c);
      var write := Transmission(x);
      reaction := Failed;
      if !write.NotPerformed? {
        reaction := memory.ReserveRequest(request.requestId, bindingDigest, approvalId, request.nonce, request.expiresAt);
        if write.AnswerLost? { reaction := Failed; }
      }
      Take(me, x, c, Action.Create(write, x.recordedAt));
    }

    method PutRequest(ghost me: Caller, x: Given, ghost c: Call, request: Request) returns (reaction: Reaction)
      requires Valid() && At(me, x, c) && c.pc.StoringRequest? && c.pc.request == request
      modifies this`labels, memory
      ensures Valid() && old(labels) <= labels
      ensures At(me, x, c.(pc := match reaction
                             case Stored => Preparing(request)
                             case Conflict => ReadingWinner
                             case Failed => Fail(Internal)))
    {
      hide Exec, Follows, Sound, WellFormed, RequestDigestOk, Step;
      Await(me, x, c);
      ghost var before := memory.Contents();
      var write := Transmission(x);
      reaction := Failed;
      if !write.NotPerformed? {
        reaction := memory.PutRequest(request);
        if write.AnswerLost? { reaction := Failed; }
      }
      RequestWritten(cfg, before, c, write, x.recordedAt);
      Take(me, x, c, Action.Create(write, x.recordedAt));
    }

    method PutDispatch(ghost me: Caller, x: Given, ghost c: Call, dispatch: Dispatch) returns (reaction: Reaction)
      requires Valid() && At(me, x, c) && c.pc.StoringDispatch? && c.pc.dispatch == dispatch
      modifies this`labels, memory
      ensures Valid() && old(labels) <= labels
      ensures At(me, x, c.(pc := match reaction
                             case Stored =>
                               if c.pc.prepared.final then Protocol.Complete(cfg.env, c.pc.request, dispatch, c.pc.prepared, x.recordedAt)
                               else Dispatching(c.pc.request, dispatch)
                             case Conflict => Resuming(c.pc.request)
                             case Failed => Fail(Internal)))
      ensures reaction.Conflict? ==> dispatch.requestId in memory.dispatches
    {
      hide Exec, Follows, Sound, WellFormed, DispatchDigestOk, Protocol.Complete;
      hide StepReadRequest, StepAdmit, StepReserve, StepReserveBinding, StepReserveApproval, StepStoreRequest,
           StepReadWinner, StepPrepare, StepDispatch, StepResume, StepReadResult, StepRecover, StepStoreResult,
           StepReadStoredResult, StepStoreReceipt, StepReadStoredReceipt;
      Await(me, x, c);
      var write := Transmission(x);
      reaction := Failed;
      if !write.NotPerformed? {
        reaction := memory.PutDispatch(dispatch);
        if write.AnswerLost? { reaction := Failed; }
      }
      Take(me, x, c, Action.Create(write, x.recordedAt));
    }

    method PutDispatchResult(ghost me: Caller, x: Given, ghost c: Call, result: Result) returns (reaction: Reaction)
      requires Valid() && At(me, x, c) && c.pc.StoringResult? && c.pc.result == result
      modifies this`labels, memory
      ensures Valid() && old(labels) <= labels
      ensures At(me, x, c.(pc := match reaction
                             case Stored => Protocol.Finalize(cfg.env, c.pc.request, c.pc.dispatch, result)
                             case Conflict => ReadingStoredResult(c.pc.request, c.pc.dispatch)
                             case Failed => Fail(Pending)))
    {
      hide Exec, Follows, Sound, WellFormed, ResultDigestOk, Protocol.Finalize, Step;
      Await(me, x, c);
      ghost var before := memory.Contents();
      var write := Transmission(x);
      reaction := Failed;
      if !write.NotPerformed? {
        reaction := memory.PutDispatchResult(result);
        if write.AnswerLost? { reaction := Failed; }
      }
      ResultWritten(cfg, before, c, write, x.recordedAt);
      Take(me, x, c, Action.Create(write, x.recordedAt));
    }

    method PutReceipt(ghost me: Caller, x: Given, ghost c: Call, receipt: Receipt) returns (reaction: Reaction)
      requires Valid() && At(me, x, c) && c.pc.StoringReceipt? && c.pc.receipt == receipt
      modifies this`labels, memory
      ensures Valid() && old(labels) <= labels
      ensures At(me, x, c.(pc := match reaction
                             case Stored => Deliver(receipt)
                             case Conflict => ReadingStoredReceipt(c.pc.request, receipt)
                             case Failed => Fail(Pending)))
    {
      hide Exec, Follows, Sound, WellFormed, ReceiptDigestOk, Deliver, Step;
      Await(me, x, c);
      ghost var before := memory.Contents();
      var write := Transmission(x);
      reaction := Failed;
      if !write.NotPerformed? {
        reaction := memory.PutReceipt(receipt);
        if write.AnswerLost? { reaction := Failed; }
      }
      ReceiptWritten(cfg, before, c, write, x.recordedAt);
      Take(me, x, c, Action.Create(write, x.recordedAt));
    }

    // -------------------------------------------------------------- Create

    /** `validateEvidence`, whose loop asks for one role after another. */
    method ValidateEvidence(now: int, requester: string, intent: Intent, evidence: Evidence, roles: map<string, RoleAnswer>)
      returns (accepted: bool)
      ensures accepted <==> EvidenceAccepted(cfg.env, now, requester, intent, evidence, roles)
      ensures accepted ==> CurrentAt(cfg.env, evidence, now)
    {
      EvidenceValidAt(cfg.env, evidence, now);
      hide EvidenceDigestOk, EqualFold, Approves;
      if !EvidenceDigestOk(cfg.env, evidence, Some(now)) { return false; }
      if evidence.digest != intent.evidenceDigest || evidence.repository != intent.repository || evidence.workflowId != intent.workflowId
         || evidence.protectedMainSha != intent.protectedMainSha || evidence.planDigest != intent.planDigest {
        return false;
      }
      if evidence.approval.operation != intent.operation || !EqualFold(evidence.approval.requestedBy, requester)
         || evidence.approval.reason != intent.reason {
        return false;
      }
      if intent.operation == REFRESH {
        if intent.workflowRunId != 0 { return false; }
      } else if evidence.workflowRunId != intent.workflowRunId {
        return false;
      }
      if intent.operation == CANCEL && !evidence.superseded { return false; }
      accepted := FindApprover(evidence.approval.approvers, requester, roles);
    }

    /** The approver loop: it passes over the requester, stops at a failed lookup and at the first approver. */
    method FindApprover(approvers: seq<string>, requester: string, roles: map<string, RoleAnswer>) returns (approved: bool)
      ensures approved <==>
                exists i :: DistinctApprover(approvers, i, requester, roles)
                  && forall j :: 0 <= j < i ==> PassedOver(approvers[j], requester, roles)
      ensures approved <==> Approves(approvers, requester, roles)
    {
      hide EqualFold, Approves;
      ApprovedExactly(approvers, requester, roles);
      for n := 0 to |approvers|
        invariant forall j :: 0 <= j < n ==> PassedOver(approvers[j], requester, roles)
      {
        var approver := approvers[n];
        if !EqualFold(approver, requester) {
          var answer := if approver in roles then roles[approver] else RoleError;
          if answer.RoleError? { return false; }
          if answer.role >= APPROVER {
            assert DistinctApprover(approvers, n, requester, roles);
            return true;
          }
        }
      }
      return false;
    }

    /** From the expiry check to the sealed request: nothing is written. */
    method Admit(ghost me: Caller, x: Given, ghost c: Call, requester: string, intent: Intent) returns (admission: Admission, ghost origin: Origin)
      requires Valid() && At(me, x, c) && c.pc == ReadingEvidence && c.requester == requester && c.intent == intent
      modifies this`labels, memory
      ensures Valid() && old(labels) <= labels
      ensures At(me, x, c.(pc := if admission.Barred? then Fail(admission.error) else Reserving(origin, admission.request)))
      ensures admission.Sealed? ==> admission.approvalId == origin.evidence.approval.approvalId
    {
      hide StepReadRequest, StepReserve, StepReserveBinding, StepReserveApproval, StepStoreRequest, StepReadWinner,
           StepPrepare, StepStoreDispatch, StepDispatch, StepResume, StepReadResult, StepRecover, StepStoreResult,
           StepReadStoredResult, StepStoreReceipt, StepReadStoredReceipt;
      hide Exec, Follows, Sound, WellFormed, InWindow, EvidenceAccepted, SealRequest, Draft;
      origin := NO_ORIGIN;
      Await(me, x, c);
      var fault: bool := *;
      if x.reliable { fault := false; }
      Take(me, x, c, Action.Admit(fault, x.admittedAt, x.nonce, x.roles));
      var now := x.admittedAt / SECOND * SECOND;
      if !InWindow(cfg.env, now, intent.expiresAt) { return Barred(Invalid), origin; }
      var evidence := memory.GetEvidence(intent.evidenceDigest);
      if fault || evidence.None? { return Barred(Invalid), origin; }
      var accepted := ValidateEvidence(now, requester, intent, evidence.value, x.roles);
      if !accepted { return Barred(Denied), origin; }
      if x.nonce.None? { return Barred(Internal), origin; }
      origin := Origin(now, x.nonce.value, requester, intent, evidence.value, x.roles);
      InWindowTime(cfg.env, now, intent.expiresAt);
      var draft := Draft(cfg.env, Origin(now, x.nonce.value, requester, intent, evidence.value, x.roles));
      var sealed := SealRequest(cfg.env, draft);
      if sealed.None? { return Barred(Invalid), origin; }
      return Sealed(sealed.value, evidence.value.approval.approvalId), origin;
    }

    /** `finalize`: stores the receipt of a result, or hands out the one that is stored. */
    method Finalize(ghost me: Caller, x: Given, ghost c: Call, request: Request, dispatch: Dispatch, result: Result) returns (answer: Answer)
      requires Valid() && At(me, x, c) && c.pc == Protocol.Finalize(cfg.env, request, dispatch, result)
      modifies this`labels, memory
      ensures Valid() && old(labels) <= labels && At(me, x, c.(pc := Returned(answer)))
    {
      hide StepReadRequest, StepAdmit, StepReserve, StepReserveBinding, StepReserveApproval, StepStoreRequest,
           StepReadWinner, StepPrepare, StepStoreDispatch, StepDispatch, StepResume, StepReadResult, StepRecover,
           StepStoreResult, StepReadStoredResult, StepStoreReceipt;
      hide Exec, Follows, Sound, WellFormed, FinalReceipt, FindReceipt, ReceiptOk, ReceiptKey;
      if result.requestId != request.requestId || result.requestDigest != request.digest || result.receiptId != dispatch.receiptId {
        return Answer(None, Some(Internal));
      }
      var sealed := FinalReceipt(cfg.env, request, result);
      if sealed.None? { return Answer(None, Some(Pending)); }
      var receipt := sealed.value;
      var reaction := PutReceipt(me, x, c, receipt);
      if reaction.Failed? { return Answer(None, Some(Pending)); }
      if reaction.Conflict? {
        ghost var waiting := c.(pc := ReadingStoredReceipt(request, receipt));
        var fault := Read(me, x, waiting);
        var stored := memory.GetReceiptByObject(receipt.auditObject);
        OnlyReceipt(cfg, labels, memory.receipts, receipt.auditObject, stored);
        if fault || stored.None? || !ReceiptOk(cfg.env, stored.value) || stored.value.requestDigest != request.digest
           || stored.value.receiptId != receipt.receiptId {
          return Answer(None, Some(Pending));
        }
        receipt := stored.value;
      }
      return Answer(Some(receipt), if receipt.status != ACCEPTED then Some(Error.Unready) else None);
    }

    /** `complete`: records a final outcome, or goes on with the one that is recorded. */
    method Complete(ghost me: Caller, x: Given, ghost c: Call, request: Request, dispatch: Dispatch, outcome: Outcome) returns (answer: Answer)
      requires Valid() && At(me, x, c) && c.pc == Protocol.Complete(cfg.env, request, dispatch, outcome, x.recordedAt)
      modifies this`labels, memory
      ensures Valid() && old(labels) <= labels && At(me, x, c.(pc := Returned(answer)))
    {
      hide StepReadRequest, StepAdmit, StepReserve, StepReserveBinding, StepReserveApproval, StepStoreRequest,
           StepReadWinner, StepPrepare, StepStoreDispatch, StepDispatch, StepResume, StepReadResult, StepRecover,
           StepStoreResult, StepStoreReceipt, StepReadStoredReceipt;
      hide Exec, Follows, Sound, WellFormed, NewResult, ResultOk, Protocol.Finalize;
      if !outcome.final { return Answer(None, Some(Pending)); }
      var sealed := NewResult(cfg.env, request, dispatch, outcome, x.recordedAt);
      if sealed.None? { return Answer(None, Some(Pending)); }
      var result := sealed.value;
      var reaction := PutDispatchResult(me, x, c, result);
      if reaction.Failed? { return Answer(None, Some(Pending)); }
      if reaction.Conflict? {
        ghost var waiting := c.(pc := ReadingStoredResult(request, dispatch));
        var fault := Read(me, x, waiting);
        var stored := memory.GetDispatchResult(request.requestId);
        if fault || stored.None? || !ResultOk(cfg.env, stored.value) {
          return Answer(None, Some(Pending));
        }
        result := stored.value;
      }
      answer := Finalize(me, x, c.(pc := Protocol.Finalize(cfg.env, request, dispatch, result)), request, dispatch, result);
    }

    /** `prepare`. The dispatch key is its and `resume`'s measure: once the key is taken, `resume` no
        longer comes back here. */
    method Prepare(ghost me: Caller, x: Given, ghost c: Call, target: RepositoryTarget, request: Request) returns (answer: Answer)
      requires Valid() && At(me, x, c) && c.pc == Preparing(request) && c.target == target
      modifies this`labels, memory
      ensures Valid() && old(labels) <= labels
      ensures exists n :: At(me, x, c.(pc := Returned(answer), preparations := n))
      decreases 9
    {
      hide StepReadRequest, StepAdmit, StepReserve, StepReserveBinding, StepReserveApproval, StepStoreRequest,
           StepReadWinner, StepStoreDispatch, StepDispatch, StepResume, StepReadResult, StepRecover, StepStoreResult,
           StepReadStoredResult, StepStoreReceipt, StepReadStoredReceipt;
      hide Exec, Follows, Sound, WellFormed, Broker.Prepare, NewDispatch, Protocol.Complete, DispatchOutcome, DecodeState;
      Await(me, x, c);
      var token, prepared := PrepareDispatch(target, request, x.observed);
      Take(me, x, c, Provide(x.observed, x.receiptId, x.preparedAt));
      if x.receiptId.None? { return Answer(None, Some(Internal)); }
      var sealed := NewDispatch(cfg.env, request, x.receiptId.value, token, x.preparedAt);
      if sealed.None? { return Answer(None, Some(Internal)); }
      var dispatch := sealed.value;
      ghost var ready := c.(preparations := c.preparations + 1, pc := StoringDispatch(request, dispatch, prepared));
      NewDispatchKey(cfg.env, request, x.receiptId.value, token, x.preparedAt);
      var reaction := PutDispatch(me, x, ready, dispatch);
      if reaction.Failed? { return Answer(None, Some(Internal)); }
      if reaction.Conflict? {
        answer := Resume(me, x, ready.(pc := Resuming(request)), target, request);
        return;
      }
      if prepared.final {
        answer := Complete(me, x, ready.(pc := Protocol.Complete(cfg.env, request, dispatch, prepared, x.recordedAt)), request, dispatch, prepared);
        return;
      }
      answer := Send(me, x, ready.(pc := Dispatching(request, dispatch)), target, request, dispatch);
    }

    /** The end of `prepare`: the one place that calls `Dispatch`. */
    method Send(ghost me: Caller, x: Given, ghost c: Call, target: RepositoryTarget, request: Request, dispatch: Dispatch) returns (answer: Answer)
      requires Valid() && At(me, x, c) && c.pc == Dispatching(request, dispatch) && c.target == target
      modifies this`labels, memory
      ensures Valid() && old(labels) <= labels && At(me, x, c.(pc := Returned(answer)))
    {
      hide Exec, Follows, Sound, WellFormed, Protocol.Complete, DispatchOutcome, DecodeState;
      hide StepReadRequest, StepAdmit, StepReserve, StepReserveBinding, StepReserveApproval, StepStoreRequest,
           StepReadWinner, StepPrepare, StepStoreDispatch, StepResume, StepReadResult, StepRecover, StepStoreResult,
           StepReadStoredResult, StepStoreReceipt, StepReadStoredReceipt;
      Await(me, x, c);
      var outcome := DispatchOutcome(target, request, dispatch.recoveryToken, x.reply);
      Take(me, x, c, Mutate(x.reply, x.recordedAt));
      answer := Complete(me, x, c.(pc := Protocol.Complete(cfg.env, request, dispatch, outcome, x.recordedAt)), request, dispatch, outcome);
    }

    /** `resume`. */
    method Resume(ghost me: Caller, x: Given, ghost c: Call, target: RepositoryTarget, request: Request) returns (answer: Answer)
      requires Valid() && At(me, x, c) && c.pc == Resuming(request) && c.target == target
      modifies this`labels, memory
      ensures Valid() && old(labels) <= labels
      ensures exists n :: At(me, x, c.(pc := Returned(answer), preparations := n))
      decreases if request.requestId in memory.dispatches then 7 else 10
    {
      hide StepReadRequest, StepAdmit, StepReserve, StepReserveBinding, StepReserveApproval, StepStoreRequest,
           StepReadWinner, StepPrepare, StepStoreDispatch, StepDispatch, StepReadResult, StepRecover, StepStoreResult,
           StepReadStoredResult, StepStoreReceipt, StepReadStoredReceipt;
      hide Exec, Follows, Sound, WellFormed, DispatchOk;
      var fault := Read(me, x, c);
      var found := memory.GetDispatch(request.requestId);
      if !fault && found.None? {
        answer := Prepare(me, x, c.(pc := Preparing(request)), target, request);
        return;
      }
      if fault || found.value.requestDigest != request.digest || !DispatchOk(cfg.env, found.value) {
        return Answer(None, Some(Internal));
      }
      answer := Inspect(me, x, c.(pc := ReadingResult(request, found.value)), target, request, found.value);
    }

    /** The rest of `resume`: goes on from the result of a dispatch, or without one asks the provider. */
    method Inspect(ghost me: Caller, x: Given, ghost c: Call, target: RepositoryTarget, request: Request, dispatch: Dispatch) returns (answer: Answer)
      requires Valid() && At(me, x, c) && c.pc == ReadingResult(request, dispatch) && c.target == target
      modifies this`labels, memory
      ensures Valid() && old(labels) <= labels && At(me, x, c.(pc := Returned(answer)))
    {
      hide StepReadRequest, StepAdmit, StepReserve, StepReserveBinding, StepReserveApproval, StepStoreRequest,
           StepReadWinner, StepPrepare, StepStoreDispatch, StepDispatch, StepResume, StepRecover, StepStoreResult,
           StepReadStoredResult, StepStoreReceipt, StepReadStoredReceipt;
      hide Exec, Follows, Sound, WellFormed, ResultOk, Protocol.Complete, Protocol.Finalize, Recover;
      var fault := Read(me, x, c);
      if fault { return Answer(None, Some(Internal)); }
      var stored := memory.GetDispatchResult(request.requestId);
      if stored.Some? {
        if !ResultOk(cfg.env, stored.value) { return Answer(None, Some(Internal)); }
        answer := Finalize(me, x, c.(pc := Protocol.Finalize(cfg.env, request, dispatch, stored.value)), request, dispatch, stored.value);
        return;
      }
      answer := Reconcile(me, x, c.(pc := Recovering(request, dispatch)), target, request, dispatch);
    }

    /** The end of `resume`: asks the provider what became of a dispatch without a result. */
    method Reconcile(ghost me: Caller, x: Given, ghost c: Call, target: RepositoryTarget, request: Request, dispatch: Dispatch) returns (answer: Answer)
      requires Valid() && At(me, x, c) && c.pc == Recovering(request, dispatch) && c.target == target
      modifies this`labels, memory
      ensures Valid() && old(labels) <= labels && At(me, x, c.(pc := Returned(answer)))
    {
      hide Exec, Follows, Sound, WellFormed, Protocol.Complete, Recover;
      hide StepReadRequest, StepAdmit, StepReserve, StepReserveBinding, StepReserveApproval, StepStoreRequest,
           StepReadWinner, StepPrepare, StepStoreDispatch, StepDispatch, StepResume, StepReadResult, StepStoreResult,
           StepReadStoredResult, StepStoreReceipt, StepReadStoredReceipt;
      Await(me, x, c);
      var outcome := RecoverDispatch(target, request, dispatch.recoveryToken, x.seen);
      Take(me, x, c, Observe(x.seen, x.recordedAt));
      answer := Complete(me, x, c.(pc := Protocol.Complete(cfg.env, request, dispatch, outcome, x.recordedAt)), request, dispatch, outcome);
    }

    /** After a conflict: resume the request that won, if it is this caller's own, or refuse a replay. */
    method FollowWinner(ghost me: Caller, x: Given, ghost c: Call, target: RepositoryTarget, requester: string, intent: Intent) returns (answer: Answer)
      requires Valid() && At(me, x, c) && c.pc == ReadingWinner && c.target == target && c.requester == requester && c.intent == intent
      modifies this`labels, memory
      ensures Valid() && old(labels) <= labels && Ended(me, x, c, answer)
    {
      hide Exec, Follows, Sound, WellFormed, RequestOk, MatchesIntent;
      hide StepReadRequest, StepAdmit, StepReserve, StepReserveBinding, StepReserveApproval, StepStoreRequest,
           StepPrepare, StepStoreDispatch, StepDispatch, StepResume, StepReadResult, StepRecover, StepStoreResult,
           StepReadStoredResult, StepStoreReceipt, StepReadStoredReceipt;
      var fault := Read(me, x, c);
      var existing := memory.GetRequest(intent.requestId);
      if !fault && existing.Some? && RequestOk(cfg.env, existing.value) && MatchesIntent(existing.value, intent, requester) {
        answer := Resume(me, x, c.(pc := Resuming(existing.value)), target, existing.value);
        return;
      }
      return Answer(None, Some(Replay));
    }

    /** The part of `Create` after the reservation: stores the request and prepares its dispatch. */
    method StoreNew(ghost me: Caller, x: Given, ghost c: Call, ghost origin: Origin, target: RepositoryTarget, request: Request,
                    requester: string, intent: Intent) returns (answer: Answer)
      requires Valid() && At(me, x, c) && c.pc == StoringRequest(origin, request) && c.target == target && c.requester == requester && c.intent == intent
      modifies this`labels, memory
      ensures Valid() && old(labels) <= labels && Ended(me, x, c, answer)
    {
      hide Exec, Follows, Sound, WellFormed, Step;
      var reaction := PutRequest(me, x, c, request);
      if reaction.Failed? { return Answer(None, Some(Internal)); }
      if reaction.Conflict? {
        answer := FollowWinner(me, x, c.(pc := ReadingWinner), target, requester, intent);
        return;
      }
      answer := Prepare(me, x, c.(pc := Preparing(request)), target, request);
    }

    /** The part of `Create` that only a new request ID reaches. */
    method CreateNew(ghost me: Caller, x: Given, ghost c: Call, target: RepositoryTarget, requester: string, intent: Intent) returns (answer: Answer)
      requires Valid() && At(me, x, c) && c.pc == ReadingEvidence && c.target == target && c.requester == requester && c.intent == intent
      modifies this`labels, memory
      ensures Valid() && old(labels) <= labels && Ended(me, x, c, answer)
    {
      hide Exec, Follows, Sound, WellFormed, BindingDigest, Step;
      var admission, origin := Admit(me, x, c, requester, intent);
      if admission.Barred? { return Answer(None, Some(admission.error)); }
      var request := admission.request;
      var bindingDigest := BindingDigest(cfg.env, request);
      var reaction := ReserveRequest(me, x, c.(pc := Reserving(origin, request)), origin, request, bindingDigest, admission.approvalId);
      if reaction.Failed? { return Answer(None, Some(Internal)); }
      if reaction.Conflict? {
        answer := FollowWinner(me, x, c.(pc := ReadingWinner), target, requester, intent);
        return;
      }
      answer := StoreNew(me, x, c.(pc := StoringRequest(origin, request)), origin, target, request, requester, intent);
    }

    ghost method Arrive(x: Given, requester: string, role: int, intent: Intent) returns (me: Caller)
      requires Valid()
      modifies this`labels
      ensures Valid() && old(labels) <= labels && me == Caller(old(|World().calls|), old(|labels|))
      ensures At(me, x, Begin(requester, role, catalog, intent))
    {
      hide Begin, WellFormed;
      me := Caller(|World().calls|, |labels|);
      labels := labels + [Enter(requester, role, catalog, intent)];
      assert labels[..|labels| - 1] == old(labels);
    }

    /** The call has returned this answer, by steps that follow what it was given. */
    ghost predicate Ended(me: Caller, x: Given, c: Call, answer: Answer)
      reads this
    {
      && me.id < |World().calls| && World().calls[me.id].pc == Returned(answer)
      && World().calls[me.id].intent == c.intent && World().calls[me.id].requester == c.requester && Follows(labels, me, x)
    }

    /** `Create`: a receipt that it hands out is stored and is the outcome of the request it names. */
    method Create(x: Given, requester: string, role: int, intent: Intent) returns (answer: Answer, ghost me: Caller)
      requires Valid()
      modifies this`labels, memory
      ensures Valid() && old(labels) <= labels && me == Caller(old(|World().calls|), old(|labels|))
      ensures Ended(me, x, Begin(requester, role, catalog, intent), answer)
      ensures answer.receipt.Some? ==> IsOutcome(cfg, World().facts, intent.requestId, answer.receipt.value)
      ensures answer.receipt.Some? ==> (answer.error == None <==> answer.receipt.value.status == "accepted")
      ensures answer.receipt.Some? && answer.receipt.value.status != "accepted" ==> answer.error == Some(Error.Unready)
      ensures answer.receipt.None? ==> answer.error.Some?
    {
      hide Exec, Follows, Sound, WellFormed, IsOutcome, Step, Authorize, IsUuid;
      me := Arrive(x, requester, role, intent);
      answer := Handle(me, x, Begin(requester, role, catalog, intent), requester, role, intent);
      BeginCaller(requester, role, catalog, intent);
      AnswersFit(cfg, labels, me.id);
      if answer.receipt.Some? { OutcomeReturned(cfg, labels, me.id, answer.receipt.value); }
    }

    method Handle(ghost me: Caller, x: Given, ghost c: Call, requester: string, role: int, intent: Intent) returns (answer: Answer)
      requires Valid() && At(me, x, c) && c == Begin(requester, role, catalog, intent)
      modifies this`labels, memory
      ensures Valid() && old(labels) <= labels && Ended(me, x, c, answer)
    {
      hide Exec, Follows, Sound, WellFormed, RequestOk, MatchesIntent, Authorize, IsUuid, AllowedOperation;
      hide StepAdmit, StepReserve, StepReserveBinding, StepReserveApproval, StepStoreRequest, StepReadWinner,
           StepPrepare, StepStoreDispatch, StepDispatch, StepResume, StepReadResult, StepRecover, StepStoreResult,
           StepReadStoredResult, StepStoreReceipt, StepReadStoredReceipt;
      if role < OPERATOR || role > ADMIN { return Answer(None, Some(Denied)); }
      if intent.schemaVersion != INTENT_SCHEMA || !IsUuid(intent.requestId) || !AllowedOperation(intent.operation) {
        return Answer(None, Some(Invalid));
      }
      var authorization := Authorize(catalog, intent);
      if authorization.NotCatalogued? { return Answer(None, Some(Error.NotCatalogued)); }
      if authorization.Disabled? { return Answer(None, Some(OperationDisabled)); }
      if authorization.Unready? { return Answer(None, Some(Error.Unready)); }
      var target := authorization.target;
      var fault := Read(me, x, c);
      if fault { return Answer(None, Some(Internal)); }
      var existing := memory.GetRequest(intent.requestId);
      if existing.Some? {
        if !RequestOk(cfg.env, existing.value) { return Answer(None, Some(Internal)); }
        if !MatchesIntent(existing.value, intent, requester) { return Answer(None, Some(Replay)); }
        answer := Resume(me, x, c.(pc := Resuming(existing.value)), target, existing.value);
        return;
      }
      answer := CreateNew(me, x, c.(pc := ReadingEvidence), target, requester, intent);
    }
  }

  lemma BeginCaller(requester: string, role: int, catalog: Catalog, intent: Intent)
    ensures Begin(requester, role, catalog, intent).intent == intent && Begin(requester, role, catalog, intent).requester == requester
  {
    hide Authorize, IsUuid, AllowedOperation;
  }

  lemma OutcomeReturned(cfg: Config, labels: seq<Label>, i: nat, receipt: Receipt)
    requires Sound(cfg.env) && Delivered(Exec(cfg, labels), i, receipt)
    ensures IsOutcome(cfg, Exec(cfg, labels).facts, Exec(cfg, labels).calls[i].intent.requestId, receipt)
  {
    hide Exec, Sound, IsOutcome;
    assert Reachable(cfg, Exec(cfg, labels));
    AnswerIsTheOutcome(cfg, Exec(cfg, labels), i, receipt);
  }

  lemma NewDispatchKey(env: Env, request: Request, receiptId: string, token: string, clock: int)
    ensures NewDispatch(env, request, receiptId, token, clock).Some? ==>
              NewDispatch(env, request, receiptId, token, clock).value.requestId == request.requestId
  {
    SealedDispatchFields(env, Dispatch("", request.requestId, request.digest, receiptId, token, Timestamp(env, clock), "", NO_SIGNATURE));
  }

  /** In memory at most one receipt has a given audit object, so the scan finds what the protocol finds. */
  lemma OnlyReceipt(cfg: Config, labels: seq<Label>, receipts: map<string, Receipt>, objectName: string, found: Option<Receipt>)
    requires Sound(cfg.env) && cfg.backend.Memory? && receipts == Exec(cfg, labels).facts.store.receipts
    requires if found.Some? then found.value.auditObject == objectName && exists key :: key in receipts && receipts[key] == found.value
             else forall key :: key in receipts ==> receipts[key].auditObject != objectName
    ensures FindReceipt(receipts, objectName) == found
  {
    hide Exec, Sound, StoreSound, HistorySound, CallSound, FindReceipt;
    ExecKeeps(cfg, labels);
    var f := Exec(cfg, labels).facts;
    var other := FindReceipt(f.store.receipts, objectName);
    if found.Some? {
      var a :| a in f.store.receipts && f.store.receipts[a] == found.value;
      var b :| b in f.store.receipts && f.store.receipts[b] == other.value;
      OneReceiptPerObject(cfg, f, a, b);
    }
  }

  lemma OneReceiptPerObject(cfg: Config, f: Facts, a: string, b: string)
    requires Sound(cfg.env) && cfg.backend.Memory? && StoreSound(cfg, f)
    requires a in f.store.receipts && b in f.store.receipts && f.store.receipts[a].auditObject == f.store.receipts[b].auditObject
    ensures a == b
  {
    hide Sound, RequestSound, DispatchSound, ResultSound, Concludes, ValidReceipt, ReceiptOk, ReceiptDigestOk;
    assert ReceiptSound(cfg, f, a) && ReceiptSound(cfg, f, b);
    Verified(cfg, f, f.store.receipts[a].requestId, f.store.receipts[a]);
    Verified(cfg, f, f.store.receipts[b].requestId, f.store.receipts[b]);
    AuditObjectNamesReceipt(cfg.env, f.store.receipts[a], f.store.receipts[b]);
  }

  lemma InWindowTime(env: Env, now: int, expiresAt: string)
    requires InWindow(env, now, expiresAt)
    ensures IsTime(env, expiresAt)
  {}

  lemma RequestWritten(cfg: Config, s: Store, c: Call, write: Write, clock: int)
    requires c.pc.StoringRequest?
    ensures var e := Step(cfg, s, c, Action.Create(write, clock));
            var reaction := if RequestDigestOk(cfg.env, c.pc.request, None) then React(c.pc.request.requestId in s.requests, write) else Failed;
            && e.store == (if RequestDigestOk(cfg.env, c.pc.request, None)
                           then s.(requests := Put(s.requests, c.pc.request.requestId, c.pc.request, write)) else s)
            && e.call == c.(pc := match reaction
                                  case Stored => Preparing(c.pc.request)
                                  case Conflict => ReadingWinner
                                  case Failed => Fail(Internal))
  {
    hide RequestDigestOk, Put;
    hide StepReadRequest, StepAdmit, StepReserve, StepReserveBinding, StepReserveApproval, StepReadWinner,
         StepPrepare, StepStoreDispatch, StepDispatch, StepResume, StepReadResult, StepRecover, StepStoreResult,
         StepReadStoredResult, StepStoreReceipt, StepReadStoredReceipt;
  }

  lemma ResultWritten(cfg: Config, s: Store, c: Call, write: Write, clock: int)
    requires c.pc.StoringResult?
    ensures var e := Step(cfg, s, c, Action.Create(write, clock));
            var reaction := if ResultDigestOk(cfg.env, c.pc.result) then React(c.pc.result.requestId in s.results, write) else Failed;
            && e.store == (if ResultDigestOk(cfg.env, c.pc.result)
                           then s.(results := Put(s.results, c.pc.result.requestId, c.pc.result, write)) else s)
            && e.call == c.(pc := match reaction
                                  case Stored => Protocol.Finalize(cfg.env, c.pc.request, c.pc.dispatch, c.pc.result)
                                  case Conflict => ReadingStoredResult(c.pc.request, c.pc.dispatch)
                                  case Failed => Fail(Pending))
  {
    hide ResultDigestOk, Protocol.Finalize, Put;
    hide StepReadRequest, StepAdmit, StepReserve, StepReserveBinding, StepReserveApproval, StepStoreRequest,
         StepReadWinner, StepPrepare, StepStoreDispatch, StepDispatch, StepResume, StepReadResult, StepRecover,
         StepReadStoredResult, StepStoreReceipt, StepReadStoredReceipt;
  }

  lemma ReceiptWritten(cfg: Config, s: Store, c: Call, write: Write, clock: int)
    requires c.pc.StoringReceipt? && cfg.backend.Memory?
    ensures var e := Step(cfg, s, c, Action.Create(write, clock));
            var reaction := if ReceiptDigestOk(cfg.env, c.pc.receipt) then React(c.pc.receipt.receiptId in s.receipts, write) else Failed;
            && e.store == (if ReceiptDigestOk(cfg.env, c.pc.receipt)
                           then s.(receipts := Put(s.receipts, c.pc.receipt.receiptId, c.pc.receipt, write)) else s)
            && e.call == c.(pc := match reaction
                                  case Stored => Deliver(c.pc.receipt)
                                  case Conflict => ReadingStoredReceipt(c.pc.request, c.pc.receipt)
                                  case Failed => Fail(Pending))
  {
    hide ReceiptDigestOk, Deliver, Put;
    hide StepReadRequest, StepAdmit, StepReserve, StepReserveBinding, StepReserveApproval, StepStoreRequest,
         StepReadWinner, StepPrepare, StepStoreDispatch, StepDispatch, StepResume, StepReadResult, StepRecover,
         StepStoreResult, StepReadStoredResult, StepReadStoredReceipt;
  }

  lemma ReadsOnly(cfg: Config, s: Store, c: Call, fault: bool)
    ensures Step(cfg, s, c, Action.Read(fault)).store == s
  {
    hide StepReadRequest, StepReadWinner, StepResume, StepReadResult, StepReadStoredResult, StepReadStoredReceipt;
  }
}