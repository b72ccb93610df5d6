/** Where a dispatch comes from: every call of the dispatcher in any run traces back to an
    operator's entry under an enabled catalogue entry, and to evidence that a distinct approver
    approved. */
module ProtocolTrace {
  import opened Prelude
  import opened Patterns
  import opened Contract
  import opened Catalog
  import opened Broker
  import opened Protocol
  import opened ProtocolInvariant
  import opened ProtocolSteps
  import opened ProtocolSafety
  import opened ProtocolProgress

  // ---------------------------------------------------------------- approval

  /** The approver at position `i` is not the requester, its role was resolved and suffices. */
  predicate DistinctApprover(approvers: seq<string>, i: int, requester: string, answers: map<string, RoleAnswer>)
  {
    && 0 <= i < |approvers| && !EqualFold(approvers[i], requester)
    && approvers[i] in answers && answers[approvers[i]].Role? && answers[approvers[i]].role >= APPROVER
  }

  predicate PassedOver(approver: string, requester: string, answers: map<string, RoleAnswer>)
  {
    EqualFold(approver, requester) || (approver in answers && answers[approver].Role? && answers[approver].role < APPROVER)
  }

  /** Evidence is approved exactly when some listed person other than the requester holds at least
      the approver role and no role lookup before that person failed. */
  lemma {:induction false} ApprovedExactly(approvers: seq<string>, requester: string, answers: map<string, RoleAnswer>)
    ensures Approves(approvers, requester, answers) <==>
              exists i :: DistinctApprover(approvers, i, requester, answers)
                && forall j :: 0 <= j < i ==> PassedOver(approvers[j], requester, answers)
  {
    hide EqualFold;
    if approvers != [] {
      var rest := approvers[1..];
      ApprovedExactly(rest, requester, answers);
      if PassedOver(approvers[0], requester, answers) {
        if Approves(rest, requester, answers) {
          var i :| DistinctApprover(rest, i, requester, answers) && forall j :: 0 <= j < i ==> PassedOver(rest[j], requester, answers);
          forall j | 0 <= j < i + 1 ensures PassedOver(approvers[j], requester, answers) {
            if j > 0 { assert approvers[j] == rest[j - 1]; }
          }
          assert DistinctApprover(approvers, i + 1, requester, answers);
        }
        if i :| DistinctApprover(approvers, i, requester, answers) && forall j :: 0 <= j < i ==> PassedOver(approvers[j], requester, answers) {
          assert DistinctApprover(rest, i - 1, requester, answers);
          assert forall j :: 0 <= j < i - 1 ==> rest[j] == approvers[j + 1];
        }
      } else if Approves(approvers, requester, answers) {
        assert DistinctApprover(approvers, 0, requester, answers);
      }
    }
  }

  /** Evidence is accepted exactly when it is sealed, current, about exactly what the intent names, asked for by
      this requester, and approved by a distinct approver before any role lookup failed. */
  lemma AcceptedExactly(env: Env, now: int, requester: string, intent: Intent, e: Evidence, answers: map<string, RoleAnswer>)
    ensures EvidenceAccepted(env, now, requester, intent, e, answers) <==>
              && EvidenceDigestOk(env, e, None) && CurrentAt(env, e, now)
              && e.digest == intent.evidenceDigest && e.repository == intent.repository && e.workflowId == intent.workflowId
              && e.protectedMainSha == intent.protectedMainSha && e.planDigest == intent.planDigest
              && e.approval.operation == intent.operation && e.approval.reason == intent.reason && EqualFold(e.approval.requestedBy, requester)
              && (if intent.operation == "refresh_estate_health" then intent.workflowRunId == 0 else e.workflowRunId == intent.workflowRunId)
              && (intent.operation == "cancel_superseded_workflow_run" ==> e.superseded)
              && (exists i :: DistinctApprover(e.approval.approvers, i, requester, answers)
                    && forall j :: 0 <= j < i ==> PassedOver(e.approval.approvers[j], requester, answers))
  {
    EvidenceValidAt(env, e, now);
    ApprovedExactly(e.approval.approvers, requester, answers);
    hide EvidenceDigestOk, CurrentAt, EqualFold, Approves, DistinctApprover, PassedOver;
  }

  /** The expiry that was asked for lies in the next ten minutes. */
  predicate ExpiresSoon(env: Env, o: Origin)
  {
    && env.parseTime(o.intent.expiresAt).Some?
    && o.now < env.parseTime(o.intent.expiresAt).value <= o.now + 600_000_000_000
  }

  /** The approval behind a request: sealed evidence of a successful run, unexpired when the request was issued,
      that says exactly what the request says and that a distinct approver approved. */
  ghost predicate Approved(env: Env, o: Origin, request: Request)
  {
    var e := o.evidence;
    && EvidenceDigestOk(env, e, None) && CurrentAt(env, e, o.now) && InForce(env, e)
    && request.issuedAt == Timestamp(env, o.now) && ExpiresSoon(env, o)
    && e.digest == request.evidenceDigest && e.repository == request.repository && e.workflowId == request.workflowId
    && e.protectedMainSha == request.protectedMainSha && e.planDigest == request.planDigest
    && e.approval.operation == request.operation && e.approval.reason == request.reason
    && EqualFold(e.approval.requestedBy, o.requester) && request.requestedBy == ToLower(o.requester) && request.nonce == o.nonce
    && (request.operation == REFRESH || e.workflowRunId == request.workflowRunId)
    && (request.operation == CANCEL ==> e.superseded)
    && exists i :: DistinctApprover(e.approval.approvers, i, o.requester, o.answers)
  }

  lemma ValidEvidenceInForce(env: Env, e: Evidence, now: int)
    ensures EvidenceDigestOk(env, e, Some(now)) ==> InForce(env, e)
  {
    hide ValidEvidence, InForce, Digest, EvidenceTree;
    if EvidenceDigestOk(env, e, Some(now)) { ValidIsInForce(env, e, Some(now)); }
  }

  lemma AdmittedIsApproved(env: Env, o: Origin, request: Request)
    requires Admitted(env, o, request)
    ensures Approved(env, o, request)
  {
    EvidenceValidAt(env, o.evidence, o.now);
    ValidEvidenceInForce(env, o.evidence, o.now);
    hide EvidenceDigestOk, EqualFold, Approves, SealRequest, Timestamp, ToLower, DistinctApprover, InForce, CurrentAt;
    SealedRequestFields(env, Draft(env, o));
    assert Approves(o.evidence.approval.approvers, o.requester, o.answers);
    ApprovedExactly(o.evidence.approval.approvers, o.requester, o.answers);
  }

  // ---------------------------------------------------------------- entries

  /** The request that a position carries. */
  function RequestOf(pc: Pc): Option<Request>
  {
    match pc
    case Reserving(_, request) => Some(request)
    case ReservingBinding(_, request) => Some(request)
    case ReservingApproval(_, request) => Some(request)
    case StoringRequest(_, request) => Some(request)
    case Preparing(request) => Some(request)
    case StoringDispatch(request, _, _) => Some(request)
    case Dispatching(request, _) => Some(request)
    case Resuming(request) => Some(request)
    case ReadingResult(request, _) => Some(request)
    case Recovering(request, _) => Some(request)
    case StoringResult(request, _, _) => Some(request)
    case ReadingStoredResult(request, _) => Some(request)
    case StoringReceipt(request, _) => Some(request)
    case ReadingStoredReceipt(request, _) => Some(request)
    case _ => None
  }

  /** The origin that a position carries. */
  function OriginOf(pc: Pc): Option<Origin>
  {
    match pc
    case Reserving(o, _) => Some(o)
    case ReservingBinding(o, _) => Some(o)
    case ReservingApproval(o, _) => Some(o)
    case StoringRequest(o, _) => Some(o)
    case _ => None
  }

  /** The request says what the entry says: every field, with the expiry as it was entered or in the
      service's form, and the requester up to letter case. */
  predicate EntryFits(env: Env, request: Request, intent: Intent, requester: string)
  {
    && request.requestId == intent.requestId && request.operation == intent.operation && request.repository == intent.repository
    && request.workflowId == intent.workflowId && request.workflowRunId == intent.workflowRunId
    && request.protectedMainSha == intent.protectedMainSha && request.planDigest == intent.planDigest
    && request.evidenceDigest == intent.evidenceDigest && request.reason == intent.reason
    && EqualFold(request.requestedBy, requester)
    && (request.expiresAt == intent.expiresAt
        || (IsTime(env, intent.expiresAt) && request.expiresAt == Timestamp(env, env.parseTime(intent.expiresAt).value)))
  }

  predicate RequestFits(env: Env, c: Call)
  {
    RequestOf(c.pc).Some? ==> EntryFits(env, RequestOf(c.pc).value, c.intent, c.requester)
  }

  /** An entry by a caller with a role from operator to admin, under a catalogue that grants it. */
  ghost predicate Entitled(step: Label)
  {
    && step.Enter? && WellFormed(step.catalog) && OPERATOR <= step.role <= ADMIN
    && Authorize(step.catalog, step.intent).Granted?
  }

  /** The entry under which a call runs. */
  ghost predicate EnteredBy(step: Label, c: Call)
  {
    && step.Enter? && c.intent == step.intent && c.requester == step.requester
    && (!c.pc.Returned? ==> Entitled(step) && Authorize(step.catalog, step.intent).target == c.target)
  }

  /** The entry that led to a dispatch: it names the target and says what the request says. */
  ghost predicate SentBy(env: Env, step: Label, ev: Event)
  {
    && Entitled(step) && Authorize(step.catalog, step.intent).target == ev.target
    && EntryFits(env, ev.request, step.intent, step.requester)
  }

  /** The origin is what an entitled caller entered and what the clock, the random source and the role
      lookups then said to that caller. */
  ghost predicate AdmittedBy(entry: Label, admission: Label, o: Origin)
  {
    && Entitled(entry) && entry.requester == o.requester && entry.intent == o.intent
    && admission.Act? && admission.action.Admit? && admission.action.nonce == Some(o.nonce)
    && admission.action.answers == o.answers && o.now == admission.action.clock / SECOND * SECOND
  }

  ghost predicate HasEntry(labels: seq<Label>, c: Call)
  {
    exists n :: 0 <= n < |labels| && EnteredBy(labels[n], c)
  }

  ghost predicate HasSender(env: Env, labels: seq<Label>, ev: Event)
  {
    exists n :: 0 <= n < |labels| && SentBy(env, labels[n], ev)
  }

  /** The entry comes before the admission. */
  ghost predicate HasAdmission(labels: seq<Label>, o: Origin)
  {
    exists n, m :: 0 <= n < m < |labels| && AdmittedBy(labels[n], labels[m], o)
  }

  ghost predicate CallTraced(env: Env, labels: seq<Label>, c: Call)
  {
    HasEntry(labels, c) && RequestFits(env, c) && (OriginOf(c.pc).Some? ==> HasAdmission(labels, OriginOf(c.pc).value))
  }

  ghost predicate CallsTraced(env: Env, labels: seq<Label>, calls: seq<Call>)
  {
    forall i :: 0 <= i < |calls| ==> CallTraced(env, labels, calls[i])
  }

  ghost predicate EventsTraced(env: Env, labels: seq<Label>, history: seq<Event>)
  {
    forall k :: 0 <= k < |history| ==> HasSender(env, labels, history[k])
  }

  ghost predicate OriginsTraced(labels: seq<Label>, origins: map<string, Origin>)
  {
    forall id :: id in origins ==> HasAdmission(labels, origins[id])
  }

  /** Everything in the world comes from labels of the run. */
  ghost predicate Traced(env: Env, labels: seq<Label>, w: World)
  {
    && CallsTraced(env, labels, w.calls) && EventsTraced(env, labels, w.facts.history) && OriginsTraced(labels, w.facts.origins)
  }

  // ---------------------------------------------------------------- traces stay when the run goes on

  lemma EntryKept(labels: seq<Label>, later: seq<Label>, c: Call)
    requires HasEntry(labels, c) && labels <= later
    ensures HasEntry(later, c)
  {
    hide EnteredBy;
    var n :| 0 <= n < |labels| && EnteredBy(labels[n], c);
    assert later[n] == labels[n];
  }

  lemma SenderKept(env: Env, labels: seq<Label>, later: seq<Label>, ev: Event)
    requires HasSender(env, labels, ev) && labels <= later
    ensures HasSender(env, later, ev)
  {
    hide SentBy;
    var n :| 0 <= n < |labels| && SentBy(env, labels[n], ev);
    assert later[n] == labels[n];
  }

  lemma AdmissionKept(labels: seq<Label>, later: seq<Label>, o: Origin)
    requires HasAdmission(labels, o) && labels <= later
    ensures HasAdmission(later, o)
  {
    hide AdmittedBy;
    var n, m :| 0 <= n < m < |labels| && AdmittedBy(labels[n], labels[m], o);
    assert later[n] == labels[n] && later[m] == labels[m];
  }

  lemma CallKept(env: Env, labels: seq<Label>, later: seq<Label>, c: Call)
    requires CallTraced(env, labels, c) && labels <= later
    ensures CallTraced(env, later, c)
  {
    hide HasEntry, RequestFits, HasAdmission;
    EntryKept(labels, later, c);
    if OriginOf(c.pc).Some? { AdmissionKept(labels, later, OriginOf(c.pc).value); }
  }

  lemma StayTraced(env: Env, labels: seq<Label>, later: seq<Label>, w: World)
    requires Traced(env, labels, w) && labels <= later
    ensures Traced(env, later, w)
  {
    hide CallTraced, HasSender, HasAdmission;
    forall i | 0 <= i < |w.calls| ensures CallTraced(env, later, w.calls[i]) { CallKept(env, labels, later, w.calls[i]); }
    forall k | 0 <= k < |w.facts.history| ensures HasSender(env, later, w.facts.history[k]) {
      SenderKept(env, labels, later, w.facts.history[k]);
    }
    forall id | id in w.facts.origins ensures HasAdmission(later, w.facts.origins[id]) {
      AdmissionKept(labels, later, w.facts.origins[id]);
    }
  }

  // ---------------------------------------------------------------- what one step hands on

  lemma StepKeepsIdentity(cfg: Config, s: Store, c: Call, a: Action)
    ensures var e := Step(cfg, s, c, a);
            && e.call.intent == c.intent && e.call.requester == c.requester && e.call.target == c.target
            && (c.pc.Returned? ==> e.call == c)
  {
    hide StepReadRequest, StepAdmit, StepReadWinner, Prepare, NewDispatch, StepResume, StepReadResult,
         StepReadStoredResult, StepReadStoredReceipt, Complete, Finalize, Deliver, Recover, BindingDigest,
         ValidReservation, RequestDigestOk, DispatchDigestOk, ResultDigestOk, ReceiptDigestOk, DecodeState,
         DispatchOutcome, ReceiptKey, Put;
    assert c.(pc := c.pc) == c;
  }

  lemma StepSends(cfg: Config, s: Store, c: Call, a: Action)
    ensures var e := Step(cfg, s, c, a);
            && (e.sent.Some? ==> c.pc.Dispatching? && e.sent.value.target == c.target && e.sent.value.request == c.pc.request)
            && (e.landed.Some? ==> e.landed == OriginOf(c.pc))
  {
    hide StepReadRequest, StepAdmit, StepReadWinner, Prepare, NewDispatch, StepResume, StepReadResult,
         StepReadStoredResult, StepReadStoredReceipt, Complete, Finalize, Deliver, Recover, BindingDigest,
         ValidReservation, RequestDigestOk, DispatchDigestOk, ResultDigestOk, ReceiptDigestOk, DecodeState,
         DispatchOutcome, ReceiptKey, Put;
    assert c.(pc := c.pc) == c;
  }

  /** A step keeps who is calling and what for, and sends only the call's own request. */
  lemma StepKeepsCaller(cfg: Config, s: Store, c: Call, a: Action)
    ensures var e := Step(cfg, s, c, a);
            && e.call.intent == c.intent && e.call.requester == c.requester && e.call.target == c.target
            && (c.pc.Returned? ==> e.call == c)
            && (e.sent.Some? ==> c.pc.Dispatching? && e.sent.value.target == c.target && e.sent.value.request == c.pc.request)
            && (e.landed.Some? ==> e.landed == OriginOf(c.pc))
  {
    hide Step, OriginOf;
    StepKeepsIdentity(cfg, s, c, a);
    StepSends(cfg, s, c, a);
  }

  /** Where a call meets a request: in the store, which must match, or by admission. */
  predicate Meets(pc: Pc) { pc.ReadingRequest? || pc.ReadingWinner? || pc.ReadingEvidence? }

  lemma MatchFits(env: Env, request: Request, intent: Intent, requester: string)
    requires MatchesIntent(request, intent, requester)
    ensures EntryFits(env, request, intent, requester)
  {
    hide EqualFold;
  }

  lemma AdmittedFits(env: Env, o: Origin, request: Request)
    requires Admitted(env, o, request)
    ensures EntryFits(env, request, o.intent, o.requester)
  {
    AdmittedServes(env, o, request);
    RequesterFolds(env, o, request);
    hide EqualFold, EvidenceAccepted, SealRequest, Draft;
  }

  lemma MeetingFits(cfg: Config, s: Store, c: Call, a: Action)
    requires Meets(c.pc)
    ensures RequestFits(cfg.env, Step(cfg, s, c, a).call)
  {
    hide RequestOk, MatchesIntent, EntryFits, EvidenceAccepted, InWindow, SealRequest, Draft;
    if a.Read? && c.intent.requestId in s.requests && MatchesIntent(s.requests[c.intent.requestId], c.intent, c.requester) {
      MatchFits(cfg.env, s.requests[c.intent.requestId], c.intent, c.requester);
    }
    if c.pc.ReadingEvidence? && a.Admit? && StepAdmit(cfg.env, s, c, a).Reserving? {
      var pc := StepAdmit(cfg.env, s, c, a);
      AdmittedFits(cfg.env, pc.origin, pc.request);
    }
  }

  /** Elsewhere a step hands on the request it has. */
  lemma ReservingHandsOn(cfg: Config, s: Store, c: Call, a: Action)
    requires c.pc.Reserving? || c.pc.ReservingBinding? || c.pc.ReservingApproval? || c.pc.StoringRequest?
    ensures var pc := Step(cfg, s, c, a).call.pc;
            && (RequestOf(pc) == None || RequestOf(pc) == RequestOf(c.pc))
            && (OriginOf(pc) == None || OriginOf(pc) == OriginOf(c.pc))
  {
    hide BindingDigest, ValidReservation, RequestDigestOk, Put;
  }

  lemma DispatchHandsOn(cfg: Config, s: Store, c: Call, a: Action)
    requires c.pc.Preparing? || c.pc.StoringDispatch? || c.pc.Dispatching? || c.pc.Resuming? || c.pc.ReadingResult? || c.pc.Recovering?
    ensures var pc := Step(cfg, s, c, a).call.pc;
            (RequestOf(pc) == None || RequestOf(pc) == RequestOf(c.pc)) && OriginOf(pc) == None
  {
    hide StepReadRequest, StepAdmit, StepReserve, StepReserveBinding, StepReserveApproval, StepStoreRequest, StepReadWinner,
         StepStoreResult, StepReadStoredResult, StepStoreReceipt, StepReadStoredReceipt;
    hide DispatchDigestOk, DispatchOk, ResultOk, Prepare, NewDispatch, NewResult, FinalReceipt, DecodeState, DispatchOutcome, Recover, Put;
  }

  lemma CompletionHandsOn(cfg: Config, s: Store, c: Call, a: Action)
    requires c.pc.StoringResult? || c.pc.ReadingStoredResult? || c.pc.StoringReceipt? || c.pc.ReadingStoredReceipt? || c.pc.Returned?
    ensures var pc := Step(cfg, s, c, a).call.pc;
            (RequestOf(pc) == None || RequestOf(pc) == RequestOf(c.pc)) && OriginOf(pc) == None
  {
    hide StepReadRequest, StepAdmit, StepReserve, StepReserveBinding, StepReserveApproval, StepStoreRequest, StepReadWinner,
         StepPrepare, StepStoreDispatch, StepDispatch, StepResume, StepReadResult, StepRecover;
    hide ResultDigestOk, ResultOk, ReceiptDigestOk, ReceiptOk, FinalReceipt, ReceiptKey, FindReceipt, Put;
  }

  lemma StepHandsOn(cfg: Config, s: Store, c: Call, a: Action)
    requires !Meets(c.pc)
    ensures var pc := Step(cfg, s, c, a).call.pc;
            && (RequestOf(pc) == None || RequestOf(pc) == RequestOf(c.pc))
            && (OriginOf(pc) == None || OriginOf(pc) == OriginOf(c.pc))
  {
    hide Step, RequestOf, OriginOf;
    if c.pc.Reserving? || c.pc.ReservingBinding? || c.pc.ReservingApproval? || c.pc.StoringRequest? {
      ReservingHandsOn(cfg, s, c, a);
    } else if c.pc.StoringResult? || c.pc.ReadingStoredResult? || c.pc.StoringReceipt? || c.pc.ReadingStoredReceipt? || c.pc.Returned? {
      CompletionHandsOn(cfg, s, c, a);
    } else {
      DispatchHandsOn(cfg, s, c, a);
    }
  }

  /** An origin arises only at admission, from the caller and from what the admission was told. */
  lemma MeetingOrigin(cfg: Config, s: Store, c: Call, a: Action)
    requires Meets(c.pc) && OriginOf(Step(cfg, s, c, a).call.pc).Some?
    ensures var o := OriginOf(Step(cfg, s, c, a).call.pc).value;
            && c.pc.ReadingEvidence? && a.Admit? && o.requester == c.requester && o.intent == c.intent && a.nonce == Some(o.nonce)
            && a.answers == o.answers && o.now == a.clock / SECOND * SECOND
  {
    hide RequestOk, MatchesIntent, EvidenceAccepted, InWindow, SealRequest, Draft;
  }

  // ---------------------------------------------------------------- every label leaves a trace

  lemma BeginTraced(requester: string, role: int, catalog: Catalog, intent: Intent)
    requires WellFormed(catalog)
    ensures EnteredBy(Enter(requester, role, catalog, intent), Begin(requester, role, catalog, intent))
    ensures RequestOf(Begin(requester, role, catalog, intent).pc) == None && OriginOf(Begin(requester, role, catalog, intent).pc) == None
  {
    hide WellFormed, IsUuid, AllowedOperation;
  }

  lemma EnterTraced(cfg: Config, labels: seq<Label>, w: World, step: Label)
    requires Traced(cfg.env, labels, w) && step.Enter?
    ensures Traced(cfg.env, labels + [step], Apply(cfg, w, step))
  {
    hide EnteredBy, HasSender, HasAdmission, EntryFits, WellFormed, Begin, RequestOf, OriginOf;
    StayTraced(cfg.env, labels, labels + [step], w);
    if WellFormed(step.catalog) {
      BeginTraced(step.requester, step.role, step.catalog, step.intent);
      var v := Apply(cfg, w, step);
      assert (labels + [step])[|labels|] == step;
      assert v.calls[|w.calls|] == Begin(step.requester, step.role, step.catalog, step.intent);
    }
  }

  lemma MovedEntry(cfg: Config, labels: seq<Label>, s: Store, c: Call, a: Action)
    requires HasEntry(labels, c)
    ensures HasEntry(labels, Step(cfg, s, c, a).call)
  {
    hide Step, Entitled, Authorize;
    StepKeepsCaller(cfg, s, c, a);
    var n :| 0 <= n < |labels| && EnteredBy(labels[n], c);
    assert EnteredBy(labels[n], Step(cfg, s, c, a).call);
  }

  lemma NewAdmission(cfg: Config, labels: seq<Label>, s: Store, c: Call, step: Label)
    requires HasEntry(labels, c) && step.Act? && Meets(c.pc) && OriginOf(Step(cfg, s, c, step.action).call.pc).Some?
    ensures HasAdmission(labels + [step], OriginOf(Step(cfg, s, c, step.action).call.pc).value)
  {
    hide Step, Entitled, Authorize, OriginOf;
    MeetingOrigin(cfg, s, c, step.action);
    var n :| 0 <= n < |labels| && EnteredBy(labels[n], c);
    var later := labels + [step];
    assert later[n] == labels[n] && later[|labels|] == step;
    assert AdmittedBy(later[n], later[|labels|], OriginOf(Step(cfg, s, c, step.action).call.pc).value);
  }

  lemma MovedCallTraced(cfg: Config, labels: seq<Label>, s: Store, c: Call, step: Label)
    requires CallTraced(cfg.env, labels, c) && step.Act?
    ensures CallTraced(cfg.env, labels + [step], Step(cfg, s, c, step.action).call)
  {
    hide Step, HasEntry, HasAdmission, EntryFits, RequestOf, OriginOf, Meets;
    var e := Step(cfg, s, c, step.action);
    StepKeepsCaller(cfg, s, c, step.action);
    MovedEntry(cfg, labels, s, c, step.action);
    EntryKept(labels, labels + [step], e.call);
    if Meets(c.pc) {
      MeetingFits(cfg, s, c, step.action);
      if OriginOf(e.call.pc).Some? { NewAdmission(cfg, labels, s, c, step); }
    } else {
      StepHandsOn(cfg, s, c, step.action);
      if OriginOf(e.call.pc).Some? { AdmissionKept(labels, labels + [step], OriginOf(e.call.pc).value); }
    }
  }

  lemma SentTraced(cfg: Config, labels: seq<Label>, s: Store, c: Call, a: Action)
    requires CallTraced(cfg.env, labels, c) && Step(cfg, s, c, a).sent.Some?
    ensures HasSender(cfg.env, labels, Step(cfg, s, c, a).sent.value)
  {
    hide Step, Entitled, Authorize, EntryFits, HasAdmission;
    StepKeepsCaller(cfg, s, c, a);
    var n :| 0 <= n < |labels| && EnteredBy(labels[n], c);
    assert SentBy(cfg.env, labels[n], Step(cfg, s, c, a).sent.value);
  }

  lemma ActTraced(cfg: Config, labels: seq<Label>, w: World, step: Label)
    requires Traced(cfg.env, labels, w) && step.Act? && step.call < |w.calls|
    ensures Traced(cfg.env, labels + [step], Apply(cfg, w, step))
  {
    hide Step, CallTraced, HasSender, HasAdmission, OriginOf;
    var c := w.calls[step.call];
    var e := Step(cfg, w.facts.store, c, step.action);
    var later := labels + [step];
    var v := Apply(cfg, w, step);
    StayTraced(cfg.env, labels, later, w);
    StepKeepsCaller(cfg, w.facts.store, c, step.action);
    MovedCallTraced(cfg, labels, w.facts.store, c, step);
    if e.sent.Some? {
      SentTraced(cfg, labels, w.facts.store, c, step.action);
      SenderKept(cfg.env, labels, later, e.sent.value);
    }
    LandedTraced(cfg.env, later, c, e);
  }

  lemma LandedTraced(env: Env, later: seq<Label>, c: Call, e: Effect)
    requires CallTraced(env, later, c) && (e.landed.Some? ==> e.landed == OriginOf(c.pc))
    ensures e.landed.Some? ==> HasAdmission(later, e.landed.value)
  {
    hide HasEntry, RequestFits, HasAdmission, OriginOf;
  }

  lemma {:induction false} RunTraced(cfg: Config, labels: seq<Label>)
    ensures Traced(cfg.env, labels, Exec(cfg, labels))
  {
    if labels != [] {
      var before, step := labels[..|labels| - 1], labels[|labels| - 1];
      RunTraced(cfg, before);
      var w := Exec(cfg, before);
      assert labels == before + [step];
      hide Traced, Step;
      if step.Enter? {
        EnterTraced(cfg, before, w, step);
      } else if step.Act? && step.call < |w.calls| {
        ActTraced(cfg, before, w, step);
      } else {
        StayTraced(cfg.env, before, labels, w);
        SameTrace(cfg.env, labels, w, Apply(cfg, w, step));
      }
    }
  }

  lemma SameTrace(env: Env, labels: seq<Label>, w: World, v: World)
    requires Traced(env, labels, w) && v.calls == w.calls && v.facts.history == w.facts.history && v.facts.origins == w.facts.origins
    ensures Traced(env, labels, v)
  {}

  // ---------------------------------------------------------------- the trail of a dispatch

  /** A dispatch was made under an enabled catalogue entry for exactly this repository, operation
      and workflow, for a stored request whose approval is on record. */
  ghost predicate Authorised(env: Env, f: Facts, ev: Event)
  {
    && Enabled(ev.target, ev.request.repository, ev.request.operation, ev.request.workflowId)
    && Settled(f, ev.request) && ev.request.requestId in f.origins
    && EvidenceStored(f, f.origins[ev.request.requestId])
    && Approved(env, f.origins[ev.request.requestId], ev.request)
  }

  lemma EventAuthorised(cfg: Config, f: Facts, k: nat)
    requires StoreSound(cfg, f) && HistorySound(f) && k < |f.history|
    ensures Authorised(cfg.env, f, f.history[k])
  {
    hide Admitted, Approved, Enabled, Readable, RequestOk, BindingReserved, ApprovalReserved, DispatchSound,
         ResultSound, ReceiptSound;
    var ev := f.history[k];
    assert EventSound(f, ev);
    assert RequestSound(cfg, f, ev.request.requestId);
    AdmittedIsApproved(cfg.env, f.origins[ev.request.requestId], ev.request);
  }

  /** Every dispatch of a run was entered by a caller with a role from operator to admin, under a
      catalogue that grants it, whose entry says what the request says. Its request was admitted from such
      an entry, at the clock and with the role answers of a later label of the run, on an unexpired
      approval by a distinct approver. */
  lemma DispatchIsAuthorised(cfg: Config, labels: seq<Label>, k: nat)
    requires Sound(cfg.env) && k < |Exec(cfg, labels).facts.history|
    ensures var f := Exec(cfg, labels).facts;
            && Authorised(cfg.env, f, f.history[k]) && HasSender(cfg.env, labels, f.history[k])
            && f.history[k].request.requestId in f.origins && HasAdmission(labels, f.origins[f.history[k].request.requestId])
  {
    hide Sound, Exec, StoreSound, HistorySound, CallSound, Approved, Enabled, HasSender, HasAdmission, CallsTraced;
    ExecKeeps(cfg, labels);
    RunTraced(cfg, labels);
    EventAuthorised(cfg, Exec(cfg, labels).facts, k);
  }

  // ---------------------------------------------------------------- what was observed before a dispatch

  /** The run that an operation other than a refresh names, in a state that the operation is meant for. */
  predicate RunReady(request: Request, run: WorkflowRun)
  {
    && run.id == request.workflowRunId && MatchesRefresh(run, request) && run.headBranch == "main" && IsRunLink(run.htmlUrl)
    && (request.operation == RERUN ==> run.status == "completed" && run.conclusion != "success" && run.conclusion != "")
    && (request.operation == CANCEL ==> run.status == "queued" || run.status == "in_progress")
  }

  /** The provider showed main, protected, at the approved commit, and the run if one is named. */
  predicate ShowsReady(request: Request, observed: Observation)
  {
    && observed.main == Some(MainBranch(request.protectedMainSha, true))
    && (if request.operation == REFRESH then observed.listed.Some? && |observed.listed.value| <= 100
        else observed.run.Some? && RunReady(request, observed.run.value))
  }

  /** `Prepare` goes through exactly when the target is the request's and the provider shows it ready. */
  lemma ProceedsExactly(target: RepositoryTarget, request: Request, observed: Observation)
    ensures Prepare(target, request, observed).1 == PROCEED <==>
              TargetFits(target, request) && target.mainBranch == "main" && ShowsReady(request, observed)
  {
    hide EncodeState, Baseline, IsRunLink;
    match PrepareState(target, request, observed)
    case Refused(_) =>
    case Observed(state) => TokenRoundTrip(state);
  }

  ghost predicate ObservedReady(observations: seq<Sighting>, request: Request)
  {
    exists k :: 0 <= k < |observations| && observations[k].request == request && ShowsReady(request, observations[k].observed)
  }

  lemma UsableObserved(observations: seq<Sighting>, token: string, request: Request)
    requires Usable(observations, token, request)
    ensures ObservedReady(observations, request)
  {
    hide Readable, Prepare, ShowsReady, TargetFits;
    var n :| 0 <= n < |observations| && observations[n].request == request && observations[n].token == token && Proceeds(observations[n]);
    ProceedsExactly(observations[n].target, observations[n].request, observations[n].observed);
  }

  /** Before a label of the run, event `k` had not happened and its request had been observed ready. */
  ghost predicate ObservedFirst(cfg: Config, labels: seq<Label>, k: nat, request: Request)
  {
    exists n :: 0 <= n < |labels| && ObservedAt(Exec(cfg, labels[..n]).facts, k, request)
  }

  ghost predicate ObservedAt(f: Facts, k: nat, request: Request)
  {
    |f.history| <= k && ObservedReady(f.observations, request)
  }

  /** A label adds at most one event, of a request that was observed ready before. */
  lemma NextEventObserved(cfg: Config, w: World, step: Label)
    requires Sound(cfg.env) && Inv(cfg, w) && |Apply(cfg, w, step).facts.history| > |w.facts.history|
    ensures |Apply(cfg, w, step).facts.history| == |w.facts.history| + 1
    ensures ObservedReady(w.facts.observations, Apply(cfg, w, step).facts.history[|w.facts.history|].request)
  {
    hide Sound, StoreSound, HistorySound, CallSound, Step, ObservedReady, Usable;
    var c := w.calls[step.call];
    assert CallSound(cfg, w.facts, step.call, c);
    StepKeepsCaller(cfg, w.facts.store, c, step.action);
    DispatchingKnows(cfg, w.facts, step.call, c);
    UsableObserved(w.facts.observations, c.pc.dispatch.recoveryToken, c.pc.request);
  }

  lemma ObservedFirstKept(cfg: Config, before: seq<Label>, labels: seq<Label>, k: nat, request: Request)
    requires ObservedFirst(cfg, before, k, request) && before <= labels
    ensures ObservedFirst(cfg, labels, k, request)
  {
    hide Exec, ObservedAt;
    var n :| 0 <= n < |before| && ObservedAt(Exec(cfg, before[..n]).facts, k, request);
    assert labels[..n] == before[..n];
  }

  /** No mutation is sent unless, at an earlier point of the run and for the same request, the provider
      had shown main protected at exactly the approved commit and the named run in a state the operation
      is meant for. */
  lemma {:induction false} DispatchIsObserved(cfg: Config, labels: seq<Label>, k: nat)
    requires Sound(cfg.env) && k < |Exec(cfg, labels).facts.history|
    ensures ObservedFirst(cfg, labels, k, Exec(cfg, labels).facts.history[k].request)
  {
    hide Sound, Apply, StoreSound, HistorySound, CallSound, ObservedReady, ObservedFirst, ObservedAt, Extends;
    if labels != [] {
      var before, step := labels[..|labels| - 1], labels[|labels| - 1];
      var w := Exec(cfg, before);
      ExecKeeps(cfg, before);
      ApplyAccumulates(cfg, w, step);
      if k < |w.facts.history| {
        DispatchIsObserved(cfg, before, k);
        ObservedFirstKept(cfg, before, labels, k, w.facts.history[k].request);
      } else {
        NextEventObserved(cfg, w, step);
        LastObserved(cfg, labels, k, Exec(cfg, labels).facts.history[k].request);
      }
    }
  }

  lemma LastObserved(cfg: Config, labels: seq<Label>, k: nat, request: Request)
    requires labels != []
    requires var f := Exec(cfg, labels[..|labels| - 1]).facts; |f.history| <= k && ObservedReady(f.observations, request)
    ensures ObservedFirst(cfg, labels, k, request)
  {
    hide Exec, ObservedReady;
    assert ObservedAt(Exec(cfg, labels[..|labels| - 1]).facts, k, request);
  }
}
