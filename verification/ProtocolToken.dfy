/** When an approved preparation can be recorded. A dispatch record takes a token of at most 4096
    characters, and nothing before it limits what the link of a run needs in a token: a link that is too
    long strands its request, which is then neither sent nor rejected. */
module ProtocolToken {
  import opened Prelude
  import opened Patterns
  import opened CanonicalJson
  import opened Contract
  import opened Catalog
  import opened Broker
  import opened TokenSize
  import opened Protocol
  import opened ProtocolInvariant
  import opened ProtocolSteps
  import opened ProtocolSafety
  import opened ProtocolProgress
  import opened ProtocolTrace
  import opened ProtocolRetry
  import opened ProtocolCrash
  import Utf8

  // ---------------------------------------------------------------- the room for a link

  /** The bytes that a token leaves for the link of a run: 2874 less what the request needs. */
  function LinkRoom(request: Request, run: WorkflowRun): int
  {
    2874 - |request.operation| - |request.repository| - |Itoa(request.workflowId)| - |Itoa(request.workflowRunId)| - |Itoa(run.runAttempt)|
  }

  predicate LinkFits(request: Request, run: WorkflowRun) { EscapedLen(run.htmlUrl) <= LinkRoom(request, run) }

  /** What the provider showed fits a token: always for a refresh, which keeps no link. */
  predicate ObservationFits(request: Request, observed: Observation)
  {
    request.operation == REFRESH || (observed.run.Some? && LinkFits(request, observed.run.value))
  }

  lemma OperationsPlain()
    ensures AllPlain(REFRESH) && AllPlain(RERUN) && AllPlain(CANCEL) && |REFRESH| <= 40 && |RERUN| <= 40 && |CANCEL| <= 40
  {}

  lemma RepositoryPlain(s: string)
    requires IsRepository(s)
    ensures AllPlain(s) && |s| <= 110
  {
    var prefix := "mindclade/";
    assert AllPlain(prefix);
    assert s == prefix + s[10..];
    if s[10..] == ".github" { assert AllPlain(s[10..]); }
    forall i | 0 <= i < |s| ensures IsPlain(s[i]) {
      if i < 10 { assert s[i] == prefix[i]; } else { assert s[i] == s[10..][i - 10]; }
    }
  }

  lemma ShaPlain(s: string)
    requires IsSha(s)
    ensures AllPlain(s)
  {}

  /** A valid request's own texts need no escapes. */
  lemma RequestTexts(env: Env, request: Request)
    requires ValidRequest(env, request, None)
    ensures EscapedLen(request.operation) == |request.operation| <= 40
    ensures EscapedLen(request.repository) == |request.repository| <= 110
    ensures EscapedLen(request.protectedMainSha) == 40
  {
    hide AllPlain, EscapedLen, IsUuid, IsReason, IsEmail, IsNonce, IsDigest, IsRepository;
    OperationsPlain();
    RepositoryPlain(request.repository);
    ShaPlain(request.protectedMainSha);
    PlainLen(request.operation);
    PlainLen(request.repository);
    PlainLen(request.protectedMainSha);
  }

  lemma ZeroLen()
    ensures |Itoa(0)| == 1 && EscapedLen("") == 0
  {}

  lemma ObservedShape(target: RepositoryTarget, request: Request, observed: Observation)
    requires PrepareState(target, request, observed).Observed?
    ensures var state := PrepareState(target, request, observed).state;
            && state.operation == request.operation && state.repository == request.repository
            && state.workflowId == request.workflowId && state.workflowRunId == request.workflowRunId
            && state.protectedMainSha == request.protectedMainSha
            && (if request.operation == REFRESH then state.providerReference == ""
                else observed.run.Some? && state.baselineRunId == 0 && state.providerReference == observed.run.value.htmlUrl
                     && state.baselineRunAttempt == observed.run.value.runAttempt)
  {
    hide Baseline, IsRunLink;
  }

  lemma ObservedLen(env: Env, target: RepositoryTarget, request: Request, observed: Observation)
    requires ValidRequest(env, request, None) && PrepareState(target, request, observed).Observed?
    ensures RawLen(PrepareState(target, request, observed).state) <= 3072 <==> ObservationFits(request, observed)
  {
    hide ValidRequest, EscapedLen, Itoa, PrepareState;
    RequestTexts(env, request);
    ZeroLen();
    ObservedShape(target, request, observed);
    var state := PrepareState(target, request, observed).state;
    NumberBound(state.workflowId);
    NumberBound(state.workflowRunId);
    NumberBound(state.baselineRunId);
    NumberBound(state.baselineRunAttempt);
  }

  lemma ObservedToken(target: RepositoryTarget, request: Request, observed: Observation)
    requires Prepare(target, request, observed).1 == PROCEED
    ensures PrepareState(target, request, observed).Observed?
    ensures EncodeState(PrepareState(target, request, observed).state) == Some(Prepare(target, request, observed).0)
  {
    hide EncodeState, PrepareState;
  }

  lemma DispatchSealsExactly(env: Env, request: Request, receiptId: string, token: string, clock: int)
    requires Sound(env) && RequestOk(env, request)
    ensures var dispatch := NewDispatch(env, request, receiptId, token, clock);
            && (dispatch.Some? <==> IsUuid(receiptId) && IsRecoveryToken(token))
            && (dispatch.Some? ==>
                  && DispatchOk(env, dispatch.value) && DispatchDigestOk(env, dispatch.value) && dispatch.value.requestId == request.requestId
                  && dispatch.value.requestDigest == request.digest
                  && dispatch.value.receiptId == receiptId && dispatch.value.recoveryToken == token)
  {
    hide IsUuid, RequestTree, DispatchTree, Digest, ValidSignature, Sign, IsRecoveryToken;
    var draft := Dispatch("", request.requestId, request.digest, receiptId, token, Timestamp(env, clock), "", NO_SIGNATURE);
    SealedDispatchVerifies(env, draft);
    SealedDispatchFields(env, draft);
  }

  /** A preparation that goes through can be recorded exactly when the receipt ID is a UUID and the link
      fits. */
  lemma PreparedRecordExactly(env: Env, target: RepositoryTarget, request: Request, observed: Observation, receiptId: string, clock: int)
    requires Sound(env) && RequestOk(env, request) && Prepare(target, request, observed).1 == PROCEED
    ensures NewDispatch(env, request, receiptId, Prepare(target, request, observed).0, clock).Some? <==>
              IsUuid(receiptId) && ObservationFits(request, observed)
  {
    ObservedToken(target, request, observed);
    DispatchSealsExactly(env, request, receiptId, Prepare(target, request, observed).0, clock);
    hide NewDispatch, Prepare, EncodeState, PrepareState, RawLen, IsUuid, IsRecoveryToken, SignatureHolds, ValidRequest, ObservationFits;
    TokenFitsExactly(PrepareState(target, request, observed).state);
    ObservedLen(env, target, request, observed);
  }

  /** A link without escapes always fits. */
  lemma PlainLinkFits(env: Env, request: Request, run: WorkflowRun)
    requires ValidRequest(env, request, None) && IsRunLink(run.htmlUrl) && AllPlain(run.htmlUrl)
    ensures LinkFits(request, run)
  {
    RequestTexts(env, request);
    PlainLen(run.htmlUrl);
    NumberBound(request.workflowId);
    NumberBound(request.workflowRunId);
    NumberBound(run.runAttempt);
    hide ValidRequest, EscapedLen, Itoa, AllPlain;
  }

  function Ampersands(n: nat): string { seq(n, _ => '&') }

  lemma {:induction false} AmpersandsLen(n: nat)
    ensures EscapedLen(Ampersands(n)) == 6 * n && Utf8.ByteLen(Ampersands(n)) == n
  {
    var s := Ampersands(n);
    AsciiLen(s);
    if n > 0 {
      AmpersandsLen(n - 1);
      assert s[1..] == Ampersands(n - 1) && s[0] == '&';
      ConcatLen(Escape('&'), EscapeAll(s[1..]));
      EscapeIsAscii('&');
      AsciiLen(Escape('&'));
    }
  }

  const LONG_LINK: string := "https://" + Ampersands(504)

  lemma {:induction false} EscapeConcat(a: string, b: string)
    ensures EscapeAll(a + b) == EscapeAll(a) + EscapeAll(b)
  {
    hide Escape;
    if a == "" {
      assert a + b == b;
    } else {
      EscapeConcat(a[1..], b);
      assert (a + b)[1..] == a[1..] + b && (a + b)[0] == a[0];
    }
  }

  /** An accepted link of 512 bytes fits no request. */
  lemma LongLinkNeverFits(request: Request, run: WorkflowRun)
    requires run.htmlUrl == LONG_LINK
    ensures IsRunLink(run.htmlUrl) && !LinkFits(request, run)
  {
    var start, rest := "https://", Ampersands(504);
    assert AllPlain(start);
    PlainLen(start);
    AmpersandsLen(504);
    EscapeConcat(start, rest);
    ConcatLen(EscapeAll(start), EscapeAll(rest));
    ConcatLen(start, rest);
    hide EscapeAll, Ampersands, Itoa;
    LongLinkHasNoControl();
  }

  lemma LongLinkHasNoControl()
    ensures HasPrefix(LONG_LINK, "https://") && !HasControl(LONG_LINK)
  {
    assert LONG_LINK[..8] == "https://";
    assert forall i :: 8 <= i < |LONG_LINK| ==> LONG_LINK[i] == '&';
  }

  // ---------------------------------------------------------------- what a preparation leads to

  /** The observation shows the request ready, but with a link that fits no token. */
  ghost predicate Oversized(request: Request, observed: Observation)
  {
    ShowsReady(request, observed) && !ObservationFits(request, observed)
  }

  lemma PreparingMoves(cfg: Config, w: World, i: nat, observed: Observation, receiptId: Option<string>, clock: int)
    requires i < |w.calls| && w.calls[i].pc.Preparing?
    ensures var request := w.calls[i].pc.request;
            var v := Apply(cfg, w, Act(i, Provide(observed, receiptId, clock)));
            var (token, prepared) := Prepare(w.calls[i].target, request, observed);
            && |v.calls| == |w.calls| && v.facts.store == w.facts.store && v.facts.history == w.facts.history
            && (if receiptId.Some? && NewDispatch(cfg.env, request, receiptId.value, token, clock).Some?
                then v.calls[i].pc == StoringDispatch(request, NewDispatch(cfg.env, request, receiptId.value, token, clock).value, prepared)
                else v.calls[i].pc == Fail(Internal))
  {
    hide Prepare, NewDispatch;
    assert Step(cfg, w.facts.store, w.calls[i], Provide(observed, receiptId, clock))
        == StepPrepare(cfg.env, w.facts.store, w.calls[i], Provide(observed, receiptId, clock));
  }

  /** What is known of a call that is about to prepare. */
  lemma PreparingTarget(cfg: Config, w: World, i: nat)
    requires StoreSound(cfg, w.facts) && i < |w.calls| && CallSound(cfg, w.facts, i, w.calls[i]) && w.calls[i].pc.Preparing?
    ensures RequestOk(cfg.env, w.calls[i].pc.request) && Settled(w.facts, w.calls[i].pc.request)
    ensures TargetFits(w.calls[i].target, w.calls[i].pc.request) && w.calls[i].target.mainBranch == "main"
  {
    hide RequestOk, Admitted, EvidenceStored, BindingReserved, ApprovalReserved, DispatchSound, ResultSound, ReceiptSound;
    assert RequestSound(cfg, w.facts, w.calls[i].pc.request.requestId);
    AuthorizedFits(w.calls[i], w.calls[i].pc.request);
  }

  /** In every reachable world a preparation writes and sends nothing, and goes on to store a record exactly
      when there is a UUID for the receipt and the observation is not ready with an oversized link.
      The record is of a mutation exactly when the provider showed the request ready. */
  lemma PreparationExactly(cfg: Config, w: World, i: nat, observed: Observation, receiptId: Option<string>, clock: int)
    requires Sound(cfg.env) && Reachable(cfg, w) && i < |w.calls| && w.calls[i].pc.Preparing?
    ensures var request := w.calls[i].pc.request;
            var v := Apply(cfg, w, Act(i, Provide(observed, receiptId, clock)));
            && |v.calls| == |w.calls| && v.facts.store == w.facts.store && v.facts.history == w.facts.history
            && (if receiptId.Some? && IsUuid(receiptId.value) && !Oversized(request, observed)
                then v.calls[i].pc.StoringDispatch? && (v.calls[i].pc.prepared == PROCEED <==> ShowsReady(request, observed))
                else v.calls[i].pc == Fail(Internal))
  {
    hide Sound, Reachable, StoreSound, HistorySound, CallSound, Apply, RequestOk, IsUuid, Prepare, NewDispatch,
         ShowsReady, ObservationFits, TargetFits;
    ReachableKeeps(cfg, w);
    PreparingTarget(cfg, w, i);
    PreparingMoves(cfg, w, i, observed, receiptId, clock);
    var target, request := w.calls[i].target, w.calls[i].pc.request;
    ProceedsExactly(target, request, observed);
    ProceedsOrRejects(target, request, observed);
    if receiptId.Some? {
      if Prepare(target, request, observed).1 == PROCEED {
        PreparedRecordExactly(cfg.env, target, request, observed, receiptId.value, clock);
      } else {
        RefusedOutcome(target, request, observed);
        RejectedTokenIsToken();
        DispatchSealsExactly(cfg.env, request, receiptId.value, REJECTED_TOKEN, clock);
      }
    }
  }

  // ---------------------------------------------------------------- a stranded request

  /** The request is stored, no dispatch is, and nobody is about to store one. */
  ghost predicate Stranded(w: World, id: string)
  {
    && id in w.facts.store.requests && id !in w.facts.store.dispatches
    && forall i :: 0 <= i < |w.calls| && w.calls[i].pc.StoringDispatch? ==> w.calls[i].pc.request.requestId != id
  }

  /** If the label prepares this request, the provider shows it ready with an oversized link. */
  ghost predicate ShowsOversized(w: World, step: Label, id: string)
  {
    && step.Act? && step.call < |w.calls| && w.calls[step.call].pc.Preparing? && w.calls[step.call].pc.request.requestId == id
    && step.action.Provide?
    ==> Oversized(w.calls[step.call].pc.request, step.action.observed)
  }

  ghost predicate AlwaysOversized(cfg: Config, w: World, labels: seq<Label>, id: string)
    decreases |labels|
  {
    labels == [] || (ShowsOversized(w, labels[0], id) && AlwaysOversized(cfg, Apply(cfg, w, labels[0]), labels[1..], id))
  }

  /** Only a preparation leads to storing a dispatch. */
  lemma StoringFollowsPreparing(cfg: Config, s: Store, c: Call, a: Action)
    requires Step(cfg, s, c, a).call.pc.StoringDispatch?
    ensures (c.pc.Preparing? && a.Provide?) || (c.pc.StoringDispatch? && !a.Create?)
    ensures Step(cfg, s, c, a).call.pc.request == c.pc.request
  {
    hide StepReserve, StepReserveBinding, StepReserveApproval, StepStoreRequest, RequestOk, MatchesIntent, DispatchOk,
         DispatchDigestOk, ResultOk, ReceiptOk, ReceiptDigestOk, ResultDigestOk, NewDispatch, NewResult, FinalReceipt, Prepare, DecodeState, DispatchOutcome,
         Recover, ReceiptKey, FindReceipt, Put, EvidenceAccepted, InWindow, SealRequest, Draft;
    if c.pc.Reserving? || c.pc.ReservingBinding? || c.pc.ReservingApproval? || c.pc.StoringRequest? { AdmissionStoresNoDispatch(cfg, s, c, a); }
  }

  lemma AdmissionStoresNoDispatch(cfg: Config, s: Store, c: Call, a: Action)
    requires c.pc.Reserving? || c.pc.ReservingBinding? || c.pc.ReservingApproval? || c.pc.StoringRequest?
    ensures !Step(cfg, s, c, a).call.pc.StoringDispatch?
  {
    hide BindingDigest, ValidReservation, RequestDigestOk, Put, Payload;
  }

  lemma MemoryReserveQuiet(cfg: Config, s: Store, c: Call, write: Write)
    requires c.pc.Reserving? && cfg.backend.Memory?
    ensures StepReserve(cfg, s, c, write).store.dispatches == s.dispatches
  {
    hide BindingDigest, ValidReservation, Payload;
  }

  lemma GcsReserveQuiet(cfg: Config, s: Store, c: Call, write: Write)
    requires c.pc.Reserving? && cfg.backend.Gcs?
    ensures StepReserve(cfg, s, c, write).store.dispatches == s.dispatches
  {
    hide BindingDigest, ValidReservation, Put, Payload;
  }

  lemma KeysQuiet(cfg: Config, s: Store, c: Call, write: Write)
    ensures c.pc.ReservingBinding? ==> StepReserveBinding(cfg, s, c, write).store.dispatches == s.dispatches
    ensures c.pc.ReservingApproval? ==> StepReserveApproval(s, c, write).store.dispatches == s.dispatches
  {
    hide BindingDigest, Put;
  }

  lemma RequestQuiet(env: Env, s: Store, c: Call, write: Write)
    requires c.pc.StoringRequest?
    ensures StepStoreRequest(env, s, c, write).store.dispatches == s.dispatches
  {
    hide RequestDigestOk, Put;
  }

  lemma ResultQuiet(env: Env, s: Store, c: Call, write: Write)
    requires c.pc.StoringResult?
    ensures StepStoreResult(env, s, c, write).store.dispatches == s.dispatches
  {
    hide ResultDigestOk, Finalize, Put;
  }

  lemma ReceiptQuiet(cfg: Config, s: Store, c: Call, write: Write)
    requires c.pc.StoringReceipt?
    ensures StepStoreReceipt(cfg, s, c, write).store.dispatches == s.dispatches
  {
    hide ReceiptDigestOk, ReceiptKey, Put;
  }

  /** Only `PutDispatch` writes a dispatch. */
  lemma DispatchesWritten(cfg: Config, s: Store, c: Call, a: Action)
    requires !c.pc.StoringDispatch?
    ensures Step(cfg, s, c, a).store.dispatches == s.dispatches
  {
    hide StepReserve, StepReserveBinding, StepReserveApproval, StepStoreRequest, StepStoreResult, StepStoreReceipt,
         StepReadRequest, StepAdmit, StepReadWinner, StepResume, StepReadResult, StepReadStoredResult, StepReadStoredReceipt,
         NewDispatch, Complete, Prepare, DecodeState, DispatchOutcome, Recover;
    if a.Create? {
      if c.pc.Reserving? {
        if cfg.backend.Memory? { MemoryReserveQuiet(cfg, s, c, a.write); } else { GcsReserveQuiet(cfg, s, c, a.write); }
      }
      KeysQuiet(cfg, s, c, a.write);
      if c.pc.StoringRequest? { RequestQuiet(cfg.env, s, c, a.write); }
      if c.pc.StoringResult? { ResultQuiet(cfg.env, s, c, a.write); }
      if c.pc.StoringReceipt? { ReceiptQuiet(cfg, s, c, a.write); }
    }
  }

  lemma OtherDispatchStored(env: Env, s: Store, c: Call, write: Write, clock: int, id: string)
    requires c.pc.StoringDispatch? && c.pc.dispatch.requestId != id && id !in s.dispatches
    ensures id !in StepStoreDispatch(env, s, c, write, clock).store.dispatches
  {
    hide DispatchDigestOk, Complete;
  }

  lemma NotDispatched(cfg: Config, s: Store, c: Call, a: Action, id: string)
    requires id !in s.dispatches && (c.pc.StoringDispatch? ==> c.pc.dispatch.requestId != id)
    ensures id !in Step(cfg, s, c, a).store.dispatches
  {
    if c.pc.StoringDispatch? {
      if a.Create? { OtherDispatchStored(cfg.env, s, c, a.write, a.clock, id); }
      hide StepStoreDispatch;
    } else {
      DispatchesWritten(cfg, s, c, a);
      hide Step;
    }
  }

  lemma SoundDispatchKey(cfg: Config, f: Facts, i: nat, c: Call)
    requires CallSound(cfg, f, i, c) && c.pc.StoringDispatch?
    ensures c.pc.dispatch.requestId == c.pc.request.requestId
  {
    hide Authorized, Usable, DispatchOk;
  }

  /** A preparation of a stranded request that sees an oversized link does not go on. */
  lemma StrandedFails(cfg: Config, w: World, step: Label, id: string)
    requires Sound(cfg.env) && Reachable(cfg, w) && Stranded(w, id) && ShowsOversized(w, step, id)
    requires step.Act? && step.call < |w.calls| && w.calls[step.call].pc.Preparing? && w.calls[step.call].pc.request.requestId == id
    ensures !Step(cfg, w.facts.store, w.calls[step.call], step.action).call.pc.StoringDispatch?
  {
    hide Sound, Reachable, Oversized, StepPrepare;
    if step.action.Provide? {
      PreparationExactly(cfg, w, step.call, step.action.observed, step.action.receiptId, step.action.clock);
    }
  }

  lemma StrandedStays(cfg: Config, w: World, step: Label, id: string)
    requires Sound(cfg.env) && Reachable(cfg, w) && Stranded(w, id) && ShowsOversized(w, step, id)
    ensures Stranded(Apply(cfg, w, step), id)
  {
    hide Sound, Reachable, StoreSound, HistorySound, CallSound, Step, WellFormed, Authorize, Oversized;
    ReachableKeeps(cfg, w);
    ApplyAccumulates(cfg, w, step);
    if step.Act? && step.call < |w.calls| {
      var c := w.calls[step.call];
      assert CallSound(cfg, w.facts, step.call, c);
      if c.pc.StoringDispatch? { SoundDispatchKey(cfg, w.facts, step.call, c); }
      NotDispatched(cfg, w.facts.store, c, step.action, id);
      if Step(cfg, w.facts.store, c, step.action).call.pc.StoringDispatch? {
        StoringFollowsPreparing(cfg, w.facts.store, c, step.action);
        if c.pc.request.requestId == id { StrandedFails(cfg, w, step, id); }
      }
    } else if step.Enter? {
      BeginStoresNothing(step.requester, step.role, step.catalog, step.intent);
    }
  }

  lemma BeginStoresNothing(requester: string, role: int, catalog: Catalog, intent: Intent)
    ensures !Begin(requester, role, catalog, intent).pc.StoringDispatch?
  {
    hide Authorize, IsUuid, AllowedOperation;
  }

  /** As long as the provider shows the run with an oversized link, the approved request stays as it is:
      whoever retries, nothing is dispatched for it, no outcome is stored and no caller gets a receipt. */
  lemma {:induction false} StrandedWhileOversized(cfg: Config, w: World, id: string, labels: seq<Label>)
    requires Sound(cfg.env) && Reachable(cfg, w) && Stranded(w, id) && AlwaysOversized(cfg, w, labels, id)
    ensures var v := Run(cfg, w, labels);
            && Stranded(v, id) && Unsent(v.facts.history, id) && id !in v.facts.store.results
            && forall i: nat, receipt :: Delivered(v, i, receipt) ==> v.calls[i].intent.requestId != id
    decreases |labels|
  {
    hide Sound, Reachable, Apply, Stranded, ShowsOversized;
    if labels == [] {
      StrandedUnserved(cfg, w, id);
    } else {
      StrandedStays(cfg, w, labels[0], id);
      RunOne(cfg, w, labels[0]);
      RunReachable(cfg, w, [labels[0]]);
      StrandedWhileOversized(cfg, Apply(cfg, w, labels[0]), id, labels[1..]);
    }
  }

  lemma StrandedUnserved(cfg: Config, w: World, id: string)
    requires Sound(cfg.env) && Reachable(cfg, w) && Stranded(w, id)
    ensures Unsent(w.facts.history, id) && id !in w.facts.store.results
    ensures forall i: nat, receipt :: Delivered(w, i, receipt) ==> w.calls[i].intent.requestId != id
  {
    hide Sound, Reachable, RequestSound, DispatchSound, ReceiptSound, Usable, Enabled, Deliverable, Durable, Authorized, ResultOk, Justified;
    ReachableKeeps(cfg, w);
    assert id in w.facts.store.results ==> ResultSound(cfg, w.facts, id);
    FreeDispatch(w.facts, id);
    forall i: nat, receipt | Delivered(w, i, receipt) ensures w.calls[i].intent.requestId != id {
      assert CallSound(cfg, w.facts, i, w.calls[i]);
      assert AnswerSound(cfg, w.facts, w.calls[i], receipt);
    }
  }
}
