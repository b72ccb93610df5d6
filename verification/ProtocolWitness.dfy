/** Runs that exist: a sample of primitives, catalogue, intent and evidence from which each of the outcomes
    that the other modules describe is reached, both the good one and the two defects. */
module ProtocolWitness {
  import opened Prelude
  import opened Patterns
  import opened CanonicalJson
  import opened Contract
  import opened Catalog
  import opened Broker
  import opened TokenSize
  import opened Protocol
  import opened ProtocolInvariant
  import opened ProtocolSteps
  import opened ProtocolSafety
  import opened ProtocolTrace
  import opened ProtocolRetry
  import opened ProtocolToken
  import opened ProtocolDelivery
  import Utf8

  // ---------------------------------------------------------------- an identical retry of an admitted call

  /** The entry reaches its first read. */
  ghost predicate Admissible(step: Label)
  {
    step.Enter? && WellFormed(step.catalog) && Begin(step.requester, step.role, step.catalog, step.intent).pc == ReadingRequest
  }

  /** Where call `i` stands. */
  function PcAt(w: World, i: nat): Option<Pc> { if i < |w.calls| then Some(w.calls[i].pc) else None }

  /** Call `j` is about to read the stored request that was admitted from exactly its own entry. */
  ghost predicate Repeats(w: World, j: nat, request: Request)
  {
    && AtStart(w, j) && w.calls[j].intent.requestId == request.requestId && w.facts.store.requests[request.requestId] == request
    && request.requestId in w.facts.origins && w.facts.origins[request.requestId].intent == w.calls[j].intent
    && w.facts.origins[request.requestId].requester == w.calls[j].requester
  }

  /** After a call was admitted, its own entry made again is taken up exactly when the expiry it names is in
      the service's form; otherwise the caller is told that it is a replay. */
  lemma FreshRepeat(cfg: Config, w: World, i: nat, a: Action, request: Request, clock: int, entry: Label)
    requires Sound(cfg.env) && Reachable(cfg, w) && Approvable(cfg, w, i, a, request)
    requires KeysFree(cfg, w.facts.store, OriginFrom(w.facts.store, w.calls[i], a), request)
    requires Admissible(entry) && entry.intent == w.calls[i].intent && entry.requester == w.calls[i].requester
    ensures var v := Run(cfg, w, Admission(cfg, i, a, clock)); var j := |v.calls|;
            && Repeats(Apply(cfg, v, entry), j, request)
            && PcAt(Apply(cfg, Apply(cfg, v, entry), Act(j, Read(false))), j) ==
                 Some(if IsTimestamp(cfg.env, entry.intent.expiresAt) then Resuming(request) else Fail(Replay))
  {
    var o := OriginFrom(w.facts.store, w.calls[i], a);
    hide Sound, Reachable, Run, Approvable, KeysFree, Admission, HasStored, Apply, IsTimestamp, EqualFold;
    AdmissionLeads(cfg, w, i, a, request, clock);
    var v := Run(cfg, w, Admission(cfg, i, a, clock));
    RunReachable(cfg, w, Admission(cfg, i, a, clock));
    StoredShows(cfg, w, v, i, o, request);
    var u := Apply(cfg, v, entry);
    RunOne(cfg, v, entry);
    RunReachable(cfg, v, [entry]);
    EntryAdds(cfg, v, entry);
    FoldsItself(entry.requester);
    assert o.intent == entry.intent && o.requester == entry.requester;
    RepeatIsRecognised(cfg, u, |v.calls|);
  }

  lemma StoredShows(cfg: Config, w: World, v: World, i: nat, o: Origin, request: Request)
    requires HasStored(cfg, w, v, i, o, request)
    ensures request.requestId in v.facts.store.requests && v.facts.store.requests[request.requestId] == request
    ensures request.requestId in v.facts.origins && v.facts.origins[request.requestId] == o
  {
    hide Reserved;
    hide Payload, BindingDigest;
  }

  lemma EntryAdds(cfg: Config, v: World, entry: Label)
    requires Admissible(entry)
    ensures var u := Apply(cfg, v, entry);
            && u.facts == v.facts && |u.calls| == |v.calls| + 1
            && u.calls[|v.calls|].pc == ReadingRequest && u.calls[|v.calls|].intent == entry.intent
            && u.calls[|v.calls|].requester == entry.requester
  {
    hide WellFormed, Authorize, IsUuid, AllowedOperation;
  }

  lemma FoldsItself(s: string)
    ensures EqualFold(s, s)
  {}

  // ---------------------------------------------------------------- the sample

  const ID: string := "00000000-0000-4000-8000-000000000000"
  const REPOSITORY: string := "mindclade/a"
  const REASON: string := "a sample reason"
  const REQUESTER: string := "a@x.y"
  const COLLEAGUE: string := "b@x.y"

  function AnyDigest(): string { "sha256:" + Zeros(64) }

  function SampleTarget(operation: string): RepositoryTarget
  {
    RepositoryTarget(REPOSITORY, "main", Some(map[operation := OperationTarget(1, true)]), None)
  }

  function SampleCatalog(operation: string): Catalog { Catalog(true, map[REPOSITORY := SampleTarget(operation)]) }

  function SampleIntent(operation: string, expiresAt: string): Intent
  {
    Intent(INTENT_SCHEMA, ID, operation, REPOSITORY, 1, if operation == REFRESH then 0 else 1, Zeros(40), AnyDigest(), AnyDigest(),
           REASON, expiresAt)
  }

  function SampleEvidence(operation: string): Evidence
  {
    Evidence(EVIDENCE_SCHEMA, REPOSITORY, 1, 1, Zeros(40), AnyDigest(), "success", true,
             Approval(ID, operation, REQUESTER, REASON, [COLLEAGUE], Itoa(0), "approved"), Itoa(0), Itoa(3600), AnyDigest())
  }

  function SampleEntry(operation: string, expiresAt: string): Label
  {
    Enter(REQUESTER, OPERATOR, SampleCatalog(operation), SampleIntent(operation, expiresAt))
  }

  function SampleAnswers(): map<string, RoleAnswer> { map[COLLEAGUE := Role(APPROVER)] }

  /** At the epoch, with the colleague found to be an approver. */
  function SampleAdmit(): Action { Admit(false, 0, Some(Zeros(32)), SampleAnswers()) }

  function SampleStart(operation: string, expiresAt: string): seq<Label>
  {
    [Publish(AnyDigest(), SampleEvidence(operation)), SampleEntry(operation, expiresAt)]
  }

  function SampleOrigin(operation: string, expiresAt: string): Origin
  {
    Origin(0, Zeros(32), REQUESTER, SampleIntent(operation, expiresAt), SampleEvidence(operation), SampleAnswers())
  }

  /** The expiry is ten minutes after the epoch, in one form or another. */
  predicate TenMinutes(expiresAt: string) { ReadSecond(expiresAt) == Some(600 * SECOND) }

  lemma IdIsUuid()
    ensures IsUuid(ID)
  {}

  lemma MailboxIsEmail(s: string)
    requires |s| == 5 && IsAlnum(s[0]) && s[1] == '@' && s[2..] == "x.y"
    ensures IsEmail(s)
  {
    hide IsDomain;
    DomainOfSample();
    assert s[1 + 1..] == "x.y";
  }

  lemma MailboxesDiffer()
    ensures !EqualFold(COLLEAGUE, REQUESTER)
  {
    assert FoldChar(COLLEAGUE[0]) != FoldChar(REQUESTER[0]);
  }

  lemma MailboxesAreEmails()
    ensures IsEmail(REQUESTER) && IsEmail(COLLEAGUE) && !EqualFold(COLLEAGUE, REQUESTER) && ToLower(REQUESTER) == REQUESTER
  {
    hide IsEmail, EqualFold, ToLower;
    MailboxIsEmail(REQUESTER);
    MailboxIsEmail(COLLEAGUE);
    MailboxesDiffer();
    EmailIsLower(REQUESTER);
  }

  lemma DomainOfSample()
    ensures IsDomain("x.y", 2)
  {
    var s := "x.y";
    assert s[1] == '.' && s[..1] == "x" && s[2..] == "y";
    assert IsLabel("x") && IsLabel("y");
    assert IsDomain("y", 1);
  }

  lemma ReasonIsReason()
    ensures IsReason(REASON)
  {
    hide Utf8.ByteLen;
    AsciiLen(REASON);
  }

  lemma DigestsAndHashes()
    ensures IsDigest(AnyDigest()) && IsSha(Zeros(40)) && IsNonce(Zeros(32)) && IsRepository(REPOSITORY)
  {
    SampleTexts();
    assert REPOSITORY[10..] == "a";
  }

  /** The texts of the sample are what they have to be. */
  lemma SampleParts()
    ensures IsUuid(ID) && IsEmail(REQUESTER) && IsEmail(COLLEAGUE) && !EqualFold(COLLEAGUE, REQUESTER) && ToLower(REQUESTER) == REQUESTER
    ensures IsReason(REASON) && IsDigest(AnyDigest()) && IsSha(Zeros(40)) && IsNonce(Zeros(32)) && IsRepository(REPOSITORY)
    ensures ReadSecond(Itoa(0)) == Some(0) && ReadSecond(Itoa(600)) == Some(600 * SECOND) && ReadSecond(Itoa(3600)) == Some(3600 * SECOND)
  {
    IdIsUuid();
    MailboxesAreEmails();
    ReasonIsReason();
    DigestsAndHashes();
    ReadsItoa(0);
    ReadsItoa(600);
    ReadsItoa(3600);
  }

  lemma SampleEnvSound()
    ensures Sound(SampleEnv())
  {
    SampleTexts();
    forall t ensures ReadSecond(Itoa(t)) == Some(t * SECOND) { ReadsItoa(t); }
    hide IsDigest, IsKeyId, IsDay, Zeros, ReadSecond, Itoa;
  }

  lemma EvidenceFits(operation: string)
    requires AllowedOperation(operation)
    ensures EvidenceDigestOk(SampleEnv(), SampleEvidence(operation), Some(0))
  {
    hide IsUuid, IsEmail, IsReason, IsDigest, IsSha, IsRepository, ReadSecond, Itoa, Zeros, EvidenceTree, Printable, EqualFold, ToLower, IsNonce;
    SampleParts();
    var e := SampleEvidence(operation);
    EvidenceTreeInjective(e.(digest := ""), e.(digest := ""));
  }

  lemma ColleagueApproves()
    requires !EqualFold(COLLEAGUE, REQUESTER)
    ensures Approves([COLLEAGUE], REQUESTER, SampleAnswers())
  {
    hide EqualFold;
    assert [COLLEAGUE][0] == COLLEAGUE;
  }

  lemma EvidenceIsAccepted(operation: string, expiresAt: string)
    requires AllowedOperation(operation)
    ensures EvidenceAccepted(SampleEnv(), 0, REQUESTER, SampleIntent(operation, expiresAt), SampleEvidence(operation), SampleAnswers())
  {
    hide EvidenceDigestOk, EqualFold, IsUuid, IsEmail, IsReason, IsDigest, IsSha, IsNonce, IsRepository, ReadSecond, Itoa, Zeros,
         Approves, ToLower, SampleEnv, SampleAnswers;
    EvidenceFits(operation);
    SampleParts();
    FoldsItself(REQUESTER);
    ColleagueApproves();
  }

  lemma DraftIsValid(operation: string, expiresAt: string)
    requires AllowedOperation(operation) && TenMinutes(expiresAt)
    ensures IsTime(SampleEnv(), expiresAt) && ValidRequest(SampleEnv(), Draft(SampleEnv(), SampleOrigin(operation, expiresAt)), None)
  {
    hide IsUuid, IsEmail, IsReason, IsDigest, IsSha, IsRepository, ReadSecond, Itoa, Zeros, EqualFold, ToLower, IsNonce;
    SampleParts();
  }

  /** The sample is admitted, with some request. */
  lemma SampleIsAdmitted(operation: string, expiresAt: string) returns (request: Request)
    requires AllowedOperation(operation) && TenMinutes(expiresAt)
    ensures Admitted(SampleEnv(), SampleOrigin(operation, expiresAt), request)
  {
    SampleEnvSound();
    DraftIsValid(operation, expiresAt);
    EvidenceIsAccepted(operation, expiresAt);
    hide Sound, EvidenceAccepted, ValidRequest, SealRequest, Zeros, Itoa;
    var draft := Draft(SampleEnv(), SampleOrigin(operation, expiresAt));
    SealedRequestVerifies(SampleEnv(), draft);
    request := SealRequest(SampleEnv(), draft).value;
  }

  // ---------------------------------------------------------------- the sample runs

  lemma SampleIsWellFormed(operation: string)
    requires AllowedOperation(operation)
    ensures WellFormed(SampleCatalog(operation))
  {
    hide IsRepository, AllowedOperation;
    DigestsAndHashes();
  }

  lemma SampleIsGranted(operation: string, expiresAt: string)
    ensures Authorize(SampleCatalog(operation), SampleIntent(operation, expiresAt)) == Granted(SampleTarget(operation))
  {
    hide Zeros;
    var target := SampleTarget(operation);
    assert SampleCatalog(operation).targets[REPOSITORY] == target;
    assert target.operations.value[operation] == OperationTarget(1, true);
  }

  lemma SampleEnters(operation: string, expiresAt: string)
    requires AllowedOperation(operation)
    ensures Begin(REQUESTER, OPERATOR, SampleCatalog(operation), SampleIntent(operation, expiresAt)) ==
              Call(SampleIntent(operation, expiresAt), REQUESTER, SampleTarget(operation), ReadingRequest, 0)
  {
    SampleIsGranted(operation, expiresAt);
    IdIsUuid();
    hide IsUuid, AllowedOperation, Authorize, Zeros, SampleTarget, SampleCatalog;
  }

  lemma ExecTwo(cfg: Config, a: Label, b: Label)
    ensures Exec(cfg, [a, b]) == Apply(cfg, Apply(cfg, INITIAL, a), b)
  {
    hide Apply;
    assert [a, b][..1] == [a] && [a][..0] == [];
    assert Exec(cfg, [a]) == Apply(cfg, Exec(cfg, []), a);
  }

  /** The world in which the sample evidence is published and the sample call has entered. */
  lemma SampleBegins(cfg: Config, operation: string, expiresAt: string)
    requires AllowedOperation(operation)
    ensures var w := Exec(cfg, SampleStart(operation, expiresAt));
            && w.facts == INITIAL.facts.(store := EMPTY.(evidence := map[AnyDigest() := SampleEvidence(operation)]))
            && w.calls == [Call(SampleIntent(operation, expiresAt), REQUESTER, SampleTarget(operation), ReadingRequest, 0)]
    ensures Admissible(SampleEntry(operation, expiresAt))
  {
    hide Step, SampleEvidence, SampleIntent, SampleTarget, SampleCatalog, WellFormed, Begin, Exec, AllowedOperation, AnyDigest;
    SampleIsWellFormed(operation);
    SampleEnters(operation, expiresAt);
    ExecTwo(cfg, Publish(AnyDigest(), SampleEvidence(operation)), SampleEntry(operation, expiresAt));
  }

  /** The sample call is approvable and its keys are free. */
  lemma SampleIsApprovable(cfg: Config, operation: string, expiresAt: string) returns (request: Request)
    requires cfg.env == SampleEnv() && AllowedOperation(operation) && TenMinutes(expiresAt)
    ensures var w := Exec(cfg, SampleStart(operation, expiresAt));
            && Reachable(cfg, w) && Approvable(cfg, w, 0, SampleAdmit(), request) && request.requestId == ID
            && KeysFree(cfg, w.facts.store, OriginFrom(w.facts.store, w.calls[0], SampleAdmit()), request)
            && request.operation == operation && request.protectedMainSha == Zeros(40) && request.workflowId == 1
            && request.workflowRunId == (if operation == REFRESH then 0 else 1)
  {
    hide Exec, Admitted, SampleEnv, TenMinutes, Zeros, SampleEvidence, BindingDigest, SampleAnswers;
    SampleBegins(cfg, operation, expiresAt);
    request := SampleIsAdmitted(operation, expiresAt);
    AdmittedServes(SampleEnv(), SampleOrigin(operation, expiresAt), request);
  }

  /** The same instant, written without and with a sign. */
  lemma TwoForms()
    ensures TenMinutes(Itoa(600)) && TenMinutes("+" + Itoa(600)) && !IsTimestamp(SampleEnv(), "+" + Itoa(600))
  {
    ReadsItoa(600);
    DecimalValue(600);
    assert Magnitude("+" + Itoa(600)) == Decimal(600);
    hide Decimal;
    assert |"+" + Itoa(600)| == |Itoa(600)| + 1;
  }

  /** In some world of each repository, a call is about to read the request that was admitted from exactly
      its own intent and requester, and is told that it is a replay. */
  ghost predicate RefusesRepeat(cfg: Config, w: World, j: nat, request: Request)
  {
    Reachable(cfg, w) && Repeats(w, j, request) && PcAt(Apply(cfg, w, Act(j, Read(false))), j) == Some(Fail(Replay))
  }

  lemma RepeatCanBeRefused(backend: Backend)
    ensures exists w, j: nat, request :: RefusesRepeat(Config(SampleEnv(), backend), w, j, request)
  {
    var cfg, expiresAt := Config(SampleEnv(), backend), "+" + Itoa(600);
    SampleEnvSound();
    TwoForms();
    var request := SampleIsApprovable(cfg, REFRESH, expiresAt);
    SampleBegins(cfg, REFRESH, expiresAt);
    hide Sound, Reachable, Run, Exec, Approvable, KeysFree, Apply, SampleEnv, IsTimestamp, Zeros, Itoa, TenMinutes, Admissible, SampleEvidence, Repeats,
         SampleTarget, SampleCatalog, Admission;
    var w, entry := Exec(cfg, SampleStart(REFRESH, expiresAt)), SampleEntry(REFRESH, expiresAt);
    FreshRepeat(cfg, w, 0, SampleAdmit(), request, 0, entry);
    var v := Run(cfg, w, Admission(cfg, 0, SampleAdmit(), 0));
    RunReachable(cfg, w, Admission(cfg, 0, SampleAdmit(), 0));
    RunReachable(cfg, v, [entry]);
    RunOne(cfg, v, entry);
    assert RefusesRepeat(cfg, Apply(cfg, v, entry), |v.calls|, request);
  }

  /** What the sample provider shows: main at the approved commit, no runs, and one run with this link. */
  function SampleView(link: string): Observation
  {
    Observation(Some(MainBranch(Zeros(40), true)), Some([]), Some(WorkflowRun(1, 1, Zeros(40), "main", "completed", "failure", link, 1)))
  }

  /** A reachable world in which one mutation was sent, was confirmed, and its accepted receipt returned. */
  ghost predicate SentOnce(cfg: Config, w: World, i: nat, receipt: Receipt)
  {
    && Reachable(cfg, w) && |w.facts.history| == 1 && w.facts.history[0].mutation == Some(Status(ExpectedStatus(REFRESH)))
    && Delivered(w, i, receipt) && w.calls[i].pc.answer.error == None && Durable(cfg, w.facts, receipt)
  }

  lemma SampleShowsReady(request: Request)
    requires request.operation == REFRESH && request.protectedMainSha == Zeros(40)
    ensures ShowsReady(request, SampleView("")) && ObservationFits(request, SampleView(""))
  {
    hide Zeros;
  }

  /** A sample world from which the sample call can go on. */
  ghost predicate SampleReady(cfg: Config, w: World, operation: string, request: Request)
  {
    && Reachable(cfg, w) && Approvable(cfg, w, 0, SampleAdmit(), request) && request.requestId == ID && request.operation == operation
    && KeysFree(cfg, w.facts.store, OriginFrom(w.facts.store, w.calls[0], SampleAdmit()), request)
    && request.protectedMainSha == Zeros(40) && request.workflowId == 1 && request.workflowRunId == (if operation == REFRESH then 0 else 1)
    && |w.calls| == 1 && w.facts.history == [] && w.facts.store.dispatches == map[] && w.facts.store.results == map[]
  }

  lemma SampleGoesOn(cfg: Config, operation: string) returns (w: World, request: Request)
    requires cfg.env == SampleEnv() && AllowedOperation(operation)
    ensures SampleReady(cfg, w, operation, request)
  {
    hide Reachable, Exec, Approvable, KeysFree, SampleEnv, IsTimestamp, Zeros, Itoa, TenMinutes, Admissible, SampleEvidence, SampleTarget;
    TwoForms();
    request := SampleIsApprovable(cfg, operation, Itoa(600));
    SampleBegins(cfg, operation, Itoa(600));
    w := Exec(cfg, SampleStart(operation, Itoa(600)));
  }

  lemma DeliveryHappens(backend: Backend)
    ensures exists w, receipt :: SentOnce(Config(SampleEnv(), backend), w, 0, receipt)
  {
    var cfg := Config(SampleEnv(), backend);
    hide Sound, Reachable, Run, Approvable, KeysFree, SampleEnv, Zeros, Admission, Delivery, Storing, ShowsReady, ObservationFits, IsUuid,
         Durable, FinalReceipt, SampleAdmit, SampleView;
    SampleEnvSound();
    IdIsUuid();
    var w, request := SampleGoesOn(cfg, REFRESH);
    SampleShowsReady(request);
    var view := SampleView("");
    ApprovedCallDelivers(cfg, w, 0, SampleAdmit(), request, view, ID, 0, 0);
    var labels := Admission(cfg, 0, SampleAdmit(), 0) + (Delivery(0, view, ID, request.operation, 0, 0) + Storing(0, 0));
    var receipt :| DeliveredOnce(cfg, w, Run(cfg, w, labels), 0, request, receipt);
    RunReachable(cfg, w, labels);
    assert SentOnce(cfg, Run(cfg, w, labels), 0, receipt);
  }

  /** A reachable world in which a call is about to prepare a request that nobody has dispatched, and a view
      of the provider that shows it ready with a link that fits no token. */
  ghost predicate MeetsOversized(cfg: Config, w: World, observed: Observation)
  {
    && Reachable(cfg, w) && Stranded(w, ID) && |w.calls| == 1 && w.calls[0].pc == Preparing(w.facts.store.requests[ID])
    && Oversized(w.facts.store.requests[ID], observed)
  }

  lemma StrandingHappens(backend: Backend)
    ensures exists w :: MeetsOversized(Config(SampleEnv(), backend), w, SampleView(LONG_LINK))
  {
    var cfg := Config(SampleEnv(), backend);
    hide Sound, Reachable, Run, Admitted, KeysFree, SampleEnv, Zeros, Admission, Oversized, SampleAdmit, HasStored;
    SampleEnvSound();
    var w, request := SampleGoesOn(cfg, RERUN);
    LongLinkNeverFits(request, SampleView(LONG_LINK).run.value);
    SampleOversized(request);
    hide SampleView;
    AdmissionLeads(cfg, w, 0, SampleAdmit(), request, 0);
    RunReachable(cfg, w, Admission(cfg, 0, SampleAdmit(), 0));
    StoredIsStranded(cfg, w, Run(cfg, w, Admission(cfg, 0, SampleAdmit(), 0)), OriginFrom(w.facts.store, w.calls[0], SampleAdmit()), request);
    assert MeetsOversized(cfg, Run(cfg, w, Admission(cfg, 0, SampleAdmit(), 0)), SampleView(LONG_LINK));
  }

  lemma StoredIsStranded(cfg: Config, w: World, v: World, o: Origin, request: Request)
    requires HasStored(cfg, w, v, 0, o, request) && |w.calls| == 1 && request.requestId == ID && w.facts.store.dispatches == map[]
    ensures Stranded(v, ID) && |v.calls| == 1 && v.calls[0].pc == Preparing(request) && v.facts.store.requests[ID] == request
  {
    hide BindingDigest, Payload;
  }

  lemma SampleOversized(request: Request)
    requires request.operation == RERUN && request.protectedMainSha == Zeros(40) && request.workflowId == 1 && request.workflowRunId == 1
    requires IsRunLink(LONG_LINK) && !LinkFits(request, SampleView(LONG_LINK).run.value)
    ensures Oversized(request, SampleView(LONG_LINK))
  {
    hide IsRunLink, LinkFits, Zeros;
  }
}
