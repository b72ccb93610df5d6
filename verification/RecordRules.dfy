/** The rules of the stored records and of the catalogue document with every pattern and bound written out
    (internal/contract/models.go:37-47, 100-165, 227-284, 443-514, 562-602, 627-673 and 675-731,
    internal/operations/catalog.go:61-98). */
module RecordRules {
  import opened Prelude
  import opened Patterns
  import opened Regex
  import opened RegexPatterns
  import opened CanonicalJson
  import opened Contract
  import Broker
  import Catalog
  import Health
  import Utf8

  // ---------------------------------------------------------------- texts

  /** The code points of Unicode white space. */
  predicate SpacePoint(n: int)
  {
    || n == 0x09 || n == 0x0A || n == 0x0B || n == 0x0C || n == 0x0D || n == 0x20 || n == 0x85 || n == 0xA0 || n == 0x1680
    || n == 0x2000 || n == 0x2001 || n == 0x2002 || n == 0x2003 || n == 0x2004 || n == 0x2005 || n == 0x2006 || n == 0x2007
    || n == 0x2008 || n == 0x2009 || n == 0x200A || n == 0x2028 || n == 0x2029 || n == 0x202F || n == 0x205F || n == 0x3000
  }

  /** No carriage return, line feed or zero character anywhere. */
  predicate OneLine(s: string) { forall i :: 0 <= i < |s| ==> s[i] as int != 13 && s[i] as int != 10 && s[i] as int != 0 }

  /** No white space at either end. */
  predicate NoOuterSpace(s: string)
  {
    s != "" ==> !SpacePoint(s[0] as int) && !SpacePoint(s[|s| - 1] as int)
  }

  lemma LineMeans(s: string)
    ensures OneLine(s) <==> !HasControl(s)
    ensures NoOuterSpace(s) <==> IsTrimmed(s)
  {}

  /** A reason is 10 to 500 bytes of UTF-8 on one line. */
  predicate ReasonText(s: string) { 10 <= |Utf8.Encode(s)| <= 500 && OneLine(s) && NoOuterSpace(s) }

  /** A link is at most 512 bytes of UTF-8 on one line. */
  predicate LinkText(s: string)
  {
    |Utf8.Encode(s)| <= 512 && OneLine(s) && (s == "" || "https://" <= s || "simulation://" <= s)
  }

  /** A label is 1 to 64 bytes of UTF-8 on one line. */
  predicate LabelText(s: string) { s != "" && |Utf8.Encode(s)| <= 64 && OneLine(s) && NoOuterSpace(s) }

  lemma TextsMean(s: string)
    ensures IsReason(s) <==> ReasonText(s)
    ensures IsProviderReference(s) <==> LinkText(s)
    ensures Health.IsLabelText(s) <==> LabelText(s)
  {
    hide OneLine, NoOuterSpace, HasControl, IsTrimmed, Utf8.Encode;
    LineMeans(s);
  }

  /** A run's link is accepted exactly when it is an https link that a record may carry. */
  lemma RunLinkExactly(s: string)
    ensures Broker.IsRunLink(s) <==> LinkText(s) && "https://" <= s
  {
    hide Utf8.Encode, OneLine, HasControl;
    LineMeans(s);
  }

  predicate OneOfThree(operation: string)
  {
    || operation == "refresh_estate_health"
    || operation == "rerun_failed_required_workflow"
    || operation == "cancel_superseded_workflow_run"
  }

  /** The times parse, the second is later, and by at most `most` nanoseconds. */
  predicate Lives(env: Env, from: string, until: string, most: int)
  {
    && env.parseTime(from).Some? && env.parseTime(until).Some?
    && 0 < env.parseTime(until).value - env.parseTime(from).value <= most
  }

  // ---------------------------------------------------------------- requests

  ghost predicate RequestRules(env: Env, r: Request)
  {
    && r.schemaVersion == "estate.operation-request/v1" && OneOfThree(r.operation)
    && Matches(UuidExpr(), r.requestId) && Matches(RepositoryExpr(), r.repository)
    && Matches(Hex(40), r.protectedMainSha) && Matches(DigestExpr(), r.planDigest) && Matches(DigestExpr(), r.evidenceDigest)
    && Matches(EmailExpr(), r.requestedBy) && Matches(Hex(32), r.nonce) && ReasonText(r.reason)
    && 1 <= r.workflowId && 0 <= r.workflowRunId
    && (r.operation == "refresh_estate_health" <==> r.workflowRunId == 0)
    && Lives(env, r.issuedAt, r.expiresAt, 600_000_000_000)
  }

  /** A request is valid exactly when it keeps the rules, and verified exactly when it is signed as well. */
  lemma RequestRulesExact(env: Env, r: Request)
    ensures ValidRequest(env, r, None) <==> RequestRules(env, r)
    ensures Sound(env) ==>
              (RequestOk(env, r) <==>
                 RequestRules(env, r) && Signed(env, RequestTree(r.(digest := "", signature := NO_SIGNATURE)), r.digest, r.signature))
  {
    hide Signed, RequestOk, RequestTree, Sound;
    if Sound(env) { RequestIsSigned(env, r); }
    hide Matches, ReasonText, IsUuid, IsRepository, IsSha, IsDigest, IsEmail, IsNonce, IsReason;
    hide UuidExpr, RepositoryExpr, DigestExpr, EmailExpr, Hex;
    UuidMatches(r.requestId);
    RepositoryMatches(r.repository);
    ShaMatches(r.protectedMainSha);
    DigestMatches(r.planDigest);
    DigestMatches(r.evidenceDigest);
    EmailMatches(r.requestedBy);
    NonceMatches(r.nonce);
    TextsMean(r.reason);
  }

  // ---------------------------------------------------------------- dispatches, results and receipts

  ghost predicate DispatchRules(env: Env, d: Dispatch)
  {
    && d.schemaVersion == "estate.operation-dispatch/v1"
    && Matches(UuidExpr(), d.requestId) && Matches(UuidExpr(), d.receiptId) && Matches(DigestExpr(), d.requestDigest)
    && |d.recoveryToken| <= 4096 && Matches(Repeat(OneOf(SYMBOL), 1, None), d.recoveryToken)
    && env.parseTime(d.preparedAt).Some?
  }

  lemma DispatchRulesExact(env: Env, d: Dispatch)
    ensures ValidDispatch(env, d) <==> DispatchRules(env, d)
    ensures Sound(env) ==>
              (DispatchOk(env, d) <==>
                 DispatchRules(env, d) && Signed(env, DispatchTree(d.(digest := "", signature := NO_SIGNATURE)), d.digest, d.signature))
  {
    hide Signed, DispatchOk, DispatchTree, Sound;
    if Sound(env) { DispatchIsSigned(env, d); }
    hide Matches, IsUuid, IsDigest, IsRecoveryToken, UuidExpr, DigestExpr;
    UuidMatches(d.requestId);
    UuidMatches(d.receiptId);
    DigestMatches(d.requestDigest);
    RecoveryTokenMatches(d.recoveryToken);
  }

  ghost predicate ResultRules(env: Env, r: Result)
  {
    && r.schemaVersion == "estate.operation-dispatch-result/v1" && (r.status == "accepted" || r.status == "rejected")
    && Matches(UuidExpr(), r.requestId) && Matches(UuidExpr(), r.receiptId) && Matches(DigestExpr(), r.requestDigest)
    && Matches(Name(UPPER, CODE, 2, 63), r.reasonCode) && LinkText(r.providerReference)
    && env.parseTime(r.recordedAt).Some?
  }

  lemma ResultRulesExact(env: Env, r: Result)
    ensures ValidResult(env, r) <==> ResultRules(env, r)
    ensures Sound(env) ==>
              (ResultOk(env, r) <==>
                 ResultRules(env, r) && Signed(env, ResultTree(r.(digest := "", signature := NO_SIGNATURE)), r.digest, r.signature))
  {
    hide Signed, ResultOk, ResultTree, Sound;
    if Sound(env) { ResultIsSigned(env, r); }
    hide Matches, LinkText, IsUuid, IsDigest, IsReasonCode, IsProviderReference, UuidExpr, DigestExpr, Name;
    UuidMatches(r.requestId);
    UuidMatches(r.receiptId);
    DigestMatches(r.requestDigest);
    ReasonCodeMatches(r.reasonCode);
    TextsMean(r.providerReference);
  }

  ghost predicate ReceiptRules(env: Env, r: Receipt)
  {
    && r.schemaVersion == "estate.operation-receipt/v1" && (r.status == "accepted" || r.status == "rejected") && OneOfThree(r.operation)
    && Matches(UuidExpr(), r.requestId) && Matches(UuidExpr(), r.receiptId) && Matches(DigestExpr(), r.requestDigest)
    && Matches(RepositoryExpr(), r.repository) && Matches(Name(UPPER, CODE, 2, 63), r.reasonCode) && LinkText(r.providerReference)
    && env.parseTime(r.recordedAt).Some?
    && r.auditObject == "audit/operations/" + env.day(env.parseTime(r.recordedAt).value) + "/" + r.receiptId + ".json"
  }

  lemma ReceiptRulesExact(env: Env, r: Receipt)
    ensures ValidReceipt(env, r) <==> ReceiptRules(env, r)
    ensures Sound(env) ==>
              (ReceiptOk(env, r) <==>
                 ReceiptRules(env, r) && Signed(env, ReceiptTree(r.(digest := "", signature := NO_SIGNATURE)), r.digest, r.signature))
  {
    hide Signed, ReceiptOk, ReceiptTree, Sound;
    if Sound(env) { ReceiptIsSigned(env, r); }
    hide Matches, LinkText, IsUuid, IsDigest, IsRepository, IsReasonCode, IsProviderReference, UuidExpr, RepositoryExpr, DigestExpr, Name;
    UuidMatches(r.requestId);
    UuidMatches(r.receiptId);
    DigestMatches(r.requestDigest);
    RepositoryMatches(r.repository);
    ReasonCodeMatches(r.reasonCode);
    TextsMean(r.providerReference);
  }

  // ---------------------------------------------------------------- evidence

  /** The approvers are different addresses in ascending order. */
  ghost predicate ApproverRules(approvers: seq<string>)
  {
    && 1 <= |approvers| <= 10
    && (forall i :: 0 <= i < |approvers| ==> Matches(EmailExpr(), approvers[i]))
    && (forall i, j :: 0 <= i < j < |approvers| ==> StrLess(approvers[i], approvers[j]))
  }

  lemma ApproverRulesExact(approvers: seq<string>)
    ensures 1 <= |approvers| <= 10 && SortedEmails(approvers) <==> ApproverRules(approvers)
  {
    hide Matches, IsEmail, EmailExpr, StrLess;
    forall i | 0 <= i < |approvers| ensures IsEmail(approvers[i]) <==> Matches(EmailExpr(), approvers[i]) { EmailMatches(approvers[i]); }
    if SortedEmails(approvers) {
      forall i, j | 0 <= i < j < |approvers| ensures StrLess(approvers[i], approvers[j]) { SortedLess(approvers, i, j); }
    }
  }

  ghost predicate ApprovalRules(env: Env, a: Approval)
  {
    && a.decision == "approved" && OneOfThree(a.operation) && ReasonText(a.reason)
    && Matches(UuidExpr(), a.approvalId) && Matches(EmailExpr(), a.requestedBy) && ApproverRules(a.approvers)
  }

  /** Evidence of an approved, successful run: approved at most a day before it was observed and at most 30 seconds
      after, and valid for at most a day. */
  ghost predicate EvidenceRules(env: Env, e: Evidence)
  {
    && e.schemaVersion == "estate.evidence/v2" && e.conclusion == "success" && ApprovalRules(env, e.approval)
    && Matches(RepositoryExpr(), e.repository) && Matches(Hex(40), e.protectedMainSha) && Matches(DigestExpr(), e.planDigest)
    && 1 <= e.workflowId && 0 <= e.workflowRunId && (e.digest == "" || Matches(DigestExpr(), e.digest))
    && Lives(env, e.observedAt, e.expiresAt, 86_400_000_000_000) && env.parseTime(e.approval.approvedAt).Some?
    && -86_400_000_000_000 <= env.parseTime(e.approval.approvedAt).value - env.parseTime(e.observedAt).value <= 30_000_000_000
  }

  lemma EvidenceRulesExact(env: Env, e: Evidence)
    ensures ValidEvidence(env, e, None) <==> EvidenceRules(env, e)
    ensures EvidenceDigestOk(env, e, None) <==>
              && EvidenceRules(env, e) && e.digest != "" && CanonicalBytes(EvidenceTree(e.(digest := ""))).Some?
              && e.digest == env.hash(CanonicalBytes(EvidenceTree(e.(digest := ""))).value)
  {
    hide EvidenceTree, CanonicalBytes;
    hide Matches, ReasonText, IsUuid, IsRepository, IsSha, IsDigest, IsEmail, IsReason, SortedEmails, ApproverRules;
    hide UuidExpr, RepositoryExpr, DigestExpr, EmailExpr, Hex;
    RepositoryMatches(e.repository);
    ShaMatches(e.protectedMainSha);
    DigestMatches(e.planDigest);
    DigestMatches(e.digest);
    UuidMatches(e.approval.approvalId);
    EmailMatches(e.approval.requestedBy);
    TextsMean(e.approval.reason);
    ApproverRulesExact(e.approval.approvers);
  }

  // ---------------------------------------------------------------- health

  ghost predicate HealthRules(env: Env, h: Health.RepositoryHealth)
  {
    && Matches(RepositoryExpr(), h.repository) && Matches(Hex(40), h.headSha) && Matches(Hex(40), h.lastGreenSha)
    && Matches(DigestExpr(), h.evidenceDigest) && LabelText(h.profile) && LabelText(h.failureClass)
    && (h.requiredCheckStatus == "success" || h.requiredCheckStatus == "failure" || h.requiredCheckStatus == "blocked"
        || h.requiredCheckStatus == "unknown")
    && 0 <= h.queueSeconds && 0 <= h.executionSeconds && 0 <= h.cacheHitBasisPoints <= 10_000
    && env.parseTime(h.observedAt).Some?
  }

  lemma HealthRulesExact(env: Env, h: Health.RepositoryHealth)
    ensures Health.ValidHealth(env, h) <==> HealthRules(env, h)
  {
    hide Matches, LabelText, Health.IsLabelText, IsRepository, IsSha, IsDigest, RepositoryExpr, DigestExpr, Hex;
    RepositoryMatches(h.repository);
    ShaMatches(h.headSha);
    ShaMatches(h.lastGreenSha);
    DigestMatches(h.evidenceDigest);
    TextsMean(h.profile);
    TextsMean(h.failureClass);
  }

  /** A valid snapshot lists 1 to 100 repositories by name, each of them once, and counts them by status. */
  ghost predicate SnapshotRules(env: Env, s: Health.Snapshot)
  {
    && s.schemaVersion == "estate.health/v1" && Matches(UuidExpr(), s.snapshotId) && Matches(Hex(40), s.protectedMainSha)
    && env.parseTime(s.observedAt).Some? && (s.digest == "" || Matches(DigestExpr(), s.digest))
    && 1 <= |s.repositories| <= 100
    && (forall i :: 0 <= i < |s.repositories| ==> HealthRules(env, s.repositories[i]))
    && (forall i, j :: 0 <= i < j < |s.repositories| ==> StrLess(s.repositories[i].repository, s.repositories[j].repository))
    && s.summary.healthy == |Health.WithStatus(s.repositories, "success")|
    && s.summary.degraded == |Health.WithStatus(s.repositories, "failure")|
    && s.summary.blocked == |Health.WithStatus(s.repositories, "blocked")|
    && s.summary.unknown == |Health.WithStatus(s.repositories, "unknown")|
  }

  lemma SnapshotRulesExact(env: Env, s: Health.Snapshot)
    ensures Health.ValidSnapshot(env, s) <==> SnapshotRules(env, s)
    ensures Health.SnapshotDigestOk(env, s) <==>
              && SnapshotRules(env, s) && s.digest != "" && CanonicalBytes(Health.SnapshotTree(s.(digest := ""))).Some?
              && s.digest == env.hash(CanonicalBytes(Health.SnapshotTree(s.(digest := ""))).value)
  {
    hide Health.SnapshotTree, CanonicalBytes;
    hide Matches, HealthRules, IsUuid, IsSha, IsDigest, StrLess, UuidExpr, DigestExpr, Hex, Health.ValidHealth, Health.Count, Health.WithStatus;
    UuidMatches(s.snapshotId);
    ShaMatches(s.protectedMainSha);
    DigestMatches(s.digest);
    Health.CountIsSize(s.repositories, "success");
    Health.CountIsSize(s.repositories, "failure");
    Health.CountIsSize(s.repositories, "blocked");
    Health.CountIsSize(s.repositories, "unknown");
    forall i | 0 <= i < |s.repositories|
      ensures Health.ValidHealth(env, s.repositories[i]) <==> HealthRules(env, s.repositories[i])
    {
      HealthRulesExact(env, s.repositories[i]);
    }
  }

  // ---------------------------------------------------------------- the catalogue document

  const THREE: set<string> := {"refresh_estate_health", "rerun_failed_required_workflow", "cancel_superseded_workflow_run"}

  /** In the first version exactly the three operations have workflows, all of them positive once connected. In the
      second at most those three are declared, with positive workflows, and enabled only when connected. */
  predicate DeclarationRules(version: string, connected: bool, target: Catalog.RepositoryTarget)
  {
    if version == "estate.operation-catalog/v1" then
      && target.operations.None? && target.workflowIds.Some? && target.workflowIds.value.Keys == THREE
      && forall name :: name in target.workflowIds.value ==>
           0 <= target.workflowIds.value[name] && (connected ==> 0 < target.workflowIds.value[name])
    else
      && target.workflowIds.None?
      && (target.operations.Some? ==>
           && target.operations.value.Keys <= THREE
           && forall name :: name in target.operations.value ==>
                0 < target.operations.value[name].workflowId && (target.operations.value[name].enabled ==> connected))
  }

  lemma ThreeAreThree()
    ensures |THREE| == 3
    ensures forall name :: name in THREE <==> AllowedOperation(name)
    ensures forall name :: name in THREE <==> name in Catalog.EXPECTED
  {
    Broker.OperationsDiffer();
    assert Catalog.EXPECTED[0] == REFRESH && Catalog.EXPECTED[1] == RERUN && Catalog.EXPECTED[2] == CANCEL;
  }

  lemma {:induction false} Subset<T>(a: set<T>, b: set<T>)
    requires a <= b
    ensures |a| <= |b|
    ensures |a| == |b| ==> a == b
  {
    if a != {} {
      var x :| x in a;
      Subset(a - {x}, b - {x});
      assert a == (a - {x}) + {x} && b == (b - {x}) + {x};
    }
  }

  lemma DeclarationRulesExact(document: Catalog.Document, target: Catalog.RepositoryTarget)
    requires document.schemaVersion == "estate.operation-catalog/v1" || document.schemaVersion == "estate.operation-catalog/v2"
    ensures (if document.schemaVersion == Catalog.V1 then Catalog.ValidV1(document, target) else Catalog.ValidV2(document, target)) <==>
              DeclarationRules(document.schemaVersion, document.connected, target)
  {
    ThreeAreThree();
    hide AllowedOperation;
    if document.schemaVersion == Catalog.V1 {
      if target.workflowIds.Some? && THREE <= target.workflowIds.value.Keys { Subset(THREE, target.workflowIds.value.Keys); }
    } else {
      if target.operations.Some? && target.operations.value.Keys <= THREE { Subset(target.operations.value.Keys, THREE); }
    }
  }

  /** A document lists 1 to 100 repositories, each of them once, with their main branch. */
  ghost predicate DocumentRules(document: Catalog.Document)
  {
    && (document.schemaVersion == "estate.operation-catalog/v1" || document.schemaVersion == "estate.operation-catalog/v2")
    && 1 <= |document.repositories| <= 100
    && (forall i :: 0 <= i < |document.repositories| ==>
          var target := document.repositories[i];
          && Matches(RepositoryExpr(), target.repository) && target.mainBranch == "main"
          && DeclarationRules(document.schemaVersion, document.connected, target))
    && (forall i, j :: 0 <= i < j < |document.repositories| ==>
          document.repositories[i].repository != document.repositories[j].repository)
  }

  lemma DocumentRulesExact(document: Catalog.Document)
    ensures Catalog.ValidDocument(document) <==> DocumentRules(document)
  {
    hide Matches, IsRepository, RepositoryExpr, DeclarationRules, Catalog.ValidV1, Catalog.ValidV2;
    if document.schemaVersion == "estate.operation-catalog/v1" || document.schemaVersion == "estate.operation-catalog/v2" {
      forall i | 0 <= i < |document.repositories|
        ensures Catalog.ValidTarget(document, document.repositories[i]) <==>
                  && Matches(RepositoryExpr(), document.repositories[i].repository) && document.repositories[i].mainBranch == "main"
                  && DeclarationRules(document.schemaVersion, document.connected, document.repositories[i])
      {
        RepositoryMatches(document.repositories[i].repository);
        DeclarationRulesExact(document, document.repositories[i]);
      }
    }
  }
}
