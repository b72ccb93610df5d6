/** Workflow evidence as the source holds it (internal/contract/models.go:190-284): fields that `Seal`
    rewrites through a pointer, and loops over the approvers. */
module EvidenceRecord {
  import opened Prelude
  import opened Patterns
  import opened CanonicalJson
  import opened Contract

  class WorkflowEvidence {
    var schemaVersion: string
    var repository: string
    var workflowId: Int64
    var workflowRunId: Int64
    var protectedMainSha: string
    var planDigest: string
    var conclusion: string
    var superseded: bool
    var approval: Approval
    var observedAt: string
    var expiresAt: string
    var digest: string

    function Value(): Evidence
      reads this
    {
      Evidence(schemaVersion, repository, workflowId, workflowRunId, protectedMainSha, planDigest, conclusion, superseded,
               approval, observedAt, expiresAt, digest)
    }

    constructor (e: Evidence)
      ensures Value() == e
    {
      schemaVersion, repository, workflowId, workflowRunId := e.schemaVersion, e.repository, e.workflowId, e.workflowRunId;
      protectedMainSha, planDigest, conclusion, superseded := e.protectedMainSha, e.planDigest, e.conclusion, e.superseded;
      approval, observedAt, expiresAt, digest := e.approval, e.observedAt, e.expiresAt, e.digest;
    }

    method LowerApprovers()
      modifies this`approval
      ensures approval == old(approval).(approvers := LowerAll(old(approval.approvers)))
    {
      hide ToLower;
      for i := 0 to |approval.approvers|
        invariant approval == old(approval).(approvers := approval.approvers) && |approval.approvers| == |old(approval.approvers)|
        invariant forall j :: 0 <= j < i ==> approval.approvers[j] == ToLower(old(approval.approvers)[j])
        invariant forall j :: i <= j < |approval.approvers| ==> approval.approvers[j] == old(approval.approvers)[j]
      {
        approval := approval.(approvers := approval.approvers[i := ToLower(approval.approvers[i])]);
      }
      assert approval.approvers == LowerAll(old(approval.approvers));
    }

    /** Lower-cases, sorts, validates and digests in place: the result is the sealed value that the
        specification determines, and a refused record is left normalized with its old digest. */
    method Seal(env: Env) returns (ok: bool)
      modifies this
      ensures ok <==> SealEvidence(env, old(Value())).Some?
      ensures if ok then SealEvidence(env, old(Value())) == Some(Value()) else Value() == Normalized(old(Value()))
    {
      hide ValidEvidence, EvidenceTree, ToLower, LowerAll, SortTexts;
      if schemaVersion == "" { schemaVersion := EVIDENCE_SCHEMA; }
      LowerApprovers();
      approval := approval.(requestedBy := ToLower(approval.requestedBy));
      var sorted := SortApprovers(approval.approvers);
      approval := approval.(approvers := sorted);
      assert Value() == Normalized(old(Value()));
      ok := Validate(env, None);
      if ok {
        EvidenceDigests(env, Value().(digest := ""));
        var bound := Digest(env, EvidenceTree(Value().(digest := "")));
        digest := bound.value;
      }
    }

    method Validate(env: Env, now: Option<int>) returns (ok: bool)
      ensures ok <==> ValidEvidence(env, Value(), now)
      ensures ok <==> ValidEvidence(env, Value(), None) && (now.Some? ==> CurrentAt(env, Value(), now.value))
    {
      if now.Some? { EvidenceValidAt(env, Value(), now.value); }
      hide IsRepository, IsSha, IsDigest, IsUuid, IsEmail, IsReason, AllowedOperation, StrLess;
      if schemaVersion != EVIDENCE_SCHEMA || !IsRepository(repository) { return false; }
      if workflowId <= 0 || workflowRunId < 0 { return false; }
      if !IsSha(protectedMainSha) || !IsDigest(planDigest) { return false; }
      if conclusion != "success" || approval.decision != "approved" { return false; }
      if !IsUuid(approval.approvalId) || !AllowedOperation(approval.operation) || !IsEmail(approval.requestedBy) || !IsReason(approval.reason) {
        return false;
      }
      if !IsTime(env, approval.approvedAt) || !IsTime(env, observedAt) || !IsTime(env, expiresAt) { return false; }
      var approved, observed, expires := env.parseTime(approval.approvedAt).value, env.parseTime(observedAt).value, env.parseTime(expiresAt).value;
      if approved < observed - 24 * HOUR || approved > observed + 30 * SECOND { return false; }
      if expires <= observed || expires > observed + 24 * HOUR { return false; }
      if now.Some? && (observed > now.value + 30 * SECOND || expires <= now.value) { return false; }
      if |approval.approvers| == 0 || |approval.approvers| > 10 { return false; }
      if digest != "" && !IsDigest(digest) { return false; }
      ok := CheckApprovers(approval.approvers);
    }

    method VerifyDigest(env: Env, now: Option<int>) returns (ok: bool)
      ensures ok <==> EvidenceDigestOk(env, Value(), now)
    {
      hide ValidEvidence, EvidenceTree, Digest;
      ok := Validate(env, now);
      if !ok || digest == "" { return false; }
      var got := Digest(env, EvidenceTree(Value().(digest := "")));
      ok := got == Some(digest);
    }
  }

  /** The approver loop of `Validate`, with its `previous`. */
  method CheckApprovers(approvers: seq<string>) returns (ok: bool)
    ensures ok <==> SortedEmails(approvers)
  {
    hide IsEmail, StrLess;
    var previous := "";
    for i := 0 to |approvers|
      invariant previous == if i == 0 then "" else approvers[i - 1]
      invariant forall j :: 0 <= j < i ==> IsEmail(approvers[j])
      invariant forall j :: 1 <= j < i ==> StrLess(approvers[j - 1], approvers[j])
    {
      if !IsEmail(approvers[i]) { return false; }
      EmailAboveNothing(approvers[i]);
      if !StrLess(previous, approvers[i]) { return false; }
      previous := approvers[i];
    }
    ok := true;
  }

  lemma EmailAboveNothing(s: string)
    requires IsEmail(s)
    ensures StrLess("", s)
  {
    hide IsDomain;
    assert Codes("") == [] && |Codes(s)| == |s|;
  }

  /** `sort.Strings` on the approvers. */
  method SortApprovers(s: seq<string>) returns (sorted: seq<string>)
    ensures sorted == SortTexts(s)
  {
    hide InsertText;
    sorted := [];
    var i := |s|;
    while i > 0
      invariant 0 <= i <= |s|
      invariant sorted == SortTexts(s[i..])
    {
      i := i - 1;
      assert s[i..][0] == s[i] && s[i..][1..] == s[i + 1..];
      sorted := InsertText(s[i], sorted);
    }
    assert s[0..] == s;
  }

  lemma EvidenceDigests(env: Env, e: Evidence)
    ensures Digest(env, EvidenceTree(e)).Some?
  {
    EvidenceTreeInjective(e, e);
    hide Printable, EvidenceTree;
  }
}
