/** The JSON of each record (internal/contract/models.go:51-418): under which name each field is found, in
    the bytes that are hashed, signed and stored. */
module RecordJson {
  import opened Prelude
  import opened CanonicalJson
  import opened Contract
  import opened Health
  import opened Broker
  import opened Protocol
  import opened TokenSize

  /** The object has this value under this name. */
  predicate Has(t: Json, name: string, value: Json) { t.Obj? && name in t.fields && t.fields[name] == value }

  lemma FieldAt(keys: seq<string>, values: seq<Json>, i: nat)
    requires |keys| == |values| && DistinctKeys(keys) && i < |keys|
    ensures Has(Struct(keys, values), keys[i], values[i])
  {
    StructField(keys, values, i);
    hide Struct, DistinctKeys;
  }

  lemma NoOther(keys: seq<string>, values: seq<Json>, name: string)
    requires |keys| == |values| && name !in keys
    ensures Struct(keys, values).Obj? && name !in Struct(keys, values).fields
  {}

  lemma SignatureKeys()
    ensures DistinctKeys(SIGNATURE_KEYS)
  {}

  /** A signature in JSON: exactly these names, with these values. */
  lemma SignatureJson(s: Signature)
    ensures var t := SignatureTree(s);
            && Has(t, "algorithm", Str(s.algorithm)) && Has(t, "key_id", Str(s.keyId))
            && Has(t, "value", Str(s.value))
            && forall name :: name in t.fields ==> name in {"algorithm", "key_id", "value"}
  {
    SignatureKeys();
    var keys, values := SIGNATURE_KEYS, [Str(s.algorithm), Str(s.keyId), Str(s.value)];
    hide Struct, Has, Integer, ApprovalTree, DistinctKeys, Texts;
    FieldAt(keys, values, 0); FieldAt(keys, values, 1); FieldAt(keys, values, 2);
    forall name | name !in keys ensures Struct(keys, values).Obj? && name !in Struct(keys, values).fields { NoOther(keys, values, name); }
  }

  lemma RequestKeys()
    ensures DistinctKeys(REQUEST_KEYS)
  {}

  /** A request in JSON: exactly these names, with these values. */
  lemma RequestJson(r: Request)
    ensures var t := RequestTree(r);
            && Has(t, "schema_version", Str(r.schemaVersion)) && Has(t, "request_id", Str(r.requestId))
            && Has(t, "operation", Str(r.operation)) && Has(t, "repository", Str(r.repository))
            && Has(t, "workflow_id", Integer(r.workflowId)) && Has(t, "workflow_run_id", Integer(r.workflowRunId))
            && Has(t, "protected_main_sha", Str(r.protectedMainSha)) && Has(t, "plan_digest", Str(r.planDigest))
            && Has(t, "evidence_digest", Str(r.evidenceDigest)) && Has(t, "reason", Str(r.reason))
            && Has(t, "requested_by", Str(r.requestedBy)) && Has(t, "issued_at", Str(r.issuedAt))
            && Has(t, "expires_at", Str(r.expiresAt)) && Has(t, "nonce", Str(r.nonce))
            && Has(t, "digest", Str(r.digest)) && Has(t, "signature", SignatureTree(r.signature))
            && forall name :: name in t.fields ==> name in {"schema_version", "request_id", "operation",
                "repository", "workflow_id", "workflow_run_id", "protected_main_sha", "plan_digest",
                "evidence_digest", "reason", "requested_by", "issued_at", "expires_at", "nonce", "digest",
                "signature"}
  {
    RequestKeys();
    var keys, values := REQUEST_KEYS, RequestValues(r);
    hide Struct, Has, Integer, SignatureTree, ApprovalTree, DistinctKeys, Texts;
    FieldAt(keys, values, 0); FieldAt(keys, values, 1); FieldAt(keys, values, 2); FieldAt(keys, values, 3);
    FieldAt(keys, values, 4); FieldAt(keys, values, 5); FieldAt(keys, values, 6); FieldAt(keys, values, 7);
    FieldAt(keys, values, 8); FieldAt(keys, values, 9); FieldAt(keys, values, 10); FieldAt(keys, values, 11);
    FieldAt(keys, values, 12); FieldAt(keys, values, 13); FieldAt(keys, values, 14); FieldAt(keys, values, 15);
    forall name | name !in keys ensures Struct(keys, values).Obj? && name !in Struct(keys, values).fields { NoOther(keys, values, name); }
  }

  lemma DispatchKeys()
    ensures DistinctKeys(DISPATCH_KEYS)
  {}

  /** A dispatch record in JSON: exactly these names, with these values. */
  lemma DispatchJson(d: Dispatch)
    ensures var t := DispatchTree(d);
            && Has(t, "schema_version", Str(d.schemaVersion)) && Has(t, "request_id", Str(d.requestId))
            && Has(t, "request_digest", Str(d.requestDigest)) && Has(t, "receipt_id", Str(d.receiptId))
            && Has(t, "recovery_token", Str(d.recoveryToken)) && Has(t, "prepared_at", Str(d.preparedAt))
            && Has(t, "digest", Str(d.digest)) && Has(t, "signature", SignatureTree(d.signature))
            && forall name :: name in t.fields ==> name in {"schema_version", "request_id", "request_digest",
                "receipt_id", "recovery_token", "prepared_at", "digest", "signature"}
  {
    DispatchKeys();
    var keys, values := DISPATCH_KEYS, DispatchValues(d);
    hide Struct, Has, Integer, SignatureTree, ApprovalTree, DistinctKeys, Texts;
    FieldAt(keys, values, 0); FieldAt(keys, values, 1); FieldAt(keys, values, 2); FieldAt(keys, values, 3);
    FieldAt(keys, values, 4); FieldAt(keys, values, 5); FieldAt(keys, values, 6); FieldAt(keys, values, 7);
    forall name | name !in keys ensures Struct(keys, values).Obj? && name !in Struct(keys, values).fields { NoOther(keys, values, name); }
  }

  lemma ResultKeys()
    ensures DistinctKeys(RESULT_KEYS)
  {}

  /** A dispatch result in JSON: exactly these names, with these values. */
  lemma ResultJson(r: Result)
    ensures var t := ResultTree(r);
            && Has(t, "schema_version", Str(r.schemaVersion)) && Has(t, "request_id", Str(r.requestId))
            && Has(t, "request_digest", Str(r.requestDigest)) && Has(t, "receipt_id", Str(r.receiptId))
            && Has(t, "status", Str(r.status)) && Has(t, "reason_code", Str(r.reasonCode))
            && Has(t, "provider_reference", Str(r.providerReference)) && Has(t, "recorded_at", Str(r.recordedAt))
            && Has(t, "digest", Str(r.digest)) && Has(t, "signature", SignatureTree(r.signature))
            && forall name :: name in t.fields ==> name in {"schema_version", "request_id", "request_digest",
                "receipt_id", "status", "reason_code", "provider_reference", "recorded_at", "digest", "signature"}
  {
    ResultKeys();
    var keys, values := RESULT_KEYS, ResultValues(r);
    hide Struct, Has, Integer, SignatureTree, ApprovalTree, DistinctKeys, Texts;
    FieldAt(keys, values, 0); FieldAt(keys, values, 1); FieldAt(keys, values, 2); FieldAt(keys, values, 3);
    FieldAt(keys, values, 4); FieldAt(keys, values, 5); FieldAt(keys, values, 6); FieldAt(keys, values, 7);
    FieldAt(keys, values, 8); FieldAt(keys, values, 9);
    forall name | name !in keys ensures Struct(keys, values).Obj? && name !in Struct(keys, values).fields { NoOther(keys, values, name); }
  }

  lemma ReceiptKeys()
    ensures DistinctKeys(RECEIPT_KEYS)
  {}

  /** A receipt in JSON: exactly these names, with these values. */
  lemma ReceiptJson(r: Receipt)
    ensures var t := ReceiptTree(r);
            && Has(t, "schema_version", Str(r.schemaVersion)) && Has(t, "receipt_id", Str(r.receiptId))
            && Has(t, "request_id", Str(r.requestId)) && Has(t, "request_digest", Str(r.requestDigest))
            && Has(t, "operation", Str(r.operation)) && Has(t, "repository", Str(r.repository))
            && Has(t, "status", Str(r.status)) && Has(t, "reason_code", Str(r.reasonCode))
            && Has(t, "provider_reference", Str(r.providerReference)) && Has(t, "recorded_at", Str(r.recordedAt))
            && Has(t, "audit_object", Str(r.auditObject)) && Has(t, "digest", Str(r.digest))
            && Has(t, "signature", SignatureTree(r.signature))
            && forall name :: name in t.fields ==> name in {"schema_version", "receipt_id", "request_id",
                "request_digest", "operation", "repository", "status", "reason_code", "provider_reference",
                "recorded_at", "audit_object", "digest", "signature"}
  {
    ReceiptKeys();
    var keys, values := RECEIPT_KEYS, ReceiptValues(r);
    hide Struct, Has, Integer, SignatureTree, ApprovalTree, DistinctKeys, Texts;
    FieldAt(keys, values, 0); FieldAt(keys, values, 1); FieldAt(keys, values, 2); FieldAt(keys, values, 3);
    FieldAt(keys, values, 4); FieldAt(keys, values, 5); FieldAt(keys, values, 6); FieldAt(keys, values, 7);
    FieldAt(keys, values, 8); FieldAt(keys, values, 9); FieldAt(keys, values, 10); FieldAt(keys, values, 11);
    FieldAt(keys, values, 12);
    forall name | name !in keys ensures Struct(keys, values).Obj? && name !in Struct(keys, values).fields { NoOther(keys, values, name); }
  }

  lemma ApprovalKeys()
    ensures DistinctKeys(APPROVAL_KEYS)
  {}

  /** An approval in JSON: exactly these names, with these values. */
  lemma ApprovalJson(a: Approval)
    ensures var t := ApprovalTree(a);
            && Has(t, "approval_id", Str(a.approvalId)) && Has(t, "operation", Str(a.operation))
            && Has(t, "requested_by", Str(a.requestedBy)) && Has(t, "reason", Str(a.reason))
            && Has(t, "approvers", Arr(Texts(a.approvers))) && Has(t, "approved_at", Str(a.approvedAt))
            && Has(t, "decision", Str(a.decision))
            && forall name :: name in t.fields ==> name in {"approval_id", "operation", "requested_by", "reason",
                "approvers", "approved_at", "decision"}
  {
    ApprovalKeys();
    var keys, values := APPROVAL_KEYS, ApprovalValues(a);
    hide Struct, Has, Integer, SignatureTree, DistinctKeys, Texts;
    FieldAt(keys, values, 0); FieldAt(keys, values, 1); FieldAt(keys, values, 2); FieldAt(keys, values, 3);
    FieldAt(keys, values, 4); FieldAt(keys, values, 5); FieldAt(keys, values, 6);
    forall name | name !in keys ensures Struct(keys, values).Obj? && name !in Struct(keys, values).fields { NoOther(keys, values, name); }
  }

  lemma EvidenceKeys()
    ensures DistinctKeys(EVIDENCE_KEYS)
  {}

  /** Evidence in JSON: exactly these names, with these values. */
  lemma EvidenceJson(e: Evidence)
    ensures var t := EvidenceTree(e);
            && Has(t, "schema_version", Str(e.schemaVersion)) && Has(t, "repository", Str(e.repository))
            && Has(t, "workflow_id", Integer(e.workflowId)) && Has(t, "workflow_run_id", Integer(e.workflowRunId))
            && Has(t, "protected_main_sha", Str(e.protectedMainSha)) && Has(t, "plan_digest", Str(e.planDigest))
            && Has(t, "conclusion", Str(e.conclusion)) && Has(t, "superseded", Json.Bool(e.superseded))
            && Has(t, "approval", ApprovalTree(e.approval)) && Has(t, "observed_at", Str(e.observedAt))
            && Has(t, "expires_at", Str(e.expiresAt)) && Has(t, "digest", Str(e.digest))
            && forall name :: name in t.fields ==> name in {"schema_version", "repository", "workflow_id",
                "workflow_run_id", "protected_main_sha", "plan_digest", "conclusion", "superseded", "approval",
                "observed_at", "expires_at", "digest"}
  {
    EvidenceKeys();
    var keys, values := EVIDENCE_KEYS, EvidenceValues(e);
    hide Struct, Has, Integer, SignatureTree, ApprovalTree, DistinctKeys, Texts;
    FieldAt(keys, values, 0); FieldAt(keys, values, 1); FieldAt(keys, values, 2); FieldAt(keys, values, 3);
    FieldAt(keys, values, 4); FieldAt(keys, values, 5); FieldAt(keys, values, 6); FieldAt(keys, values, 7);
    FieldAt(keys, values, 8); FieldAt(keys, values, 9); FieldAt(keys, values, 10); FieldAt(keys, values, 11);
    forall name | name !in keys ensures Struct(keys, values).Obj? && name !in Struct(keys, values).fields { NoOther(keys, values, name); }
  }

  lemma SummaryKeys()
    ensures DistinctKeys(SUMMARY_KEYS)
  {}

  /** A health summary in JSON: exactly these names, with these values. */
  lemma SummaryJson(s: Summary)
    ensures var t := SummaryTree(s);
            && Has(t, "healthy", Integer(s.healthy)) && Has(t, "degraded", Integer(s.degraded))
            && Has(t, "blocked", Integer(s.blocked)) && Has(t, "unknown", Integer(s.unknown))
            && forall name :: name in t.fields ==> name in {"healthy", "degraded", "blocked", "unknown"}
  {
    SummaryKeys();
    var keys, values := SUMMARY_KEYS, SummaryValues(s);
    hide Struct, Has, Integer, DistinctKeys, HealthTrees;
    FieldAt(keys, values, 0); FieldAt(keys, values, 1); FieldAt(keys, values, 2); FieldAt(keys, values, 3);
    forall name | name !in keys ensures Struct(keys, values).Obj? && name !in Struct(keys, values).fields { NoOther(keys, values, name); }
  }

  lemma HealthKeys()
    ensures DistinctKeys(HEALTH_KEYS)
  {}

  /** The health of a repository in JSON: exactly these names, with these values. */
  lemma HealthJson(h: RepositoryHealth)
    ensures var t := HealthTree(h);
            && Has(t, "repository", Str(h.repository)) && Has(t, "profile", Str(h.profile))
            && Has(t, "head_sha", Str(h.headSha)) && Has(t, "last_green_sha", Str(h.lastGreenSha))
            && Has(t, "required_check_status", Str(h.requiredCheckStatus)) && Has(t, "queue_seconds", Integer(h.queueSeconds))
            && Has(t, "execution_seconds", Integer(h.executionSeconds)) && Has(t, "failure_class", Str(h.failureClass))
            && Has(t, "cache_hit_basis_points", Integer(h.cacheHitBasisPoints)) && Has(t, "evidence_digest", Str(h.evidenceDigest))
            && Has(t, "observed_at", Str(h.observedAt))
            && forall name :: name in t.fields ==> name in {"repository", "profile", "head_sha", "last_green_sha",
                "required_check_status", "queue_seconds", "execution_seconds", "failure_class",
                "cache_hit_basis_points", "evidence_digest", "observed_at"}
  {
    HealthKeys();
    var keys, values := HEALTH_KEYS, HealthValues(h);
    hide Struct, Has, Integer, DistinctKeys, HealthTrees;
    FieldAt(keys, values, 0); FieldAt(keys, values, 1); FieldAt(keys, values, 2); FieldAt(keys, values, 3);
    FieldAt(keys, values, 4); FieldAt(keys, values, 5); FieldAt(keys, values, 6); FieldAt(keys, values, 7);
    FieldAt(keys, values, 8); FieldAt(keys, values, 9); FieldAt(keys, values, 10);
    forall name | name !in keys ensures Struct(keys, values).Obj? && name !in Struct(keys, values).fields { NoOther(keys, values, name); }
  }

  lemma SnapshotKeys()
    ensures DistinctKeys(SNAPSHOT_KEYS)
  {}

  /** A health snapshot in JSON: exactly these names, with these values. */
  lemma SnapshotJson(s: Snapshot)
    ensures var t := SnapshotTree(s);
            && Has(t, "schema_version", Str(s.schemaVersion)) && Has(t, "snapshot_id", Str(s.snapshotId))
            && Has(t, "observed_at", Str(s.observedAt)) && Has(t, "protected_main_sha", Str(s.protectedMainSha))
            && Has(t, "summary", SummaryTree(s.summary)) && Has(t, "repositories", Arr(HealthTrees(s.repositories)))
            && Has(t, "digest", Str(s.digest))
            && forall name :: name in t.fields ==> name in {"schema_version", "snapshot_id", "observed_at",
                "protected_main_sha", "summary", "repositories", "digest"}
  {
    SnapshotKeys();
    var keys, values := SNAPSHOT_KEYS, SnapshotValues(s);
    hide Struct, Has, Integer, DistinctKeys, HealthTrees, SummaryTree;
    FieldAt(keys, values, 0); FieldAt(keys, values, 1); FieldAt(keys, values, 2); FieldAt(keys, values, 3);
    FieldAt(keys, values, 4); FieldAt(keys, values, 5); FieldAt(keys, values, 6);
    forall name | name !in keys ensures Struct(keys, values).Obj? && name !in Struct(keys, values).fields { NoOther(keys, values, name); }
  }

  lemma StateKeys()
    ensures DistinctKeys(STATE_KEYS)
  {}

  /** The recovery state in a token: exactly these names, with these values. */
  lemma StateJson(s: RecoveryState)
    ensures var t := StateTree(s);
            && Has(t, "operation", Str(s.operation)) && Has(t, "repository", Str(s.repository))
            && Has(t, "workflow_id", Integer(s.workflowId)) && Has(t, "workflow_run_id", Integer(s.workflowRunId))
            && Has(t, "protected_main_sha", Str(s.protectedMainSha)) && Has(t, "baseline_run_id", Integer(s.baselineRunId))
            && Has(t, "baseline_run_attempt", Integer(s.baselineRunAttempt)) && Has(t, "provider_reference", Str(s.providerReference))
            && forall name :: name in t.fields ==> name in {"operation", "repository", "workflow_id", "workflow_run_id",
                "protected_main_sha", "baseline_run_id", "baseline_run_attempt", "provider_reference"}
  {
    StateKeys();
    var keys, values := STATE_KEYS, StateValues(s);
    hide Struct, Has, Integer, DistinctKeys;
    FieldAt(keys, values, 0); FieldAt(keys, values, 1); FieldAt(keys, values, 2); FieldAt(keys, values, 3);
    FieldAt(keys, values, 4); FieldAt(keys, values, 5); FieldAt(keys, values, 6); FieldAt(keys, values, 7);
    forall name | name !in keys ensures Struct(keys, values).Obj? && name !in Struct(keys, values).fields { NoOther(keys, values, name); }
  }

  lemma BindingKeys()
    ensures DistinctKeys(BINDING_KEYS)
  {}

  /** What a reservation hashes to bind an operation: exactly these names, with these values. */
  lemma BindingJson(r: Request)
    ensures var t := BindingTree(r);
            && Has(t, "operation", Str(r.operation)) && Has(t, "repository", Str(r.repository))
            && Has(t, "workflow_id", Integer(r.workflowId)) && Has(t, "workflow_run_id", Integer(r.workflowRunId))
            && Has(t, "protected_main_sha", Str(r.protectedMainSha)) && Has(t, "plan_digest", Str(r.planDigest))
            && Has(t, "evidence_digest", Str(r.evidenceDigest)) && Has(t, "requested_by", Str(r.requestedBy))
            && Has(t, "reason", Str(r.reason))
            && forall name :: name in t.fields ==> name in {"operation", "repository", "workflow_id", "workflow_run_id",
                "protected_main_sha", "plan_digest", "evidence_digest", "requested_by", "reason"}
  {
    BindingKeys();
    var keys := BINDING_KEYS;
    var values := [Str(r.operation), Str(r.repository), Integer(r.workflowId), Integer(r.workflowRunId),
                   Str(r.protectedMainSha), Str(r.planDigest), Str(r.evidenceDigest), Str(r.requestedBy), Str(r.reason)];
    hide Struct, Has, Integer, DistinctKeys;
    FieldAt(keys, values, 0); FieldAt(keys, values, 1); FieldAt(keys, values, 2); FieldAt(keys, values, 3);
    FieldAt(keys, values, 4); FieldAt(keys, values, 5); FieldAt(keys, values, 6); FieldAt(keys, values, 7); FieldAt(keys, values, 8);
    forall name | name !in keys ensures Struct(keys, values).Obj? && name !in Struct(keys, values).fields { NoOther(keys, values, name); }
  }
}
