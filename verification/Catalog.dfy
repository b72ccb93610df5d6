/** The operation catalogue (internal/operations/catalog.go): which repository may run which
    operation through which workflow. */
module Catalog {
  import opened Prelude
  import opened Patterns
  import opened Contract

  datatype OperationTarget = OperationTarget(workflowId: Int64, enabled: bool)

  /** A declared or resolved repository; an absent Go map is `None`. */
  datatype RepositoryTarget = RepositoryTarget(
    repository: string, mainBranch: string,
    operations: Option<map<string, OperationTarget>>, workflowIds: Option<map<string, Int64>>)

  datatype Document = Document(schemaVersion: string, connected: bool, repositories: seq<RepositoryTarget>)

  datatype Catalog = Catalog(connected: bool, targets: map<string, RepositoryTarget>)

  const V1: string := "estate.operation-catalog/v1"
  const V2: string := "estate.operation-catalog/v2"

  const EXPECTED: seq<string> := [REFRESH, RERUN, CANCEL]

  /** A v1 declaration names a workflow for every operation and nothing else. */
  predicate ValidV1(document: Document, target: RepositoryTarget)
  {
    && target.operations.None? && target.workflowIds.Some? && |target.workflowIds.value| == |EXPECTED|
    && forall operation :: operation in EXPECTED ==>
         && operation in target.workflowIds.value
         && target.workflowIds.value[operation] >= (if document.connected then 1 else 0)
  }

  predicate ValidV2(document: Document, target: RepositoryTarget)
  {
    && target.workflowIds.None?
    && (target.operations.Some? ==>
         && |target.operations.value| <= 3
         && forall operation :: operation in target.operations.value ==>
              && AllowedOperation(operation) && target.operations.value[operation].workflowId > 0
              && (target.operations.value[operation].enabled ==> document.connected))
  }

  predicate ValidTarget(document: Document, target: RepositoryTarget)
  {
    && IsRepository(target.repository) && target.mainBranch == "main"
    && if document.schemaVersion == V1 then ValidV1(document, target) else ValidV2(document, target)
  }

  predicate ValidDocument(document: Document)
  {
    && (document.schemaVersion == V1 || document.schemaVersion == V2)
    && 1 <= |document.repositories| <= 100
    && (forall i :: 0 <= i < |document.repositories| ==> ValidTarget(document, document.repositories[i]))
    && (forall i, j :: 0 <= i < j < |document.repositories| ==>
          document.repositories[i].repository != document.repositories[j].repository)
  }

  /** A declaration as the catalogue stores it: always as capabilities. */
  function Resolve(document: Document, target: RepositoryTarget): RepositoryTarget
    requires ValidTarget(document, target)
  {
    if document.schemaVersion == V1 then
      target.(operations := Some(map operation | operation in EXPECTED ::
                                     OperationTarget(target.workflowIds.value[operation], document.connected)),
              workflowIds := None)
    else target
  }

  predicate WellFormedTarget(connected: bool, name: string, target: RepositoryTarget)
  {
    && target.repository == name && IsRepository(name) && target.mainBranch == "main" && target.workflowIds.None?
    && (target.operations.Some? ==>
         forall operation :: operation in target.operations.value && target.operations.value[operation].enabled ==>
           AllowedOperation(operation) && target.operations.value[operation].workflowId > 0 && connected)
  }

  /** The invariant that every catalogue keeps and that the broker's binding checks rely on. */
  predicate WellFormed(catalog: Catalog)
  {
    forall name :: name in catalog.targets ==> WellFormedTarget(catalog.connected, name, catalog.targets[name])
  }

  /** What a valid document is compiled to: its targets, resolved, by repository. */
  ghost predicate Compiles(document: Document, catalog: Catalog)
  {
    && ValidDocument(document)
    && catalog.connected == document.connected
    && (forall i :: 0 <= i < |document.repositories| ==>
          var target := document.repositories[i];
          target.repository in catalog.targets && catalog.targets[target.repository] == Resolve(document, target))
    && (forall name :: name in catalog.targets ==>
          exists i :: 0 <= i < |document.repositories| && document.repositories[i].repository == name)
  }

  method ResolveV1(document: Document, target: RepositoryTarget) returns (r: Option<RepositoryTarget>)
    requires document.schemaVersion == V1
    ensures r.Some? <==> ValidV1(document, target)
    ensures r.Some? && ValidTarget(document, target) ==> r.value == Resolve(document, target)
  {
    hide IsRepository;
    if target.workflowIds.None? || |target.workflowIds.value| != |EXPECTED| || target.operations.Some? {
      return None;
    }
    var ids := target.workflowIds.value;
    var operations: map<string, OperationTarget> := map[];
    for i := 0 to |EXPECTED|
      invariant forall j :: 0 <= j < i ==> EXPECTED[j] in ids && ids[EXPECTED[j]] >= (if document.connected then 1 else 0)
      invariant forall operation :: operation in operations <==> operation in EXPECTED[..i]
      invariant forall operation :: operation in operations ==>
                  operation in ids && operations[operation] == OperationTarget(ids[operation], document.connected)
    {
      var operation := EXPECTED[i];
      if operation !in ids || ids[operation] < 0 || (document.connected && ids[operation] == 0) {
        return None;
      }
      operations := operations[operation := OperationTarget(ids[operation], document.connected)];
    }
    assert EXPECTED[..|EXPECTED|] == EXPECTED;
    assert operations == map operation | operation in EXPECTED :: OperationTarget(ids[operation], document.connected);
    r := Some(target.(operations := Some(operations), workflowIds := None));
  }

  method CheckV2(document: Document, target: RepositoryTarget) returns (ok: bool)
    ensures ok <==> ValidV2(document, target)
  {
    if target.workflowIds.Some? { return false; }
    if target.operations.None? { return true; }
    var operations := target.operations.value;
    if |operations| > 3 { return false; }
    var remaining := operations.Keys;
    while remaining != {}
      invariant remaining <= operations.Keys
      invariant forall operation :: operation in operations.Keys - remaining ==>
                  && AllowedOperation(operation) && operations[operation].workflowId > 0
                  && (operations[operation].enabled ==> document.connected)
      decreases |remaining|
    {
      var operation :| operation in remaining;
      var capability := operations[operation];
      if !AllowedOperation(operation) || capability.workflowId <= 0 || (capability.enabled && !document.connected) {
        return false;
      }
      remaining := remaining - {operation};
    }
    ok := true;
  }

  method ResolveTarget(document: Document, target: RepositoryTarget) returns (r: Option<RepositoryTarget>)
    requires IsRepository(target.repository) && target.mainBranch == "main"
    ensures r.Some? <==> ValidTarget(document, target)
    ensures r.Some? ==> r.value == Resolve(document, target)
  {
    hide IsRepository, ValidV1, ValidV2;
    if document.schemaVersion == V1 {
      r := ResolveV1(document, target);
    } else {
      var ok := CheckV2(document, target);
      r := if ok then Some(target) else None;
    }
  }

  /** The first `n` repositories are valid, distinct and compiled. */
  ghost predicate CompilesFirst(repositories: seq<RepositoryTarget>, document: Document, n: nat, targets: map<string, RepositoryTarget>)
    requires n <= |repositories|
  {
    && (forall i :: 0 <= i < n ==> ValidTarget(document, repositories[i]))
    && (forall i, j :: 0 <= i < j < n ==> repositories[i].repository != repositories[j].repository)
    && (forall i :: 0 <= i < n ==>
          repositories[i].repository in targets && targets[repositories[i].repository] == Resolve(document, repositories[i]))
    && (forall name :: name in targets ==> exists i :: 0 <= i < n && repositories[i].repository == name)
  }

  lemma CompilesNext(repositories: seq<RepositoryTarget>, document: Document, n: nat, targets: map<string, RepositoryTarget>)
    requires n < |repositories| && CompilesFirst(repositories, document, n, targets)
    requires ValidTarget(document, repositories[n]) && repositories[n].repository !in targets
    ensures CompilesFirst(repositories, document, n + 1, targets[repositories[n].repository := Resolve(document, repositories[n])])
  {
    hide ValidTarget, Resolve;
  }

  /** `NewCatalog`: succeeds exactly on valid documents, and compiles them. */
  method NewCatalog(document: Document) returns (r: Option<Catalog>)
    ensures r.Some? <==> ValidDocument(document)
    ensures r.Some? ==> Compiles(document, r.value) && WellFormed(r.value)
  {
    hide IsRepository, ValidV1, ValidV2, Resolve;
    if (document.schemaVersion != V1 && document.schemaVersion != V2) || |document.repositories| == 0 || |document.repositories| > 100 {
      return None;
    }
    var targets: map<string, RepositoryTarget> := map[];
    for n := 0 to |document.repositories|
      invariant CompilesFirst(document.repositories, document, n, targets)
    {
      var target := document.repositories[n];
      if !IsRepository(target.repository) || target.mainBranch != "main" || target.repository in targets {
        return None;
      }
      var resolved := ResolveTarget(document, target);
      if resolved.None? { return None; }
      CompilesNext(document.repositories, document, n, targets);
      targets := targets[target.repository := resolved.value];
    }
    r := Some(Catalog(document.connected, targets));
    CompiledIsWellFormed(document, r.value);
  }

  lemma CompiledIsWellFormed(document: Document, catalog: Catalog)
    requires Compiles(document, catalog)
    ensures WellFormed(catalog)
  {
    hide IsRepository, Resolve, ValidTarget;
    forall name | name in catalog.targets
      ensures WellFormedTarget(catalog.connected, name, catalog.targets[name])
    {
      var i :| 0 <= i < |document.repositories| && document.repositories[i].repository == name;
      ResolvedIsWellFormed(document, document.repositories[i]);
    }
  }

  lemma ResolvedIsWellFormed(document: Document, target: RepositoryTarget)
    requires ValidTarget(document, target)
    ensures WellFormedTarget(document.connected, target.repository, Resolve(document, target))
  {
    hide IsRepository;
  }

  datatype Authorization = Granted(target: RepositoryTarget) | NotCatalogued | Disabled | Unready

  function Authorize(catalog: Catalog, intent: Intent): Authorization
  {
    if intent.repository !in catalog.targets || !catalog.connected then Unready
    else
      var target := catalog.targets[intent.repository];
      if target.operations.None? || intent.operation !in target.operations.value then NotCatalogued
      else if !target.operations.value[intent.operation].enabled then Disabled
      else if intent.workflowId != target.operations.value[intent.operation].workflowId then Unready
      else Granted(target)
  }

  function TargetWorkflowId(target: RepositoryTarget, operation: string): Int64
  {
    if target.operations.Some? && operation in target.operations.value then target.operations.value[operation].workflowId
    else if target.workflowIds.Some? && operation in target.workflowIds.value then target.workflowIds.value[operation]
    else 0
  }

  /** An enabled entry for exactly this repository, operation and workflow. */
  predicate Enabled(target: RepositoryTarget, repository: string, operation: string, workflowId: Int64)
  {
    && target.repository == repository && target.mainBranch == "main"
    && target.operations.Some? && operation in target.operations.value
    && target.operations.value[operation].enabled
    && target.operations.value[operation].workflowId == workflowId
    && TargetWorkflowId(target, operation) == workflowId
  }

  /** An authorization is granted exactly when a connected catalogue has an enabled entry that
      names the intent's workflow, and then the operation is one of the three allowed ones. */
  lemma GrantedExactly(catalog: Catalog, intent: Intent)
    requires WellFormed(catalog)
    ensures Authorize(catalog, intent).Granted? <==>
            && catalog.connected && intent.repository in catalog.targets
            && Enabled(catalog.targets[intent.repository], intent.repository, intent.operation, intent.workflowId)
    ensures Authorize(catalog, intent).Granted? ==>
            && Authorize(catalog, intent).target == catalog.targets[intent.repository]
            && AllowedOperation(intent.operation) && intent.workflowId > 0
  {}

  // ---------------------------------------------------------------- what a document authorises

  /** The document declares this repository's operation with this workflow, enabled or not. A v1 declaration
      is enabled exactly when the document is connected. */
  ghost predicate DeclaresAs(document: Document, repository: string, operation: string, workflowId: Int64, enabled: bool)
  {
    exists i :: 0 <= i < |document.repositories| && DeclaredBy(document, document.repositories[i], repository, operation, workflowId, enabled)
  }

  predicate DeclaredBy(document: Document, target: RepositoryTarget, repository: string, operation: string, workflowId: Int64, enabled: bool)
  {
    && target.repository == repository
    && if document.schemaVersion == "estate.operation-catalog/v1" then
         && operation in {"refresh_estate_health", "rerun_failed_required_workflow", "cancel_superseded_workflow_run"}
         && target.workflowIds.Some? && operation in target.workflowIds.value && target.workflowIds.value[operation] == workflowId
         && enabled == document.connected
       else
         && target.operations.Some? && operation in target.operations.value
         && target.operations.value[operation] == OperationTarget(workflowId, enabled)
  }

  ghost predicate DeclaresRepository(document: Document, repository: string)
  {
    exists i :: 0 <= i < |document.repositories| && document.repositories[i].repository == repository
  }

  /** One declaration resolves to what it declares. */
  lemma ResolveDeclares(document: Document, target: RepositoryTarget, operation: string, workflowId: Int64, enabled: bool)
    requires ValidTarget(document, target)
    ensures DeclaredBy(document, target, target.repository, operation, workflowId, enabled) <==>
              && Resolve(document, target).operations.Some? && operation in Resolve(document, target).operations.value
              && Resolve(document, target).operations.value[operation] == OperationTarget(workflowId, enabled)
  {
    hide IsRepository;
  }

  /** A compiled catalogue holds for a repository what the document declares for it. */
  lemma CompiledDeclares(document: Document, catalog: Catalog, repository: string, operation: string, workflowId: Int64, enabled: bool)
    requires Compiles(document, catalog)
    ensures repository in catalog.targets <==> DeclaresRepository(document, repository)
    ensures DeclaresAs(document, repository, operation, workflowId, enabled) <==>
              && repository in catalog.targets && catalog.targets[repository].operations.Some?
              && operation in catalog.targets[repository].operations.value
              && catalog.targets[repository].operations.value[operation] == OperationTarget(workflowId, enabled)
  {
    hide ValidTarget, Resolve, DeclaredBy;
    forall i | 0 <= i < |document.repositories|
      ensures DeclaredBy(document, document.repositories[i], document.repositories[i].repository, operation, workflowId, enabled) <==>
                && Resolve(document, document.repositories[i]).operations.Some?
                && operation in Resolve(document, document.repositories[i]).operations.value
                && Resolve(document, document.repositories[i]).operations.value[operation] == OperationTarget(workflowId, enabled)
    {
      ResolveDeclares(document, document.repositories[i], operation, workflowId, enabled);
    }
    OnlyOwnName(document, repository, operation, workflowId, enabled);
  }

  lemma OnlyOwnName(document: Document, repository: string, operation: string, workflowId: Int64, enabled: bool)
    ensures forall i :: 0 <= i < |document.repositories| && DeclaredBy(document, document.repositories[i], repository, operation, workflowId, enabled)
              ==> document.repositories[i].repository == repository
  {}

  /** What a compiled document authorises, and why it refuses: an intent is granted exactly when the document is
      connected and declares its operation, enabled and with its workflow; it is "not catalogued" when the
      repository is declared without the operation, "disabled" when the declaration is disabled, and otherwise
      not ready. */
  lemma AuthorizedByDocument(document: Document, catalog: Catalog, intent: Intent)
    requires Compiles(document, catalog)
    ensures var verdict := Authorize(catalog, intent); var repository, operation := intent.repository, intent.operation;
            && (verdict.Granted? <==> document.connected && DeclaresAs(document, repository, operation, intent.workflowId, true))
            && (verdict.Granted? ==> repository in catalog.targets && verdict.target == catalog.targets[repository])
            && (verdict.NotCatalogued? <==>
                  && document.connected && DeclaresRepository(document, repository)
                  && !exists workflowId, enabled :: DeclaresAs(document, repository, operation, workflowId, enabled))
            && (verdict.Disabled? <==> document.connected && exists workflowId :: DeclaresAs(document, repository, operation, workflowId, false))
            && (verdict.Unready? <==>
                  || !document.connected || !DeclaresRepository(document, repository)
                  || exists workflowId :: workflowId != intent.workflowId && DeclaresAs(document, repository, operation, workflowId, true))
  {
    hide DeclaresAs, DeclaresRepository;
    forall workflowId, enabled
      ensures DeclaresAs(document, intent.repository, intent.operation, workflowId, enabled) <==>
                && intent.repository in catalog.targets && catalog.targets[intent.repository].operations.Some?
                && intent.operation in catalog.targets[intent.repository].operations.value
                && catalog.targets[intent.repository].operations.value[intent.operation] == OperationTarget(workflowId, enabled)
    {
      CompiledDeclares(document, catalog, intent.repository, intent.operation, workflowId, enabled);
    }
    CompiledDeclares(document, catalog, intent.repository, intent.operation, 0, true);
    if intent.repository in catalog.targets && catalog.targets[intent.repository].operations.Some?
       && intent.operation in catalog.targets[intent.repository].operations.value {
      var declared := catalog.targets[intent.repository].operations.value[intent.operation];
      assert DeclaresAs(document, intent.repository, intent.operation, declared.workflowId, declared.enabled);
    }
  }
}
