/** The GitHub broker (internal/githubapp/client.go:292-459): what it observes before a mutation,
    how the answer of a mutation is classified, and how a lost answer is recovered from a token. */
module Broker {
  import opened Prelude
  import opened Patterns
  import opened CanonicalJson
  import opened Contract
  import opened Catalog
  import Utf8
  import Base64Url

  datatype Outcome = Outcome(final: bool, accepted: bool, reasonCode: string, providerReference: string)

  const PROCEED: Outcome := Outcome(false, false, "", "")

  function Rejected(reason: string): Outcome { Outcome(true, false, reason, "") }

  const PENDING: Outcome := Outcome(false, false, "GITHUB_DISPATCH_OUTCOME_PENDING", "")

  datatype WorkflowRun = WorkflowRun(
    id: Int64, workflowId: Int64, headSha: string, headBranch: string,
    status: string, conclusion: string, htmlUrl: string, runAttempt: Int64)

  /** What the observing client reports; `None` stands for any transport, status or decoding error. */
  datatype MainBranch = MainBranch(sha: string, isProtected: bool)

  datatype Observation = Observation(main: Option<MainBranch>, listed: Option<seq<WorkflowRun>>, run: Option<WorkflowRun>)

  /** `ObserveWorkflowRuns` refuses a page of more than 100 runs. */
  function Listing(observed: Observation): Option<seq<WorkflowRun>>
  {
    if observed.listed.Some? && |observed.listed.value| > 100 then None else observed.listed
  }

  /** The answer of `mutate`: an HTTP status, or no answer at all. */
  datatype Reply = NoReply | Status(code: int)

  // ---------------------------------------------------------------- the recovery token

  datatype RecoveryState = RecoveryState(
    operation: string, repository: string, workflowId: Int64, workflowRunId: Int64,
    protectedMainSha: string, baselineRunId: Int64, baselineRunAttempt: Int64, providerReference: string)

  const STATE_KEYS: seq<string> := [
    "operation", "repository", "workflow_id", "workflow_run_id", "protected_main_sha",
    "baseline_run_id", "baseline_run_attempt", "provider_reference"]

  function StateValues(s: RecoveryState): seq<Json>
  {
    [Str(s.operation), Str(s.repository), Integer(s.workflowId), Integer(s.workflowRunId),
     Str(s.protectedMainSha), Integer(s.baselineRunId), Integer(s.baselineRunAttempt), Str(s.providerReference)]
  }

  function StateTree(s: RecoveryState): Json { Struct(STATE_KEYS, StateValues(s)) }

  function ReadState(t: Json): Option<RecoveryState>
  {
    match Unstruct(STATE_KEYS, t)
    case None => None
    case Some(v) =>
      if v[0].Str? && v[1].Str? && ReadInteger(v[2]).Some? && ReadInteger(v[3]).Some? && v[4].Str?
         && ReadInteger(v[5]).Some? && ReadInteger(v[6]).Some? && v[7].Str?
      then Some(RecoveryState(v[0].text, v[1].text, ReadInteger(v[2]).value, ReadInteger(v[3]).value, v[4].text,
                              ReadInteger(v[5]).value, ReadInteger(v[6]).value, v[7].text))
      else None
  }

  lemma StateRoundTrip(s: RecoveryState)
    ensures Printable(StateTree(s)) && ReadState(StateTree(s)) == Some(s)
  {
    hide Integer, ReadInteger, Struct, Unstruct;
    IntegerRoundTrip(s.workflowId);
    IntegerRoundTrip(s.workflowRunId);
    IntegerRoundTrip(s.baselineRunId);
    IntegerRoundTrip(s.baselineRunAttempt);
    StructRoundTrip(STATE_KEYS, StateValues(s));
    StructPrintable(STATE_KEYS, StateValues(s));
  }

  function EncodeState(s: RecoveryState): Option<string>
  {
    match CanonicalBytes(StateTree(s))
    case Some(raw) => Some(Base64Url.Encode(raw))
    case None => None
  }

  /** The raw token as a state, before it is compared with the request. */
  function ReadToken(token: string): Option<RecoveryState>
  {
    match Base64Url.Decode(token)
    case None => None
    case Some(raw) =>
      if |raw| > 3072 then None
      else
        match ParseBytes(raw)
        case None => None
        case Some(tree) => ReadState(tree)
  }

  predicate Binds(s: RecoveryState, target: RepositoryTarget, request: Request)
  {
    && s.operation == request.operation && s.repository == request.repository && s.workflowId == request.workflowId
    && s.workflowRunId == request.workflowRunId && s.protectedMainSha == request.protectedMainSha
    && target.repository == request.repository && TargetWorkflowId(target, request.operation) == request.workflowId
  }

  function DecodeState(token: string, target: RepositoryTarget, request: Request): Option<RecoveryState>
  {
    match ReadToken(token)
    case None => None
    case Some(s) => if Binds(s, target, request) then Some(s) else None
  }

  /** Every state encodes. A token within the record limit reads back as the state it was made
      from; a longer one is refused, and the two limits are one. */
  lemma TokenRoundTrip(s: RecoveryState)
    ensures EncodeState(s).Some?
    ensures ReadToken(EncodeState(s).value) == if |EncodeState(s).value| <= 4096 then Some(s) else None
  {
    StateRoundTrip(s);
    var tree := StateTree(s);
    hide StateTree, Printable, Print, ReadState, ParseBytes;
    var raw := CanonicalBytes(tree).value;
    Base64Url.RoundTrip(raw);
    Base64Url.LimitsCoincide(raw);
    BytesParseExactly(raw, tree);
  }

  /** A token within the record limit serves exactly the requests that agree with it on operation, repository,
      workflow, run and commit, and for them only a target that names their repository and workflow. */
  lemma TokenServesExactly(s: RecoveryState, target: RepositoryTarget, request: Request)
    requires EncodeState(s).Some? && |EncodeState(s).value| <= 4096
    ensures DecodeState(EncodeState(s).value, target, request) ==
              if s.operation == request.operation && s.repository == request.repository && s.workflowId == request.workflowId
                 && s.workflowRunId == request.workflowRunId && s.protectedMainSha == request.protectedMainSha
                 && target.repository == request.repository && TargetWorkflowId(target, request.operation) == request.workflowId
              then Some(s) else None
  {
    hide EncodeState, ReadToken;
    TokenRoundTrip(s);
  }

  lemma TokenIsWellFormed(s: RecoveryState)
    ensures EncodeState(s).Some? && (|EncodeState(s).value| <= 4096 ==> IsRecoveryToken(EncodeState(s).value))
  {
    StateRoundTrip(s);
    var tree := StateTree(s);
    hide StateTree, Struct, Printable;
    var raw := CanonicalBytes(tree).value;
    Base64Url.EncodedShape(raw);
    assert raw != [] by {
      Utf8.RoundTrip(Print(tree));
      ParserInvertsPrinter(Print(tree), tree);
    }
  }

  /** The token of a rejected preparation: the text "preparation-rejected". */
  const REJECTED_TOKEN: string := "cHJlcGFyYXRpb24tcmVqZWN0ZWQ"

  /** It is a well-formed token that no broker can read as a state. */
  lemma RejectedTokenUnreadable()
    ensures ReadToken(REJECTED_TOKEN) == None
  {
    hide Base64Url.DecodeUnits, Base64Url.Strip, Utf8.Decode, Utf8.Encode, ParseValue, ReadState;
    var s := REJECTED_TOKEN;
    Base64Url.StripClean(s);
    if Base64Url.Decode(s).Some? {
      var raw := Base64Url.Decode(s).value;
      FirstByte(s, raw);
      if Utf8.Decode(raw).Some? {
        var text := Utf8.Decode(raw).value;
        Utf8.DecodeIsStrict(raw, text);
        StartsWithP(text, raw);
        NotJson(text);
      }
    }
  }

  lemma FirstByte(s: string, raw: seq<Byte>)
    requires s == REJECTED_TOKEN && Base64Url.DecodeUnits(s) == Some(raw)
    ensures |raw| > 0 && raw[0] == 'p' as int
  {
    assert Base64Url.Value(s[0]) == Some(28) && Base64Url.Value(s[1]) == Some(7);
  }

  lemma StartsWithP(text: string, raw: seq<Byte>)
    requires raw == Utf8.Encode(text) && |raw| > 0 && raw[0] == 'p' as int
    ensures text != "" && text[0] == 'p'
  {
    assert Utf8.EncodeChar(text[0])[0] == raw[0];
  }

  lemma NotJson(text: string)
    requires text != "" && text[0] == 'p'
    ensures ParseValue(text) == None
  {}

  // ---------------------------------------------------------------- Prepare

  predicate MatchesRefresh(run: WorkflowRun, request: Request)
  {
    run.workflowId == request.workflowId && run.headSha == request.protectedMainSha
  }

  /** The largest matching run ID of a listing, or zero. */
  function Baseline(runs: seq<WorkflowRun>, request: Request): Int64
  {
    if runs == [] then 0
    else
      var before := Baseline(runs[..|runs| - 1], request);
      var run := runs[|runs| - 1];
      if MatchesRefresh(run, request) && run.id > before then run.id else before
  }

  predicate IsRunLink(link: string)
  {
    Utf8.ByteLen(link) <= 512 && HasPrefix(link, "https://") && !HasControl(link)
  }

  /** The state that a preparation accepts, or the reason for its rejection. */
  datatype Preparation = Observed(state: RecoveryState) | Refused(reason: string)

  function PrepareState(target: RepositoryTarget, request: Request, observed: Observation): Preparation
  {
    if target.repository != request.repository || TargetWorkflowId(target, request.operation) != request.workflowId then
      Refused("EXACT_CATALOG_BINDING_FAILED")
    else if observed.main.None? || !observed.main.value.isProtected || observed.main.value.sha != request.protectedMainSha
            || target.mainBranch != "main" then
      Refused("PROTECTED_MAIN_OBSERVATION_FAILED")
    else
      var state := RecoveryState(request.operation, request.repository, request.workflowId, request.workflowRunId,
                                 request.protectedMainSha, 0, 0, "");
      if request.operation == REFRESH then
        match Listing(observed)
        case None => Refused("WORKFLOW_RUN_BASELINE_FAILED")
        case Some(runs) => Observed(state.(baselineRunId := Baseline(runs, request)))
      else
        match observed.run
        case None => Refused("WORKFLOW_RUN_BINDING_FAILED")
        case Some(run) =>
          if run.id != request.workflowRunId || !MatchesRefresh(run, request) || run.headBranch != "main" then
            Refused("WORKFLOW_RUN_BINDING_FAILED")
          else if !IsRunLink(run.htmlUrl) then Refused("WORKFLOW_RUN_REFERENCE_INVALID")
          else if request.operation == RERUN && (run.status != "completed" || run.conclusion == "success" || run.conclusion == "") then
            Refused("WORKFLOW_RUN_NOT_FAILED")
          else if request.operation == CANCEL && run.status != "queued" && run.status != "in_progress" then
            Refused("WORKFLOW_RUN_NOT_CANCELLABLE")
          else Observed(state.(providerReference := run.htmlUrl, baselineRunAttempt := run.runAttempt))
  }

  function Prepare(target: RepositoryTarget, request: Request, observed: Observation): (string, Outcome)
  {
    match PrepareState(target, request, observed)
    case Refused(reason) => (REJECTED_TOKEN, Rejected(reason))
    case Observed(state) =>
      match EncodeState(state)
      case Some(token) => (token, PROCEED)
      case None => (REJECTED_TOKEN, Rejected("RECOVERY_STATE_INVALID"))
  }

  /** The baseline is an upper bound of the matching runs, and one of them unless it is zero. */
  lemma {:induction false} BaselineIsMaximum(runs: seq<WorkflowRun>, request: Request)
    ensures forall i :: 0 <= i < |runs| && MatchesRefresh(runs[i], request) ==> runs[i].id <= Baseline(runs, request)
    ensures Baseline(runs, request) >= 0
    ensures Baseline(runs, request) > 0 ==>
              exists i :: 0 <= i < |runs| && MatchesRefresh(runs[i], request) && runs[i].id == Baseline(runs, request)
  {
    if runs != [] {
      var rest := runs[..|runs| - 1];
      BaselineIsMaximum(rest, request);
      if Baseline(runs, request) > 0 && Baseline(runs, request) == Baseline(rest, request) {
        var i :| 0 <= i < |rest| && MatchesRefresh(rest[i], request) && rest[i].id == Baseline(rest, request);
        assert runs[i] == rest[i];
      }
      forall i | 0 <= i < |rest| ensures runs[i] == rest[i] {}
    }
  }

  /** The preparation as the source performs it, with its loop over the listing. */
  method PrepareDispatch(target: RepositoryTarget, request: Request, observed: Observation) returns (token: string, outcome: Outcome)
    ensures (token, outcome) == Prepare(target, request, observed)
  {
    if target.repository != request.repository || TargetWorkflowId(target, request.operation) != request.workflowId {
      return REJECTED_TOKEN, Rejected("EXACT_CATALOG_BINDING_FAILED");
    }
    if observed.main.None? || !observed.main.value.isProtected || observed.main.value.sha != request.protectedMainSha
       || target.mainBranch != "main" {
      return REJECTED_TOKEN, Rejected("PROTECTED_MAIN_OBSERVATION_FAILED");
    }
    var state := RecoveryState(request.operation, request.repository, request.workflowId, request.workflowRunId,
                               request.protectedMainSha, 0, 0, "");
    if request.operation == REFRESH {
      var listing := Listing(observed);
      if listing.None? { return REJECTED_TOKEN, Rejected("WORKFLOW_RUN_BASELINE_FAILED"); }
      var runs := listing.value;
      for i := 0 to |runs|
        invariant state == RecoveryState(request.operation, request.repository, request.workflowId, request.workflowRunId,
                                         request.protectedMainSha, Baseline(runs[..i], request), 0, "")
      {
        assert runs[..i + 1][..i] == runs[..i];
        var run := runs[i];
        if run.workflowId == request.workflowId && run.headSha == request.protectedMainSha && run.id > state.baselineRunId {
          state := state.(baselineRunId := run.id);
        }
      }
      assert runs[..|runs|] == runs;
    } else {
      if observed.run.None? { return REJECTED_TOKEN, Rejected("WORKFLOW_RUN_BINDING_FAILED"); }
      var run := observed.run.value;
      if run.id != request.workflowRunId || run.workflowId != request.workflowId || run.headSha != request.protectedMainSha
         || run.headBranch != "main" {
        return REJECTED_TOKEN, Rejected("WORKFLOW_RUN_BINDING_FAILED");
      }
      state := state.(providerReference := run.htmlUrl);
      state := state.(baselineRunAttempt := run.runAttempt);
      if !IsRunLink(state.providerReference) { return REJECTED_TOKEN, Rejected("WORKFLOW_RUN_REFERENCE_INVALID"); }
      if request.operation == RERUN && (run.status != "completed" || run.conclusion == "success" || run.conclusion == "") {
        return REJECTED_TOKEN, Rejected("WORKFLOW_RUN_NOT_FAILED");
      }
      if request.operation == CANCEL && run.status != "queued" && run.status != "in_progress" {
        return REJECTED_TOKEN, Rejected("WORKFLOW_RUN_NOT_CANCELLABLE");
      }
    }
    hide EncodeState;
    var encoded := EncodeState(state);
    if encoded.None? { return REJECTED_TOKEN, Rejected("RECOVERY_STATE_INVALID"); }
    return encoded.value, PROCEED;
  }

  // ---------------------------------------------------------------- Dispatch

  function ExpectedStatus(operation: string): int
  {
    if operation == CANCEL then 202 else if operation == REFRESH then 204 else 201
  }

  /** The provider refused: a status that is neither the expected one nor a server error. */
  predicate DefiniteRefusal(operation: string, reply: Reply)
  {
    reply.Status? && reply.code != ExpectedStatus(operation) && reply.code < 500
  }

  /** The outcome when the mutation was sent and answered with `reply`. */
  function Classify(state: RecoveryState, operation: string, reply: Reply): Outcome
  {
    match reply
    case NoReply => PENDING
    case Status(code) =>
      if code != ExpectedStatus(operation) then
        if code >= 500 then PENDING else Rejected("GITHUB_DISPATCH_REJECTED")
      else Outcome(true, true, "GITHUB_OPERATION_ACCEPTED", state.providerReference)
  }

  /** `Dispatch`; the mutation is sent exactly when the token decodes. */
  function DispatchOutcome(target: RepositoryTarget, request: Request, token: string, reply: Reply): Outcome
  {
    match DecodeState(token, target, request)
    case None => Rejected("RECOVERY_STATE_INVALID")
    case Some(state) => Classify(state, request.operation, reply)
  }

  // ---------------------------------------------------------------- Recover

  predicate IsCandidate(run: WorkflowRun, baseline: Int64, request: Request)
  {
    run.id > baseline && MatchesRefresh(run, request)
  }

  /** The candidates of a listing, in its order. */
  function Candidates(runs: seq<WorkflowRun>, baseline: Int64, request: Request): (r: seq<WorkflowRun>)
    ensures forall i :: 0 <= i < |r| ==> IsCandidate(r[i], baseline, request) && r[i] in runs
  {
    if runs == [] then []
    else
      var before := Candidates(runs[..|runs| - 1], baseline, request);
      var run := runs[|runs| - 1];
      if IsCandidate(run, baseline, request) then before + [run] else before
  }

  function RecoveredRun(runs: seq<WorkflowRun>, baseline: Int64, request: Request): Outcome
  {
    var candidates := Candidates(runs, baseline, request);
    if |candidates| == 1 && IsRunLink(candidates[0].htmlUrl)
    then Outcome(true, true, "GITHUB_OPERATION_RECOVERED", candidates[0].htmlUrl)
    else PENDING
  }

  function RecoverState(state: RecoveryState, request: Request, observed: Observation): Outcome
  {
    if request.operation == REFRESH then
      match Listing(observed)
      case None => PENDING
      case Some(runs) => RecoveredRun(runs, state.baselineRunId, request)
    else
      match observed.run
      case None => PENDING
      case Some(run) =>
        if run.id != request.workflowRunId || !MatchesRefresh(run, request) then PENDING
        else if (request.operation == RERUN && run.runAttempt > state.baselineRunAttempt)
                || (request.operation == CANCEL && run.status == "completed" && run.conclusion == "cancelled")
        then Outcome(true, true, "GITHUB_OPERATION_RECOVERED", state.providerReference)
        else PENDING
  }

  function Recover(target: RepositoryTarget, request: Request, token: string, observed: Observation): Outcome
  {
    match DecodeState(token, target, request)
    case None => Rejected("RECOVERY_STATE_INVALID")
    case Some(state) => RecoverState(state, request, observed)
  }

  /** The refresh branch of `Recover`, with its loop that gives up at a second candidate. */
  method RecoverRefresh(runs: seq<WorkflowRun>, baseline: Int64, request: Request) returns (outcome: Outcome)
    ensures outcome == RecoveredRun(runs, baseline, request)
  {
    var candidate: Option<WorkflowRun> := None;
    for i := 0 to |runs|
      invariant Candidates(runs[..i], baseline, request) == if candidate.Some? then [candidate.value] else []
    {
      assert runs[..i + 1][..i] == runs[..i];
      var run := runs[i];
      if run.id > baseline && run.workflowId == request.workflowId && run.headSha == request.protectedMainSha {
        if candidate.Some? {
          CandidatesGrow(runs, i + 1, baseline, request);
          return PENDING;
        }
        candidate := Some(run);
      }
    }
    assert runs[..|runs|] == runs;
    if candidate.Some? && IsRunLink(candidate.value.htmlUrl) {
      return Outcome(true, true, "GITHUB_OPERATION_RECOVERED", candidate.value.htmlUrl);
    }
    return PENDING;
  }

  /** `Recover` as the source performs it. */
  method RecoverDispatch(target: RepositoryTarget, request: Request, token: string, observed: Observation) returns (outcome: Outcome)
    ensures outcome == Recover(target, request, token, observed)
  {
    hide DecodeState, RecoveredRun;
    var decoded := DecodeState(token, target, request);
    if decoded.None? { return Rejected("RECOVERY_STATE_INVALID"); }
    var state := decoded.value;
    if request.operation == REFRESH {
      var listing := Listing(observed);
      if listing.None? { return PENDING; }
      outcome := RecoverRefresh(listing.value, state.baselineRunId, request);
      return;
    }
    if observed.run.None? { return PENDING; }
    var run := observed.run.value;
    if run.id != request.workflowRunId || run.workflowId != request.workflowId || run.headSha != request.protectedMainSha { return PENDING; }
    if request.operation == RERUN && run.runAttempt > state.baselineRunAttempt {
      return Outcome(true, true, "GITHUB_OPERATION_RECOVERED", state.providerReference);
    }
    if request.operation == CANCEL && run.status == "completed" && run.conclusion == "cancelled" {
      return Outcome(true, true, "GITHUB_OPERATION_RECOVERED", state.providerReference);
    }
    return PENDING;
  }

  lemma {:induction false} CandidatesGrow(runs: seq<WorkflowRun>, n: nat, baseline: Int64, request: Request)
    requires n <= |runs|
    ensures |Candidates(runs[..n], baseline, request)| <= |Candidates(runs, baseline, request)|
  {
    if n == |runs| {
      assert runs[..n] == runs;
    } else {
      CandidatesGrow(runs[..|runs| - 1], n, baseline, request);
      assert runs[..|runs| - 1][..n] == runs[..n];
    }
  }

  // ---------------------------------------------------------------- what the broker guarantees

  /** A readable dispatch is accepted, with the reference of its token, exactly on the status that GitHub
      documents for the operation; it stays open exactly when no answer came or the server failed, and is
      rejected otherwise. */
  lemma DispatchClassifiesExactly(target: RepositoryTarget, request: Request, token: string, reply: Reply)
    requires AllowedOperation(request.operation) && DecodeState(token, target, request).Some?
    ensures var outcome := DispatchOutcome(target, request, token, reply);
            var confirmed := || (request.operation == "refresh_estate_health" && reply == Status(204))
                             || (request.operation == "rerun_failed_required_workflow" && reply == Status(201))
                             || (request.operation == "cancel_superseded_workflow_run" && reply == Status(202));
            outcome == if confirmed then Outcome(true, true, "GITHUB_OPERATION_ACCEPTED", DecodeState(token, target, request).value.providerReference)
                       else if reply.NoReply? || reply.code >= 500 then Outcome(false, false, "GITHUB_DISPATCH_OUTCOME_PENDING", "")
                       else Outcome(true, false, "GITHUB_DISPATCH_REJECTED", "")
  {
    hide DecodeState;
    OperationsDiffer();
  }

  /** A preparation that proceeds hands out a token that, within the record limit, decodes for
      every target bound to the request; a rejected one hands out the unreadable token. */
  lemma PreparedTokenDecodes(target: RepositoryTarget, request: Request, observed: Observation, later: RepositoryTarget)
    requires later.repository == request.repository && TargetWorkflowId(later, request.operation) == request.workflowId
    requires |Prepare(target, request, observed).0| <= 4096
    ensures var (token, outcome) := Prepare(target, request, observed);
            if outcome.final then !outcome.accepted && token == REJECTED_TOKEN && DecodeState(token, later, request) == None
            else DecodeState(token, later, request).Some?
                 && DecodeState(token, later, request).value == PrepareState(target, request, observed).state
  {
    hide EncodeState, ReadToken, Baseline;
    RejectedTokenUnreadable();
    match PrepareState(target, request, observed)
    case Refused(_) =>
    case Observed(state) => TokenRoundTrip(state);
  }

  /** A listed run of the request's workflow and commit. */
  predicate Listed(runs: seq<WorkflowRun>, i: int, request: Request)
  {
    0 <= i < |runs| && runs[i].workflowId == request.workflowId && runs[i].headSha == request.protectedMainSha
  }

  /** What the token of a preparation has to say: for a refresh, the greatest ID among the listed runs of the
      workflow and commit, or zero, and no link; otherwise the link and the attempt of the named run. */
  ghost predicate Remembers(s: RecoveryState, request: Request, observed: Observation)
  {
    && s.operation == request.operation && s.repository == request.repository && s.workflowId == request.workflowId
    && s.workflowRunId == request.workflowRunId && s.protectedMainSha == request.protectedMainSha
    && if request.operation == "refresh_estate_health" then
         && observed.listed.Some? && s.providerReference == "" && s.baselineRunAttempt == 0
         && (forall i :: Listed(observed.listed.value, i, request) ==> observed.listed.value[i].id <= s.baselineRunId)
         && (s.baselineRunId == 0
             || exists i :: Listed(observed.listed.value, i, request) && observed.listed.value[i].id == s.baselineRunId)
         && s.baselineRunId >= 0
       else
         observed.run.Some? && s.providerReference == observed.run.value.htmlUrl && s.baselineRunAttempt == observed.run.value.runAttempt
         && s.baselineRunId == 0
  }

  lemma StateRemembers(target: RepositoryTarget, request: Request, observed: Observation)
    requires PrepareState(target, request, observed).Observed?
    ensures Remembers(PrepareState(target, request, observed).state, request, observed)
  {
    if request.operation == REFRESH {
      var runs := observed.listed.value;
      BaselineIsMaximum(runs, request);
      forall i | Listed(runs, i, request) ensures runs[i].id <= Baseline(runs, request) { assert MatchesRefresh(runs[i], request); }
      if Baseline(runs, request) > 0 {
        var i :| 0 <= i < |runs| && MatchesRefresh(runs[i], request) && runs[i].id == Baseline(runs, request);
        assert Listed(runs, i, request);
      }
    }
    hide Baseline, IsRunLink;
  }

  /** A token that a preparation made, within the record limit, reads for every bound target as a state that
      remembers what was observed. */
  lemma PreparedTokenRemembers(target: RepositoryTarget, request: Request, observed: Observation, later: RepositoryTarget)
    requires later.repository == request.repository && TargetWorkflowId(later, request.operation) == request.workflowId
    requires |Prepare(target, request, observed).0| <= 4096 && !Prepare(target, request, observed).1.final
    ensures DecodeState(Prepare(target, request, observed).0, later, request).Some?
    ensures Remembers(DecodeState(Prepare(target, request, observed).0, later, request).value, request, observed)
  {
    PreparedTokenDecodes(target, request, observed, later);
    if PrepareState(target, request, observed).Observed? { StateRemembers(target, request, observed); }
    hide EncodeState, PrepareState, DecodeState, Remembers;
  }

  /** The reasons for which a preparation is rejected, in the order in which they are looked for. */
  lemma PreparationReasons(target: RepositoryTarget, request: Request, observed: Observation)
    ensures var outcome := Prepare(target, request, observed).1;
            var bound := target.repository == request.repository && TargetWorkflowId(target, request.operation) == request.workflowId;
            var main := observed.main == Some(MainBranch(request.protectedMainSha, true)) && target.mainBranch == "main";
            var listed := observed.listed.Some? && |observed.listed.value| <= 100;
            var named := && observed.run.Some? && observed.run.value.id == request.workflowRunId && observed.run.value.headBranch == "main"
                         && observed.run.value.workflowId == request.workflowId && observed.run.value.headSha == request.protectedMainSha;
            outcome == if !bound then Outcome(true, false, "EXACT_CATALOG_BINDING_FAILED", "")
                       else if !main then Outcome(true, false, "PROTECTED_MAIN_OBSERVATION_FAILED", "")
                       else if request.operation == "refresh_estate_health" then
                         if listed then Outcome(false, false, "", "") else Outcome(true, false, "WORKFLOW_RUN_BASELINE_FAILED", "")
                       else if !named then Outcome(true, false, "WORKFLOW_RUN_BINDING_FAILED", "")
                       else if !IsRunLink(observed.run.value.htmlUrl) then Outcome(true, false, "WORKFLOW_RUN_REFERENCE_INVALID", "")
                       else if request.operation == "rerun_failed_required_workflow"
                               && (observed.run.value.status != "completed" || observed.run.value.conclusion in {"success", ""})
                       then Outcome(true, false, "WORKFLOW_RUN_NOT_FAILED", "")
                       else if request.operation == "cancel_superseded_workflow_run" && observed.run.value.status !in {"queued", "in_progress"}
                       then Outcome(true, false, "WORKFLOW_RUN_NOT_CANCELLABLE", "")
                       else Outcome(false, false, "", "")
  {
    hide EncodeState, Baseline, IsRunLink;
    match PrepareState(target, request, observed)
    case Refused(_) =>
    case Observed(state) => TokenRoundTrip(state);
  }

  /** `Recover` never turns silence into a rejection: it rejects exactly the unreadable tokens. */
  lemma RecoverRejectsOnlyUnreadable(target: RepositoryTarget, request: Request, token: string, observed: Observation)
    ensures var outcome := Recover(target, request, token, observed);
            outcome.final && !outcome.accepted <==> DecodeState(token, target, request) == None
  {
    hide DecodeState;
  }

  /** One position of the listing holds a matching run above the baseline, with a valid link; no other does. */
  ghost predicate SoleNewRun(runs: seq<WorkflowRun>, baseline: Int64, request: Request)
  {
    exists i :: 0 <= i < |runs| && IsCandidate(runs[i], baseline, request) && IsRunLink(runs[i].htmlUrl)
      && forall j :: 0 <= j < |runs| && j != i ==> !IsCandidate(runs[j], baseline, request)
  }

  /** A refresh is recovered exactly when one listed run is newer than the baseline, matches
      workflow and commit, and has a valid link; then that link is the reference. */
  lemma RecoveredExactly(runs: seq<WorkflowRun>, baseline: Int64, request: Request)
    ensures RecoveredRun(runs, baseline, request).accepted <==> SoleNewRun(runs, baseline, request)
    ensures forall i :: 0 <= i < |runs| && IsCandidate(runs[i], baseline, request) && RecoveredRun(runs, baseline, request).accepted
              ==> RecoveredRun(runs, baseline, request).providerReference == runs[i].htmlUrl
  {
    CandidateCount(runs, baseline, request);
  }

  /** What the provider has to show for a lost answer to count as a success. */
  ghost predicate ShowsDone(request: Request, state: RecoveryState, observed: Observation)
  {
    if request.operation == REFRESH then
      observed.listed.Some? && |observed.listed.value| <= 100 && SoleNewRun(observed.listed.value, state.baselineRunId, request)
    else
      && observed.run.Some? && observed.run.value.id == request.workflowRunId && MatchesRefresh(observed.run.value, request)
      && ((request.operation == RERUN && observed.run.value.runAttempt > state.baselineRunAttempt)
          || (request.operation == CANCEL && observed.run.value.status == "completed" && observed.run.value.conclusion == "cancelled"))
  }

  /** `Recover` rejects exactly the tokens that do not decode, accepts exactly when the provider shows that it is
      done, and is otherwise open. A rerun or a cancellation is accepted with the link of its token, a refresh
      with the link of a new run. */
  lemma RecoverAcceptsExactly(target: RepositoryTarget, request: Request, token: string, observed: Observation)
    ensures var outcome := Recover(target, request, token, observed); var state := DecodeState(token, target, request);
            && (outcome.accepted <==> state.Some? && ShowsDone(request, state.value, observed))
            && outcome == (if outcome.accepted then Outcome(true, true, "GITHUB_OPERATION_RECOVERED", outcome.providerReference)
                           else if state.None? then Outcome(true, false, "RECOVERY_STATE_INVALID", "")
                           else Outcome(false, false, "GITHUB_DISPATCH_OUTCOME_PENDING", ""))
            && (outcome.accepted && request.operation != "refresh_estate_health" ==> outcome.providerReference == state.value.providerReference)
            && (outcome.accepted && request.operation == "refresh_estate_health" ==>
                  exists i :: Listed(observed.listed.value, i, request) && observed.listed.value[i].id > state.value.baselineRunId
                              && observed.listed.value[i].htmlUrl == outcome.providerReference)
  {
    hide DecodeState, RecoveredRun, SoleNewRun;
    if DecodeState(token, target, request).Some? && Listing(observed).Some? {
      var runs, baseline := Listing(observed).value, DecodeState(token, target, request).value.baselineRunId;
      RecoveredExactly(runs, baseline, request);
      RecoveredReference(runs, baseline, request);
    }
  }

  lemma RecoveredReference(runs: seq<WorkflowRun>, baseline: Int64, request: Request)
    ensures RecoveredRun(runs, baseline, request).accepted ==>
              exists i :: Listed(runs, i, request) && runs[i].id > baseline
                          && runs[i].htmlUrl == RecoveredRun(runs, baseline, request).providerReference
    ensures var outcome := RecoveredRun(runs, baseline, request);
            outcome == if outcome.accepted then Outcome(true, true, "GITHUB_OPERATION_RECOVERED", outcome.providerReference)
                       else Outcome(false, false, "GITHUB_DISPATCH_OUTCOME_PENDING", "")
  {
    if RecoveredRun(runs, baseline, request).accepted {
      var run := Candidates(runs, baseline, request)[0];
      var i :| 0 <= i < |runs| && runs[i] == run;
      assert Listed(runs, i, request);
    }
    hide Candidates;
  }

  /** No candidate, exactly one, or at least two positions of the listing. */
  lemma {:induction false} CandidateCount(runs: seq<WorkflowRun>, baseline: Int64, request: Request)
    ensures var c := Candidates(runs, baseline, request);
            && (c == [] ==> forall j :: 0 <= j < |runs| ==> !IsCandidate(runs[j], baseline, request))
            && (|c| == 1 ==> exists i :: 0 <= i < |runs| && IsCandidate(runs[i], baseline, request) && runs[i] == c[0]
                                && forall j :: 0 <= j < |runs| && j != i ==> !IsCandidate(runs[j], baseline, request))
            && (|c| >= 2 ==> exists i, j :: 0 <= i < j < |runs| && IsCandidate(runs[i], baseline, request) && IsCandidate(runs[j], baseline, request))
  {
    if runs != [] {
      var n := |runs| - 1;
      var rest := runs[..n];
      CandidateCount(rest, baseline, request);
      var before := Candidates(rest, baseline, request);
      forall i | 0 <= i < n ensures runs[i] == rest[i] {}
      if |before| == 1 {
        var i :| 0 <= i < n && IsCandidate(rest[i], baseline, request) && rest[i] == before[0]
                 && forall j :: 0 <= j < n && j != i ==> !IsCandidate(rest[j], baseline, request);
        assert IsCandidate(runs[i], baseline, request);
        if !IsCandidate(runs[n], baseline, request) {
          assert forall j :: 0 <= j < |runs| && j != i ==> !IsCandidate(runs[j], baseline, request);
        }
      } else if |before| >= 2 {
        var i, j :| 0 <= i < j < n && IsCandidate(rest[i], baseline, request) && IsCandidate(rest[j], baseline, request);
        assert IsCandidate(runs[i], baseline, request) && IsCandidate(runs[j], baseline, request);
      } else if IsCandidate(runs[n], baseline, request) {
        assert Candidates(runs, baseline, request) == [runs[n]];
      }
    }
  }

  lemma {:induction false} CandidatesOfMultiset(runs: seq<WorkflowRun>, baseline: Int64, request: Request)
    ensures forall run :: multiset(Candidates(runs, baseline, request))[run] ==
              if IsCandidate(run, baseline, request) then multiset(runs)[run] else 0
  {
    if runs != [] {
      var n := |runs| - 1;
      CandidatesOfMultiset(runs[..n], baseline, request);
      assert runs == runs[..n] + [runs[n]];
      assert multiset(runs) == multiset(runs[..n]) + multiset{runs[n]};
    }
  }

  /** The verdict does not depend on the order in which the provider lists the runs. */
  lemma RecoveryIgnoresOrder(a: seq<WorkflowRun>, b: seq<WorkflowRun>, baseline: Int64, request: Request)
    requires multiset(a) == multiset(b)
    ensures RecoveredRun(a, baseline, request) == RecoveredRun(b, baseline, request)
  {
    var x, y := Candidates(a, baseline, request), Candidates(b, baseline, request);
    CandidatesOfMultiset(a, baseline, request);
    CandidatesOfMultiset(b, baseline, request);
    assert multiset(x) == multiset(y);
    assert |x| == |multiset(x)| == |multiset(y)| == |y|;
    if |x| == 1 {
      assert x == [x[0]] && y == [y[0]];
      assert x[0] in multiset(y);
    }
  }

  /** Runs in the order the provider created them, with IDs that only grow. */
  ghost predicate Growing(created: seq<WorkflowRun>)
  {
    && (forall i :: 0 <= i < |created| ==> created[i].id > 0)
    && forall i, j :: 0 <= i < j < |created| ==> created[i].id < created[j].id
  }

  /** A listing that shows every matching run created so far exactly once, in any order. */
  ghost predicate ShowsAll(listing: seq<WorkflowRun>, created: seq<WorkflowRun>, request: Request)
  {
    && (forall i :: 0 <= i < |created| && MatchesRefresh(created[i], request) ==> created[i] in listing)
    && (forall i :: 0 <= i < |listing| ==> listing[i] in created)
    && (forall i, j :: 0 <= i < j < |listing| ==> listing[i] != listing[j])
  }

  /** A run created at or after position `n` that matches the request. */
  ghost predicate CreatedSince(created: seq<WorkflowRun>, n: nat, k: int, request: Request)
  {
    n <= k < |created| && MatchesRefresh(created[k], request)
  }

  lemma CandidateIsNew(created: seq<WorkflowRun>, n: nat, before: seq<WorkflowRun>, k: nat, request: Request)
    requires Growing(created) && n <= |created| && k < |created|
    requires ShowsAll(before, created[..n], request)
    ensures IsCandidate(created[k], Baseline(before, request), request) <==> CreatedSince(created, n, k, request)
  {
    var baseline := Baseline(before, request);
    BaselineIsMaximum(before, request);
    if k < n && MatchesRefresh(created[k], request) {
      assert created[..n][k] == created[k];
      var b :| 0 <= b < |before| && before[b] == created[k];
    }
    if k >= n && baseline > 0 {
      var b :| 0 <= b < |before| && before[b].id == baseline;
      var j :| 0 <= j < n && created[..n][j] == before[b];
      assert created[j].id < created[k].id;
    }
  }

  ghost predicate OneNewRun(created: seq<WorkflowRun>, n: nat, request: Request)
  {
    exists k :: CreatedSince(created, n, k, request) && IsRunLink(created[k].htmlUrl)
      && forall j :: CreatedSince(created, n, j, request) ==> j == k
  }

  lemma AcceptedIsNew(created: seq<WorkflowRun>, n: nat, baseline: Int64, after: seq<WorkflowRun>, request: Request)
    requires Growing(created) && ShowsAll(after, created, request) && RecoveredRun(after, baseline, request).accepted
    requires forall k :: 0 <= k < |created| ==> (IsCandidate(created[k], baseline, request) <==> CreatedSince(created, n, k, request))
    ensures OneNewRun(created, n, request)
  {
    RecoveredExactly(after, baseline, request);
    hide Candidates, RecoveredRun, IsRunLink;
    var i :| 0 <= i < |after| && IsCandidate(after[i], baseline, request) && IsRunLink(after[i].htmlUrl)
             && forall j :: 0 <= j < |after| && j != i ==> !IsCandidate(after[j], baseline, request);
    var k :| 0 <= k < |created| && created[k] == after[i];
    forall j | CreatedSince(created, n, j, request) ensures j == k {
      var m :| 0 <= m < |after| && after[m] == created[j];
    }
  }

  lemma NewIsAccepted(created: seq<WorkflowRun>, n: nat, baseline: Int64, after: seq<WorkflowRun>, request: Request)
    requires ShowsAll(after, created, request) && OneNewRun(created, n, request)
    requires forall k :: 0 <= k < |created| ==> (IsCandidate(created[k], baseline, request) <==> CreatedSince(created, n, k, request))
    ensures RecoveredRun(after, baseline, request).accepted
  {
    RecoveredExactly(after, baseline, request);
    hide Candidates, RecoveredRun, IsRunLink;
    var k :| CreatedSince(created, n, k, request) && IsRunLink(created[k].htmlUrl)
             && forall j :: CreatedSince(created, n, j, request) ==> j == k;
    var i :| 0 <= i < |after| && after[i] == created[k];
    forall j | 0 <= j < |after| && j != i ensures !IsCandidate(after[j], baseline, request) {
      var m :| 0 <= m < |created| && created[m] == after[j];
    }
  }

  /** With growing IDs and complete listings, the baseline tells the runs that were created later. */
  lemma NewRunDecides(created: seq<WorkflowRun>, n: nat, before: seq<WorkflowRun>, after: seq<WorkflowRun>, request: Request)
    requires Growing(created) && n <= |created|
    requires ShowsAll(before, created[..n], request) && ShowsAll(after, created, request)
    ensures RecoveredRun(after, Baseline(before, request), request).accepted <==> OneNewRun(created, n, request)
  {
    hide RecoveredRun, OneNewRun, IsCandidate, Baseline;
    var baseline := Baseline(before, request);
    forall k | 0 <= k < |created|
      ensures IsCandidate(created[k], baseline, request) <==> CreatedSince(created, n, k, request)
    {
      CandidateIsNew(created, n, before, k, request);
    }
    if RecoveredRun(after, baseline, request).accepted {
      AcceptedIsNew(created, n, baseline, after, request);
    }
    if OneNewRun(created, n, request) {
      NewIsAccepted(created, n, baseline, after, request);
    }
  }

  /** A preparation went through with a token within the record limit, and `later` is bound to the request. */
  ghost predicate Sendable(target: RepositoryTarget, request: Request, before: Observation, later: RepositoryTarget)
  {
    && later.repository == request.repository && TargetWorkflowId(later, request.operation) == request.workflowId
    && !Prepare(target, request, before).1.final && |Prepare(target, request, before).0| <= 4096
  }

  /** From the observation of `Prepare` to the verdict of `Recover`: with growing IDs and complete listings, a
      refresh is recovered exactly when one matching run was created since `Prepare` looked and its link is
      valid. Nothing that already ran is mistaken for the dispatched run, and the one new run is never missed. */
  lemma RecoveredRunIsNew(target: RepositoryTarget, later: RepositoryTarget, request: Request,
                          created: seq<WorkflowRun>, n: nat, before: Observation, after: Observation)
    requires request.operation == "refresh_estate_health" && Sendable(target, request, before, later)
    requires Growing(created) && n <= |created| && before.listed.Some? && after.listed.Some? && |after.listed.value| <= 100
    requires ShowsAll(before.listed.value, created[..n], request) && ShowsAll(after.listed.value, created, request)
    ensures Recover(later, request, Prepare(target, request, before).0, after).accepted <==> OneNewRun(created, n, request)
  {
    hide Baseline, RecoveredRun, OneNewRun, ShowsAll, Growing, DecodeState, EncodeState;
    NewRunDecides(created, n, before.listed.value, after.listed.value, request);
    PreparedTokenDecodes(target, request, before, later);
  }

  /** A rerun is recovered, with the link that `Prepare` saw, exactly when its run is shown with a later attempt
      than `Prepare` saw. */
  lemma RerunRecoversExactly(target: RepositoryTarget, later: RepositoryTarget, request: Request, before: Observation, after: Observation)
    requires request.operation == "rerun_failed_required_workflow" && Sendable(target, request, before, later)
    ensures before.run.Some?
    ensures Recover(later, request, Prepare(target, request, before).0, after) ==
              if after.run.Some? && after.run.value.id == request.workflowRunId && Listed([after.run.value], 0, request)
                 && after.run.value.runAttempt > before.run.value.runAttempt
              then Outcome(true, true, "GITHUB_OPERATION_RECOVERED", before.run.value.htmlUrl)
              else Outcome(false, false, "GITHUB_DISPATCH_OUTCOME_PENDING", "")
  {
    OperationsDiffer();
    hide DecodeState, EncodeState, PrepareState, Baseline, RecoveredRun, IsRunLink;
    PreparedTokenRemembers(target, request, before, later);
  }

  /** A cancellation is recovered, with the link that `Prepare` saw, exactly when its run is shown cancelled. */
  lemma CancelRecoversExactly(target: RepositoryTarget, later: RepositoryTarget, request: Request, before: Observation, after: Observation)
    requires request.operation == "cancel_superseded_workflow_run" && Sendable(target, request, before, later)
    ensures before.run.Some?
    ensures Recover(later, request, Prepare(target, request, before).0, after) ==
              if after.run.Some? && after.run.value.id == request.workflowRunId && Listed([after.run.value], 0, request)
                 && after.run.value.status == "completed" && after.run.value.conclusion == "cancelled"
              then Outcome(true, true, "GITHUB_OPERATION_RECOVERED", before.run.value.htmlUrl)
              else Outcome(false, false, "GITHUB_DISPATCH_OUTCOME_PENDING", "")
  {
    OperationsDiffer();
    hide DecodeState, EncodeState, PrepareState, Baseline, RecoveredRun, IsRunLink;
    PreparedTokenRemembers(target, request, before, later);
  }

  lemma OperationsDiffer()
    ensures REFRESH != RERUN && REFRESH != CANCEL && RERUN != CANCEL
  {
    assert REFRESH[2] != RERUN[2] && REFRESH[0] != CANCEL[0] && RERUN[0] != CANCEL[0];
  }

  /** Every final outcome for a token that a preparation made carries a reason code and a
      reference that result validation accepts, so no outcome is stranded by sealing. */
  lemma FinalOutcomesSeal(target: RepositoryTarget, request: Request, observed: Observation, later: RepositoryTarget,
                          reply: Reply, seen: Observation)
    requires later.repository == request.repository && TargetWorkflowId(later, request.operation) == request.workflowId
    requires |Prepare(target, request, observed).0| <= 4096
    ensures var (token, prepared) := Prepare(target, request, observed);
            && Sealable(prepared)
            && Sealable(DispatchOutcome(later, request, token, reply))
            && Sealable(Recover(later, request, token, seen))
  {
    hide DecodeState, EncodeState, Baseline, Candidates, IsProviderReference, IsReasonCode;
    PreparedTokenDecodes(target, request, observed, later);
    ReasonCodesAreValid();
    EmptyReference();
    var token := Prepare(target, request, observed).0;
    if DecodeState(token, later, request).Some? {
      var state := DecodeState(token, later, request).value;
      LinkIsReference(state.providerReference);
      if request.operation == REFRESH {
        RefreshSeals(Listing(seen), state.baselineRunId, request);
      }
    }
  }

  lemma LinkIsReference(link: string)
    ensures IsRunLink(link) ==> IsProviderReference(link)
  {}

  lemma CatalogReasons()
    ensures IsReasonCode("EXACT_CATALOG_BINDING_FAILED") && IsReasonCode("PROTECTED_MAIN_OBSERVATION_FAILED")
  {}

  lemma BaselineReasons()
    ensures IsReasonCode("WORKFLOW_RUN_BASELINE_FAILED") && IsReasonCode("WORKFLOW_RUN_BINDING_FAILED")
  {}

  lemma RunReasons()
    ensures IsReasonCode("WORKFLOW_RUN_REFERENCE_INVALID") && IsReasonCode("WORKFLOW_RUN_NOT_FAILED")
  {}

  lemma StateReasons()
    ensures IsReasonCode("WORKFLOW_RUN_NOT_CANCELLABLE") && IsReasonCode("RECOVERY_STATE_INVALID")
  {}

  lemma DispatchReasons()
    ensures IsReasonCode("GITHUB_DISPATCH_REJECTED") && IsReasonCode("GITHUB_OPERATION_ACCEPTED")
  {}

  lemma RecoveryReasons()
    ensures IsReasonCode("GITHUB_OPERATION_RECOVERED")
  {}

  lemma ReasonCodesAreValid()
    ensures forall reason :: reason in REASONS ==> IsReasonCode(reason)
  {
    hide IsReasonCode;
    CatalogReasons();
    BaselineReasons();
    RunReasons();
    StateReasons();
    DispatchReasons();
    RecoveryReasons();
  }

  const REASONS: seq<string> := [
    "EXACT_CATALOG_BINDING_FAILED", "PROTECTED_MAIN_OBSERVATION_FAILED", "WORKFLOW_RUN_BASELINE_FAILED",
    "WORKFLOW_RUN_BINDING_FAILED", "WORKFLOW_RUN_REFERENCE_INVALID", "WORKFLOW_RUN_NOT_FAILED",
    "WORKFLOW_RUN_NOT_CANCELLABLE", "RECOVERY_STATE_INVALID", "GITHUB_DISPATCH_REJECTED",
    "GITHUB_OPERATION_ACCEPTED", "GITHUB_OPERATION_RECOVERED"]

  predicate Sealable(outcome: Outcome)
  {
    outcome.final ==> IsReasonCode(outcome.reasonCode) && IsProviderReference(outcome.providerReference)
  }

  lemma EmptyReference()
    ensures IsProviderReference("")
  {}

  lemma RefreshSeals(runs: Option<seq<WorkflowRun>>, baseline: Int64, request: Request)
    ensures runs.Some? ==> Sealable(RecoveredRun(runs.value, baseline, request))
  {
    hide Candidates, IsProviderReference, IsReasonCode;
    ReasonCodesAreValid();
    if runs.Some? && |Candidates(runs.value, baseline, request)| == 1 {
      LinkIsReference(Candidates(runs.value, baseline, request)[0].htmlUrl);
    }
  }
}
