/** How a run moves: nothing stored is ever changed, and every call, in whatever interleaving, comes
    nearer to its return with each of its own steps and prepares at most one dispatch. */
module ProtocolProgress {
  import opened Prelude
  import opened Patterns
  import opened Contract
  import opened Catalog
  import opened Broker
  import opened Protocol
  import opened ProtocolInvariant
  import opened ProtocolSteps
  import opened ProtocolSafety

  // ---------------------------------------------------------------- nothing changes

  /** Every stored value and every recorded event is still there. */
  ghost predicate Accumulates(w: Facts, v: Facts)
  {
    && Extends(w.store.evidence, v.store.evidence) && Extends(w.store.reservations, v.store.reservations)
    && Extends(w.store.bindings, v.store.bindings) && Extends(w.store.approvals, v.store.approvals)
    && Extends(w.store.requests, v.store.requests) && Extends(w.store.dispatches, v.store.dispatches)
    && Extends(w.store.results, v.store.results) && Extends(w.store.receipts, v.store.receipts)
    && Extends(w.origins, v.origins) && Extends(w.reserver, v.reserver) && Extends(w.writer, v.writer) && w.history <= v.history && w.sightings <= v.sightings
    && w.observations <= v.observations
  }

  lemma AccumulatesTrans(u: Facts, v: Facts, w: Facts)
    requires Accumulates(u, v) && Accumulates(v, w)
    ensures Accumulates(u, w)
  {}

  lemma AccumulatesItself(w: Facts)
    ensures Accumulates(w, w)
  {}

  lemma GrowsAccumulates(w: Facts, v: Facts, i: nat)
    requires Grows(w, v, i)
    ensures Accumulates(w, v)
  {
    hide Extends;
  }

  lemma ApplyAccumulates(cfg: Config, w: World, step: Label)
    requires Sound(cfg.env) && Inv(cfg, w)
    ensures Accumulates(w.facts, Apply(cfg, w, step).facts)
  {
    hide Sound, StoreSound, HistorySound, CallSound, Step, Grows, NewKeysSound, Remember;
    if step.Act? && step.call < |w.calls| {
      StepKeeps(cfg, w.facts, step.call, w.calls[step.call], step.action);
      GrowsAccumulates(w.facts, Apply(cfg, w, step).facts, step.call);
    }
  }

  /** Whatever was stored or recorded at some point of a run is unchanged at every later point. */
  lemma {:induction false} NothingChanges(cfg: Config, labels: seq<Label>, n: nat)
    requires Sound(cfg.env) && n <= |labels|
    ensures Accumulates(Exec(cfg, labels[..n]).facts, Exec(cfg, labels).facts)
  {
    hide Sound, Apply, Inv, Accumulates;
    if n == |labels| {
      assert labels[..n] == labels;
      AccumulatesItself(Exec(cfg, labels).facts);
    } else {
      var before := labels[..|labels| - 1];
      assert before[..n] == labels[..n];
      NothingChanges(cfg, before, n);
      ExecKeeps(cfg, before);
      ApplyAccumulates(cfg, Exec(cfg, before), labels[|labels| - 1]);
      AccumulatesTrans(Exec(cfg, labels[..n]).facts, Exec(cfg, before).facts, Exec(cfg, labels).facts);
    }
  }

  // ---------------------------------------------------------------- every step comes nearer to the return

  const LONGEST: nat := 17

  /** How far a call is from its return at most. `resume` counts less once the dispatch is stored:
      it then can no longer go back to `prepare`. */
  function Rank(s: Store, pc: Pc): nat
  {
    match pc
    case ReadingRequest => 17
    case ReadingEvidence => 16
    case Reserving(_, _) => 15
    case ReservingBinding(_, _) => 14
    case ReservingApproval(_, _) => 13
    case StoringRequest(_, _) => 12
    case ReadingWinner => 11
    case Resuming(request) => if request.requestId in s.dispatches then 7 else 10
    case Preparing(_) => 9
    case StoringDispatch(_, _, _) => 8
    case ReadingResult(_, _) => 6
    case Dispatching(_, _) => 5
    case Recovering(_, _) => 5
    case StoringResult(_, _, _) => 4
    case ReadingStoredResult(_, _) => 3
    case StoringReceipt(_, _) => 2
    case ReadingStoredReceipt(_, _) => 1
    case Returned(_) => 0
  }

  /** The call has prepared at most once, and not at all while it still may. */
  predicate PreparedOnce(s: Store, c: Call)
  {
    c.preparations <= (if Rank(s, c.pc) <= 8 then 1 else 0)
  }

  /** The step was one of the call's own: it fits where the call stands. */
  predicate Fits(pc: Pc, a: Action)
  {
    match pc
    case ReadingEvidence => a.Admit?
    case Preparing(_) => a.Provide?
    case Dispatching(_, _) => a.Mutate?
    case Recovering(_, _) => a.Observe?
    case ReadingRequest => a.Read?
    case ReadingWinner => a.Read?
    case Resuming(_) => a.Read?
    case ReadingResult(_, _) => a.Read?
    case ReadingStoredResult(_, _) => a.Read?
    case ReadingStoredReceipt(_, _) => a.Read?
    case Returned(_) => false
    case _ => a.Create?
  }

  ghost predicate SameKey(c: Call)
  {
    c.pc.StoringDispatch? ==> c.pc.dispatch.requestId == c.pc.request.requestId
  }

  lemma CompleteRank(env: Env, s: Store, request: Request, dispatch: Dispatch, outcome: Outcome, now: int)
    ensures Rank(s, Complete(env, request, dispatch, outcome, now)) <= 4
  {
    hide NewResult;
  }

  lemma FinalizeRank(env: Env, s: Store, request: Request, dispatch: Dispatch, result: Result)
    ensures Rank(s, Finalize(env, request, dispatch, result)) <= 2
  {
    hide FinalReceipt;
  }

  ghost predicate StepsDown(cfg: Config, s: Store, c: Call, a: Action)
  {
    var e := Step(cfg, s, c, a);
    if Fits(c.pc, a) then Rank(e.store, e.call.pc) < Rank(s, c.pc) && (c.pc.Preparing? || e.call.preparations == c.preparations)
    else e.call == c && e.store == s
  }

  lemma AdmissionDescends(cfg: Config, s: Store, c: Call, a: Action)
    requires Rank(s, c.pc) >= 11
    ensures StepsDown(cfg, s, c, a)
  {
    hide StepPrepare, StepStoreDispatch, StepDispatch, StepResume, StepReadResult, StepRecover, StepStoreResult,
         StepReadStoredResult, StepStoreReceipt, StepReadStoredReceipt;
    hide RequestOk, RequestDigestOk, MatchesIntent, EvidenceAccepted, InWindow, SealRequest, Draft, BindingDigest,
         ValidReservation, Put;
    assert c.(pc := c.pc) == c;
  }

  lemma DispatchDescends(cfg: Config, s: Store, c: Call, a: Action)
    requires SameKey(c) && 5 <= Rank(s, c.pc) <= 10
    ensures StepsDown(cfg, s, c, a)
  {
    hide StepReadRequest, StepAdmit, StepReserve, StepReserveBinding, StepReserveApproval, StepStoreRequest,
         StepReadWinner, StepStoreResult, StepReadStoredResult, StepStoreReceipt, StepReadStoredReceipt;
    hide Finalize, Complete, DispatchOk, DispatchDigestOk, ResultOk, Prepare, NewDispatch, DecodeState,
         DispatchOutcome, Recover;
    assert c.(pc := c.pc) == c;
    match c.pc
    case StoringDispatch(request, dispatch, prepared) =>
      if a.Create? { CompleteRank(cfg.env, Step(cfg, s, c, a).store, request, dispatch, prepared, a.clock); }
    case Dispatching(request, dispatch) =>
      if a.Mutate? { CompleteRank(cfg.env, s, request, dispatch, DispatchOutcome(c.target, request, dispatch.recoveryToken, a.reply), a.clock); }
    case Recovering(request, dispatch) =>
      if a.Observe? { CompleteRank(cfg.env, s, request, dispatch, Recover(c.target, request, dispatch.recoveryToken, a.observed), a.clock); }
    case ReadingResult(request, dispatch) =>
      if request.requestId in s.results { FinalizeRank(cfg.env, s, request, dispatch, s.results[request.requestId]); }
    case _ =>
  }

  lemma CompletionDescends(cfg: Config, s: Store, c: Call, a: Action)
    requires Rank(s, c.pc) <= 4
    ensures StepsDown(cfg, s, c, a)
  {
    hide StepReadRequest, StepAdmit, StepReserve, StepReserveBinding, StepReserveApproval, StepStoreRequest,
         StepReadWinner, StepPrepare, StepStoreDispatch, StepDispatch, StepResume, StepReadResult, StepRecover;
    hide Finalize, ResultOk, ResultDigestOk, ReceiptOk, ReceiptDigestOk, ReceiptKey, FindReceipt;
    assert c.(pc := c.pc) == c;
    match c.pc
    case ReadingStoredResult(request, dispatch) =>
      if request.requestId in s.results { FinalizeRank(cfg.env, s, request, dispatch, s.results[request.requestId]); }
    case StoringResult(request, dispatch, result) => FinalizeRank(cfg.env, Step(cfg, s, c, a).store, request, dispatch, result);
    case _ =>
  }

  /** A fitting step lowers the rank and any other action changes nothing. */
  lemma StepDescends(cfg: Config, s: Store, c: Call, a: Action)
    requires SameKey(c)
    ensures StepsDown(cfg, s, c, a)
  {
    hide StepsDown, SameKey, Rank;
    if Rank(s, c.pc) >= 11 { AdmissionDescends(cfg, s, c, a); }
    else if Rank(s, c.pc) >= 5 { DispatchDescends(cfg, s, c, a); }
    else { CompletionDescends(cfg, s, c, a); }
  }

  lemma PreparesOnceStep(cfg: Config, s: Store, c: Call, a: Action)
    requires SameKey(c) && PreparedOnce(s, c)
    ensures PreparedOnce(Step(cfg, s, c, a).store, Step(cfg, s, c, a).call)
  {
    StepDescends(cfg, s, c, a);
    hide StepPrepare;
    if c.pc.Preparing? && a.Provide? {
      assert Step(cfg, s, c, a).call.preparations == c.preparations + 1;
    } else {
      hide Step;
    }
  }

  lemma OthersRank(s: Store, t: Store, c: Call)
    requires Extends(s.dispatches, t.dispatches)
    ensures Rank(t, c.pc) <= Rank(s, c.pc)
    ensures PreparedOnce(s, c) ==> PreparedOnce(t, c)
  {}

  lemma SoundSameKey(cfg: Config, f: Facts, i: nat, c: Call)
    requires CallSound(cfg, f, i, c)
    ensures SameKey(c)
  {
    hide Authorized, Readable, DispatchOk;
  }

  /** The world seen from one call: where it stands and what it has prepared. */
  ghost predicate Descends(w: World, v: World, i: nat, own: bool)
    requires i < |w.calls| && i < |v.calls|
  {
    var before, after := Rank(w.facts.store, w.calls[i].pc), Rank(v.facts.store, v.calls[i].pc);
    if own then after < before else after <= before
  }

  /** No label ever takes a call further from its return, and each of its own steps takes it nearer. */
  lemma EveryStepDescends(cfg: Config, w: World, step: Label, i: nat)
    requires Sound(cfg.env) && Inv(cfg, w) && i < |w.calls|
    ensures |w.calls| <= |Apply(cfg, w, step).calls|
    ensures Descends(w, Apply(cfg, w, step), i, step.Act? && step.call == i && Fits(w.calls[i].pc, step.action))
    ensures PreparedOnce(w.facts.store, w.calls[i]) ==> PreparedOnce(Apply(cfg, w, step).facts.store, Apply(cfg, w, step).calls[i])
  {
    ApplyAccumulates(cfg, w, step);
    hide Sound, StoreSound, HistorySound, CallSound, Step, Extends, Begin, WellFormed, Rank, PreparedOnce, Fits,
         SameKey;
    assert CallSound(cfg, w.facts, i, w.calls[i]);
    SoundSameKey(cfg, w.facts, i, w.calls[i]);
    if step.Act? && step.call == i {
      StepDescends(cfg, w.facts.store, w.calls[i], step.action);
      if PreparedOnce(w.facts.store, w.calls[i]) { PreparesOnceStep(cfg, w.facts.store, w.calls[i], step.action); }
    } else {
      OthersRank(w.facts.store, Apply(cfg, w, step).facts.store, w.calls[i]);
    }
  }

  /** How many of the labels were steps of call `i`. */
  ghost function OwnSteps(cfg: Config, labels: seq<Label>, i: nat): nat
  {
    if labels == [] then 0
    else
      var before, step := Exec(cfg, labels[..|labels| - 1]), labels[|labels| - 1];
      OwnSteps(cfg, labels[..|labels| - 1], i)
      + if step.Act? && step.call == i < |before.calls| && Fits(before.calls[i].pc, step.action) then 1 else 0
  }

  lemma BeginRank(s: Store, requester: string, role: int, catalog: Catalog, intent: Intent)
    ensures Rank(s, Begin(requester, role, catalog, intent).pc) <= LONGEST
    ensures PreparedOnce(s, Begin(requester, role, catalog, intent))
  {
    hide Authorize, IsUuid, AllowedOperation;
  }

  lemma NewCall(cfg: Config, w: World, step: Label, i: nat)
    requires |w.calls| <= i < |Apply(cfg, w, step).calls|
    ensures var v := Apply(cfg, w, step); Rank(v.facts.store, v.calls[i].pc) <= LONGEST && PreparedOnce(v.facts.store, v.calls[i])
  {
    hide WellFormed, Begin, Step;
    assert step.Enter?;
    BeginRank(w.facts.store, step.requester, step.role, step.catalog, step.intent);
  }

  lemma NoOwnSteps(cfg: Config, labels: seq<Label>, i: nat)
    requires Sound(cfg.env) && i >= |Exec(cfg, labels).calls|
    ensures OwnSteps(cfg, labels, i) == 0
  {
    if labels != [] {
      hide Sound, Step, WellFormed, Begin;
      NoOwnSteps(cfg, labels[..|labels| - 1], i);
    }
  }

  /** In every run and every interleaving a call makes at most seventeen steps, enters `prepare` at
      most once, and so always returns when it is scheduled often enough. */
  lemma {:induction false} EveryCallReturns(cfg: Config, labels: seq<Label>, i: nat)
    requires Sound(cfg.env) && i < |Exec(cfg, labels).calls|
    ensures OwnSteps(cfg, labels, i) + Rank(Exec(cfg, labels).facts.store, Exec(cfg, labels).calls[i].pc) <= LONGEST
    ensures PreparedOnce(Exec(cfg, labels).facts.store, Exec(cfg, labels).calls[i])
  {
    if labels != [] {
      var before, step := labels[..|labels| - 1], labels[|labels| - 1];
      hide Sound, Apply, Inv, Rank, PreparedOnce;
      if i < |Exec(cfg, before).calls| {
        EveryCallReturns(cfg, before, i);
        ExecKeeps(cfg, before);
        EveryStepDescends(cfg, Exec(cfg, before), step, i);
      } else {
        NoOwnSteps(cfg, before, i);
        NewCall(cfg, Exec(cfg, before), step, i);
      }
    }
  }

  /** The conflict branch after `PutRequest` is never taken: whoever reserved a request ID is the
      only one who stores that request. */
  lemma StoringRequestNeverConflicts(cfg: Config, w: World, i: nat)
    requires Sound(cfg.env) && Reachable(cfg, w) && i < |w.calls| && w.calls[i].pc.StoringRequest?
    ensures w.calls[i].pc.request.requestId !in w.facts.store.requests
  {
    hide Sound, Reachable, StoreSound, HistorySound, Authorized, AdmittedCall, BindingReserved, ApprovalReserved;
    ReachableKeeps(cfg, w);
    assert CallSound(cfg, w.facts, i, w.calls[i]);
  }
}
