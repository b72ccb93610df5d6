/** What a crash or a lost answer costs for good: a request ID that is never usable again, and a
    dispatch that is never sent. */
module ProtocolCrash {
  import opened Prelude
  import opened Patterns
  import opened Contract
  import opened Catalog
  import opened Broker
  import opened Protocol
  import opened ProtocolInvariant
  import opened ProtocolSteps
  import opened ProtocolSafety
  import opened ProtocolProgress
  import opened ProtocolRetry

  // ---------------------------------------------------------------- burned request IDs

  /** The call holds the reservation of this request ID and has not stored the request. */
  predicate HoldsReservation(pc: Pc, id: string)
  {
    (pc.ReservingBinding? || pc.ReservingApproval? || pc.StoringRequest?) && pc.request.requestId == id
  }

  /** The request ID is reserved, its request is not stored, and only crashed calls could store it. */
  ghost predicate Burned(w: World, id: string, crashed: set<nat>)
  {
    && id in w.facts.store.reservations && id !in w.facts.store.requests
    && forall i :: 0 <= i < |w.calls| && i !in crashed ==> !HoldsReservation(w.calls[i].pc, id)
  }

  ghost predicate NeverScheduled(labels: seq<Label>, crashed: set<nat>)
  {
    forall n :: 0 <= n < |labels| && labels[n].Act? ==> labels[n].call !in crashed
  }

  predicate Admitting(pc: Pc)
  {
    || pc.ReadingRequest? || pc.ReadingEvidence? || pc.Reserving? || pc.ReservingBinding? || pc.ReservingApproval?
    || pc.StoringRequest? || pc.ReadingWinner?
  }

  lemma MemoryReserveWrites(cfg: Config, s: Store, c: Call, write: Write, id: string)
    requires c.pc.Reserving? && cfg.backend.Memory?
    ensures id in StepReserve(cfg, s, c, write).store.requests <==> id in s.requests
  {
    hide BindingDigest, ValidReservation;
  }

  lemma GcsReserveWrites(cfg: Config, s: Store, c: Call, write: Write, id: string)
    requires c.pc.Reserving? && cfg.backend.Gcs?
    ensures id in StepReserve(cfg, s, c, write).store.requests <==> id in s.requests
  {
    hide BindingDigest, ValidReservation, Put;
  }

  lemma KeyWrites(cfg: Config, s: Store, c: Call, write: Write, id: string)
    ensures c.pc.ReservingBinding? ==> (id in StepReserveBinding(cfg, s, c, write).store.requests <==> id in s.requests)
    ensures c.pc.ReservingApproval? ==> (id in StepReserveApproval(s, c, write).store.requests <==> id in s.requests)
  {
    hide BindingDigest, Put;
  }

  lemma DispatchWrites(cfg: Config, s: Store, c: Call, write: Write, clock: int, id: string)
    ensures c.pc.StoringDispatch? ==> (id in StepStoreDispatch(cfg.env, s, c, write, clock).store.requests <==> id in s.requests)
  {
    hide DispatchDigestOk, Complete, Put;
  }

  lemma ResultWrites(cfg: Config, s: Store, c: Call, write: Write, id: string)
    ensures c.pc.StoringResult? ==> (id in StepStoreResult(cfg.env, s, c, write).store.requests <==> id in s.requests)
  {
    hide ResultDigestOk, Finalize, Put;
  }

  lemma ReceiptWrites(cfg: Config, s: Store, c: Call, write: Write, id: string)
    ensures c.pc.StoringReceipt? ==> (id in StepStoreReceipt(cfg, s, c, write).store.requests <==> id in s.requests)
  {
    hide ReceiptDigestOk, ReceiptKey, Put;
  }

  /** Only `PutRequest` writes a request. */
  lemma RequestsWritten(cfg: Config, s: Store, c: Call, a: Action, id: string)
    ensures !c.pc.StoringRequest? ==> (id in Step(cfg, s, c, a).store.requests <==> id in s.requests)
  {
    hide StepReadRequest, StepAdmit, StepReserve, StepReserveBinding, StepReserveApproval, StepStoreRequest,
         StepReadWinner, Prepare, NewDispatch, StepStoreDispatch, StepResume, StepReadResult, Complete, DecodeState,
         DispatchOutcome, Recover, StepStoreResult, StepReadStoredResult, StepStoreReceipt, StepReadStoredReceipt;
    if a.Create? {
      if c.pc.Reserving? {
        if cfg.backend.Memory? { MemoryReserveWrites(cfg, s, c, a.write, id); } else { GcsReserveWrites(cfg, s, c, a.write, id); }
      }
      KeyWrites(cfg, s, c, a.write, id);
      DispatchWrites(cfg, s, c, a.write, a.clock, id);
      ResultWrites(cfg, s, c, a.write, id);
      ReceiptWrites(cfg, s, c, a.write, id);
    }
  }

  lemma OtherRequestStored(env: Env, s: Store, c: Call, write: Write, id: string)
    requires c.pc.StoringRequest? && c.pc.request.requestId != id && id !in s.requests
    ensures id !in StepStoreRequest(env, s, c, write).store.requests
  {
    hide RequestDigestOk;
  }

  /** A taken reservation is not handed out again. */
  lemma NotReservedAgain(cfg: Config, s: Store, c: Call, write: Write, id: string)
    requires id in s.reservations && c.pc.Reserving?
    ensures !HoldsReservation(StepReserve(cfg, s, c, write).call.pc, id)
  {
    hide BindingDigest, ValidReservation;
  }

  lemma AdmissionHolds(cfg: Config, s: Store, c: Call, a: Action, id: string)
    requires Admitting(c.pc) && !HoldsReservation(c.pc, id) && id in s.reservations
    ensures !HoldsReservation(Step(cfg, s, c, a).call.pc, id)
  {
    hide StepPrepare, StepStoreDispatch, StepDispatch, StepResume, StepReadResult, StepRecover, StepStoreResult,
         StepReadStoredResult, StepStoreReceipt, StepReadStoredReceipt, StepReserve;
    hide RequestOk, RequestDigestOk, MatchesIntent, EvidenceAccepted, InWindow, SealRequest, Draft, BindingDigest,
         Put;
    if c.pc.Reserving? && a.Create? { NotReservedAgain(cfg, s, c, a.write, id); }
  }

  lemma LaterHolds(cfg: Config, s: Store, c: Call, a: Action, id: string)
    requires !Admitting(c.pc)
    ensures !HoldsReservation(Step(cfg, s, c, a).call.pc, id)
  {
    hide StepReadRequest, StepAdmit, StepReserve, StepReserveBinding, StepReserveApproval, StepStoreRequest,
         StepReadWinner;
    hide DispatchOk, DispatchDigestOk, ResultOk, ResultDigestOk, ReceiptOk, ReceiptDigestOk, Prepare, NewDispatch,
         NewResult, FinalReceipt, DecodeState, DispatchOutcome, Recover, ReceiptKey, FindReceipt, Put;
  }

  lemma BurnedStays(cfg: Config, w: World, step: Label, id: string, crashed: set<nat>)
    requires Sound(cfg.env) && Reachable(cfg, w)
    requires Burned(w, id, crashed) && (step.Act? ==> step.call !in crashed)
    ensures Burned(Apply(cfg, w, step), id, crashed)
  {
    hide Sound, Reachable, StoreSound, HistorySound, CallSound, Step, WellFormed, Authorize, HoldsReservation,
         Remember, StepStoreRequest;
    ReachableKeeps(cfg, w);
    ApplyAccumulates(cfg, w, step);
    if step.Act? && step.call < |w.calls| {
      var c := w.calls[step.call];
      if Admitting(c.pc) { AdmissionHolds(cfg, w.facts.store, c, step.action, id); } else { LaterHolds(cfg, w.facts.store, c, step.action, id); }
      StillUnstored(cfg, w.facts, step.call, c, step.action, id);
    } else if step.Enter? {
      BeginHolds(step.requester, step.role, step.catalog, step.intent, id);
    }
  }

  lemma BeginHolds(requester: string, role: int, catalog: Catalog, intent: Intent, id: string)
    ensures !HoldsReservation(Begin(requester, role, catalog, intent).pc, id)
  {
    hide Authorize, IsUuid, AllowedOperation;
  }

  lemma StillUnstored(cfg: Config, f: Facts, i: nat, c: Call, a: Action, id: string)
    requires !HoldsReservation(c.pc, id) && id !in f.store.requests
    ensures id !in Remember(f, i, c.intent.requestId, Step(cfg, f.store, c, a)).store.requests
  {
    RequestsWritten(cfg, f.store, c, a, id);
    if c.pc.StoringRequest? && a.Create? {
      OtherRequestStored(cfg.env, f.store, c, a.write, id);
      hide StepStoreRequest;
      assert Step(cfg, f.store, c, a) == StepStoreRequest(cfg.env, f.store, c, a.write);
    } else if c.pc.StoringRequest? {
      assert Step(cfg, f.store, c, a).store == f.store;
    }
    hide Step;
  }

  /** A crash between the reservation and `PutRequest` burns the request ID: whatever happens later,
      its request is never stored, nothing is dispatched for it and no caller gets a receipt for it. */
  lemma {:induction false} BurnedForever(cfg: Config, w: World, id: string, crashed: set<nat>, labels: seq<Label>)
    requires Sound(cfg.env) && Reachable(cfg, w) && Burned(w, id, crashed) && NeverScheduled(labels, crashed)
    ensures var v := Run(cfg, w, labels);
            && id !in v.facts.store.requests && Unsent(v.facts.history, id)
            && forall i: nat, receipt :: Delivered(v, i, receipt) ==> v.calls[i].intent.requestId != id
    decreases |labels|
  {
    hide Sound, Reachable, Apply, StoreSound, HistorySound, CallSound;
    if labels == [] {
      ReachableKeeps(cfg, w);
      NotStoredNotServed(cfg, w, id);
    } else {
      BurnedStays(cfg, w, labels[0], id, crashed);
      RunOne(cfg, w, labels[0]);
      RunReachable(cfg, w, [labels[0]]);
      BurnedForever(cfg, Apply(cfg, w, labels[0]), id, crashed, labels[1..]);
    }
  }

  lemma NotStoredNotServed(cfg: Config, w: World, id: string)
    requires Inv(cfg, w) && id !in w.facts.store.requests
    ensures Unsent(w.facts.history, id)
    ensures forall i: nat, receipt :: Delivered(w, i, receipt) ==> w.calls[i].intent.requestId != id
  {
    hide StoreSound, Readable, Enabled, Deliverable, Durable, Authorized;
    forall k | 0 <= k < |w.facts.history| ensures w.facts.history[k].request.requestId != id {
      assert EventSound(w.facts, w.facts.history[k]);
    }
    forall i: nat, receipt | Delivered(w, i, receipt) ensures w.calls[i].intent.requestId != id {
      assert CallSound(cfg, w.facts, i, w.calls[i]);
      assert AnswerSound(cfg, w.facts, w.calls[i], receipt);
    }
  }

  // ---------------------------------------------------------------- orphaned dispatches

  /** The dispatch record is stored but no call was told so. */
  ghost predicate Orphaned(w: World, id: string)
  {
    id in w.facts.store.dispatches && id !in w.facts.writer
  }

  /** `PutDispatch` that stores the record but reports an error orphans it. */
  lemma LostAnswerOrphans(cfg: Config, w: World, i: nat, clock: int)
    requires Sound(cfg.env) && Reachable(cfg, w) && i < |w.calls| && w.calls[i].pc.StoringDispatch?
    requires w.calls[i].pc.dispatch.requestId !in w.facts.store.dispatches && DispatchDigestOk(cfg.env, w.calls[i].pc.dispatch)
    ensures var v := Apply(cfg, w, Act(i, Create(AnswerLost, clock)));
            Orphaned(v, w.calls[i].pc.dispatch.requestId) && v.calls[i].pc == Fail(Internal)
  {
    hide Sound, Reachable, HistorySound, CallSound, DispatchDigestOk, RequestSound, DispatchSound, ResultSound,
         ReceiptSound;
    ReachableKeeps(cfg, w);
    assert Step(cfg, w.facts.store, w.calls[i], Create(AnswerLost, clock))
        == StepStoreDispatch(cfg.env, w.facts.store, w.calls[i], AnswerLost, clock);
  }

  ghost predicate OwnDispatch(c: Call)
  {
    c.pc.StoringDispatch? ==> c.pc.dispatch.requestId == c.intent.requestId
  }

  lemma StepWritesFreeKey(cfg: Config, s: Store, c: Call, a: Action)
    requires OwnDispatch(c)
    ensures Step(cfg, s, c, a).wrote ==> c.intent.requestId !in s.dispatches
  {
    hide Finalize, Complete, RequestOk, RequestDigestOk, DispatchOk, DispatchDigestOk, ResultOk, ResultDigestOk,
         ReceiptOk, ReceiptDigestOk, MatchesIntent, EvidenceAccepted, InWindow, SealRequest, Draft, BindingDigest,
         ValidReservation, Prepare, NewDispatch, DecodeState, DispatchOutcome, Recover, ReceiptKey, FindReceipt;
  }

  lemma SoundOwnDispatch(cfg: Config, f: Facts, i: nat, c: Call)
    requires CallSound(cfg, f, i, c)
    ensures OwnDispatch(c)
  {
    hide Authorized, Readable, DispatchOk;
  }

  lemma OrphanStays(cfg: Config, w: World, step: Label, id: string)
    requires Sound(cfg.env) && Reachable(cfg, w) && Orphaned(w, id)
    ensures Orphaned(Apply(cfg, w, step), id)
  {
    hide Sound, Reachable, StoreSound, HistorySound, CallSound, Step, WellFormed, Begin, Grows, NewKeysSound,
         Remember;
    ReachableKeeps(cfg, w);
    if step.Act? && step.call < |w.calls| {
      var c := w.calls[step.call];
      SoundOwnDispatch(cfg, w.facts, step.call, c);
      StepWritesFreeKey(cfg, w.facts.store, c, step.action);
      StepKeeps(cfg, w.facts, step.call, c, step.action);
      GrownDispatches(w.facts, Apply(cfg, w, step).facts, step.call, id);
      WriterUnchanged(w.facts, step.call, c.intent.requestId, Step(cfg, w.facts.store, c, step.action), id);
    }
  }

  lemma GrownDispatches(w: Facts, v: Facts, i: nat, id: string)
    requires Grows(w, v, i) && id in w.store.dispatches
    ensures id in v.store.dispatches
  {}

  lemma WriterUnchanged(w: Facts, i: nat, key: string, e: Effect, id: string)
    requires id !in w.writer && (e.wrote ==> key != id)
    ensures id !in Remember(w, i, key, e).writer
  {}

  /** At most once, not exactly once: a dispatch record whose writer never learned that it was stored
      is never dispatched, whatever happens later. */
  lemma {:induction false} OrphanNeverSent(cfg: Config, w: World, id: string, labels: seq<Label>)
    requires Sound(cfg.env) && Reachable(cfg, w) && Orphaned(w, id)
    ensures Unsent(Run(cfg, w, labels).facts.history, id)
    decreases |labels|
  {
    hide Sound, Reachable, Apply, StoreSound, CallSound, Readable, Enabled;
    if labels == [] {
      ReachableKeeps(cfg, w);
      forall k | 0 <= k < |w.facts.history| ensures w.facts.history[k].request.requestId != id {
        assert EventSound(w.facts, w.facts.history[k]);
      }
    } else {
      OrphanStays(cfg, w, labels[0], id);
      RunOne(cfg, w, labels[0]);
      RunReachable(cfg, w, [labels[0]]);
      OrphanNeverSent(cfg, Apply(cfg, w, labels[0]), id, labels[1..]);
    }
  }

  /** A `PutDispatch` that is performed but reports an error ends its call and leaves a record for which
      nothing is ever sent, whatever happens later and whoever retries. */
  lemma LostAnswerNeverSent(cfg: Config, w: World, i: nat, clock: int, labels: seq<Label>)
    requires Sound(cfg.env) && Reachable(cfg, w) && i < |w.calls| && w.calls[i].pc.StoringDispatch?
    requires w.calls[i].pc.dispatch.requestId !in w.facts.store.dispatches && DispatchDigestOk(cfg.env, w.calls[i].pc.dispatch)
    ensures var v := Apply(cfg, w, Act(i, Create(AnswerLost, clock)));
            && v.calls[i].pc == Fail(Internal) && w.calls[i].pc.dispatch.requestId in v.facts.store.dispatches
            && Unsent(Run(cfg, v, labels).facts.history, w.calls[i].pc.dispatch.requestId)
  {
    hide Sound, Reachable, Apply, DispatchDigestOk, Unsent;
    LostAnswerOrphans(cfg, w, i, clock);
    RunOne(cfg, w, Act(i, Create(AnswerLost, clock)));
    RunReachable(cfg, w, [Act(i, Create(AnswerLost, clock))]);
    OrphanNeverSent(cfg, Apply(cfg, w, Act(i, Create(AnswerLost, clock))), w.calls[i].pc.dispatch.requestId, labels);
  }
}
