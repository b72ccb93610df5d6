/** The reservation of the bucket repository (internal/storage/gcs.go:204-216): three create-only
    writes that interleave with those of other callers, against the atomic reservation of the
    in-memory one (internal/storage/repository.go:122-141). */
module Reservation {
  import opened Prelude
  import opened Contract
  import opened Protocol
  import MemoryRepository

  /** What one caller tries to reserve. */
  datatype Claim = Claim(requestId: string, bindingDigest: string, approvalId: string, nonce: string, expiresAt: string)

  /** The key of write number 0, 1 or 2. */
  function Key(c: Claim, n: nat): string
  {
    if n == 0 then c.requestId else if n == 1 then c.bindingDigest else c.approvalId
  }

  /** How many of its writes a caller was told succeeded, and whether one did not. */
  datatype Contender = Contender(claim: Claim, got: nat, stopped: bool)

  /** The keys taken under each of the three prefixes, everyone's progress, and the winners in the
      order in which the last of their writes succeeded. */
  datatype Race = Race(taken: seq<set<string>>, contenders: seq<Contender>, winners: seq<nat>)

  predicate Proper(r: Race)
  {
    |r.taken| == 3 && forall i :: 0 <= i < |r.contenders| ==> r.contenders[i].got <= 3
  }

  predicate Running(c: Contender) { c.got < 3 && !c.stopped }

  /** The next write of contender `i`; one that won or stopped does nothing. */
  function Advance(r: Race, i: nat, write: Write): (v: Race)
    requires Proper(r) && i < |r.contenders|
    ensures Proper(v)
  {
    var c := r.contenders[i];
    if !Running(c) then r
    else
      var key, keys := Key(c.claim, c.got), r.taken[c.got];
      var stored := React(key in keys, write).Stored?;
      Race(if write.NotPerformed? then r.taken else r.taken[c.got := keys + {key}],
           r.contenders[i := if stored then c.(got := c.got + 1) else c.(stopped := true)],
           if stored && c.got == 2 then r.winners + [i] else r.winners)
  }

  datatype Turn = Turn(contender: nat, write: Write)

  function Runs(r: Race, turns: seq<Turn>): (v: Race)
    requires Proper(r)
    ensures Proper(v)
    decreases |turns|
  {
    if turns == [] then r
    else
      var turn := turns[0];
      Runs(if turn.contender < |r.contenders| then Advance(r, turn.contender, turn.write) else r, turns[1..])
  }

  /** Nobody has written yet. */
  predicate Begins(r: Race)
  {
    Proper(r) && r.winners == [] && forall i :: 0 <= i < |r.contenders| ==> r.contenders[i].got == 0 && !r.contenders[i].stopped
  }

  // ---------------------------------------------------------------- safety

  /** The contender was told that it got its key number `n`. */
  predicate Owns(r: Race, i: int, n: int)
  {
    0 <= i < |r.contenders| && 0 <= n < r.contenders[i].got
  }

  /** What was got is taken, and was got by one contender only. */
  ghost predicate Exclusive(r: Race)
    requires Proper(r)
  {
    && (forall i, n :: Owns(r, i, n) ==> Key(r.contenders[i].claim, n) in r.taken[n])
    && (forall i, j, n :: Owns(r, i, n) && Owns(r, j, n) && i != j ==> Key(r.contenders[i].claim, n) != Key(r.contenders[j].claim, n))
  }

  /** Whoever is listed as a winner got all three keys, and is listed once. */
  predicate Listed(r: Race)
  {
    && (forall k :: 0 <= k < |r.winners| ==> r.winners[k] < |r.contenders| && r.contenders[r.winners[k]].got == 3)
    && (forall j, k :: 0 <= j < k < |r.winners| ==> r.winners[j] != r.winners[k])
  }

  /** One write: who owns what afterwards. */
  lemma AdvanceOwns(r: Race, i: nat, write: Write, j: int, n: int)
    requires Proper(r) && i < |r.contenders|
    ensures |Advance(r, i, write).contenders| == |r.contenders|
    ensures 0 <= j < |r.contenders| ==> Advance(r, i, write).contenders[j].claim == r.contenders[j].claim
    ensures Owns(Advance(r, i, write), j, n) ==>
              Owns(r, j, n) || (j == i && n == r.contenders[i].got && Running(r.contenders[i]) && Key(r.contenders[i].claim, n) !in r.taken[n])
    ensures Owns(r, j, n) ==> Owns(Advance(r, i, write), j, n)
    ensures Owns(Advance(r, i, write), j, n) && !Owns(r, j, n) ==> Key(r.contenders[i].claim, n) in Advance(r, i, write).taken[n]
  {
    hide Key;
  }

  lemma AdvanceTakes(r: Race, i: nat, write: Write, n: nat)
    requires Proper(r) && i < |r.contenders| && n < 3
    ensures r.taken[n] <= Advance(r, i, write).taken[n]
  {
    hide Key;
  }

  lemma AdvanceExclusive(r: Race, i: nat, write: Write)
    requires Proper(r) && i < |r.contenders| && Exclusive(r)
    ensures Exclusive(Advance(r, i, write))
  {
    var v := Advance(r, i, write);
    hide Advance, Key, Owns, Running;
    forall j, n | Owns(v, j, n) ensures Key(v.contenders[j].claim, n) in v.taken[n] {
      OwnsInRange(v, j, n);
      AdvanceOwns(r, i, write, j, n);
      AdvanceTakes(r, i, write, n);
    }
    forall j, k, n | Owns(v, j, n) && Owns(v, k, n) && j != k ensures Key(v.contenders[j].claim, n) != Key(v.contenders[k].claim, n) {
      OwnsInRange(v, j, n);
      OwnsInRange(v, k, n);
      AdvanceOwns(r, i, write, j, n);
      AdvanceOwns(r, i, write, k, n);
    }
  }

  lemma OwnsInRange(r: Race, i: int, n: int)
    requires Proper(r) && Owns(r, i, n)
    ensures 0 <= i < |r.contenders| && 0 <= n < 3
  {}

  lemma AdvanceListed(r: Race, i: nat, write: Write)
    requires Proper(r) && i < |r.contenders| && Listed(r)
    ensures Listed(Advance(r, i, write))
  {
    hide Key;
  }

  lemma {:induction false} RunKeeps(r: Race, turns: seq<Turn>)
    requires Proper(r) && Exclusive(r) && Listed(r)
    ensures Exclusive(Runs(r, turns)) && Listed(Runs(r, turns))
    decreases |turns|
  {
    hide Exclusive, Listed, Advance;
    if turns != [] && turns[0].contender < |r.contenders| {
      AdvanceExclusive(r, turns[0].contender, turns[0].write);
      AdvanceListed(r, turns[0].contender, turns[0].write);
      RunKeeps(Advance(r, turns[0].contender, turns[0].write), turns[1..]);
    } else if turns != [] {
      RunKeeps(r, turns[1..]);
    }
  }

  /** The claims of the winners, in winning order. */
  function Winners(r: Race): (s: seq<Claim>)
    requires Listed(r)
    ensures |s| == |r.winners| && forall k :: 0 <= k < |s| ==> s[k] == r.contenders[r.winners[k]].claim
  {
    seq(|r.winners|, k requires 0 <= k < |r.winners| => r.contenders[r.winners[k]].claim)
  }

  /** Two claims share no key. */
  predicate Apart(a: Claim, b: Claim)
  {
    a.requestId != b.requestId && a.bindingDigest != b.bindingDigest && a.approvalId != b.approvalId
  }

  ghost predicate AllApart(claims: seq<Claim>)
  {
    forall j, k :: 0 <= j < k < |claims| ==> Apart(claims[j], claims[k])
  }

  /** In every interleaving, with failed and lost answers anywhere, the winners share no key. */
  lemma WinnersApart(r: Race, turns: seq<Turn>)
    requires Begins(r)
    ensures Listed(Runs(r, turns)) && AllApart(Winners(Runs(r, turns)))
  {
    RunKeeps(r, turns);
    var v := Runs(r, turns);
    hide Runs;
    forall j, k | 0 <= j < k < |Winners(v)| ensures Apart(Winners(v)[j], Winners(v)[k]) {
      var a, b := v.winners[j], v.winners[k];
      assert forall n :: 0 <= n < 3 ==> Owns(v, a, n) && Owns(v, b, n);
      assert forall n :: 0 <= n < 3 ==> Key(v.contenders[a].claim, n) != Key(v.contenders[b].claim, n);
      assert Key(v.contenders[a].claim, 0) != Key(v.contenders[b].claim, 0) && Key(v.contenders[a].claim, 1) != Key(v.contenders[b].claim, 1)
        && Key(v.contenders[a].claim, 2) != Key(v.contenders[b].claim, 2);
    }
  }

  lemma EmptyContents(memory: MemoryRepository.MemoryRepository)
    requires memory.Contents() == EMPTY
    ensures memory.reservations == map[] && memory.bindings == map[] && memory.approvals == map[]
  {}

  /** Replaying the winners in order on the in-memory repository, whose reservation is atomic, succeeds
      each time: the interleaved reservation allows nothing that the atomic one would refuse. */
  method ReplayWinners(memory: MemoryRepository.MemoryRepository, winners: seq<Claim>) returns (reactions: seq<Reaction>)
    requires memory.Contents() == EMPTY && AllApart(winners)
    requires forall k :: 0 <= k < |winners| ==>
               ValidReservation(memory.env, winners[k].requestId, winners[k].bindingDigest, winners[k].approvalId,
                                winners[k].nonce, winners[k].expiresAt)
    modifies memory
    ensures |reactions| == |winners| && forall k :: 0 <= k < |winners| ==> reactions[k] == Stored
    ensures forall k :: 0 <= k < |winners| ==> winners[k].requestId in memory.reservations
    ensures forall k :: 0 <= k < |winners| ==> winners[k].bindingDigest in memory.bindings && winners[k].approvalId in memory.approvals
  {
    hide ValidReservation, MemoryRepository.MemoryRepository.Contents;
    EmptyContents(memory);
    reactions := [];
    for n := 0 to |winners|
      invariant |reactions| == n && forall k :: 0 <= k < n ==> reactions[k] == Stored
      invariant forall k :: 0 <= k < n ==> winners[k].requestId in memory.reservations
      invariant forall k :: 0 <= k < n ==> winners[k].bindingDigest in memory.bindings && winners[k].approvalId in memory.approvals
      invariant forall k :: n <= k < |winners| ==> winners[k].requestId !in memory.reservations
      invariant forall k :: n <= k < |winners| ==> winners[k].bindingDigest !in memory.bindings && winners[k].approvalId !in memory.approvals
    {
      var w := winners[n];
      assert forall k :: n < k < |winners| ==> Apart(w, winners[k]);
      var reaction := memory.ReserveRequest(w.requestId, w.bindingDigest, w.approvalId, w.nonce, w.expiresAt);
      reactions := reactions + [reaction];
    }
  }

  ghost predicate ValidClaim(env: Env, c: Claim)
  {
    ValidReservation(env, c.requestId, c.bindingDigest, c.approvalId, c.nonce, c.expiresAt)
  }

  lemma {:induction false} RunClaims(r: Race, turns: seq<Turn>)
    requires Proper(r)
    ensures |Runs(r, turns).contenders| == |r.contenders|
    ensures forall i :: 0 <= i < |r.contenders| ==> Runs(r, turns).contenders[i].claim == r.contenders[i].claim
    decreases |turns|
  {
    hide Advance;
    if turns != [] && turns[0].contender < |r.contenders| {
      var v := Advance(r, turns[0].contender, turns[0].write);
      AdvanceOwns(r, turns[0].contender, turns[0].write, 0, 0);
      forall i | 0 <= i < |r.contenders| ensures v.contenders[i].claim == r.contenders[i].claim {
        AdvanceOwns(r, turns[0].contender, turns[0].write, i, 0);
      }
      RunClaims(v, turns[1..]);
    } else if turns != [] {
      RunClaims(r, turns[1..]);
    }
  }

  /** Whatever race the bucket has seen, its winners, in the order in which they won, all succeed on an empty
      in-memory repository. */
  method ReplayRace(memory: MemoryRepository.MemoryRepository, r: Race, turns: seq<Turn>) returns (reactions: seq<Reaction>)
    requires memory.Contents() == EMPTY && Begins(r) && forall i :: 0 <= i < |r.contenders| ==> ValidClaim(memory.env, r.contenders[i].claim)
    modifies memory
    ensures var v := Runs(r, turns);
            && |reactions| == |v.winners| && (forall k :: 0 <= k < |v.winners| ==> reactions[k] == Stored)
            && forall k :: 0 <= k < |v.winners| ==>
                 && v.winners[k] < |v.contenders| && v.contenders[v.winners[k]].got == 3
                 && v.contenders[v.winners[k]].claim.requestId in memory.reservations
                 && v.contenders[v.winners[k]].claim.bindingDigest in memory.bindings
                 && v.contenders[v.winners[k]].claim.approvalId in memory.approvals
  {
    hide ValidReservation, Advance;
    WinnersApart(r, turns);
    RunClaims(r, turns);
    var v := Runs(r, turns);
    hide Runs, AllApart;
    forall k | 0 <= k < |v.winners| ensures ValidClaim(memory.env, Winners(v)[k]) {
      assert Winners(v)[k] == r.contenders[v.winners[k]].claim;
    }
    reactions := ReplayWinners(memory, Winners(v));
  }

  // ---------------------------------------------------------------- the steps of the protocol

  function ClaimOf(cfg: Config, o: Origin, request: Request): Claim
  {
    Claim(request.requestId, BindingDigest(cfg.env, request), o.evidence.approval.approvalId, request.nonce, request.expiresAt)
  }

  /** How many keys a call that reserves has got. */
  function GotAt(pc: Pc): Option<nat>
  {
    match pc
    case Reserving(_, _) => Some(0)
    case ReservingBinding(_, _) => Some(1)
    case ReservingApproval(_, _) => Some(2)
    case StoringRequest(_, _) => Some(3)
    case _ => None
  }

  function TakenIn(s: Store): seq<set<string>> { [s.reservations.Keys, s.bindings.Keys, s.approvals.Keys] }

  /** Contender `i` of the race stands where the call stands, over the same keys. */
  ghost predicate Mirrors(cfg: Config, s: Store, c: Call, r: Race, i: nat)
  {
    && Proper(r) && i < |r.contenders| && r.taken == TakenIn(s) && GotAt(c.pc).Some?
    && r.contenders[i] == Contender(ClaimOf(cfg, c.pc.origin, c.pc.request), GotAt(c.pc).value, false)
  }

  /** A reserving step of the protocol with the bucket is one turn of the race: the same keys are taken, the
      call goes on exactly as the contender does, and it comes to store its request exactly when it wins. */
  ghost predicate Advances(cfg: Config, e: Effect, r: Race, v: Race, i: nat)
  {
    && v.taken == TakenIn(e.store) && i < |v.contenders| == |r.contenders|
    && (if v.contenders[i].stopped then GotAt(e.call.pc) == None else Mirrors(cfg, e.store, e.call, v, i))
    && (e.call.pc.StoringRequest? <==> v.winners == r.winners + [i])
  }

  lemma IdStepIsTurn(cfg: Config, s: Store, c: Call, write: Write, r: Race, i: nat)
    requires cfg.backend.Gcs? && Mirrors(cfg, s, c, r, i) && c.pc.Reserving? && ValidClaim(cfg.env, ClaimOf(cfg, c.pc.origin, c.pc.request))
    ensures Advances(cfg, StepReserve(cfg, s, c, write), r, Advance(r, i, write), i)
  {
    hide BindingDigest, ValidReservation, Payload;
    var id := c.pc.request.requestId;
    assert Put(s.reservations, id, Payload(c.pc.request), write).Keys ==
           if write.NotPerformed? then s.reservations.Keys else s.reservations.Keys + {id};
  }

  lemma BindingStepIsTurn(cfg: Config, s: Store, c: Call, write: Write, r: Race, i: nat)
    requires Mirrors(cfg, s, c, r, i) && c.pc.ReservingBinding?
    ensures Advances(cfg, StepReserveBinding(cfg, s, c, write), r, Advance(r, i, write), i)
  {
    hide BindingDigest;
    var key := BindingDigest(cfg.env, c.pc.request);
    assert Put(s.bindings, key, c.pc.request.requestId, write).Keys == if write.NotPerformed? then s.bindings.Keys else s.bindings.Keys + {key};
  }

  lemma ApprovalStepIsTurn(cfg: Config, s: Store, c: Call, write: Write, r: Race, i: nat)
    requires Mirrors(cfg, s, c, r, i) && c.pc.ReservingApproval?
    ensures Advances(cfg, StepReserveApproval(s, c, write), r, Advance(r, i, write), i)
  {
    hide BindingDigest;
    var key := c.pc.origin.evidence.approval.approvalId;
    assert Put(s.approvals, key, c.pc.request.requestId, write).Keys == if write.NotPerformed? then s.approvals.Keys else s.approvals.Keys + {key};
  }

  lemma StepIsTurn(cfg: Config, s: Store, c: Call, write: Write, clock: int, r: Race, i: nat)
    requires cfg.backend.Gcs? && Mirrors(cfg, s, c, r, i) && !c.pc.StoringRequest?
    requires c.pc.Reserving? ==> ValidClaim(cfg.env, ClaimOf(cfg, c.pc.origin, c.pc.request))
    ensures Advances(cfg, Step(cfg, s, c, Create(write, clock)), r, Advance(r, i, write), i)
  {
    hide StepReserve, StepReserveBinding, StepReserveApproval, Advance, Advances, ValidReservation, TakenIn, ClaimOf;
    if c.pc.Reserving? {
      IdStepIsTurn(cfg, s, c, write, r, i);
    } else if c.pc.ReservingBinding? {
      BindingStepIsTurn(cfg, s, c, write, r, i);
    } else {
      ApprovalStepIsTurn(cfg, s, c, write, r, i);
    }
  }

  // ---------------------------------------------------------------- progress

  /** Someone was told that it got this contender's key number `n`. */
  ghost predicate Got(r: Race, i: int, n: int)
    requires 0 <= i < |r.contenders| && n >= 0
  {
    exists j :: Owns(r, j, n) && Key(r.contenders[j].claim, n) == Key(r.contenders[i].claim, n)
  }

  /** As long as storage does not fail: a contender's key that is taken was got by someone, and a
      contender stops only before a key that is taken. */
  ghost predicate Accounted(r: Race)
    requires Proper(r)
  {
    && (forall i, n :: 0 <= i < |r.contenders| && 0 <= n < 3 && Key(r.contenders[i].claim, n) in r.taken[n] ==> Got(r, i, n))
    && (forall i :: 0 <= i < |r.contenders| && r.contenders[i].stopped ==>
          r.contenders[i].got < 3 && Key(r.contenders[i].claim, r.contenders[i].got) in r.taken[r.contenders[i].got])
  }

  lemma GotStays(r: Race, i: nat, j: int, n: nat)
    requires Proper(r) && i < |r.contenders| && 0 <= j < |r.contenders| && n < 3 && Got(r, j, n)
    ensures |Advance(r, i, Answered).contenders| == |r.contenders| && Got(Advance(r, i, Answered), j, n)
  {
    hide Advance, Key;
    var k :| Owns(r, k, n) && Key(r.contenders[k].claim, n) == Key(r.contenders[j].claim, n);
    AdvanceOwns(r, i, Answered, k, n);
    AdvanceOwns(r, i, Answered, j, n);
    OwnsInRange(r, k, n);
  }

  lemma NewlyTaken(r: Race, i: nat, n: nat, key: string)
    requires Proper(r) && i < |r.contenders| && n < 3
    requires key in Advance(r, i, Answered).taken[n] && key !in r.taken[n]
    ensures Owns(Advance(r, i, Answered), i, n) && Key(r.contenders[i].claim, n) == key
  {
    hide Key;
  }

  lemma AdvanceStops(r: Race, i: nat, j: nat)
    requires Proper(r) && i < |r.contenders| && j < |r.contenders| && Accounted(r)
    ensures |Advance(r, i, Answered).contenders| == |r.contenders|
    ensures var v := Advance(r, i, Answered); var c := v.contenders[j];
            c.stopped ==> c.got < 3 && Key(c.claim, c.got) in v.taken[c.got]
  {
    hide Key, Got;
  }

  lemma AdvanceAccounted(r: Race, i: nat)
    requires Proper(r) && i < |r.contenders| && Accounted(r)
    ensures Accounted(Advance(r, i, Answered))
  {
    var v := Advance(r, i, Answered);
    AdvanceOwns(r, i, Answered, 0, 0);
    hide Advance, Key, Owns;
    forall j, n | 0 <= j < |v.contenders| && 0 <= n < 3 && Key(v.contenders[j].claim, n) in v.taken[n] ensures Got(v, j, n) {
      AdvanceOwns(r, i, Answered, j, n);
      AdvanceOwns(r, i, Answered, i, n);
      if Key(r.contenders[j].claim, n) in r.taken[n] {
        GotStays(r, i, j, n);
      } else {
        NewlyTaken(r, i, n, Key(r.contenders[j].claim, n));
        assert Owns(v, i, n);
      }
    }
    forall j | 0 <= j < |v.contenders| && v.contenders[j].stopped
      ensures v.contenders[j].got < 3 && Key(v.contenders[j].claim, v.contenders[j].got) in v.taken[v.contenders[j].got]
    {
      AdvanceStops(r, i, j);
    }
  }

  predicate FailureFree(turns: seq<Turn>)
  {
    forall t :: 0 <= t < |turns| ==> turns[t].write.Answered?
  }

  lemma {:induction false} RunAccounted(r: Race, turns: seq<Turn>)
    requires Proper(r) && Accounted(r) && FailureFree(turns)
    ensures Accounted(Runs(r, turns)) && |Runs(r, turns).contenders| == |r.contenders|
    decreases |turns|
  {
    hide Accounted, Advance;
    if turns != [] && turns[0].contender < |r.contenders| {
      AdvanceAccounted(r, turns[0].contender);
      AdvanceOwns(r, turns[0].contender, Answered, 0, 0);
      RunAccounted(Advance(r, turns[0].contender, Answered), turns[1..]);
    } else if turns != [] {
      RunAccounted(r, turns[1..]);
    }
  }

  /** No contender's key is taken beforehand. */
  ghost predicate Fresh(r: Race)
    requires Proper(r)
  {
    forall i, n :: 0 <= i < |r.contenders| && 0 <= n < 3 ==> Key(r.contenders[i].claim, n) !in r.taken[n]
  }

  /** Of those who got key `n`, if nobody is running, someone got key `n + 1`. */
  lemma SomeoneGoesOn(r: Race, i: nat, n: nat) returns (j: nat)
    requires Proper(r) && Accounted(r) && i < |r.contenders| && n < 3 && r.contenders[i].got >= n
    requires forall k :: 0 <= k < |r.contenders| ==> !Running(r.contenders[k])
    ensures j < |r.contenders| && r.contenders[j].got >= n + 1
  {
    hide Key;
    if r.contenders[i].got > n {
      j := i;
    } else {
      assert Got(r, i, n);
      var k :| Owns(r, k, n) && Key(r.contenders[k].claim, n) == Key(r.contenders[i].claim, n);
      j := k;
    }
  }

  /** When storage does not fail and none of the contenders' keys was taken before, at least one of
      them wins, however they interleave. */
  lemma SomeoneWins(r: Race, turns: seq<Turn>)
    requires Begins(r) && Fresh(r) && FailureFree(turns) && r.contenders != []
    requires forall i :: 0 <= i < |Runs(r, turns).contenders| ==> !Running(Runs(r, turns).contenders[i])
    ensures exists i :: 0 <= i < |Runs(r, turns).contenders| && Runs(r, turns).contenders[i].got == 3
  {
    RunAccounted(r, turns);
    var v := Runs(r, turns);
    hide Runs, Accounted;
    var a := SomeoneGoesOn(v, 0, 0);
    var b := SomeoneGoesOn(v, a, 1);
    var c := SomeoneGoesOn(v, b, 2);
    assert v.contenders[c].got == 3;
  }

  // ---------------------------------------------------------------- where the two agree

  /** `k` undisturbed turns of one contender. */
  function Alone(i: nat, k: nat): seq<Turn> { if k == 0 then [] else [Turn(i, Answered)] + Alone(i, k - 1) }

  /** The contender's keys from number `n` on are free. */
  predicate FreeFrom(r: Race, i: nat, n: nat)
    requires Proper(r) && i < |r.contenders|
  {
    forall m :: n <= m < 3 ==> Key(r.contenders[i].claim, m) !in r.taken[m]
  }

  lemma AloneAdvances(r: Race, i: nat)
    requires Proper(r) && i < |r.contenders| && Running(r.contenders[i])
    ensures var c, v := r.contenders[i], Advance(r, i, Answered);
            && |v.contenders| == |r.contenders|
            && (if Key(c.claim, c.got) in r.taken[c.got] then v.contenders[i] == c.(stopped := true)
                else v.contenders[i] == c.(got := c.got + 1) && forall m :: c.got < m < 3 ==> v.taken[m] == r.taken[m])
  {
    hide Key;
  }

  lemma {:induction false} IdleStays(r: Race, i: nat, k: nat)
    requires Proper(r) && i < |r.contenders| && !Running(r.contenders[i])
    ensures Runs(r, Alone(i, k)) == r
  {
    if k > 0 {
      assert Alone(i, k)[1..] == Alone(i, k - 1);
      IdleStays(r, i, k - 1);
    }
  }

  /** Undisturbed, a contender that has not stopped wins exactly when its outstanding keys are free. */
  lemma {:induction false} AloneWinsExactly(r: Race, i: nat, k: nat)
    requires Proper(r) && i < |r.contenders| && !r.contenders[i].stopped && r.contenders[i].got + k >= 3
    ensures |Runs(r, Alone(i, k)).contenders| == |r.contenders|
    ensures Runs(r, Alone(i, k)).contenders[i].got == 3 <==> FreeFrom(r, i, r.contenders[i].got)
    decreases k
  {
    hide Advance, Key;
    var c := r.contenders[i];
    if c.got == 3 {
      IdleStays(r, i, k);
    } else {
      AloneAdvances(r, i);
      var v := Advance(r, i, Answered);
      assert Alone(i, k)[1..] == Alone(i, k - 1);
      if Key(c.claim, c.got) in r.taken[c.got] {
        IdleStays(v, i, k - 1);
      } else {
        AloneWinsExactly(v, i, k - 1);
      }
    }
  }

  /** Contender `j` put its key number `n`: it was told so, or its last write was performed although it
      stopped there. */
  predicate PutBy(r: Race, j: int, n: int)
  {
    0 <= j < |r.contenders| && 0 <= n < 3 && (n < r.contenders[j].got || (r.contenders[j].stopped && n == r.contenders[j].got))
  }

  /** What is taken was taken before or put by a contender; what was got was not taken before; who got
      everything is listed as a winner. */
  ghost predicate Traced(r0: Race, r: Race)
    requires Proper(r0) && Proper(r)
  {
    && (forall n, key :: 0 <= n < 3 && key in r.taken[n] ==> key in r0.taken[n] || PutAs(r, n, key))
    && (forall n :: 0 <= n < 3 ==> r0.taken[n] <= r.taken[n])
    && (forall i, n :: Owns(r, i, n) ==> n < 3 && Key(r.contenders[i].claim, n) !in r0.taken[n])
    && (forall i :: 0 <= i < |r.contenders| && r.contenders[i].got == 3 ==> i in r.winners)
  }

  ghost predicate PutAs(r: Race, n: int, key: string)
    requires n >= 0
  {
    exists j :: PutBy(r, j, n) && Key(r.contenders[j].claim, n) == key
  }

  lemma AdvancePuts(r: Race, i: nat, write: Write, j: int, n: int)
    requires Proper(r) && i < |r.contenders|
    ensures |Advance(r, i, write).contenders| == |r.contenders|
    ensures 0 <= j < |r.contenders| ==> Advance(r, i, write).contenders[j].claim == r.contenders[j].claim
    ensures PutBy(r, j, n) ==> PutBy(Advance(r, i, write), j, n)
  {
    hide Key;
  }

  lemma AdvanceAdds(r: Race, i: nat, write: Write, n: nat, key: string)
    requires Proper(r) && i < |r.contenders| && n < 3 && key in Advance(r, i, write).taken[n] && key !in r.taken[n]
    ensures PutBy(Advance(r, i, write), i, n) && Key(r.contenders[i].claim, n) == key
  {
    hide Key;
  }

  lemma AdvanceWinners(r: Race, i: nat, write: Write, j: nat)
    requires Proper(r) && i < |r.contenders| && j < |r.contenders|
    requires r.contenders[j].got == 3 ==> j in r.winners
    ensures Advance(r, i, write).contenders[j].got == 3 ==> j in Advance(r, i, write).winners
  {
    hide Key;
  }

  lemma AdvanceTraced(r0: Race, r: Race, i: nat, write: Write)
    requires Proper(r0) && Proper(r) && i < |r.contenders| && Traced(r0, r)
    ensures Traced(r0, Advance(r, i, write))
  {
    var v := Advance(r, i, write);
    AdvanceOwns(r, i, write, 0, 0);
    hide Advance, Key, Owns, PutBy, Running;
    forall n, key | 0 <= n < 3 && key in v.taken[n] ensures key in r0.taken[n] || PutAs(v, n, key) {
      if key !in r.taken[n] {
        AdvanceAdds(r, i, write, n, key);
        AdvanceOwns(r, i, write, i, n);
        assert PutBy(v, i, n) && Key(v.contenders[i].claim, n) == key;
      } else if key !in r0.taken[n] {
        var j :| PutBy(r, j, n) && Key(r.contenders[j].claim, n) == key;
        PutInRange(r, j, n);
        AdvancePuts(r, i, write, j, n);
      }
    }
    forall n | 0 <= n < 3 ensures r0.taken[n] <= v.taken[n] { AdvanceTakes(r, i, write, n); }
    forall j, n | Owns(v, j, n) ensures n < 3 && Key(v.contenders[j].claim, n) !in r0.taken[n] {
      OwnsInRange(v, j, n);
      AdvanceOwns(r, i, write, j, n);
    }
    forall j | 0 <= j < |v.contenders| && v.contenders[j].got == 3 ensures j in v.winners { AdvanceWinners(r, i, write, j); }
  }

  lemma PutInRange(r: Race, j: int, n: int)
    requires PutBy(r, j, n)
    ensures 0 <= j < |r.contenders| && 0 <= n < 3
  {}

  lemma {:induction false} RunTraced(r0: Race, r: Race, turns: seq<Turn>)
    requires Proper(r0) && Proper(r) && Traced(r0, r)
    ensures Traced(r0, Runs(r, turns))
    decreases |turns|
  {
    hide Traced, Advance;
    if turns != [] && turns[0].contender < |r.contenders| {
      AdvanceTraced(r0, r, turns[0].contender, turns[0].write);
      RunTraced(r0, Advance(r, turns[0].contender, turns[0].write), turns[1..]);
    } else if turns != [] {
      RunTraced(r0, r, turns[1..]);
    }
  }

  /** The atomic reservation, after the winners other than `i`, would accept the claim of `i`. */
  ghost predicate AtomicAccepts(r0: Race, r: Race, i: nat)
    requires Proper(r0) && Listed(r) && i < |r.contenders|
  {
    && (forall n :: 0 <= n < 3 ==> Key(r.contenders[i].claim, n) !in r0.taken[n])
    && (forall k :: 0 <= k < |r.winners| && r.winners[k] != i ==> KeysApart(r.contenders[r.winners[k]].claim, r.contenders[i].claim))
  }

  predicate KeysApart(a: Claim, b: Claim) { forall n :: 0 <= n < 3 ==> Key(a, n) != Key(b, n) }

  /** Somebody who has not won put a key that `i` still has to get. */
  ghost predicate Blocked(r: Race, i: nat)
    requires Proper(r) && i < |r.contenders|
  {
    exists j, n :: Blocks(r, i, j, n)
  }

  predicate Blocks(r: Race, i: nat, j: int, n: int)
    requires Proper(r) && i < |r.contenders|
  {
    && PutBy(r, j, n) && r.contenders[j].got < 3 && r.contenders[i].got <= n && Key(r.contenders[j].claim, n) == Key(r.contenders[i].claim, n)
    && Key(r.contenders[i].claim, n) in r.taken[n]
  }

  lemma FreeIsAccepted(r0: Race, r: Race, i: nat)
    requires Proper(r0) && Proper(r) && Exclusive(r) && Listed(r) && Traced(r0, r) && i < |r.contenders|
    requires FreeFrom(r, i, r.contenders[i].got)
    ensures AtomicAccepts(r0, r, i) && !Blocked(r, i)
  {
    hide Key;
    forall n | 0 <= n < 3 ensures Key(r.contenders[i].claim, n) !in r0.taken[n] {
      assert n < r.contenders[i].got ==> Owns(r, i, n);
    }
    forall k | 0 <= k < |r.winners| && r.winners[k] != i ensures KeysApart(r.contenders[r.winners[k]].claim, r.contenders[i].claim) {
      forall n | 0 <= n < 3 ensures Key(r.contenders[r.winners[k]].claim, n) != Key(r.contenders[i].claim, n) {
        assert Owns(r, r.winners[k], n);
        assert n < r.contenders[i].got ==> Owns(r, i, n);
      }
    }
  }

  lemma TakenIsRefused(r0: Race, r: Race, i: nat, n: nat)
    requires Proper(r0) && Proper(r) && Listed(r) && Traced(r0, r) && i < |r.contenders| && !r.contenders[i].stopped
    requires r.contenders[i].got <= n < 3 && Key(r.contenders[i].claim, n) in r.taken[n]
    ensures !AtomicAccepts(r0, r, i) || Blocked(r, i)
  {
    var key := Key(r.contenders[i].claim, n);
    hide Key;
    if key !in r0.taken[n] {
      var j :| PutBy(r, j, n) && Key(r.contenders[j].claim, n) == key;
      if r.contenders[j].got == 3 {
        var k :| 0 <= k < |r.winners| && r.winners[k] == j;
        assert !KeysApart(r.contenders[r.winners[k]].claim, r.contenders[i].claim);
      } else {
        assert Blocks(r, i, j, n);
      }
    }
  }

  lemma BeginsTraced(r: Race)
    requires Begins(r)
    ensures Exclusive(r) && Listed(r) && Traced(r, r)
  {
    hide Key;
  }

  /** At every point of every race: undisturbed, a contender that has not stopped wins exactly when its
      outstanding keys are free, and this is what the atomic reservation says after the winners, exactly
      unless somebody who has not won put one of those keys. */
  lemma RaceAgainstAtomic(r0: Race, turns: seq<Turn>, i: nat)
    requires Begins(r0) && i < |Runs(r0, turns).contenders| && !Runs(r0, turns).contenders[i].stopped
    ensures var r := Runs(r0, turns); var v := Runs(r, Alone(i, 3));
            && Listed(r) && i < |v.contenders|
            && (v.contenders[i].got == 3 <==> FreeFrom(r, i, r.contenders[i].got))
            && (v.contenders[i].got == 3 <==> AtomicAccepts(r0, r, i) && !Blocked(r, i))
  {
    var r := Runs(r0, turns);
    BeginsTraced(r0);
    RunKeeps(r0, turns);
    RunTraced(r0, r0, turns);
    hide Runs, Exclusive, Listed, Traced, AtomicAccepts, Blocked, Key;
    AloneWinsExactly(r, i, 3);
    if FreeFrom(r, i, r.contenders[i].got) {
      FreeIsAccepted(r0, r, i);
    } else {
      var n :| r.contenders[i].got <= n < 3 && Key(r.contenders[i].claim, n) in r.taken[n];
      TakenIsRefused(r0, r, i, n);
    }
  }

  // ---------------------------------------------------------------- where the two differ

  /** Three contenders of which the second shares a binding with the first and the third shares a
      request ID with the second only. */
  function Quarrel(): Race
  {
    Race([{}, {}, {}],
         [Contender(Claim("1", "a", "x", "", ""), 0, false), Contender(Claim("2", "a", "y", "", ""), 0, false),
          Contender(Claim("2", "b", "z", "", ""), 0, false)], [])
  }

  /** The race when the first contender has won and the second has put its request ID and stopped at the
      binding. */
  function QuarrelLater(): Race
  {
    Race([{"1", "2"}, {"a"}, {"x"}],
         [Contender(Claim("1", "a", "x", "", ""), 3, false), Contender(Claim("2", "a", "y", "", ""), 1, true),
          Contender(Claim("2", "b", "z", "", ""), 0, false)], [0])
  }

  lemma TurnFirst(r: Race, turns: seq<Turn>, v: Race)
    requires Proper(r) && turns != [] && turns[0].contender < |r.contenders|
    requires Advance(r, turns[0].contender, turns[0].write) == v
    ensures Runs(r, turns) == Runs(v, turns[1..])
  {
    hide Advance;
  }

  /** An answered write of a free key. */
  lemma Gets(r: Race, i: nat, v: Race)
    requires Proper(r) && i < |r.contenders| && Running(r.contenders[i])
    requires var c := r.contenders[i];
             && Key(c.claim, c.got) !in r.taken[c.got] && |v.taken| == 3
             && (forall n :: 0 <= n < 3 && n != c.got ==> v.taken[n] == r.taken[n]) && v.taken[c.got] == r.taken[c.got] + {Key(c.claim, c.got)}
             && v.contenders == r.contenders[i := c.(got := c.got + 1)] && v.winners == (if c.got == 2 then r.winners + [i] else r.winners)
    ensures Advance(r, i, Answered) == v
  {
    hide Key;
    var c := r.contenders[i];
    assert v.taken == r.taken[c.got := r.taken[c.got] + {Key(c.claim, c.got)}];
  }

  /** An answered write of a taken key. */
  lemma Loses(r: Race, i: nat, v: Race)
    requires Proper(r) && i < |r.contenders| && Running(r.contenders[i])
    requires var c := r.contenders[i];
             && Key(c.claim, c.got) in r.taken[c.got] && v == r.(contenders := r.contenders[i := c.(stopped := true)])
    ensures Advance(r, i, Answered) == v
  {
    hide Key;
    var c := r.contenders[i];
    assert r.taken[c.got] + {Key(c.claim, c.got)} == r.taken[c.got];
    assert r.taken[c.got := r.taken[c.got]] == r.taken;
  }

  function QuarrelWon(): Race
  {
    Quarrel().(taken := [{"1"}, {"a"}, {"x"}], contenders := Quarrel().contenders[0 := Quarrel().contenders[0].(got := 3)], winners := [0])
  }

  lemma FirstWins(rest: seq<Turn>)
    ensures Runs(Quarrel(), Alone(0, 3) + rest) == Runs(QuarrelWon(), rest)
  {
    var t := Turn(0, Answered);
    hide Advance, Runs;
    var r0, r3 := Quarrel(), QuarrelWon();
    var r1 := r0.(taken := [{"1"}, {}, {}], contenders := r0.contenders[0 := r0.contenders[0].(got := 1)]);
    var r2 := r0.(taken := [{"1"}, {"a"}, {}], contenders := r0.contenders[0 := r0.contenders[0].(got := 2)]);
    Gets(r0, 0, r1);
    Gets(r1, 0, r2);
    Gets(r2, 0, r3);
    assert Alone(0, 3) + rest == [t, t, t] + rest;
    assert ([t, t, t] + rest)[1..] == [t, t] + rest && ([t, t] + rest)[1..] == [t] + rest && ([t] + rest)[1..] == rest;
    TurnFirst(r0, [t, t, t] + rest, r1);
    TurnFirst(r1, [t, t] + rest, r2);
    TurnFirst(r2, [t] + rest, r3);
  }

  lemma SecondStops()
    ensures Runs(QuarrelWon(), Alone(1, 2)) == QuarrelLater()
  {
    var u := Turn(1, Answered);
    assert Alone(1, 2) == [u, u] && [u, u][1..] == [u] && [u][1..] == [];
    hide Advance, Runs;
    var r3, r5 := QuarrelWon(), QuarrelLater();
    var r4 := r3.(taken := r5.taken, contenders := r3.contenders[1 := r3.contenders[1].(got := 1)]);
    assert {"1"} + {"2"} == {"1", "2"};
    Gets(r3, 1, r4);
    assert r5.contenders == r4.contenders[1 := r4.contenders[1].(stopped := true)];
    Loses(r4, 1, r5);
    TurnFirst(r3, [u, u], r4);
    TurnFirst(r4, [u], r5);
    NoTurns(r5);
  }

  lemma NoTurns(r: Race)
    requires Proper(r)
    ensures Runs(r, []) == r
  {}

  /** A loser leaves its keys behind: the first wins, the second stops at the binding, and the third then does
      not get its request ID, although it shares nothing with the only winner and the atomic reservation
      would accept it. */
  lemma LosersLeaveKeys()
    ensures var r := Runs(Quarrel(), Alone(0, 3) + Alone(1, 2));
            && Begins(Quarrel()) && Proper(r) && Listed(r) && |r.contenders| == 3 && r.winners == [0]
            && AtomicAccepts(Quarrel(), r, 2) && Blocked(r, 2) && Runs(r, Alone(2, 3)).contenders[2].got == 0
  {
    FirstWins(Alone(1, 2));
    SecondStops();
    var r := QuarrelLater();
    hide Runs;
    assert Blocks(r, 2, 1, 0);
    assert KeysApart(r.contenders[0].claim, r.contenders[2].claim);
    AloneStops(r, 2);
  }

  lemma AloneStops(r: Race, i: nat)
    requires Proper(r) && i < |r.contenders| && Running(r.contenders[i])
    requires Key(r.contenders[i].claim, r.contenders[i].got) in r.taken[r.contenders[i].got]
    ensures i < |Runs(r, Alone(i, 3)).contenders| && Runs(r, Alone(i, 3)).contenders[i].got == r.contenders[i].got
  {
    hide Advance, Key;
    AloneAdvances(r, i);
    assert Alone(i, 3)[1..] == Alone(i, 2);
    IdleStays(Advance(r, i, Answered), i, 2);
  }
}
