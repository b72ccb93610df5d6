/** Estate health snapshots (internal/contract/models.go:51-178): sealing sorts the repositories in
    place, accounts for every one of them and binds the sorted content. */
module Health {
  import opened Prelude
  import opened Patterns
  import opened CanonicalJson
  import opened Contract
  import Utf8

  datatype RepositoryHealth = RepositoryHealth(
    repository: string, profile: string, headSha: string, lastGreenSha: string, requiredCheckStatus: string,
    queueSeconds: Int64, executionSeconds: Int64, failureClass: string, cacheHitBasisPoints: Int64,
    evidenceDigest: string, observedAt: string)

  datatype Summary = Summary(healthy: Int64, degraded: Int64, blocked: Int64, unknown: Int64)

  datatype Snapshot = Snapshot(
    schemaVersion: string, snapshotId: string, observedAt: string, protectedMainSha: string,
    summary: Summary, repositories: seq<RepositoryHealth>, digest: string)

  const HEALTH_SCHEMA: string := "estate.health/v1"

  // ---------------------------------------------------------------- JSON

  const SUMMARY_KEYS: seq<string> := ["healthy", "degraded", "blocked", "unknown"]

  const HEALTH_KEYS: seq<string> := [
    "repository", "profile", "head_sha", "last_green_sha", "required_check_status", "queue_seconds",
    "execution_seconds", "failure_class", "cache_hit_basis_points", "evidence_digest", "observed_at"]

  const SNAPSHOT_KEYS: seq<string> := [
    "schema_version", "snapshot_id", "observed_at", "protected_main_sha", "summary", "repositories", "digest"]

  function SummaryValues(s: Summary): seq<Json>
  {
    [Integer(s.healthy), Integer(s.degraded), Integer(s.blocked), Integer(s.unknown)]
  }

  function SummaryTree(s: Summary): Json { Struct(SUMMARY_KEYS, SummaryValues(s)) }

  function HealthValues(h: RepositoryHealth): seq<Json>
  {
    [Str(h.repository), Str(h.profile), Str(h.headSha), Str(h.lastGreenSha), Str(h.requiredCheckStatus),
     Integer(h.queueSeconds), Integer(h.executionSeconds), Str(h.failureClass), Integer(h.cacheHitBasisPoints),
     Str(h.evidenceDigest), Str(h.observedAt)]
  }

  function HealthTree(h: RepositoryHealth): Json { Struct(HEALTH_KEYS, HealthValues(h)) }

  function HealthTrees(s: seq<RepositoryHealth>): (r: seq<Json>)
    ensures |r| == |s| && forall i :: 0 <= i < |s| ==> r[i] == HealthTree(s[i])
  {
    seq(|s|, i requires 0 <= i < |s| => HealthTree(s[i]))
  }

  function SnapshotValues(s: Snapshot): seq<Json>
  {
    [Str(s.schemaVersion), Str(s.snapshotId), Str(s.observedAt), Str(s.protectedMainSha), SummaryTree(s.summary),
     Arr(HealthTrees(s.repositories)), Str(s.digest)]
  }

  function SnapshotTree(s: Snapshot): Json { Struct(SNAPSHOT_KEYS, SnapshotValues(s)) }

  lemma SummaryInjective(a: Summary, b: Summary)
    ensures Printable(SummaryTree(a))
    ensures SummaryTree(a) == SummaryTree(b) ==> a == b
  {
    hide Struct, Unstruct, Integer, ReadInteger;
    IntegerRoundTrip(a.healthy); IntegerRoundTrip(a.degraded); IntegerRoundTrip(a.blocked); IntegerRoundTrip(a.unknown);
    IntegerRoundTrip(b.healthy); IntegerRoundTrip(b.degraded); IntegerRoundTrip(b.blocked); IntegerRoundTrip(b.unknown);
    StructPrintable(SUMMARY_KEYS, SummaryValues(a));
    StructRoundTrip(SUMMARY_KEYS, SummaryValues(a));
    StructRoundTrip(SUMMARY_KEYS, SummaryValues(b));
  }

  lemma HealthInjective(a: RepositoryHealth, b: RepositoryHealth)
    ensures Printable(HealthTree(a))
    ensures HealthTree(a) == HealthTree(b) ==> a == b
  {
    hide Struct, Unstruct, Integer, ReadInteger;
    IntegerRoundTrip(a.queueSeconds); IntegerRoundTrip(a.executionSeconds); IntegerRoundTrip(a.cacheHitBasisPoints);
    IntegerRoundTrip(b.queueSeconds); IntegerRoundTrip(b.executionSeconds); IntegerRoundTrip(b.cacheHitBasisPoints);
    StructPrintable(HEALTH_KEYS, HealthValues(a));
    StructRoundTrip(HEALTH_KEYS, HealthValues(a));
    StructRoundTrip(HEALTH_KEYS, HealthValues(b));
  }

  lemma HealthsInjective(a: seq<RepositoryHealth>, b: seq<RepositoryHealth>)
    ensures forall i :: 0 <= i < |a| ==> Printable(HealthTrees(a)[i])
    ensures HealthTrees(a) == HealthTrees(b) ==> a == b
  {
    hide HealthTree;
    forall i | 0 <= i < |a| ensures Printable(HealthTrees(a)[i]) { HealthInjective(a[i], a[i]); }
    if HealthTrees(a) == HealthTrees(b) {
      assert |a| == |HealthTrees(a)| == |b|;
      forall i | 0 <= i < |a| ensures a[i] == b[i] {
        assert HealthTrees(a)[i] == HealthTrees(b)[i];
        HealthInjective(a[i], b[i]);
      }
    }
  }

  lemma SnapshotInjective(a: Snapshot, b: Snapshot)
    ensures Printable(SnapshotTree(a))
    ensures SnapshotTree(a) == SnapshotTree(b) ==> a == b
  {
    hide Struct, Unstruct, SummaryTree, HealthTrees;
    SummaryInjective(a.summary, b.summary);
    HealthsInjective(a.repositories, b.repositories);
    StructPrintable(SNAPSHOT_KEYS, SnapshotValues(a));
    StructRoundTrip(SNAPSHOT_KEYS, SnapshotValues(a));
    StructRoundTrip(SNAPSHOT_KEYS, SnapshotValues(b));
  }

  // ---------------------------------------------------------------- validity

  predicate IsLabelText(s: string)
  {
    s != "" && IsTrimmed(s) && Utf8.ByteLen(s) <= 64 && !HasControl(s)
  }

  const STATUSES: seq<string> := ["success", "failure", "blocked", "unknown"]

  /** Everything about one repository except its place in the list. */
  predicate ValidHealth(env: Env, h: RepositoryHealth)
  {
    && IsRepository(h.repository) && IsSha(h.headSha) && IsSha(h.lastGreenSha) && IsDigest(h.evidenceDigest)
    && IsLabelText(h.profile) && IsLabelText(h.failureClass) && IsTime(env, h.observedAt) && h.requiredCheckStatus in STATUSES
    && h.queueSeconds >= 0 && h.executionSeconds >= 0 && 0 <= h.cacheHitBasisPoints <= 10000
  }

  function Names(s: seq<RepositoryHealth>): (r: seq<string>)
    ensures |r| == |s| && forall i :: 0 <= i < |s| ==> r[i] == s[i].repository
  {
    seq(|s|, i requires 0 <= i < |s| => s[i].repository)
  }

  function Count(s: seq<RepositoryHealth>, status: string): (n: nat)
    ensures n <= |s|
  {
    if s == [] then 0
    else Count(s[..|s| - 1], status) + if s[|s| - 1].requiredCheckStatus == status then 1 else 0
  }

  predicate Accounts(summary: Summary, s: seq<RepositoryHealth>)
  {
    && summary.healthy == Count(s, "success") && summary.degraded == Count(s, "failure")
    && summary.blocked == Count(s, "blocked") && summary.unknown == Count(s, "unknown")
  }

  /** Valid repositories in strict order whose exact count is the summary. */
  predicate ValidRepositories(env: Env, summary: Summary, s: seq<RepositoryHealth>)
  {
    (forall i :: 0 <= i < |s| ==> ValidHealth(env, s[i])) && StrictlySorted(Names(s)) && Accounts(summary, s)
  }

  predicate ValidSnapshot(env: Env, s: Snapshot)
  {
    && s.schemaVersion == HEALTH_SCHEMA && IsUuid(s.snapshotId) && IsSha(s.protectedMainSha) && IsTime(env, s.observedAt)
    && 1 <= |s.repositories| <= 100 && (s.digest == "" || IsDigest(s.digest))
    && ValidRepositories(env, s.summary, s.repositories)
  }

  const TWO_TO_64: int := 0x1_0000_0000_0000_0000

  /** Two's complement addition of int64 values. */
  function Wrap(n: int): (r: Int64)
    ensures IsInt64(n) ==> r == n
  {
    (n + TWO_TO_63) % TWO_TO_64 - TWO_TO_63
  }

  function WrappedSum(s: Summary): Int64
  {
    Wrap(Wrap(Wrap(s.healthy + s.degraded) + s.blocked) + s.unknown)
  }

  /** The check on the sum alone would let a wildly wrong summary pass: it wraps around. */
  lemma SumCheckCanWrap()
    ensures exists s: Summary :: s.healthy >= 0 && s.degraded >= 0 && s.blocked >= 0 && s.unknown >= 0
              && WrappedSum(s) == 1 && s.healthy + s.degraded + s.blocked + s.unknown == TWO_TO_64 + 1
  {
    var s := Summary(TWO_TO_63 - 1, TWO_TO_63 - 1, 2, 1);
    assert WrappedSum(s) == 1;
  }

  lemma {:induction false} CountsTotal(env: Env, s: seq<RepositoryHealth>)
    requires forall i :: 0 <= i < |s| ==> ValidHealth(env, s[i])
    ensures Count(s, "success") + Count(s, "failure") + Count(s, "blocked") + Count(s, "unknown") == |s|
  {
    hide IsRepository, IsSha, IsDigest, IsLabelText;
    if s != [] {
      CountsTotal(env, s[..|s| - 1]);
      assert s[|s| - 1].requiredCheckStatus in STATUSES;
    }
  }

  /** The positions of the repositories with this status. */
  function WithStatus(s: seq<RepositoryHealth>, status: string): set<int>
  {
    set i: int | 0 <= i < |s| && s[i].requiredCheckStatus == status
  }

  lemma {:induction false} CountIsSize(s: seq<RepositoryHealth>, status: string)
    ensures Count(s, status) == |WithStatus(s, status)|
  {
    if s != [] {
      var n := |s| - 1;
      CountIsSize(s[..n], status);
      if s[n].requiredCheckStatus == status {
        assert WithStatus(s, status) == WithStatus(s[..n], status) + {n};
      } else {
        assert WithStatus(s, status) == WithStatus(s[..n], status);
      }
    }
  }

  /** The summary of a valid snapshot counts its repositories: healthy is as many as succeeded, degraded as many
      as failed, and every repository is counted once. */
  lemma SummaryCounts(env: Env, s: Snapshot)
    requires ValidSnapshot(env, s)
    ensures s.summary.healthy == |WithStatus(s.repositories, "success")| && s.summary.degraded == |WithStatus(s.repositories, "failure")|
    ensures s.summary.blocked == |WithStatus(s.repositories, "blocked")| && s.summary.unknown == |WithStatus(s.repositories, "unknown")|
    ensures s.summary.healthy + s.summary.degraded + s.summary.blocked + s.summary.unknown == |s.repositories| <= 100
  {
    CountIsSize(s.repositories, "success");
    CountIsSize(s.repositories, "failure");
    CountIsSize(s.repositories, "blocked");
    CountIsSize(s.repositories, "unknown");
    CountsTotal(env, s.repositories);
    hide Count, WithStatus, ValidHealth, StrictlySorted, IsUuid, IsSha, IsDigest;
  }

  method CheckHealth(env: Env, h: RepositoryHealth) returns (ok: bool)
    ensures ok <==> ValidHealth(env, h)
  {
    if !IsRepository(h.repository) { return false; }
    if !IsSha(h.headSha) || !IsSha(h.lastGreenSha) { return false; }
    if !IsDigest(h.evidenceDigest) { return false; }
    if !IsTrimmed(h.profile) || Utf8.ByteLen(h.profile) == 0 || Utf8.ByteLen(h.profile) > 64 || HasControl(h.profile) {
      return false;
    }
    if !IsTrimmed(h.failureClass) || Utf8.ByteLen(h.failureClass) == 0 || Utf8.ByteLen(h.failureClass) > 64
       || HasControl(h.failureClass) {
      return false;
    }
    if !IsTime(env, h.observedAt) { return false; }
    if h.requiredCheckStatus !in STATUSES { return false; }
    return h.queueSeconds >= 0 && h.executionSeconds >= 0 && h.cacheHitBasisPoints >= 0 && h.cacheHitBasisPoints <= 10000;
  }

  function Counted(actual: Summary, status: string): Summary
    requires 0 <= actual.healthy < 100 && 0 <= actual.degraded < 100 && 0 <= actual.blocked < 100 && 0 <= actual.unknown < 100
  {
    if status == "success" then actual.(healthy := actual.healthy + 1)
    else if status == "failure" then actual.(degraded := actual.degraded + 1)
    else if status == "blocked" then actual.(blocked := actual.blocked + 1)
    else actual.(unknown := actual.unknown + 1)
  }

  lemma NamesExtend(s: seq<RepositoryHealth>, i: nat)
    requires i < |s| && StrictlySorted(Names(s[..i]))
    requires i > 0 ==> StrLess(s[i - 1].repository, s[i].repository)
    ensures StrictlySorted(Names(s[..i + 1]))
  {
    hide StrLess;
    var before, after := Names(s[..i]), Names(s[..i + 1]);
    forall j, k | 0 <= j < k < |after| ensures StrLess(after[j], after[k]) {
      assert after[j] == before[j];
      if k < i {
        assert after[k] == before[k];
      } else if j < i - 1 {
        assert StrLess(before[j], before[i - 1]);
        StrLessTrans(after[j], s[i - 1].repository, after[k]);
      }
    }
  }

  lemma NamesPrefix(s: seq<RepositoryHealth>, i: nat)
    requires 0 < i < |s| && StrictlySorted(Names(s))
    ensures StrLess(s[i - 1].repository, s[i].repository)
  {
    assert StrLess(Names(s)[i - 1], Names(s)[i]);
  }

  lemma EmptyLeast(s: string)
    ensures s != "" ==> StrLess("", s)
  {
    assert Codes("") == [];
    assert |Codes(s)| == |s|;
  }

  /** The loop of `Validate`. */
  method CheckRepositories(env: Env, summary: Summary, s: seq<RepositoryHealth>) returns (ok: bool)
    requires |s| <= 100
    ensures ok <==> ValidRepositories(env, summary, s)
  {
    hide StrLess, ValidHealth;
    var previous := "";
    var actual := Summary(0, 0, 0, 0);
    for i := 0 to |s|
      invariant forall j :: 0 <= j < i ==> ValidHealth(env, s[j])
      invariant StrictlySorted(Names(s[..i]))
      invariant previous == if i == 0 then "" else s[i - 1].repository
      invariant Accounts(actual, s[..i])
    {
      var h := s[i];
      var valid := CheckHealth(env, h);
      if !valid { return false; }
      HealthParts(env, h);
      EmptyLeast(h.repository);
      if !StrLess(previous, h.repository) {
        if i > 0 && StrictlySorted(Names(s)) { NamesPrefix(s, i); }
        return false;
      }
      NamesExtend(s, i);
      assert s[..i + 1][..i] == s[..i];
      actual := Counted(actual, h.requiredCheckStatus);
      previous := h.repository;
    }
    assert s[..|s|] == s;
    ok := actual == summary;
  }

  /** `Validate`: although its check of the sum can wrap, it accepts exactly the valid snapshots. */
  method Validate(env: Env, s: Snapshot) returns (ok: bool)
    ensures ok <==> ValidSnapshot(env, s)
  {
    hide IsRepository, IsSha, IsUuid, IsDigest, IsTime, StrictlySorted, ValidHealth, Count;
    if s.schemaVersion != HEALTH_SCHEMA || !IsUuid(s.snapshotId) || !IsSha(s.protectedMainSha) || !IsTime(env, s.observedAt)
       || |s.repositories| == 0 || |s.repositories| > 100 {
      return false;
    }
    if s.summary.healthy < 0 || s.summary.degraded < 0 || s.summary.blocked < 0 || s.summary.unknown < 0
       || WrappedSum(s.summary) != |s.repositories| {
      if ValidSnapshot(env, s) { CountsTotal(env, s.repositories); }
      return false;
    }
    if s.digest != "" && !IsDigest(s.digest) { return false; }
    ok := CheckRepositories(env, s.summary, s.repositories);
  }

  lemma HealthParts(env: Env, h: RepositoryHealth)
    requires ValidHealth(env, h)
    ensures h.repository != "" && h.requiredCheckStatus in STATUSES
  {}

  // ---------------------------------------------------------------- sealing

  ghost predicate InOrder(s: seq<RepositoryHealth>)
  {
    forall i, j :: 0 <= i < j < |s| ==> !StrLess(s[j].repository, s[i].repository)
  }

  /** What `sort.Slice` may leave: some permutation in order; equal names may stand either way. */
  ghost predicate SortedOf(before: seq<RepositoryHealth>, after: seq<RepositoryHealth>)
  {
    multiset(before) == multiset(after) && InOrder(after)
  }

  function Named(s: Snapshot): Snapshot
  {
    if s.schemaVersion == "" then s.(schemaVersion := HEALTH_SCHEMA) else s
  }

  /** `Seal` once the repositories are in order. */
  function SealSorted(env: Env, s: Snapshot): Option<Snapshot>
  {
    if !ValidSnapshot(env, s) then None
    else
      match Digest(env, SnapshotTree(s.(digest := "")))
      case None => None
      case Some(digest) => Some(s.(digest := digest))
  }

  predicate SnapshotDigestOk(env: Env, s: Snapshot)
  {
    ValidSnapshot(env, s) && s.digest != "" && Digest(env, SnapshotTree(s.(digest := ""))) == Some(s.digest)
  }

  lemma NotLessTrans(a: string, b: string, c: string)
    requires !StrLess(b, a) && !StrLess(c, b)
    ensures !StrLess(c, a)
  {
    StrLessTotal(a, b);
    StrLessTotal(b, c);
    StrLessTotal(a, c);
    if StrLess(a, b) && StrLess(b, c) { StrLessTrans(a, b, c); }
  }

  method InsertHealth(h: RepositoryHealth, sorted: seq<RepositoryHealth>) returns (r: seq<RepositoryHealth>)
    requires InOrder(sorted)
    ensures InOrder(r) && multiset(r) == multiset(sorted) + multiset{h}
  {
    hide StrLess;
    var i := 0;
    while i < |sorted| && StrLess(sorted[i].repository, h.repository)
      invariant 0 <= i <= |sorted|
      invariant forall j :: 0 <= j < i ==> StrLess(sorted[j].repository, h.repository)
    {
      i := i + 1;
    }
    r := sorted[..i] + [h] + sorted[i..];
    assert sorted == sorted[..i] + sorted[i..];
    InsertedInOrder(h, sorted, i, r);
  }

  lemma InsertedInOrder(h: RepositoryHealth, sorted: seq<RepositoryHealth>, i: nat, r: seq<RepositoryHealth>)
    requires InOrder(sorted) && i <= |sorted| && r == sorted[..i] + [h] + sorted[i..]
    requires forall j :: 0 <= j < i ==> StrLess(sorted[j].repository, h.repository)
    requires i < |sorted| ==> !StrLess(sorted[i].repository, h.repository)
    ensures InOrder(r)
  {
    hide StrLess;
    forall a, b | 0 <= a < b < |r| ensures !StrLess(r[b].repository, r[a].repository) {
      if b == i {
        StrLessTotal(r[a].repository, h.repository);
      } else if a == i {
        var k := b - 1;
        if k > i { NotLessTrans(h.repository, sorted[i].repository, sorted[k].repository); }
      }
    }
  }

  /** The snapshot as the source holds it: fields that `Seal` updates through a pointer. */
  class EstateHealthSnapshot {
    var schemaVersion: string
    var snapshotId: string
    var observedAt: string
    var protectedMainSha: string
    var summary: Summary
    var repositories: seq<RepositoryHealth>
    var digest: string

    function Value(): Snapshot
      reads this
    {
      Snapshot(schemaVersion, snapshotId, observedAt, protectedMainSha, summary, repositories, digest)
    }

    constructor (s: Snapshot)
      ensures Value() == s
    {
      schemaVersion, snapshotId, observedAt, protectedMainSha := s.schemaVersion, s.snapshotId, s.observedAt, s.protectedMainSha;
      summary, repositories, digest := s.summary, s.repositories, s.digest;
    }

    method SortRepositories()
      modifies this`repositories
      ensures SortedOf(old(repositories), repositories)
    {
      var sorted: seq<RepositoryHealth> := [];
      for i := 0 to |repositories|
        invariant repositories == old(repositories)
        invariant InOrder(sorted) && multiset(sorted) == multiset(repositories[..i])
      {
        sorted := InsertHealth(repositories[i], sorted);
        assert repositories[..i + 1] == repositories[..i] + [repositories[i]];
      }
      assert repositories[..|repositories|] == repositories;
      repositories := sorted;
    }

    /** Sorts, validates and digests in place; a refused snapshot keeps its digest. */
    method Seal(env: Env) returns (ok: bool)
      modifies this
      ensures SortedOf(old(repositories), repositories)
      ensures var sorted := Named(old(Value())).(repositories := repositories);
              && (ok <==> ValidSnapshot(env, sorted))
              && (if ok then SealSorted(env, sorted) == Some(Value()) else Value() == sorted)
    {
      if schemaVersion == "" { schemaVersion := HEALTH_SCHEMA; }
      SortRepositories();
      hide ValidSnapshot, SnapshotTree, Digest, SortedOf;
      ok := Validate(env, Value());
      if ok {
        SnapshotDigests(env, Value().(digest := ""));
        var bound := Digest(env, SnapshotTree(Value().(digest := "")));
        digest := bound.value;
      }
    }

    method VerifyDigest(env: Env) returns (ok: bool)
      ensures ok <==> SnapshotDigestOk(env, Value())
    {
      hide ValidSnapshot, SnapshotTree, Digest;
      ok := Validate(env, Value());
      if !ok || digest == "" { return false; }
      var got := Digest(env, SnapshotTree(Value().(digest := "")));
      ok := got == Some(digest);
    }
  }

  lemma SnapshotDigests(env: Env, s: Snapshot)
    ensures Digest(env, SnapshotTree(s)).Some?
  {
    SnapshotInjective(s, s);
    hide Printable, SnapshotTree;
  }

  // ---------------------------------------------------------------- what sealing guarantees

  lemma StrictOfMultiset(x: seq<RepositoryHealth>, y: seq<RepositoryHealth>)
    requires multiset(x) == multiset(y) && StrictlySorted(Names(x)) && InOrder(y)
    ensures StrictlySorted(Names(y))
  {
    hide StrLess;
    forall i, j | 0 <= i < j < |y| ensures StrLess(Names(y)[i], Names(y)[j]) {
      StrLessTotal(y[i].repository, y[j].repository);
      if y[i].repository == y[j].repository {
        SameNameSameElement(x, y, i, j);
        TwiceInMultiset(y, i, j);
        OnceInStrict(x, y[i]);
      }
    }
  }

  lemma SameNameSameElement(x: seq<RepositoryHealth>, y: seq<RepositoryHealth>, i: nat, j: nat)
    requires multiset(x) == multiset(y) && StrictlySorted(Names(x)) && i < j < |y| && y[i].repository == y[j].repository
    ensures y[i] == y[j]
  {
    hide StrLess;
    assert y[i] in multiset(x) && y[j] in multiset(x);
    var a :| 0 <= a < |x| && x[a] == y[i];
    var b :| 0 <= b < |x| && x[b] == y[j];
    StrLessTotal(Names(x)[a], Names(x)[b]);
  }

  lemma TwiceInMultiset<T>(y: seq<T>, i: nat, j: nat)
    requires i < j < |y| && y[i] == y[j]
    ensures multiset(y)[y[i]] >= 2
  {
    assert y == y[..j] + [y[j]] + y[j + 1..];
    assert y[..j][i] == y[i];
    assert y[i] in multiset(y[..j]);
  }

  lemma {:induction false} OnceInStrict(x: seq<RepositoryHealth>, h: RepositoryHealth)
    requires StrictlySorted(Names(x))
    ensures multiset(x)[h] <= 1
  {
    hide StrLess;
    if x != [] {
      var n := |x| - 1;
      assert x == x[..n] + [x[n]];
      forall i, j | 0 <= i < j < n ensures StrLess(Names(x[..n])[i], Names(x[..n])[j]) {
        assert StrLess(Names(x)[i], Names(x)[j]);
      }
      OnceInStrict(x[..n], h);
      if x[n] == h && h in x[..n] {
        var i :| 0 <= i < n && x[i] == h;
        assert StrLess(Names(x)[i], Names(x)[n]);
        StrLessTotal(h.repository, h.repository);
      }
    }
  }

  lemma NamesOfMultiset(x: seq<RepositoryHealth>, y: seq<RepositoryHealth>, k: string)
    requires multiset(x) == multiset(y) && k in Names(x)
    ensures k in Names(y)
  {
    var i :| 0 <= i < |x| && Names(x)[i] == k;
    assert x[i] in multiset(y);
    var j :| 0 <= j < |y| && y[j] == x[i];
    assert Names(y)[j] == k;
  }

  /** Strictly ordered lists of the same repositories are equal. */
  lemma StrictUnique(x: seq<RepositoryHealth>, y: seq<RepositoryHealth>)
    requires multiset(x) == multiset(y) && StrictlySorted(Names(x)) && StrictlySorted(Names(y))
    ensures x == y
  {
    hide StrLess;
    forall k ensures k in Names(x) <==> k in Names(y) {
      if k in Names(x) { NamesOfMultiset(x, y, k); }
      if k in Names(y) { NamesOfMultiset(y, x, k); }
    }
    StrictlySortedUnique(Names(x), Names(y));
    forall i | 0 <= i < |x| ensures i < |y| && x[i] == y[i] {
      assert |Names(x)| == |Names(y)| && Names(x)[i] == Names(y)[i];
      assert x[i] in multiset(y);
      var j :| 0 <= j < |y| && y[j] == x[i];
      StrLessTotal(Names(y)[i], Names(y)[j]);
    }
    assert |Names(x)| == |Names(y)|;
  }

  lemma SortedIsUnique(x: seq<RepositoryHealth>, y: seq<RepositoryHealth>)
    requires multiset(x) == multiset(y)
    requires StrictlySorted(Names(x)) && InOrder(y)
    ensures x == y
  {
    StrictOfMultiset(x, y);
    StrictUnique(x, y);
  }

  /** However the repositories were listed, and however the sort breaks ties, two listings of the
      same repositories both seal to the same snapshot with the same digest, or both fail. */
  lemma SealIgnoresOrder(env: Env, a: Snapshot, b: Snapshot, x: seq<RepositoryHealth>, y: seq<RepositoryHealth>)
    requires b == a.(repositories := b.repositories) && multiset(a.repositories) == multiset(b.repositories)
    requires SortedOf(a.repositories, x) && SortedOf(b.repositories, y)
    ensures SealSorted(env, Named(a).(repositories := x)) == SealSorted(env, Named(b).(repositories := y))
  {
    hide Digest, SnapshotTree, Accounts, ValidHealth, IsSha, IsUuid, IsDigest, IsTime;
    if StrictlySorted(Names(x)) {
      SortedIsUnique(x, y);
    } else if StrictlySorted(Names(y)) {
      SortedIsUnique(y, x);
    }
  }

  /** Sealing succeeds exactly on valid material, a sealed snapshot verifies, and sealing it again
      leaves it as it is. */
  lemma SealedSnapshotVerifies(env: Env, s: Snapshot)
    requires Sound(env)
    ensures SealSorted(env, s).Some? <==> ValidSnapshot(env, s)
    ensures SealSorted(env, s).Some? ==>
              var sealed := SealSorted(env, s).value;
              && SnapshotDigestOk(env, sealed) && SealSorted(env, sealed) == Some(sealed)
              && sealed == s.(digest := sealed.digest)
  {
    SnapshotDigests(env, s.(digest := ""));
    if ValidSnapshot(env, s) {
      var sealed := SealSorted(env, s).value;
      assert sealed.(digest := "") == s.(digest := "");
      hide Digest, SnapshotTree, ValidHealth, IsSha, IsUuid, IsTime, StrictlySorted, Accounts;
      HashIsDigest(env, s.(digest := ""));
    }
  }

  lemma HashIsDigest(env: Env, s: Snapshot)
    requires Sound(env) && Digest(env, SnapshotTree(s)).Some?
    ensures IsDigest(Digest(env, SnapshotTree(s)).value)
  {
    hide SnapshotTree, IsDigest;
  }

  /** One digest verifies for one snapshot only, unless canonical bytes collide. */
  lemma SnapshotDigestBinds(env: Env, a: Snapshot, b: Snapshot)
    requires SnapshotDigestOk(env, a) && SnapshotDigestOk(env, b) && a.digest == b.digest
    ensures a == b || Collision(env, CanonicalBytes(SnapshotTree(a.(digest := ""))).value, CanonicalBytes(SnapshotTree(b.(digest := ""))).value)
  {
    hide ValidSnapshot, SnapshotTree;
    var x, y := a.(digest := ""), b.(digest := "");
    SnapshotInjective(x, y);
    SnapshotInjective(y, x);
    DigestBinds(env, SnapshotTree(x), SnapshotTree(y));
  }
}
