/** Workspace roles (internal/auth/roles.go:18-140): the greatest role among the groups that contain
    a person, looked up group by group and cached for two minutes. */
module Roles {
  import opened Prelude
  import opened Patterns
  import opened Contract
  import Utf8

  const NONE: int := 0
  const VIEWER: int := 1
  const OPERATOR: int := 2
  const APPROVER: int := 3
  const ADMIN: int := 4

  const TTL: int := 2 * MINUTE
  const CACHE_LIMIT: nat := 10000

  datatype GroupBinding = GroupBinding(resource: string, role: string)

  datatype Binding = Binding(resource: string, role: int)

  /** What the membership checker says about one group. */
  datatype Membership = Member | NotMember | CheckFailed

  function ParseRole(s: string): Option<int>
  {
    if s == "viewer" then Some(VIEWER)
    else if s == "operator" then Some(OPERATOR)
    else if s == "approver" then Some(APPROVER)
    else if s == "admin" then Some(ADMIN)
    else None
  }

  predicate IsResource(s: string)
  {
    && HasPrefix(s, "groups/") && 8 <= |s| <= 135
    && forall i :: 7 <= i < |s| ==> IsLower(s[i]) || IsUpper(s[i]) || IsDigit(s[i]) || s[i] == '_' || s[i] == '-'
  }

  // ---------------------------------------------------------------- the lookup

  ghost predicate Descending(bindings: seq<Binding>)
  {
    forall i, j :: 0 <= i < j < |bindings| ==> bindings[i].role >= bindings[j].role
  }

  predicate DistinctResources(bindings: seq<Binding>)
  {
    forall i, j :: 0 <= i < j < |bindings| ==> bindings[i].resource != bindings[j].resource
  }

  /** The loop of `RoleFor`: an error ends it, the first group that contains the person decides. */
  function Search(bindings: seq<Binding>, answers: map<string, Membership>): Option<int>
  {
    if bindings == [] then Some(NONE)
    else if bindings[0].resource !in answers || answers[bindings[0].resource].CheckFailed? then None
    else if answers[bindings[0].resource].Member? then Some(bindings[0].role)
    else Search(bindings[1..], answers)
  }

  predicate Contains(b: Binding, answers: map<string, Membership>)
  {
    b.resource in answers && answers[b.resource].Member?
  }

  predicate Excludes(b: Binding, answers: map<string, Membership>)
  {
    b.resource in answers && answers[b.resource].NotMember?
  }

  /** `role` is the greatest role of the groups that contain the person, or none if there is none;
      about every group of a greater role the checker said, without failing, that it does not. */
  ghost predicate IsGreatest(bindings: seq<Binding>, answers: map<string, Membership>, role: int)
  {
    && (role == NONE || exists b :: b in bindings && b.role == role && Contains(b, answers))
    && (forall b :: b in bindings && b.role > role ==> Excludes(b, answers))
  }

  /** A lookup in descending order that returns a role returns the greatest one. */
  lemma {:induction false} SearchFindsGreatest(bindings: seq<Binding>, answers: map<string, Membership>)
    requires Descending(bindings) && Search(bindings, answers).Some?
    ensures IsGreatest(bindings, answers, Search(bindings, answers).value)
  {
    if bindings != [] {
      var rest := bindings[1..];
      if answers[bindings[0].resource].NotMember? {
        SearchFindsGreatest(rest, answers);
        assert forall b :: b in bindings <==> b == bindings[0] || b in rest;
      } else {
        assert bindings[0] in bindings && Contains(bindings[0], answers);
      }
    }
  }

  predicate Fails(b: Binding, answers: map<string, Membership>)
  {
    b.resource !in answers || answers[b.resource].CheckFailed?
  }

  /** The first group about which the checker does not say that it excludes the person is one where the check fails. */
  ghost predicate FailsFirst(bindings: seq<Binding>, answers: map<string, Membership>, n: nat)
  {
    n < |bindings| && Fails(bindings[n], answers) && forall i :: 0 <= i < n ==> Excludes(bindings[i], answers)
  }

  /** A lookup ends without a role exactly when it meets a failed check before a group that contains the person. */
  lemma {:induction false} FailureEndsSearch(bindings: seq<Binding>, answers: map<string, Membership>)
    ensures Search(bindings, answers) == None <==> exists n: nat :: FailsFirst(bindings, answers, n)
  {
    if bindings != [] {
      var rest := bindings[1..];
      FailureEndsSearch(rest, answers);
      if Fails(bindings[0], answers) {
        assert FailsFirst(bindings, answers, 0);
      } else if Excludes(bindings[0], answers) {
        if n: nat :| FailsFirst(rest, answers, n) {
          assert forall i :: 0 < i < |bindings| ==> bindings[i] == rest[i - 1];
          assert FailsFirst(bindings, answers, n + 1);
        }
        if n: nat :| FailsFirst(bindings, answers, n) {
          assert forall i :: 0 <= i < |rest| ==> rest[i] == bindings[i + 1];
          assert FailsFirst(rest, answers, n - 1);
        }
      }
    }
  }

  ghost predicate Answered(bindings: seq<Binding>, answers: map<string, Membership>)
  {
    forall b :: b in bindings ==> Contains(b, answers) || Excludes(b, answers)
  }

  lemma {:induction false} AnsweredSearch(bindings: seq<Binding>, answers: map<string, Membership>)
    requires Answered(bindings, answers)
    ensures Search(bindings, answers).Some?
  {
    if bindings != [] {
      assert bindings[0] in bindings;
      AnsweredSearch(bindings[1..], answers);
    }
  }

  lemma GreatestIsUnique(a: seq<Binding>, b: seq<Binding>, answers: map<string, Membership>, x: int, y: int)
    requires forall c :: c in a <==> c in b
    requires forall c :: c in a ==> c.role >= NONE
    requires IsGreatest(a, answers, x) && IsGreatest(b, answers, y)
    ensures x == y
  {}

  // ---------------------------------------------------------------- the resolver

  predicate IsWord(s: string) { s in {"viewer", "operator", "approver", "admin"} }

  ghost predicate ValidBindings(bindings: seq<GroupBinding>)
  {
    && 1 <= |bindings| <= 20
    && (forall i :: 0 <= i < |bindings| ==>
          IsWord(bindings[i].role) && IsResource(bindings[i].resource))
    && (forall i, j :: 0 <= i < j < |bindings| ==> bindings[i].resource != bindings[j].resource)
  }

  function Resolved(bindings: seq<GroupBinding>): (r: seq<Binding>)
    requires forall i :: 0 <= i < |bindings| ==> ParseRole(bindings[i].role).Some?
    ensures |r| == |bindings|
  {
    seq(|bindings|, i requires 0 <= i < |bindings| => Binding(bindings[i].resource, ParseRole(bindings[i].role).value))
  }

  /** The level that a configured word stands for. */
  predicate Says(level: int, word: string)
  {
    || (level == 1 && word == "viewer") || (level == 2 && word == "operator") || (level == 3 && word == "approver")
    || (level == 4 && word == "admin")
  }

  lemma ParsedRole(s: string)
    ensures ParseRole(s).Some? <==> IsWord(s)
    ensures ParseRole(s).Some? ==> forall level :: Says(level, s) <==> level == ParseRole(s).value
  {}

  /** The binding is what the configuration says about its group. */
  predicate IsConfigured(b: Binding, g: GroupBinding) { b.resource == g.resource && Says(b.role, g.role) }

  /** What the constructor makes of a valid configuration: its bindings, by descending role. */
  ghost predicate ResolvesTo(configured: seq<GroupBinding>, bindings: seq<Binding>)
  {
    && ValidBindings(configured) && Descending(bindings) && |bindings| == |configured|
    && (forall b :: b in bindings ==> exists g :: g in configured && IsConfigured(b, g))
    && (forall g :: g in configured ==> exists b :: b in bindings && IsConfigured(b, g))
  }

  method InsertBinding(b: Binding, sorted: seq<Binding>) returns (r: seq<Binding>)
    requires Descending(sorted) && DistinctResources(sorted) && forall i :: 0 <= i < |sorted| ==> sorted[i].resource != b.resource
    ensures Descending(r) && DistinctResources(r) && multiset(r) == multiset(sorted) + multiset{b}
    ensures forall x :: x in r <==> x == b || x in sorted
  {
    hide DistinctResources;
    var i := 0;
    while i < |sorted| && sorted[i].role > b.role
      invariant 0 <= i <= |sorted|
      invariant forall j :: 0 <= j < i ==> sorted[j].role > b.role
    {
      i := i + 1;
    }
    r := sorted[..i] + [b] + sorted[i..];
    InsertedBinding(b, sorted, i, r);
    InsertedKeeps(b, sorted, i, r);
  }

  lemma InsertedBinding(b: Binding, sorted: seq<Binding>, i: nat, r: seq<Binding>)
    requires i <= |sorted| && r == sorted[..i] + [b] + sorted[i..]
    ensures multiset(r) == multiset(sorted) + multiset{b}
    ensures forall x :: x in r <==> x == b || x in sorted
  {
    assert sorted == sorted[..i] + sorted[i..];
  }

  lemma InsertedKeeps(b: Binding, sorted: seq<Binding>, i: nat, r: seq<Binding>)
    requires i <= |sorted| && r == sorted[..i] + [b] + sorted[i..]
    requires Descending(sorted) && DistinctResources(sorted) && forall j :: 0 <= j < |sorted| ==> sorted[j].resource != b.resource
    requires (forall j :: 0 <= j < i ==> sorted[j].role > b.role) && (i < |sorted| ==> sorted[i].role <= b.role)
    ensures Descending(r) && DistinctResources(r)
  {
    assert forall j :: 0 <= j < |r| && j != i ==> r[j] == sorted[if j < i then j else j - 1];
  }

  /** The checks of the constructor. */
  method CheckBindings(bindings: seq<GroupBinding>) returns (r: Option<seq<Binding>>)
    ensures r.Some? <==> ValidBindings(bindings)
    ensures r.Some? ==> (forall i :: 0 <= i < |bindings| ==> ParseRole(bindings[i].role).Some?) && r.value == Resolved(bindings)
  {
    forall s ensures ParseRole(s).Some? <==> IsWord(s) { ParsedRole(s); }
    hide IsResource, ParseRole, IsWord;
    if |bindings| == 0 || |bindings| > 20 { return None; }
    var seen: set<string> := {};
    var resolved: seq<Binding> := [];
    for n := 0 to |bindings|
      invariant forall i :: 0 <= i < n ==> ParseRole(bindings[i].role).Some? && IsResource(bindings[i].resource)
      invariant forall i, j :: 0 <= i < j < n ==> bindings[i].resource != bindings[j].resource
      invariant forall s :: s in seen <==> exists i :: 0 <= i < n && bindings[i].resource == s
      invariant resolved == Resolved(bindings[..n])
    {
      var role := ParseRole(bindings[n].role);
      if role.None? || !IsResource(bindings[n].resource) || bindings[n].resource in seen { return None; }
      seen := seen + {bindings[n].resource};
      resolved := resolved + [Binding(bindings[n].resource, role.value)];
    }
    assert bindings[..|bindings|] == bindings;
    return Some(resolved);
  }

  /** `sort.Slice` by descending role. */
  method SortBindings(s: seq<Binding>) returns (sorted: seq<Binding>)
    requires DistinctResources(s)
    ensures Descending(sorted) && DistinctResources(sorted) && multiset(sorted) == multiset(s)
  {
    sorted := [];
    for n := 0 to |s|
      invariant Descending(sorted) && DistinctResources(sorted) && multiset(sorted) == multiset(s[..n])
      invariant forall b :: b in sorted ==> b in s[..n]
    {
      hide Descending;
      assert forall b :: b in s[..n] ==> b.resource != s[n].resource;
      sorted := InsertBinding(s[n], sorted);
      assert s[..n + 1] == s[..n] + [s[n]];
    }
    assert s[..|s|] == s;
  }

  lemma {:induction false} ResolvedContents(bindings: seq<GroupBinding>, x: Binding)
    requires forall i :: 0 <= i < |bindings| ==> ParseRole(bindings[i].role).Some?
    ensures x in Resolved(bindings) <==> exists g :: g in bindings && x == Binding(g.resource, ParseRole(g.role).value)
  {
    if x in Resolved(bindings) {
      var i :| 0 <= i < |bindings| && Resolved(bindings)[i] == x;
      assert bindings[i] in bindings;
    }
    if g :| g in bindings && x == Binding(g.resource, ParseRole(g.role).value) {
      var i :| 0 <= i < |bindings| && bindings[i] == g;
      assert Resolved(bindings)[i] == x;
    }
  }

  lemma SortedResolves(configured: seq<GroupBinding>, bindings: seq<Binding>)
    requires ValidBindings(configured) && Descending(bindings) && forall i :: 0 <= i < |configured| ==> ParseRole(configured[i].role).Some?
    requires multiset(bindings) == multiset(Resolved(configured))
    ensures ResolvesTo(configured, bindings)
  {
    hide IsResource, ParseRole, Says, Descending, ValidBindings;
    assert |bindings| == |multiset(bindings)| == |multiset(Resolved(configured))|;
    forall b ensures b in bindings <==> b in Resolved(configured) {
      assert b in bindings <==> b in multiset(bindings);
      assert b in Resolved(configured) <==> b in multiset(Resolved(configured));
    }
    forall b | b in bindings ensures exists g :: g in configured && IsConfigured(b, g) {
      ResolvedContents(configured, b);
      var g :| g in configured && b == Binding(g.resource, ParseRole(g.role).value);
      ParsedRole(g.role);
      assert IsConfigured(b, g);
    }
    forall g | g in configured ensures exists b :: b in bindings && IsConfigured(b, g) {
      var b := Binding(g.resource, ParseRole(g.role).value);
      ResolvedContents(configured, b);
      ParsedRole(g.role);
      assert b in bindings && IsConfigured(b, g);
    }
  }

  /** What the constructor is given becomes what `RoleFor` goes through. */
  method ResolveBindings(bindings: seq<GroupBinding>) returns (r: Option<seq<Binding>>)
    ensures r.Some? <==> ValidBindings(bindings)
    ensures r.Some? ==> ResolvesTo(bindings, r.value) && DistinctResources(r.value)
  {
    hide IsResource, ParseRole, Descending, ResolvesTo;
    var checked := CheckBindings(bindings);
    if checked.None? { return None; }
    var sorted := SortBindings(checked.value);
    SortedResolves(bindings, sorted);
    return Some(sorted);
  }

  predicate MemberOf(g: GroupBinding, answers: map<string, Membership>) { g.resource in answers && answers[g.resource].Member? }

  predicate NotMemberOf(g: GroupBinding, answers: map<string, Membership>) { g.resource in answers && answers[g.resource].NotMember? }

  /** The level is the greatest that the configuration gives to a group containing the person, or 0 if there is
      none; the person was said not to be in any group with a greater one. */
  ghost predicate IsGreatestConfigured(configured: seq<GroupBinding>, answers: map<string, Membership>, level: int)
  {
    && (level == 0 || exists g :: g in configured && Says(level, g.role) && MemberOf(g, answers))
    && forall g, more :: g in configured && Says(more, g.role) && more > level ==> NotMemberOf(g, answers)
  }

  lemma ConfigurationOf(configured: seq<GroupBinding>, bindings: seq<Binding>, b: Binding) returns (g: GroupBinding)
    requires ResolvesTo(configured, bindings) && b in bindings
    ensures g in configured && g.resource == b.resource && Says(b.role, g.role)
  {
    hide ValidBindings, Descending;
    g :| g in configured && IsConfigured(b, g);
  }

  lemma BindingOf(configured: seq<GroupBinding>, bindings: seq<Binding>, g: GroupBinding, level: int) returns (b: Binding)
    requires ResolvesTo(configured, bindings) && g in configured && Says(level, g.role)
    ensures b in bindings && b == Binding(g.resource, level)
  {
    hide ValidBindings, Descending;
    b :| b in bindings && IsConfigured(b, g);
  }

  lemma ConfiguredGreatest(configured: seq<GroupBinding>, bindings: seq<Binding>, answers: map<string, Membership>, level: int)
    requires ResolvesTo(configured, bindings) && IsGreatest(bindings, answers, level)
    ensures IsGreatestConfigured(configured, answers, level)
  {
    hide ResolvesTo, Says;
    if level != NONE {
      var b :| b in bindings && b.role == level && Contains(b, answers);
      var g := ConfigurationOf(configured, bindings, b);
      assert MemberOf(g, answers);
    }
    forall g, more | g in configured && Says(more, g.role) && more > level ensures NotMemberOf(g, answers) {
      var b := BindingOf(configured, bindings, g, more);
      assert Excludes(b, answers);
    }
  }

  lemma SoleGreatest(configured: seq<GroupBinding>, answers: map<string, Membership>, g: GroupBinding, given: int, level: int)
    requires IsGreatestConfigured(configured, answers, level) && g in configured && Says(given, g.role) && MemberOf(g, answers)
    requires forall h :: h in configured && h != g ==> NotMemberOf(h, answers)
    ensures level == given
  {
    assert given <= level;
    var h :| h in configured && Says(level, h.role) && MemberOf(h, answers);
    assert h == g;
  }

  /** A person who is in one configured group only has the level that the configuration gives to that group: an
      operator's is 2. */
  lemma SoleGroupDecides(configured: seq<GroupBinding>, bindings: seq<Binding>, answers: map<string, Membership>, g: GroupBinding)
    requires ResolvesTo(configured, bindings) && g in configured && MemberOf(g, answers)
    requires forall h :: h in configured && h != g ==> NotMemberOf(h, answers)
    ensures g.role == "viewer" ==> Search(bindings, answers) == Some(1)
    ensures g.role == "operator" ==> Search(bindings, answers) == Some(2)
    ensures g.role == "approver" ==> Search(bindings, answers) == Some(3)
    ensures g.role == "admin" ==> Search(bindings, answers) == Some(4)
  {
    ResolvedDescends(configured, bindings);
    forall b | b in bindings ensures Contains(b, answers) || Excludes(b, answers) {
      var h := ConfigurationOf(configured, bindings, b);
      assert MemberOf(h, answers) || NotMemberOf(h, answers);
    }
    AnsweredSearch(bindings, answers);
    var level := Search(bindings, answers).value;
    SearchFindsGreatest(bindings, answers);
    ConfiguredGreatest(configured, bindings, answers, level);
    hide ResolvesTo, Search, IsGreatest, IsGreatestConfigured;
    if given: int :| 1 <= given <= 4 && Says(given, g.role) { SoleGreatest(configured, answers, g, given, level); }
  }

  /** `strings.TrimSpace`. */
  function Trim(s: string): string
  {
    if s == "" then ""
    else if IsSpace(s[0]) then Trim(s[1..])
    else if IsSpace(s[|s| - 1]) then Trim(s[..|s| - 1])
    else s
  }

  predicate Blank(s: string) { forall i :: 0 <= i < |s| ==> IsSpace(s[i]) }

  /** Trimming removes white space at both ends, all of it, and nothing else. */
  lemma {:induction false} TrimExactly(s: string) returns (before: string, after: string)
    ensures s == before + Trim(s) + after && Blank(before) && Blank(after)
    ensures IsTrimmed(Trim(s))
  {
    hide IsSpace;
    before, after := "", "";
    if s != "" && IsSpace(s[0]) {
      var b, a := TrimExactly(s[1..]);
      before, after := [s[0]] + b, a;
      assert s == [s[0]] + s[1..];
    } else if s != "" && IsSpace(s[|s| - 1]) {
      var b, a := TrimExactly(s[..|s| - 1]);
      before, after := b, a + [s[|s| - 1]];
      assert s == s[..|s| - 1] + [s[|s| - 1]];
    }
  }

  function Normal(email: string): string { ToLower(Trim(email)) }

  lemma {:induction false} TrimAround(before: string, core: string, after: string)
    requires Blank(before) && Blank(after) && core != "" && !IsSpace(core[0]) && !IsSpace(core[|core| - 1])
    ensures Trim(before + core + after) == core
    decreases |before| + |after|
  {
    hide IsSpace;
    var s := before + core + after;
    if before != "" {
      assert s[1..] == before[1..] + core + after;
      TrimAround(before[1..], core, after);
    } else if after != "" {
      assert s[0] == core[0];
      assert s[..|s| - 1] == before + core + after[..|after| - 1];
      TrimAround(before, core, after[..|after| - 1]);
    } else {
      assert s == core;
    }
  }

  lemma SpaceIsNoMail(c: char)
    ensures IsSpace(c) ==> !IsMailChar(LowerChar(c))
  {}

  /** The spellings of an address: any letter case, with any white space around it. */
  ghost predicate Spells(s: string, email: string)
  {
    exists before, core, after :: s == before + core + after && Blank(before) && Blank(after) && ToLower(core) == email
  }

  /** A person is looked up under an address exactly when the given text is one of its spellings. */
  lemma NormalExactly(s: string, email: string)
    requires IsEmail(email)
    ensures Normal(s) == email <==> Spells(s, email)
  {
    if Normal(s) == email {
      var before, after := TrimExactly(s);
      hide Trim, Blank;
      assert s == before + Trim(s) + after && ToLower(Trim(s)) == email;
    }
    if before, core, after :| s == before + core + after && Blank(before) && Blank(after) && ToLower(core) == email {
      EmailIsMail(email);
      assert email != "" by { hide IsDomain; }
      assert LowerChar(core[0]) == email[0] && LowerChar(core[|core| - 1]) == email[|core| - 1];
      hide IsEmail, IsSpace, LowerChar, IsMailChar, Trim, Blank;
      SpaceIsNoMail(core[0]);
      SpaceIsNoMail(core[|core| - 1]);
      TrimAround(before, core, after);
    }
  }

  predicate IsIdentity(email: string) { Utf8.ByteLen(email) <= 320 && IsEmail(email) }

  datatype Cached = Cached(role: int, expires: int)

  datatype Answer = Role(role: int) | Failed

  function AnswerOf(found: Option<int>): Answer { if found.Some? then Role(found.value) else Failed }

  /** A lookup that asked the checker and ended with a role: whose, for whom, what the checker said to it,
      and when its answer was cached. */
  datatype Lookup = Lookup(call: nat, email: string, checker: map<string, Membership>, storedAt: int)

  /** The cache after these lookups: each stores its role, and a full cache is emptied before. */
  function CacheAfter(bindings: seq<Binding>, lookups: seq<Lookup>): map<string, Cached>
  {
    if lookups == [] then map[]
    else
      var before, l := CacheAfter(bindings, lookups[..|lookups| - 1]), lookups[|lookups| - 1];
      match Search(bindings, l.checker)
      case None => before
      case Some(role) => (if |before| >= CACHE_LIMIT then map[] else before)[l.email := Cached(role, l.storedAt + TTL)]
  }

  lemma {:induction false} CacheIsBounded(bindings: seq<Binding>, lookups: seq<Lookup>)
    ensures |CacheAfter(bindings, lookups)| <= 10000
  {
    hide Search;
    if lookups != [] {
      var before, l := lookups[..|lookups| - 1], lookups[|lookups| - 1];
      CacheIsBounded(bindings, before);
      var kept := if |CacheAfter(bindings, before)| >= CACHE_LIMIT then map[] else CacheAfter(bindings, before);
      if Search(bindings, l.checker).Some? {
        AddedKey(kept, l.email, Cached(Search(bindings, l.checker).value, l.storedAt + TTL));
      }
    }
  }

  lemma AddedKey(m: map<string, Cached>, key: string, value: Cached)
    ensures |m[key := value]| <= |m| + 1
  {
    assert m[key := value].Keys == m.Keys + {key};
  }

  /** The entry comes from lookup `k`, the last one for that person that found a role. */
  ghost predicate IsLatest(bindings: seq<Binding>, lookups: seq<Lookup>, email: string, entry: Cached, k: nat)
  {
    && k < |lookups| && lookups[k].email == email && Search(bindings, lookups[k].checker) == Some(entry.role)
    && entry.expires == lookups[k].storedAt + TTL
    && forall j :: k < j < |lookups| && lookups[j].email == email ==> Search(bindings, lookups[j].checker) == None
  }

  /** A cached role is the one that the latest full lookup for that person found, and expires the TTL after it
      was stored. */
  lemma {:induction false} CachedIsLatest(bindings: seq<Binding>, lookups: seq<Lookup>, email: string)
    requires email in CacheAfter(bindings, lookups)
    ensures exists k: nat :: IsLatest(bindings, lookups, email, CacheAfter(bindings, lookups)[email], k)
  {
    hide Search;
    var before, l := lookups[..|lookups| - 1], lookups[|lookups| - 1];
    var entry := CacheAfter(bindings, lookups)[email];
    if l.email == email && Search(bindings, l.checker).Some? {
      assert IsLatest(bindings, lookups, email, entry, |lookups| - 1);
    } else {
      CachedIsLatest(bindings, before, email);
      var k: nat :| IsLatest(bindings, before, email, CacheAfter(bindings, before)[email], k);
      assert IsLatest(bindings, lookups, email, entry, k);
    }
  }

  /** The lookups of one call. */
  function Of(lookups: seq<Lookup>, call: nat): seq<Lookup>
  {
    if lookups == [] then []
    else Of(lookups[..|lookups| - 1], call) + (if lookups[|lookups| - 1].call == call then [lookups[|lookups| - 1]] else [])
  }

  /** The unexpired role that the cache after these lookups has for a person. */
  function Fresh(bindings: seq<Binding>, lookups: seq<Lookup>, email: string, now: int): Option<int>
  {
    var cache := CacheAfter(bindings, lookups);
    if email in cache && now < cache[email].expires then Some(cache[email].role) else None
  }

  /** A role that was found answers for two minutes, whatever lookups of others come later, as long as the cache has
      room for them. */
  lemma {:induction false} FoundStaysFresh(bindings: seq<Binding>, lookups: seq<Lookup>, l: Lookup, later: seq<Lookup>, now: int)
    requires Search(bindings, l.checker).Some? && now < l.storedAt + 120_000_000_000
    requires forall j :: 0 <= j < |later| ==> later[j].email != l.email
    requires |CacheAfter(bindings, lookups + [l])| + |later| <= 10000
    ensures Fresh(bindings, lookups + [l] + later, l.email, now) == Search(bindings, l.checker)
    ensures |CacheAfter(bindings, lookups + [l] + later)| <= |CacheAfter(bindings, lookups + [l])| + |later|
  {
    hide Search;
    var all := lookups + [l] + later;
    if later == [] {
      assert all == lookups + [l] && all[..|all| - 1] == lookups;
    } else {
      var fewer, last := later[..|later| - 1], later[|later| - 1];
      FoundStaysFresh(bindings, lookups, l, fewer, now);
      assert all[..|all| - 1] == lookups + [l] + fewer && all[|all| - 1] == last;
      var before := CacheAfter(bindings, lookups + [l] + fewer);
      if Search(bindings, last.checker).Some? {
        AddedKey(before, last.email, Cached(Search(bindings, last.checker).value, last.storedAt + TTL));
      }
    }
  }

  /** A role from the cache is the greatest configured one by the checker's answers to some lookup for that person,
      stored less than two minutes before. */
  lemma FreshIsConfigured(configured: seq<GroupBinding>, bindings: seq<Binding>, lookups: seq<Lookup>, email: string, now: int)
    requires ResolvesTo(configured, bindings) && Fresh(bindings, lookups, email, now).Some?
    ensures exists k: nat :: k < |lookups| && lookups[k].email == email && now < lookups[k].storedAt + 120_000_000_000
              && IsGreatestConfigured(configured, lookups[k].checker, Fresh(bindings, lookups, email, now).value)
  {
    ResolvedDescends(configured, bindings);
    CachedIsLatest(bindings, lookups, email);
    hide ResolvesTo, Search, Descending, IsGreatestConfigured;
    var k: nat :| IsLatest(bindings, lookups, email, CacheAfter(bindings, lookups)[email], k);
    SearchFindsGreatest(bindings, lookups[k].checker);
    ConfiguredGreatest(configured, bindings, lookups[k].checker, CacheAfter(bindings, lookups)[email].role);
  }

  class WorkspaceRoleResolver {
    /** What the resolver was configured with. */
    ghost const configured: seq<GroupBinding>
    const bindings: seq<Binding>
    var cache: map<string, Cached>
    /** Every lookup so far that asked the checker and found a role, of any call. */
    ghost var lookups: seq<Lookup>

    ghost predicate Valid()
      reads this
    {
      ResolvesTo(configured, bindings) && cache == CacheAfter(bindings, lookups)
    }

    constructor (ghost configuration: seq<GroupBinding>, resolved: seq<Binding>)
      requires ResolvesTo(configuration, resolved)
      ensures Valid() && configured == configuration && bindings == resolved && lookups == []
    {
      configured, bindings, cache, lookups := configuration, resolved, map[], [];
    }

    /** While the lock is free, other calls may look up and cache. */
    method Interfere(ghost call: nat)
      requires Valid()
      modifies this
      ensures Valid() && old(lookups) <= lookups && Of(lookups, call) == old(Of(lookups, call))
    {
    }

    /** The loop over the bindings: the checker is asked until it fails or names a group. */
    method Ask(checker: map<string, Membership>) returns (r: Answer)
      requires Descending(bindings)
      ensures r == AnswerOf(Search(bindings, checker))
      ensures r.Role? ==> IsGreatest(bindings, checker, r.role)
      ensures r.Failed? <==> exists n: nat :: FailsFirst(bindings, checker, n)
    {
      FailureEndsSearch(bindings, checker);
      if Search(bindings, checker).Some? { SearchFindsGreatest(bindings, checker); }
      hide IsGreatest, FailsFirst, Descending;
      for n := 0 to |bindings|
        invariant forall i :: 0 <= i < n ==> Excludes(bindings[i], checker)
      {
        SearchAt(bindings, checker, n);
        var answer := if bindings[n].resource in checker then checker[bindings[n].resource] else CheckFailed;
        if answer.CheckFailed? { return Failed; }
        if answer.Member? { return Role(bindings[n].role); }
      }
      SearchAt(bindings, checker, |bindings|);
      return Role(NONE);
    }

    method Store(ghost call: nat, email: string, role: int, ghost checker: map<string, Membership>, now: int)
      requires Valid() && Search(bindings, checker) == Some(role)
      modifies this
      ensures Valid() && lookups == old(lookups) + [Lookup(call, email, checker, now)]
      ensures Of(lookups, call) == old(Of(lookups, call)) + [Lookup(call, email, checker, now)]
    {
      hide Search, Descending;
      if |cache| >= CACHE_LIMIT { cache := map[]; }
      cache := cache[email := Cached(role, now + TTL)];
      lookups := lookups + [Lookup(call, email, checker, now)];
      assert lookups[..|lookups| - 1] == old(lookups);
    }

    method FromCache(email: string, now: int) returns (hit: Option<int>)
      requires Valid()
      ensures hit == Fresh(bindings, lookups, email, now)
    {
      hide ResolvesTo;
      if email in cache && now < cache[email].expires { return Some(cache[email].role); }
      return None;
    }

    /** The second half of `RoleFor`: asks, and caches a role. */
    method LookUp(ghost call: nat, email: string, checker: map<string, Membership>, storedAt: int) returns (r: Answer)
      requires Valid()
      modifies this
      ensures Valid() && old(lookups) <= lookups
      ensures r == AnswerOf(Search(bindings, checker)) && (r.Role? ==> IsGreatestConfigured(configured, checker, r.role))
      ensures Of(lookups, call) == old(Of(lookups, call)) + (if r.Role? then [Lookup(call, email, checker, storedAt)] else [])
    {
      ResolvedDescends(configured, bindings);
      hide Search, IsGreatest, IsGreatestConfigured, Descending, FailsFirst, CacheAfter, ResolvesTo, Of;
      r := Ask(checker);
      if r.Failed? { return; }
      ConfiguredGreatest(configured, bindings, checker, r.role);
      Interfere(call);
      Store(call, email, r.role, checker, storedAt);
    }

    /** `RoleFor`: the unexpired cached role at the moment it reads the cache, or else what the search through
        the checker's answers to this call finds; a role that was found this way, and nothing else, is cached. */
    method RoleFor(ghost call: nat, person: string, checker: map<string, Membership>, now: int, storedAt: int)
      returns (r: Answer, ghost seen: nat)
      requires Valid()
      modifies this
      ensures Valid() && old(lookups) <= lookups && |old(lookups)| <= seen <= |lookups|
      ensures !IsIdentity(Normal(person)) ==> r == Failed && Of(lookups, call) == old(Of(lookups, call))
      ensures IsIdentity(Normal(person)) ==>
                var hit := Fresh(bindings, lookups[..seen], Normal(person), now);
                && r == (if hit.Some? then Role(hit.value) else AnswerOf(Search(bindings, checker)))
                && (hit.None? && r.Role? ==> IsGreatestConfigured(configured, checker, r.role))
                && Of(lookups, call) == old(Of(lookups, call)) +
                     (if hit.None? && r.Role? then [Lookup(call, Normal(person), checker, storedAt)] else [])
    {
      hide IsIdentity, Normal, Search, IsGreatestConfigured, CacheAfter, ResolvesTo, Fresh, Of, AnswerOf;
      seen := |lookups|;
      var email := Normal(person);
      if !IsIdentity(email) { return Failed, seen; }
      Interfere(call);
      seen := |lookups|;
      ghost var p := lookups;
      assert lookups[..seen] == p;
      var hit := FromCache(email, now);
      if hit.Some? { return Role(hit.value), seen; }
      Interfere(call);
      r := LookUp(call, email, checker, storedAt);
      assert lookups[..seen] == p;
    }
  }

  /** The search when the first `n` groups exclude the person. */
  lemma {:induction false} SearchAt(bindings: seq<Binding>, answers: map<string, Membership>, n: nat)
    requires n <= |bindings| && forall i :: 0 <= i < n ==> Excludes(bindings[i], answers)
    ensures Search(bindings, answers) == Search(bindings[n..], answers)
  {
    if n > 0 {
      SearchAt(bindings[1..], answers, n - 1);
      assert bindings[1..][n - 1..] == bindings[n..];
    } else {
      assert bindings[0..] == bindings;
    }
  }

  // ---------------------------------------------------------------- the order of the configuration

  lemma ResolvedExactly(configured: seq<GroupBinding>, bindings: seq<Binding>, b: Binding)
    requires ResolvesTo(configured, bindings)
    ensures b in bindings <==> exists g :: g in configured && IsConfigured(b, g)
  {
    hide ValidBindings, Descending;
    if g :| g in configured && IsConfigured(b, g) {
      var c :| c in bindings && IsConfigured(c, g);
      assert b == c;
    }
  }

  /** Two configurations with the same entries resolve, in whatever order, to bindings that give every person
      the same role, unless a check fails. */
  lemma ConfigurationOrderIsIrrelevant(a: seq<GroupBinding>, b: seq<GroupBinding>, x: seq<Binding>, y: seq<Binding>,
                                       checker: map<string, Membership>)
    requires multiset(a) == multiset(b) && ResolvesTo(a, x) && ResolvesTo(b, y) && Answered(x, checker)
    ensures Search(x, checker) == Search(y, checker) && Search(x, checker).Some?
  {
    hide Search, ResolvesTo, IsConfigured, Answered;
    forall g ensures g in a <==> g in b { assert g in a <==> g in multiset(a); assert g in b <==> g in multiset(b); }
    forall c ensures c in x <==> c in y {
      ResolvedExactly(a, x, c);
      ResolvedExactly(b, y, c);
    }
    SameEntriesSameRole(a, b, x, y, checker);
  }

  lemma ResolvedDescends(configured: seq<GroupBinding>, bindings: seq<Binding>)
    requires ResolvesTo(configured, bindings)
    ensures Descending(bindings) && forall c :: c in bindings ==> c.role >= NONE
  {
    hide ValidBindings, Descending;
  }

  lemma SameEntriesSameRole(a: seq<GroupBinding>, b: seq<GroupBinding>, x: seq<Binding>, y: seq<Binding>, checker: map<string, Membership>)
    requires (forall c :: c in x <==> c in y) && ResolvesTo(a, x) && ResolvesTo(b, y) && Answered(x, checker)
    ensures Search(x, checker) == Search(y, checker) && Search(x, checker).Some?
  {
    ResolvedDescends(a, x);
    ResolvedDescends(b, y);
    hide ResolvesTo, Search, Descending;
    AnsweredSearch(x, checker);
    AnsweredSearch(y, checker);
    SearchFindsGreatest(x, checker);
    SearchFindsGreatest(y, checker);
    GreatestIsUnique(x, y, checker, Search(x, checker).value, Search(y, checker).value);
  }
}
