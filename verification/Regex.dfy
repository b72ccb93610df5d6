/** Regular expressions that match a whole text (the syntax of regexp/syntax that the repository's
    patterns use): what they mean, and how a concatenation is matched from left to right. */
module Regex {
  import opened Prelude

  /** A class of characters is a list of ranges, both ends included. */
  datatype Expr =
    | Text(text: string)
    | OneOf(ranges: seq<(char, char)>)
    | Then(first: Expr, rest: Expr)
    | Either(left: Expr, right: Expr)
    | Repeat(body: Expr, least: nat, most: Option<nat>)

  predicate In(c: char, ranges: seq<(char, char)>)
  {
    exists i :: 0 <= i < |ranges| && ranges[i].0 <= c <= ranges[i].1
  }

  /** The expression matches the whole text. */
  ghost predicate Matches(e: Expr, s: string)
    decreases e, |s|, 0
  {
    match e
    case Text(text) => s == text
    case OneOf(ranges) => |s| == 1 && In(s[0], ranges)
    case Then(first, rest) => exists i :: 0 <= i <= |s| && Matches(first, s[..i]) && Matches(rest, s[i..])
    case Either(left, right) => Matches(left, s) || Matches(right, s)
    case Repeat(body, least, most) => Times(body, least, most, s)
  }

  function Less(n: nat): nat { if n == 0 then 0 else n - 1 }

  /** The text is at least `least` and at most `most` pieces that match, none of them empty. */
  ghost predicate Times(body: Expr, least: nat, most: Option<nat>, s: string)
    decreases body, |s|, 1
  {
    || (least == 0 && s == "")
    || (most != Some(0)
        && exists i :: 0 < i <= |s| && Matches(body, s[..i])
                       && Times(body, Less(least), if most.Some? then Some(Less(most.value)) else None, s[i..]))
  }

  // ---------------------------------------------------------------- matching from a position

  predicate AllIn(s: string, from: nat, to: nat, ranges: seq<(char, char)>)
  {
    from <= to <= |s| && forall i :: from <= i < to ==> In(s[i], ranges)
  }

  ghost predicate MatchesFrom(e: Expr, s: string, from: nat) { from <= |s| && Matches(e, s[from..]) }

  /** Repeated characters of one class. */
  lemma {:induction false} ClassTimes(ranges: seq<(char, char)>, least: nat, most: Option<nat>, s: string)
    ensures Times(OneOf(ranges), least, most, s) <==>
              least <= |s| && (most.Some? ==> |s| <= most.value) && AllIn(s, 0, |s|, ranges)
    decreases |s|
  {
    hide In;
    if s != "" && most != Some(0) {
      var rest := s[1..];
      var fewer := if most.Some? then Some(Less(most.value)) else None;
      ClassTimes(ranges, Less(least), fewer, rest);
      assert forall i :: 0 <= i < |rest| ==> rest[i] == s[i + 1];
      if Times(OneOf(ranges), least, most, s) {
        var i :| 0 < i <= |s| && Matches(OneOf(ranges), s[..i]) && Times(OneOf(ranges), Less(least), fewer, s[i..]);
        assert i == 1 && s[..1][0] == s[0];
      }
      if least <= |s| && (most.Some? ==> |s| <= most.value) && AllIn(s, 0, |s|, ranges) {
        assert AllIn(rest, 0, |rest|, ranges);
        assert Matches(OneOf(ranges), s[..1]);
      }
    }
  }

  lemma ClassMatches(ranges: seq<(char, char)>, least: nat, most: Option<nat>, s: string, from: nat)
    ensures MatchesFrom(Repeat(OneOf(ranges), least, most), s, from) <==>
              from + least <= |s| && (most.Some? ==> |s| <= from + most.value) && AllIn(s, from, |s|, ranges)
  {
    hide In;
    if from <= |s| {
      var rest := s[from..];
      ClassTimes(ranges, least, most, rest);
      assert forall i :: 0 <= i < |rest| ==> rest[i] == s[from + i];
      assert forall i :: from <= i < |s| ==> s[i] == rest[i - from];
    }
  }

  /** Before anything else, an expression whose matches all have one length takes that length. */
  lemma FixedThen(first: Expr, rest: Expr, s: string, from: nat, n: nat)
    requires forall t :: Matches(first, t) ==> |t| == n
    ensures MatchesFrom(Then(first, rest), s, from) <==> from + n <= |s| && Matches(first, s[from..from + n]) && MatchesFrom(rest, s, from + n)
  {
    hide Matches;
    if from <= |s| {
      var t := s[from..];
      if Matches(Then(first, rest), t) {
        var i := Split(first, rest, t);
        assert t[..i] == s[from..from + n] && t[i..] == s[from + n..];
      }
      if from + n <= |s| && Matches(first, s[from..from + n]) && MatchesFrom(rest, s, from + n) {
        assert t[..n] == s[from..from + n] && t[n..] == s[from + n..];
        Joined(first, rest, t, n);
      }
    }
  }

  lemma TextThen(text: string, rest: Expr, s: string, from: nat)
    ensures MatchesFrom(Then(Text(text), rest), s, from) <==>
              from + |text| <= |s| && s[from..from + |text|] == text && MatchesFrom(rest, s, from + |text|)
  {
    FixedThen(Text(text), rest, s, from, |text|);
  }

  lemma OneThen(ranges: seq<(char, char)>, rest: Expr, s: string, from: nat)
    ensures MatchesFrom(Then(OneOf(ranges), rest), s, from) <==> from + 1 <= |s| && In(s[from], ranges) && MatchesFrom(rest, s, from + 1)
  {
    hide In;
    FixedThen(OneOf(ranges), rest, s, from, 1);
    if from + 1 <= |s| { assert s[from..from + 1][0] == s[from]; }
  }

  lemma ManyThen(ranges: seq<(char, char)>, n: nat, rest: Expr, s: string, from: nat)
    ensures MatchesFrom(Then(Repeat(OneOf(ranges), n, Some(n)), rest), s, from) <==>
              AllIn(s, from, from + n, ranges) && MatchesFrom(rest, s, from + n)
  {
    hide In;
    var first := Repeat(OneOf(ranges), n, Some(n));
    forall t | Matches(first, t) ensures |t| == n { ClassTimes(ranges, n, Some(n), t); }
    FixedThen(first, rest, s, from, n);
    if from + n <= |s| {
      var t := s[from..from + n];
      ClassTimes(ranges, n, Some(n), t);
      assert forall i :: 0 <= i < n ==> t[i] == s[from + i];
      assert forall i :: from <= i < from + n ==> s[i] == t[i - from];
    }
  }

  lemma Whole(e: Expr, s: string)
    ensures Matches(e, s) <==> MatchesFrom(e, s, 0)
  {
    assert s[0..] == s;
  }

  lemma EitherFrom(left: Expr, right: Expr, s: string, from: nat)
    ensures MatchesFrom(Either(left, right), s, from) <==> MatchesFrom(left, s, from) || MatchesFrom(right, s, from)
  {}

  lemma TextFrom(text: string, s: string, from: nat)
    ensures MatchesFrom(Text(text), s, from) <==> from + |text| == |s| && s[from..] == text
  {}

  lemma OneFrom(ranges: seq<(char, char)>, s: string, from: nat)
    ensures MatchesFrom(OneOf(ranges), s, from) <==> from + 1 == |s| && In(s[from], ranges)
  {
    hide In;
  }

  /** Characters of one class and then a last character of another. */
  lemma ManyOne(ranges: seq<(char, char)>, least: nat, most: nat, last: seq<(char, char)>, s: string, from: nat)
    ensures MatchesFrom(Then(Repeat(OneOf(ranges), least, Some(most)), OneOf(last)), s, from) <==>
              from + 1 + least <= |s| <= from + 1 + most && AllIn(s, from, |s| - 1, ranges) && In(s[|s| - 1], last)
  {
    hide In;
    if from < |s| {
      var t := s[from..];
      var n := |t| - 1;
      var front := s[..|s| - 1];
      assert t[..n] == front[from..] && t[n..] == [s[|s| - 1]];
      ClassMatches(ranges, least, Some(most), front, from);
      assert AllIn(front, from, |front|, ranges) <==> AllIn(s, from, |s| - 1, ranges) by {
        assert forall i :: from <= i < |front| ==> front[i] == s[i];
      }
      var many := Repeat(OneOf(ranges), least, Some(most));
      if MatchesFrom(Then(many, OneOf(last)), s, from) {
        var i := Split(many, OneOf(last), t);
        assert |t[i..]| == 1;
      }
      if MatchesFrom(many, front, from) && In(s[|s| - 1], last) {
        assert Matches(OneOf(last), t[n..]);
        Joined(many, OneOf(last), t, n);
      }
    } else if from == |s| {
      forall i | 0 <= i <= |s[from..]| ensures !Matches(OneOf(last), s[from..][i..]) {}
    }
  }

  // ---------------------------------------------------------------- one piece more

  /** A text that repeats something starts with a piece that matches. */
  lemma FirstPiece(body: Expr, least: nat, s: string) returns (j: nat)
    requires Times(body, least, None, s) && !(least == 0 && s == "")
    ensures 0 < j <= |s| && Matches(body, s[..j]) && Times(body, Less(least), None, s[j..])
  {
    hide Matches;
    j :| 0 < j <= |s| && Matches(body, s[..j]) && Times(body, Less(least), None, s[j..]);
  }

  lemma OnePieceMore(body: Expr, least: nat, s: string, j: nat)
    requires 0 < j <= |s| && Matches(body, s[..j]) && Times(body, Less(least), None, s[j..])
    ensures Times(body, least, None, s)
  {
    hide Matches;
  }

  /** A concatenation is split somewhere. */
  lemma Split(first: Expr, rest: Expr, s: string) returns (i: nat)
    requires Matches(Then(first, rest), s)
    ensures i <= |s| && Matches(first, s[..i]) && Matches(rest, s[i..])
  {
    i :| 0 <= i <= |s| && Matches(first, s[..i]) && Matches(rest, s[i..]);
  }

  lemma Joined(first: Expr, rest: Expr, s: string, i: nat)
    requires i <= |s| && Matches(first, s[..i]) && Matches(rest, s[i..])
    ensures Matches(Then(first, rest), s)
  {}
}
