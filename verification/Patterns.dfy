/** The identifier patterns of internal/contract/models.go:37-47 as predicates on text, and the
    letter-case operations the service applies to e-mail addresses. */
module Patterns {
  import opened Prelude
  import Utf8

  /** A lower-case UUID version 4: request, receipt, approval and snapshot identities. */
  predicate IsUuid(s: string)
  {
    && |s| == 36
    && s[8] == '-' && s[13] == '-' && s[18] == '-' && s[23] == '-'
    && s[14] == '4' && s[19] in ['8', '9', 'a', 'b']
    && forall i :: 0 <= i < 36 && i !in [8, 13, 18, 23] ==> IsLowerHex(s[i])
  }

  predicate IsSha(s: string) { |s| == 40 && AllLowerHex(s) }

  predicate IsDigest(s: string) { |s| == 71 && HasPrefix(s, "sha256:") && AllLowerHex(s[7..]) }

  predicate IsNonce(s: string) { |s| == 32 && AllLowerHex(s) }

  predicate IsNameChar(c: char) { IsLower(c) || IsDigit(c) || c == '.' || c == '_' || c == '-' }

  predicate IsRepository(s: string)
  {
    && HasPrefix(s, "mindclade/")
    && var name := s[10..];
       || name == ".github"
       || (1 <= |name| <= 100 && (IsLower(name[0]) || IsDigit(name[0])) && forall i :: 0 <= i < |name| ==> IsNameChar(name[i]))
  }

  predicate IsKeyId(s: string)
  {
    3 <= |s| <= 64 && (IsLower(s[0]) || IsDigit(s[0])) && forall i :: 0 <= i < |s| ==> IsNameChar(s[i])
  }

  predicate IsReasonCode(s: string)
  {
    3 <= |s| <= 64 && IsUpper(s[0]) && forall i :: 0 <= i < |s| ==> IsUpper(s[i]) || IsDigit(s[i]) || s[i] == '_'
  }

  predicate IsAlnum(c: char) { IsLower(c) || IsDigit(c) }

  predicate IsLabel(s: string)
  {
    && 1 <= |s| <= 63 && IsAlnum(s[0]) && IsAlnum(s[|s| - 1])
    && forall i :: 0 <= i < |s| ==> IsAlnum(s[i]) || s[i] == '-'
  }

  /** Dot-separated labels, at least `least` of them. */
  predicate IsDomain(s: string, least: nat)
  {
    || (least <= 1 && IsLabel(s))
    || exists i :: 0 <= i < |s| && s[i] == '.' && IsLabel(s[..i]) && IsDomain(s[i + 1..], if least == 0 then 0 else least - 1)
  }

  predicate IsEmail(s: string)
  {
    exists at :: 1 <= at < |s| && at <= 128 && s[at] == '@'
      && IsAlnum(s[0]) && (forall i :: 0 <= i < at ==> IsAlnum(s[i]) || s[i] in "._+%-")
      && IsDomain(s[at + 1..], 2)
  }

  predicate HasControl(s: string) { '\r' in s || '\n' in s || '\0' in s }

  /** The Unicode white space that `strings.TrimSpace` removes. */
  predicate IsSpace(c: char)
  {
    var n := c as int;
    9 <= n <= 13 || n == 0x20 || n == 0x85 || n == 0xA0 || n == 0x1680 || 0x2000 <= n <= 0x200A
    || n == 0x2028 || n == 0x2029 || n == 0x202F || n == 0x205F || n == 0x3000
  }

  predicate IsTrimmed(s: string) { s == "" || (!IsSpace(s[0]) && !IsSpace(s[|s| - 1])) }

  predicate IsReason(s: string)
  {
    IsTrimmed(s) && 10 <= Utf8.ByteLen(s) <= 500 && !HasControl(s)
  }

  /** An optional https or simulation link of at most 512 bytes on one line. */
  predicate IsProviderReference(s: string)
  {
    Utf8.ByteLen(s) <= 512 && !HasControl(s) && (s == "" || HasPrefix(s, "https://") || HasPrefix(s, "simulation://"))
  }

  /** `unicode.ToLower`, exact for every character whose lower case is ASCII; other characters
      keep some non-ASCII form, which no e-mail pattern accepts. */
  function LowerChar(c: char): char
  {
    if IsUpper(c) then (c as int + 32) as char
    else if c as int == 0x212A then 'k'
    else if c as int == 0x130 then 'i'
    else c
  }

  function ToLower(s: string): (r: string)
    ensures |r| == |s|
  {
    seq(|s|, i requires 0 <= i < |s| => LowerChar(s[i]))
  }

  /** The class of a character under Unicode simple folding, exact whenever one of the two
      compared characters is ASCII. */
  function FoldChar(c: char): char
  {
    if IsUpper(c) then (c as int + 32) as char
    else if c as int == 0x212A then 'k'
    else if c as int == 0x17F then 's'
    else c
  }

  predicate EqualFold(a: string, b: string)
  {
    |a| == |b| && forall i :: 0 <= i < |a| ==> FoldChar(a[i]) == FoldChar(b[i])
  }

  /** The Turkish dotted capital, which lower-cases to an ASCII letter that does not fold back to it. */
  const DOTTED_I: char := 0x130 as char

  /** Lower-casing a text gives the same text up to letter case exactly when it has no dotted capital, and leaves no
      capital of the alphabet. */
  lemma LowerFoldsBack(s: string)
    ensures forall i :: 0 <= i < |s| ==> !('A' <= ToLower(s)[i] <= 'Z')
    ensures EqualFold(ToLower(s), s) <==> DOTTED_I !in s
  {
    forall i | 0 <= i < |s| ensures FoldChar(ToLower(s)[i]) == FoldChar(s[i]) <==> s[i] != DOTTED_I {}
  }

  lemma FoldTrans(a: string, b: string, c: string)
    requires EqualFold(a, b)
    ensures EqualFold(b, a)
    ensures EqualFold(b, c) <==> EqualFold(a, c)
  {}

  // ---------------------------------------------------------------- e-mail addresses and letter case

  /** The characters of a valid e-mail address: all ASCII, none of them a capital. */
  predicate IsMailChar(c: char) { IsAlnum(c) || c in "._+%-@" }

  predicate IsMailText(s: string) { forall i :: 0 <= i < |s| ==> IsMailChar(s[i]) }

  lemma MailConcat(a: string, c: char, b: string)
    requires IsMailText(a) && IsMailChar(c) && IsMailText(b)
    ensures IsMailText(a + [c] + b)
  {
    hide IsMailChar;
  }

  lemma LabelIsMail(s: string)
    requires IsLabel(s)
    ensures IsMailText(s)
  {}

  lemma {:induction false} DomainIsMail(s: string, least: nat)
    requires IsDomain(s, least)
    ensures IsMailText(s)
  {
    hide IsLabel, IsMailText;
    if least <= 1 && IsLabel(s) {
      LabelIsMail(s);
    } else {
      var fewer: nat := if least == 0 then 0 else least - 1;
      var i :| 0 <= i < |s| && s[i] == '.' && IsLabel(s[..i]) && IsDomain(s[i + 1..], fewer);
      LabelIsMail(s[..i]);
      DomainIsMail(s[i + 1..], fewer);
      MailConcat(s[..i], '.', s[i + 1..]);
      assert s == s[..i] + ['.'] + s[i + 1..];
    }
  }

  lemma LocalPartIsMail(s: string)
    requires forall i :: 0 <= i < |s| ==> IsAlnum(s[i]) || s[i] in "._+%-"
    ensures IsMailText(s)
  {}

  lemma EmailIsMail(s: string)
    requires IsEmail(s)
    ensures IsMailText(s)
  {
    hide IsDomain, IsMailText;
    var at :| 1 <= at < |s| && at <= 128 && s[at] == '@'
              && (forall i :: 0 <= i < at ==> IsAlnum(s[i]) || s[i] in "._+%-") && IsDomain(s[at + 1..], 2);
    LocalPartIsMail(s[..at]);
    DomainIsMail(s[at + 1..], 2);
    MailConcat(s[..at], '@', s[at + 1..]);
    assert s == s[..at] + ['@'] + s[at + 1..];
  }

  /** A valid e-mail address is already in lower case. */
  lemma EmailIsLower(s: string)
    requires IsEmail(s)
    ensures ToLower(s) == s
  {
    hide IsEmail;
    EmailIsMail(s);
    assert forall i :: 0 <= i < |s| ==> IsMailChar(s[i]);
  }

  /** Nothing that equals an e-mail address up to letter case contains a dotted capital. */
  lemma FoldsToEmail(email: string, s: string)
    requires IsEmail(email) && EqualFold(email, s)
    ensures DOTTED_I !in s && EqualFold(ToLower(s), s)
  {
    hide IsEmail;
    EmailIsMail(email);
    forall i | 0 <= i < |s| ensures s[i] != DOTTED_I {
      assert IsMailChar(email[i]) && FoldChar(email[i]) == FoldChar(s[i]);
    }
    LowerFoldsBack(s);
  }
}
