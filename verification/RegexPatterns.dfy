/** The repository's regular expressions written out, and the proof that the predicates of the model
    accept exactly the texts they match. */
module RegexPatterns {
  import opened Prelude
  import opened Patterns
  import opened Regex
  import Base64Url
  import Contract
  import GcsNames
  import Roles
  import Utf8

  // ---------------------------------------------------------------- classes of characters

  const DIGIT: seq<(char, char)> := [('0', '9')]
  const UPPER: seq<(char, char)> := [('A', 'Z')]
  const HEX: seq<(char, char)> := [('0', '9'), ('a', 'f')]
  const VARIANT: seq<(char, char)> := [('8', '9'), ('a', 'b')]
  const ALNUM: seq<(char, char)> := [('a', 'z'), ('0', '9')]
  const NAME: seq<(char, char)> := [('a', 'z'), ('0', '9'), ('.', '.'), ('_', '_'), ('-', '-')]
  const CODE: seq<(char, char)> := [('A', 'Z'), ('0', '9'), ('_', '_')]
  const SYMBOL: seq<(char, char)> := [('A', 'Z'), ('a', 'z'), ('0', '9'), ('_', '_'), ('-', '-')]
  const LOCAL: seq<(char, char)> := [('a', 'z'), ('0', '9'), ('.', '.'), ('_', '_'), ('+', '+'), ('%', '%'), ('-', '-')]
  const INNER: seq<(char, char)> := [('a', 'z'), ('0', '9'), ('-', '-')]
  const RECEIPT: seq<(char, char)> := [('0', '9'), ('a', 'f'), ('-', '-')]

  predicate IsCode(c: char) { IsUpper(c) || IsDigit(c) || c == '_' }

  predicate IsLocal(c: char) { IsAlnum(c) || c in "._+%-" }

  lemma DigitClass()
    ensures forall c :: In(c, DIGIT) <==> IsDigit(c)
  {
    forall c
      ensures In(c, DIGIT) <==> IsDigit(c)
    {
      assert DIGIT[0] == DIGIT[0];
    }
  }

  lemma UpperClass()
    ensures forall c :: In(c, UPPER) <==> IsUpper(c)
  {
    forall c
      ensures In(c, UPPER) <==> IsUpper(c)
    {
      assert UPPER[0] == UPPER[0];
    }
  }

  lemma HexClass()
    ensures forall c :: In(c, HEX) <==> IsLowerHex(c)
  {
    forall c
      ensures In(c, HEX) <==> IsLowerHex(c)
    {
      assert HEX[0] == HEX[0] && HEX[1] == HEX[1];
    }
  }

  lemma VariantClass()
    ensures forall c :: In(c, VARIANT) <==> c in ['8', '9', 'a', 'b']
  {
    forall c
      ensures In(c, VARIANT) <==> c in ['8', '9', 'a', 'b']
    {
      assert VARIANT[0] == VARIANT[0] && VARIANT[1] == VARIANT[1];
    }
  }

  lemma AlnumClass()
    ensures forall c :: In(c, ALNUM) <==> IsAlnum(c)
  {
    forall c
      ensures In(c, ALNUM) <==> IsAlnum(c)
    {
      assert ALNUM[0] == ALNUM[0] && ALNUM[1] == ALNUM[1];
    }
  }

  lemma NameClass()
    ensures forall c :: In(c, NAME) <==> IsNameChar(c)
  {
    forall c
      ensures In(c, NAME) <==> IsNameChar(c)
    {
      assert NAME[0] == NAME[0] && NAME[1] == NAME[1] && NAME[2] == NAME[2] && NAME[3] == NAME[3] && NAME[4] == NAME[4];
    }
  }

  lemma CodeClass()
    ensures forall c :: In(c, CODE) <==> IsCode(c)
  {
    forall c
      ensures In(c, CODE) <==> IsCode(c)
    {
      assert CODE[0] == CODE[0] && CODE[1] == CODE[1] && CODE[2] == CODE[2];
    }
  }

  lemma SymbolClass()
    ensures forall c :: In(c, SYMBOL) <==> Base64Url.IsSymbol(c)
  {
    forall c
      ensures In(c, SYMBOL) <==> Base64Url.IsSymbol(c)
    {
      assert SYMBOL[0] == SYMBOL[0] && SYMBOL[1] == SYMBOL[1] && SYMBOL[2] == SYMBOL[2] && SYMBOL[3] == SYMBOL[3] && SYMBOL[4] == SYMBOL[4];
    }
  }

  lemma LocalClass()
    ensures forall c :: In(c, LOCAL) <==> IsLocal(c)
  {
    forall c
      ensures In(c, LOCAL) <==> IsLocal(c)
    {
      assert LOCAL[0] == LOCAL[0] && LOCAL[1] == LOCAL[1] && LOCAL[2] == LOCAL[2] && LOCAL[3] == LOCAL[3] && LOCAL[4] == LOCAL[4] && LOCAL[5] == LOCAL[5] && LOCAL[6] == LOCAL[6];
    }
  }

  lemma InnerClass()
    ensures forall c :: In(c, INNER) <==> (IsAlnum(c) || c == '-')
  {
    forall c
      ensures In(c, INNER) <==> (IsAlnum(c) || c == '-')
    {
      assert INNER[0] == INNER[0] && INNER[1] == INNER[1] && INNER[2] == INNER[2];
    }
  }

  lemma ReceiptClass()
    ensures forall c :: In(c, RECEIPT) <==> (IsLowerHex(c) || c == '-')
  {
    forall c
      ensures In(c, RECEIPT) <==> (IsLowerHex(c) || c == '-')
    {
      assert RECEIPT[0] == RECEIPT[0] && RECEIPT[1] == RECEIPT[1] && RECEIPT[2] == RECEIPT[2];
    }
  }

  // ---------------------------------------------------------------- hexadecimal identities

  function Hex(n: nat): Expr { Repeat(OneOf(HEX), n, Some(n)) }

  /** `^[0-9a-f]{40}$` */
  lemma ShaMatches(s: string)
    ensures IsSha(s) <==> Matches(Hex(40), s)
  {
    hide In, IsLowerHex;
    HexClass();
    Whole(Hex(40), s);
    ClassMatches(HEX, 40, Some(40), s, 0);
  }

  /** `^[0-9a-f]{32}$` */
  lemma NonceMatches(s: string)
    ensures IsNonce(s) <==> Matches(Hex(32), s)
  {
    hide In, IsLowerHex;
    HexClass();
    Whole(Hex(32), s);
    ClassMatches(HEX, 32, Some(32), s, 0);
  }

  /** `^sha256:[0-9a-f]{64}$` */
  function DigestExpr(): Expr { Then(Text("sha256:"), Hex(64)) }

  lemma DigestMatches(s: string)
    ensures IsDigest(s) <==> Matches(DigestExpr(), s)
  {
    hide In, IsLowerHex, Matches;
    HexClass();
    Whole(DigestExpr(), s);
    TextThen("sha256:", Hex(64), s, 0);
    ClassMatches(HEX, 64, Some(64), s, 7);
    hide MatchesFrom;
    if |s| == 71 {
      assert HasPrefix(s, "sha256:") <==> s[0..7] == "sha256:";
      assert forall i :: 0 <= i < 64 ==> s[7..][i] == s[7 + i];
      assert forall i :: 7 <= i < 71 ==> s[i] == s[7..][i - 7];
    }
  }

  /** `^[0-9a-f]{8}-[0-9a-f]{4}-4[0-9a-f]{3}-[89ab][0-9a-f]{3}-[0-9a-f]{12}$` */
  function UuidExpr(): Expr
  {
    Then(Hex(8), Then(Text("-"), Then(Hex(4), Then(Text("-4"), Then(Hex(3), Then(Text("-"),
    Then(OneOf(VARIANT), Then(Hex(3), Then(Text("-"), Hex(12))))))))))
  }

  /** What the expression says position by position. */
  lemma UuidPositions(s: string)
    ensures Matches(UuidExpr(), s) <==>
              && |s| == 36 && AllIn(s, 0, 8, HEX) && s[8..9] == "-" && AllIn(s, 9, 13, HEX) && s[13..15] == "-4" && AllIn(s, 15, 18, HEX)
              && s[18..19] == "-" && In(s[19], VARIANT) && AllIn(s, 20, 23, HEX) && s[23..24] == "-" && AllIn(s, 24, 36, HEX)
  {
    hide In, Matches, AllIn;
    var e9 := Hex(12);
    var e8 := Then(Text("-"), e9);
    var e7 := Then(Hex(3), e8);
    var e6 := Then(OneOf(VARIANT), e7);
    var e5 := Then(Text("-"), e6);
    var e4 := Then(Hex(3), e5);
    var e3 := Then(Text("-4"), e4);
    var e2 := Then(Hex(4), e3);
    var e1 := Then(Text("-"), e2);
    Whole(UuidExpr(), s);
    ManyThen(HEX, 8, e1, s, 0);
    TextThen("-", e2, s, 8);
    ManyThen(HEX, 4, e3, s, 9);
    TextThen("-4", e4, s, 13);
    ManyThen(HEX, 3, e5, s, 15);
    TextThen("-", e6, s, 18);
    OneThen(VARIANT, e7, s, 19);
    ManyThen(HEX, 3, e8, s, 20);
    TextThen("-", e9, s, 23);
    ClassMatches(HEX, 12, Some(12), s, 24);
    hide MatchesFrom;
  }

  lemma HexRange(s: string, from: nat, to: nat)
    ensures AllIn(s, from, to, HEX) <==> from <= to <= |s| && forall i :: from <= i < to ==> IsLowerHex(s[i])
  {
    hide In, IsLowerHex;
    HexClass();
  }

  lemma FixedIsHex(c: char)
    ensures c in ['4', '8', '9', 'a', 'b'] ==> IsLowerHex(c)
  {}

  lemma UuidMatches(s: string)
    ensures IsUuid(s) <==> Matches(UuidExpr(), s)
  {
    hide Matches, In, IsLowerHex, AllIn;
    UuidPositions(s);
    HexRange(s, 0, 8);
    HexRange(s, 9, 13);
    HexRange(s, 15, 18);
    HexRange(s, 20, 23);
    HexRange(s, 24, 36);
    if |s| == 36 {
      VariantClass();
      FixedIsHex(s[14]);
      FixedIsHex(s[19]);
      UuidPieces(s);
    }
  }

  lemma UuidPieces(s: string)
    requires |s| == 36
    ensures s[8..9] == "-" <==> s[8] == '-'
    ensures s[13..15] == "-4" <==> s[13] == '-' && s[14] == '4'
    ensures s[18..19] == "-" <==> s[18] == '-'
    ensures s[23..24] == "-" <==> s[23] == '-'
  {}

  // ---------------------------------------------------------------- names of audit objects

  /** `^audit/operations/[0-9]{4}/[0-9]{2}/[0-9]{2}/[0-9a-f-]{36}\.json$` */
  function ReceiptNameExpr(): Expr
  {
    Then(Text("audit/operations/"), Then(Repeat(OneOf(DIGIT), 4, Some(4)), Then(Text("/"), Then(Repeat(OneOf(DIGIT), 2, Some(2)), Then(Text("/"),
    Then(Repeat(OneOf(DIGIT), 2, Some(2)), Then(Text("/"), Then(Repeat(OneOf(RECEIPT), 36, Some(36)), Text(".json")))))))))
  }

  lemma ReceiptNamePositions(s: string)
    ensures Matches(ReceiptNameExpr(), s) <==>
              && |s| == 69 && s[0..17] == "audit/operations/" && AllIn(s, 17, 21, DIGIT) && s[21..22] == "/" && AllIn(s, 22, 24, DIGIT)
              && s[24..25] == "/" && AllIn(s, 25, 27, DIGIT) && s[27..28] == "/" && AllIn(s, 28, 64, RECEIPT) && s[64..] == ".json"
  {
    hide In, Matches, AllIn;
    var e8 := Text(".json");
    var e7 := Then(Repeat(OneOf(RECEIPT), 36, Some(36)), e8);
    var e6 := Then(Text("/"), e7);
    var e5 := Then(Repeat(OneOf(DIGIT), 2, Some(2)), e6);
    var e4 := Then(Text("/"), e5);
    var e3 := Then(Repeat(OneOf(DIGIT), 2, Some(2)), e4);
    var e2 := Then(Text("/"), e3);
    var e1 := Then(Repeat(OneOf(DIGIT), 4, Some(4)), e2);
    Whole(ReceiptNameExpr(), s);
    TextThen("audit/operations/", e1, s, 0);
    ManyThen(DIGIT, 4, e2, s, 17);
    TextThen("/", e3, s, 21);
    ManyThen(DIGIT, 2, e4, s, 22);
    TextThen("/", e5, s, 24);
    ManyThen(DIGIT, 2, e6, s, 25);
    TextThen("/", e7, s, 27);
    ManyThen(RECEIPT, 36, e8, s, 28);
    TextFrom(".json", s, 64);
    hide MatchesFrom;
  }

  lemma ReceiptNameMatches(s: string)
    ensures GcsNames.IsReceiptName(s) <==> Matches(ReceiptNameExpr(), s)
  {
    hide Matches, In, IsDigit, IsLowerHex;
    ReceiptNamePositions(s);
    if |s| == 69 {
      DayPositions(s);
      ReceiptPositions(s);
      assert s[0..17] == s[..17] && (s[27..28] == "/" <==> s[27] == '/');
    }
  }

  lemma DayPositions(s: string)
    requires |s| == 69
    ensures Contract.IsDay(s[17..27]) <==>
              && AllIn(s, 17, 21, DIGIT) && s[21..22] == "/" && AllIn(s, 22, 24, DIGIT) && s[24..25] == "/" && AllIn(s, 25, 27, DIGIT)
  {
    hide In, IsDigit;
    DigitClass();
    var day := s[17..27];
    assert forall i :: 0 <= i < 10 ==> day[i] == s[17 + i];
    assert forall i :: 17 <= i < 27 ==> s[i] == day[i - 17];
    assert (s[21..22] == "/" <==> s[21] == '/') && (s[24..25] == "/" <==> s[24] == '/');
  }

  lemma ReceiptPositions(s: string)
    requires |s| == 69
    ensures GcsNames.IsReceiptText(s[28..64]) <==> AllIn(s, 28, 64, RECEIPT)
  {
    hide In, IsLowerHex;
    ReceiptClass();
    var id := s[28..64];
    assert forall i :: 0 <= i < 36 ==> id[i] == s[28 + i];
    assert forall i :: 28 <= i < 64 ==> s[i] == id[i - 28];
  }

  /** A fixed text, an identity and a fixed text. */
  function Around(before: string, e: Expr, after: string): Expr { Then(Text(before), Then(e, Text(after))) }

  lemma AroundMatches(before: string, e: Expr, after: string, s: string)
    ensures Matches(Around(before, e, after), s) <==> exists id :: Matches(e, id) && s == before + id + after
  {
    var rest := Then(e, Text(after));
    Whole(Around(before, e, after), s);
    TextThen(before, rest, s, 0);
    hide Matches, Around;
    if MatchesFrom(rest, s, |before|) && s[0..|before|] == before { AroundCut(before, e, after, s); }
    if id :| Matches(e, id) && s == before + id + after { AroundJoin(before, e, after, id); }
  }

  lemma AroundCut(before: string, e: Expr, after: string, s: string)
    requires MatchesFrom(Then(e, Text(after)), s, |before|) && s[0..|before|] == before
    ensures exists id :: Matches(e, id) && s == before + id + after
  {
    var t := s[|before|..];
    var j := Split(e, Text(after), t);
    assert t[j..] == after;
    hide Matches, MatchesFrom;
    assert Matches(e, t[..j]) && s == before + t[..j] + after;
  }

  lemma AroundJoin(before: string, e: Expr, after: string, id: string)
    requires Matches(e, id)
    ensures var s := before + id + after; s[0..|before|] == before && MatchesFrom(Then(e, Text(after)), s, |before|)
  {
    var s := before + id + after;
    var t := id + after;
    assert s[|before|..] == t && t[..|id|] == id && t[|id|..] == after;
    assert Matches(Text(after), t[|id|..]);
    hide Matches;
    Joined(e, Text(after), t, |id|);
  }

  /** The objects of the bucket by the names that their identities give them, besides the receipts. */
  lemma RecordNamesMatch(s: string)
    ensures (exists id :: IsUuid(id) && GcsNames.NameOf(GcsNames.ReplayRequest(id)) == s) <==> Matches(Around("audit/replay/requests/", UuidExpr(), ".json"), s)
    ensures (exists id :: IsUuid(id) && GcsNames.NameOf(GcsNames.ReplayApproval(id)) == s) <==> Matches(Around("audit/replay/approvals/", UuidExpr(), ".json"), s)
    ensures (exists id :: IsUuid(id) && GcsNames.NameOf(GcsNames.RequestRecord(id)) == s) <==> Matches(Around("audit/requests/", UuidExpr(), ".json"), s)
    ensures (exists id :: IsUuid(id) && GcsNames.NameOf(GcsNames.DispatchRecord(id)) == s) <==> Matches(Around("audit/outbox/", UuidExpr(), "/dispatch.json"), s)
    ensures (exists id :: IsUuid(id) && GcsNames.NameOf(GcsNames.ResultRecord(id)) == s) <==> Matches(Around("audit/outbox/", UuidExpr(), "/result.json"), s)
    ensures (exists hex :: GcsNames.IsHex64(hex) && GcsNames.NameOf(GcsNames.ReplayBinding(hex)) == s) <==> Matches(Around("audit/replay/bindings/", Hex(64), ".json"), s)
    ensures (exists hex :: GcsNames.IsHex64(hex) && GcsNames.NameOf(GcsNames.EvidenceRecord(hex)) == s) <==> Matches(Around("audit/evidence/", Hex(64), ".json"), s)
  {
    hide Matches, IsUuid, UuidExpr, Hex, GcsNames.IsHex64, Around;
    forall id ensures IsUuid(id) <==> Matches(UuidExpr(), id) { UuidMatches(id); }
    forall hex ensures GcsNames.IsHex64(hex) <==> Matches(Hex(64), hex) { Hex64Matches(hex); }
    AroundMatches("audit/replay/requests/", UuidExpr(), ".json", s);
    AroundMatches("audit/replay/approvals/", UuidExpr(), ".json", s);
    AroundMatches("audit/requests/", UuidExpr(), ".json", s);
    AroundMatches("audit/outbox/", UuidExpr(), "/dispatch.json", s);
    AroundMatches("audit/outbox/", UuidExpr(), "/result.json", s);
    AroundMatches("audit/replay/bindings/", Hex(64), ".json", s);
    AroundMatches("audit/evidence/", Hex(64), ".json", s);
  }

  lemma Hex64Matches(s: string)
    ensures GcsNames.IsHex64(s) <==> Matches(Hex(64), s)
  {
    hide In, IsLowerHex;
    HexClass();
    Whole(Hex(64), s);
    ClassMatches(HEX, 64, Some(64), s, 0);
  }

  // ---------------------------------------------------------------- names

  /** A first character and between `least` and `most` further ones. */
  function Name(first: seq<(char, char)>, further: seq<(char, char)>, least: nat, most: nat): Expr
  {
    Then(OneOf(first), Repeat(OneOf(further), least, Some(most)))
  }

  lemma NameFrom(first: seq<(char, char)>, further: seq<(char, char)>, least: nat, most: nat, s: string, from: nat)
    ensures MatchesFrom(Name(first, further, least, most), s, from) <==>
              from + 1 + least <= |s| <= from + 1 + most && In(s[from], first) && AllIn(s, from + 1, |s|, further)
  {
    hide In, Matches;
    OneThen(first, Repeat(OneOf(further), least, Some(most)), s, from);
    ClassMatches(further, least, Some(most), s, from + 1);
    hide MatchesFrom;
  }

  /** `^[a-z0-9][a-z0-9._-]{2,63}$` */
  lemma KeyIdMatches(s: string)
    ensures IsKeyId(s) <==> Matches(Name(ALNUM, NAME, 2, 63), s)
  {
    hide In, IsNameChar, Matches;
    AlnumClass();
    NameClass();
    Whole(Name(ALNUM, NAME, 2, 63), s);
    NameFrom(ALNUM, NAME, 2, 63, s, 0);
    hide MatchesFrom;
    if s != "" { AlnumIsName(s[0]); }
  }

  lemma AlnumIsName(c: char)
    ensures IsAlnum(c) ==> IsNameChar(c) && IsLocal(c)
    ensures IsUpper(c) ==> IsCode(c)
  {}

  /** `^[A-Z][A-Z0-9_]{2,63}$` */
  lemma ReasonCodeMatches(s: string)
    ensures IsReasonCode(s) <==> Matches(Name(UPPER, CODE, 2, 63), s)
  {
    hide In, Matches, IsUpper, IsDigit;
    UpperClass();
    CodeClass();
    Whole(Name(UPPER, CODE, 2, 63), s);
    NameFrom(UPPER, CODE, 2, 63, s, 0);
    hide MatchesFrom;
  }

  /** `^mindclade/(\.github|[a-z0-9][a-z0-9._-]{0,99})$` */
  function RepositoryExpr(): Expr
  {
    Then(Text("mindclade/"), Either(Text(".github"), Name(ALNUM, NAME, 0, 99)))
  }

  lemma RepositoryMatches(s: string)
    ensures IsRepository(s) <==> Matches(RepositoryExpr(), s)
  {
    hide In, IsNameChar, Matches;
    AlnumClass();
    NameClass();
    Whole(RepositoryExpr(), s);
    TextThen("mindclade/", Either(Text(".github"), Name(ALNUM, NAME, 0, 99)), s, 0);
    EitherFrom(Text(".github"), Name(ALNUM, NAME, 0, 99), s, 10);
    TextFrom(".github", s, 10);
    NameFrom(ALNUM, NAME, 0, 99, s, 10);
    hide MatchesFrom;
    if 10 <= |s| {
      var name := s[10..];
      assert HasPrefix(s, "mindclade/") <==> s[0..10] == "mindclade/";
      assert forall i :: 0 <= i < |name| ==> name[i] == s[10 + i];
      assert forall i :: 10 <= i < |s| ==> s[i] == name[i - 10];
      if name != "" { AlnumIsName(name[0]); }
    }
  }

  /** `^[A-Za-z0-9_-]+$`, with the length limit beside it. */
  lemma RecoveryTokenMatches(s: string)
    ensures Contract.IsRecoveryToken(s) <==> |s| <= 4096 && Matches(Repeat(OneOf(SYMBOL), 1, None), s)
  {
    hide In, Base64Url.IsSymbol;
    SymbolClass();
    Whole(Repeat(OneOf(SYMBOL), 1, None), s);
    ClassMatches(SYMBOL, 1, None, s, 0);
  }

  /** `^groups/[A-Za-z0-9_-]{1,128}$` */
  function ResourceExpr(): Expr { Then(Text("groups/"), Repeat(OneOf(SYMBOL), 1, Some(128))) }

  lemma ResourceMatches(s: string)
    ensures Roles.IsResource(s) <==> Matches(ResourceExpr(), s)
  {
    hide In, Matches;
    SymbolClass();
    Whole(ResourceExpr(), s);
    TextThen("groups/", Repeat(OneOf(SYMBOL), 1, Some(128)), s, 0);
    ClassMatches(SYMBOL, 1, Some(128), s, 7);
    hide MatchesFrom;
    if 7 <= |s| { assert HasPrefix(s, "groups/") <==> s[0..7] == "groups/"; }
  }

  /** `^[a-z0-9][a-z0-9._-]{4,61}[a-z0-9]$` */
  function BucketExpr(): Expr
  {
    Then(OneOf(ALNUM), Then(Repeat(OneOf(NAME), 4, Some(61)), OneOf(ALNUM)))
  }

  lemma BucketMatches(s: string)
    ensures GcsNames.IsBucket(s) <==> Matches(BucketExpr(), s)
  {
    hide In, IsNameChar, Matches;
    AlnumClass();
    NameClass();
    Whole(BucketExpr(), s);
    OneThen(ALNUM, Then(Repeat(OneOf(NAME), 4, Some(61)), OneOf(ALNUM)), s, 0);
    ManyOne(NAME, 4, 61, ALNUM, s, 1);
    hide MatchesFrom;
    if s != "" {
      AlnumIsName(s[0]);
      AlnumIsName(s[|s| - 1]);
    }
  }

  // ---------------------------------------------------------------- e-mail addresses

  /** `[a-z0-9](?:[a-z0-9-]{0,61}[a-z0-9])?` */
  function LabelExpr(): Expr
  {
    Then(OneOf(ALNUM), Either(Text(""), Then(Repeat(OneOf(INNER), 0, Some(61)), OneOf(ALNUM))))
  }

  lemma LabelMatches(s: string)
    ensures IsLabel(s) <==> Matches(LabelExpr(), s)
  {
    hide In, Matches, IsAlnum;
    AlnumClass();
    InnerClass();
    var more := Then(Repeat(OneOf(INNER), 0, Some(61)), OneOf(ALNUM));
    Whole(LabelExpr(), s);
    OneThen(ALNUM, Either(Text(""), more), s, 0);
    EitherFrom(Text(""), more, s, 1);
    TextFrom("", s, 1);
    ManyOne(INNER, 0, 61, ALNUM, s, 1);
    hide MatchesFrom;
  }

  /** `(?:\.label)`, the piece that is repeated. */
  function DotLabel(): Expr { Then(Text("."), LabelExpr()) }

  lemma DotLabelMatches(s: string)
    ensures Matches(DotLabel(), s) <==> s != "" && s[0] == '.' && IsLabel(s[1..])
  {
    hide IsLabel, Matches;
    Whole(DotLabel(), s);
    TextThen(".", LabelExpr(), s, 0);
    if s != "" {
      assert s[0..1] == "." <==> s[0] == '.';
      LabelMatches(s[1..]);
    }
  }

  /** A label and at least `more` further ones. */
  function DomainExpr(more: nat): Expr { Then(LabelExpr(), Repeat(DotLabel(), more, None)) }

  lemma {:induction false} DomainMatches(s: string, more: nat)
    ensures IsDomain(s, more + 1) <==> Matches(DomainExpr(more), s)
    decreases |s|
  {
    hide IsLabel;
    var fewer := Less(more);
    if IsDomain(s, more + 1) {
      if more == 0 && IsLabel(s) {
        LabelMatches(s);
        assert s[..|s|] == s;
        DomainOf(s, more, |s|);
      } else {
        var i :| 0 <= i < |s| && s[i] == '.' && IsLabel(s[..i]) && IsDomain(s[i + 1..], more);
        LabelMatches(s[..i]);
        DomainMatches(s[i + 1..], fewer);
        DomainLonger(s, more, i);
        DomainOf(s, more, i);
      }
    }
    if Matches(DomainExpr(more), s) {
      var i := SplitOf(s, more);
      LabelMatches(s[..i]);
      if more == 0 && s[i..] == "" {
        assert s[..i] == s;
      } else {
        DomainShorter(s, more, i);
        DomainMatches(s[i + 1..], fewer);
        assert IsDomain(s[i + 1..], more);
      }
    }
  }

  lemma DomainOf(s: string, more: nat, i: nat)
    requires i <= |s| && Matches(LabelExpr(), s[..i]) && Times(DotLabel(), more, None, s[i..])
    ensures Matches(DomainExpr(more), s)
  {
    hide LabelExpr, DotLabel;
    Joined(LabelExpr(), Repeat(DotLabel(), more, None), s, i);
  }

  lemma SplitOf(s: string, more: nat) returns (i: nat)
    requires Matches(DomainExpr(more), s)
    ensures i <= |s| && Matches(LabelExpr(), s[..i]) && Times(DotLabel(), more, None, s[i..])
  {
    hide LabelExpr, DotLabel;
    i := Split(LabelExpr(), Repeat(DotLabel(), more, None), s);
  }

  /** The rest after a dot is one piece shorter. */
  lemma DomainLonger(s: string, more: nat, i: nat)
    requires i < |s| && s[i] == '.' && Matches(DomainExpr(Less(more)), s[i + 1..])
    ensures Times(DotLabel(), more, None, s[i..])
  {
    hide *;
    var rest, t := s[i + 1..], s[i..];
    var j := SplitOf(rest, Less(more));
    LabelMatches(rest[..j]);
    DotLabelMatches(t[..j + 1]);
    assert t[..j + 1][1..] == rest[..j] && t[j + 1..] == rest[j..];
    OnePieceMore(DotLabel(), more, t, j + 1);
  }

  lemma DomainShorter(s: string, more: nat, i: nat)
    requires i <= |s| && Times(DotLabel(), more, None, s[i..]) && !(more == 0 && s[i..] == "")
    ensures i < |s| && s[i] == '.' && Matches(DomainExpr(Less(more)), s[i + 1..])
  {
    hide *;
    var t := s[i..];
    var j := FirstPiece(DotLabel(), more, t);
    DotLabelMatches(t[..j]);
    var rest := s[i + 1..];
    assert t[..j][1..] == rest[..j - 1] && t[j..] == rest[j - 1..];
    LabelMatches(rest[..j - 1]);
    DomainOf(rest, Less(more), j - 1);
  }

  /** `^[a-z0-9][a-z0-9._+%-]{0,127}@label(?:\.label)+$` */
  function EmailExpr(): Expr
  {
    Then(OneOf(ALNUM), Then(Repeat(OneOf(LOCAL), 0, Some(127)), Then(Text("@"), DomainExpr(1))))
  }

  /** The local part, the `@` and the domain after it, at one position. */
  ghost predicate MailAt(s: string, at: nat)
  {
    1 <= at < |s| && at <= 128 && s[at] == '@' && IsAlnum(s[0]) && (forall i :: 0 <= i < at ==> IsLocal(s[i])) && IsDomain(s[at + 1..], 2)
  }

  lemma MailAtMatches(s: string, at: nat)
    requires 1 <= at <= |s|
    ensures MailAt(s, at) <==>
              In(s[0], ALNUM) && Matches(Repeat(OneOf(LOCAL), 0, Some(127)), s[1..at]) && MatchesFrom(Then(Text("@"), DomainExpr(1)), s, at)
  {
    hide In, Matches, IsDomain, IsAlnum, IsLocal;
    AlnumClass();
    LocalClass();
    var front := s[..at];
    assert front[1..] == s[1..at];
    ClassMatches(LOCAL, 0, Some(127), front, 1);
    AlnumIsName(s[0]);
    TextThen("@", DomainExpr(1), s, at);
    if at < |s| {
      assert s[at..at + 1] == "@" <==> s[at] == '@';
      DomainMatches(s[at + 1..], 1);
    }
  }

  lemma EmailMatches(s: string)
    ensures IsEmail(s) <==> Matches(EmailExpr(), s)
  {
    hide *;
    if IsEmail(s) {
      var at := AtOf(s);
      EmailFrom(s, at);
    }
    if Matches(EmailExpr(), s) {
      var at := SplitAt(s);
      EmailAt(s, at);
    }
  }

  lemma AtOf(s: string) returns (at: nat)
    requires IsEmail(s)
    ensures MailAt(s, at)
  {
    hide IsDomain;
    at :| 1 <= at < |s| && at <= 128 && s[at] == '@' && IsAlnum(s[0])
          && (forall i :: 0 <= i < at ==> IsAlnum(s[i]) || s[i] in "._+%-") && IsDomain(s[at + 1..], 2);
  }

  lemma EmailAt(s: string, at: nat)
    requires MailAt(s, at)
    ensures IsEmail(s)
  {
    hide IsDomain;
  }

  lemma EmailFrom(s: string, at: nat)
    requires MailAt(s, at)
    ensures Matches(EmailExpr(), s)
  {
    MailAtMatches(s, at);
    var local := Repeat(OneOf(LOCAL), 0, Some(127));
    var rest := Then(Text("@"), DomainExpr(1));
    var t := s[1..];
    assert t[..at - 1] == s[1..at] && t[at - 1..] == s[at..];
    assert Matches(Then(local, rest), t);
    hide In, MailAt, DomainExpr;
    Whole(EmailExpr(), s);
    OneThen(ALNUM, Then(local, rest), s, 0);
  }

  lemma SplitAt(s: string) returns (at: nat)
    requires Matches(EmailExpr(), s)
    ensures MailAt(s, at)
  {
    hide In, MailAt, DomainExpr;
    var local := Repeat(OneOf(LOCAL), 0, Some(127));
    var rest := Then(Text("@"), DomainExpr(1));
    Whole(EmailExpr(), s);
    OneThen(ALNUM, Then(local, rest), s, 0);
    var t := s[1..];
    var i :| 0 <= i <= |t| && Matches(local, t[..i]) && Matches(rest, t[i..]);
    at := i + 1;
    MailAtMatches(s, at);
    assert t[..i] == s[1..at] && t[i..] == s[at..];
  }

  /** Whom a role is looked up for: the same pattern, and at most 320 bytes of UTF-8. */
  lemma IdentityMatches(s: string)
    ensures Roles.IsIdentity(s) <==> |Utf8.Encode(s)| <= 320 && Matches(EmailExpr(), s)
  {
    hide *;
    EmailMatches(s);
    IdentityMeans(s);
  }

  lemma IdentityMeans(s: string)
    ensures Roles.IsIdentity(s) <==> |Utf8.Encode(s)| <= 320 && IsEmail(s)
  {
    hide IsEmail, Utf8.Encode;
  }
}
