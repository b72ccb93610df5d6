/** The names under which the bucket repository keeps its objects (internal/storage/gcs.go:126-134 and
    189-310): one flat key space that never mixes two records. */
module GcsNames {
  import opened Prelude
  import opened Patterns
  import opened Contract
  import Utf8

  /** What an object in the audit bucket is. */
  datatype Key =
    | ReplayRequest(id: string)
    | ReplayBinding(hex: string)
    | ReplayApproval(id: string)
    | RequestRecord(id: string)
    | DispatchRecord(id: string)
    | ResultRecord(id: string)
    | ReceiptRecord(day: string, id: string)
    | EvidenceRecord(hex: string)

  function NameOf(k: Key): string
  {
    match k
    case ReplayRequest(id) => "audit/replay/requests/" + id + ".json"
    case ReplayBinding(hex) => "audit/replay/bindings/" + hex + ".json"
    case ReplayApproval(id) => "audit/replay/approvals/" + id + ".json"
    case RequestRecord(id) => "audit/requests/" + id + ".json"
    case DispatchRecord(id) => "audit/outbox/" + id + "/dispatch.json"
    case ResultRecord(id) => "audit/outbox/" + id + "/result.json"
    case ReceiptRecord(day, id) => "audit/operations/" + day + "/" + id + ".json"
    case EvidenceRecord(hex) => "audit/evidence/" + hex + ".json"
  }

  predicate IsHex64(s: string) { |s| == 64 && AllLowerHex(s) }

  /** The receipt part of the name pattern: 36 characters of a UUID's alphabet. */
  predicate IsReceiptText(s: string)
  {
    |s| == 36 && forall i :: 0 <= i < 36 ==> IsLowerHex(s[i]) || s[i] == '-'
  }

  predicate ValidKey(k: Key)
  {
    match k
    case ReplayBinding(hex) => IsHex64(hex)
    case EvidenceRecord(hex) => IsHex64(hex)
    case ReceiptRecord(day, id) => IsDay(day) && IsReceiptText(id)
    case ReplayRequest(id) => IsUuid(id)
    case ReplayApproval(id) => IsUuid(id)
    case RequestRecord(id) => IsUuid(id)
    case DispatchRecord(id) => IsUuid(id)
    case ResultRecord(id) => IsUuid(id)
  }

  /** The record that a name of one of these shapes belongs to. */
  function KeyOf(name: string): Key
    requires |name| > 55
  {
    var stem := name[..|name| - 5];
    if name[8] == 'p' then
      if name[13] == 'r' then ReplayRequest(stem[22..])
      else if name[13] == 'b' then ReplayBinding(stem[22..])
      else ReplayApproval(stem[23..])
    else if name[8] == 'q' then RequestRecord(stem[15..])
    else if name[8] == 't' then
      if name[50] == 'd' then DispatchRecord(name[13..49]) else ResultRecord(name[13..49])
    else if name[8] == 'e' then ReceiptRecord(name[17..27], stem[28..])
    else EvidenceRecord(stem[15..])
  }

  lemma ReplayRequestName(id: string)
    requires IsUuid(id)
    ensures var k := ReplayRequest(id); |NameOf(k)| > 55 && KeyOf(NameOf(k)) == k
  {
    hide IsLowerHex, AllLowerHex;
    var name := NameOf(ReplayRequest(id));
    assert name[..|name| - 5][22..] == id;
  }

  lemma ReplayBindingName(hex: string)
    requires IsHex64(hex)
    ensures var k := ReplayBinding(hex); |NameOf(k)| > 55 && KeyOf(NameOf(k)) == k
  {
    hide IsLowerHex, AllLowerHex;
    var name := NameOf(ReplayBinding(hex));
    assert name[..|name| - 5][22..] == hex;
  }

  lemma ReplayApprovalName(id: string)
    requires IsUuid(id)
    ensures var k := ReplayApproval(id); |NameOf(k)| > 55 && KeyOf(NameOf(k)) == k
  {
    hide IsLowerHex, AllLowerHex;
    var name := NameOf(ReplayApproval(id));
    assert name[..|name| - 5][23..] == id;
  }

  lemma RequestName(id: string)
    requires IsUuid(id)
    ensures var k := RequestRecord(id); |NameOf(k)| > 55 && KeyOf(NameOf(k)) == k
  {
    hide IsLowerHex;
    var name := NameOf(RequestRecord(id));
    assert name[..|name| - 5][15..] == id;
  }

  lemma DispatchName(id: string)
    requires IsUuid(id)
    ensures var k := DispatchRecord(id); |NameOf(k)| > 55 && KeyOf(NameOf(k)) == k
  {
    hide IsLowerHex;
    var name := NameOf(DispatchRecord(id));
    assert name[8] == 't' && name[50] == 'd' && name[13..49] == id;
  }

  lemma ResultName(id: string)
    requires IsUuid(id)
    ensures var k := ResultRecord(id); |NameOf(k)| > 55 && KeyOf(NameOf(k)) == k
  {
    hide IsLowerHex;
    var name := NameOf(ResultRecord(id));
    assert name[8] == 't' && name[50] == 'r' && name[13..49] == id;
  }

  lemma ReceiptName(day: string, id: string)
    requires IsDay(day) && IsReceiptText(id)
    ensures var k := ReceiptRecord(day, id); |NameOf(k)| > 55 && KeyOf(NameOf(k)) == k
  {
    hide IsLowerHex;
    var name := NameOf(ReceiptRecord(day, id));
    assert name[17..27] == day && name[..|name| - 5][28..] == id;
  }

  lemma EvidenceName(hex: string)
    requires IsHex64(hex)
    ensures var k := EvidenceRecord(hex); |NameOf(k)| > 55 && KeyOf(NameOf(k)) == k
  {
    hide AllLowerHex;
    var name := NameOf(EvidenceRecord(hex));
    assert name[..|name| - 5][15..] == hex;
  }

  /** The name of a record determines the record. */
  lemma NameDeterminesKey(k: Key)
    requires ValidKey(k)
    ensures |NameOf(k)| > 55 && KeyOf(NameOf(k)) == k
  {
    hide NameOf, KeyOf, IsUuid, IsHex64, IsDay, IsReceiptText;
    match k
    case ReplayRequest(id) => ReplayRequestName(id);
    case ReplayBinding(hex) => ReplayBindingName(hex);
    case ReplayApproval(id) => ReplayApprovalName(id);
    case RequestRecord(id) => RequestName(id);
    case DispatchRecord(id) => DispatchName(id);
    case ResultRecord(id) => ResultName(id);
    case ReceiptRecord(day, id) => ReceiptName(day, id);
    case EvidenceRecord(hex) => EvidenceName(hex);
  }

  /** Different records, of whatever kinds, have different names. */
  lemma NamesApart(a: Key, b: Key)
    requires ValidKey(a) && ValidKey(b) && NameOf(a) == NameOf(b)
    ensures a == b
  {
    hide NameOf, ValidKey;
    NameDeterminesKey(a);
    NameDeterminesKey(b);
  }

  // ---------------------------------------------------------------- object addresses

  predicate IsBucket(s: string)
  {
    && 6 <= |s| <= 63 && IsAlnum(s[0]) && IsAlnum(s[|s| - 1])
    && forall i :: 0 <= i < |s| ==> IsNameChar(s[i])
  }

  predicate HasDoubleDot(s: string)
  {
    exists i :: 0 <= i < |s| - 1 && s[i] == '.' && s[i + 1] == '.'
  }

  /** `validateObjectAddress`. */
  predicate ValidAddress(bucket: string, name: string)
  {
    IsBucket(bucket) && name != "" && Utf8.ByteLen(name) <= 512 && !HasPrefix(name, "/") && !HasDoubleDot(name) && !HasControl(name)
  }

  /** A character of a name other than its one dot. */
  predicate IsPlain(c: char) { IsLower(c) || IsDigit(c) || c == '-' || c == '/' }

  predicate AllPlain(s: string) { forall i :: 0 <= i < |s| ==> IsPlain(s[i]) }

  lemma PlainConcat(a: string, b: string)
    requires AllPlain(a) && AllPlain(b)
    ensures AllPlain(a + b)
  {}

  lemma PlainReplay()
    ensures AllPlain("audit/replay/requests/") && AllPlain("audit/replay/bindings/") && AllPlain("audit/replay/approvals/")
  {}

  lemma PlainRecords()
    ensures AllPlain("audit/requests/") && AllPlain("audit/outbox/") && AllPlain("audit/operations/") && AllPlain("audit/evidence/")
  {}

  lemma PlainEnds()
    ensures AllPlain("/dispatch") && AllPlain("/result") && AllPlain("/")
  {}

  lemma PlainIds(s: string)
    ensures IsUuid(s) || IsReceiptText(s) || IsHex64(s) || IsDay(s) ==> AllPlain(s)
  {}

  /** A plain stem with the suffix `.json` and of moderate length is a valid object name. */
  lemma PlainStem(bucket: string, stem: string)
    requires IsBucket(bucket) && AllPlain(stem) && stem != "" && stem[0] == 'a' && |stem| <= 500
    ensures ValidAddress(bucket, stem + ".json")
  {
    var name := stem + ".json";
    assert forall i :: 0 <= i < |stem| ==> name[i] == stem[i];
    forall i | 0 <= i < |name| ensures name[i] as int < 0x80 && name[i] != '\r' && name[i] != '\n' && name[i] != '\0' {
      if i < |stem| { assert IsPlain(stem[i]); }
    }
    Utf8.AsciiLength(name);
    assert |Codes(name)| == |name|;
  }

  /** Every object name is a valid address in every valid bucket. */
  lemma NameIsAddress(bucket: string, k: Key)
    requires IsBucket(bucket) && ValidKey(k)
    ensures ValidAddress(bucket, NameOf(k))
  {
    hide IsPlain, AllPlain, IsBucket, IsUuid, IsReceiptText, IsHex64, IsDay, ValidAddress;
    PlainReplay();
    PlainRecords();
    PlainEnds();
    StemIsPlain(k);
    PlainStem(bucket, Stem(k));
    assert NameOf(k) == Stem(k) + ".json";
  }

  ghost function Stem(k: Key): string
  {
    match k
    case ReplayRequest(id) => "audit/replay/requests/" + id
    case ReplayBinding(hex) => "audit/replay/bindings/" + hex
    case ReplayApproval(id) => "audit/replay/approvals/" + id
    case RequestRecord(id) => "audit/requests/" + id
    case DispatchRecord(id) => "audit/outbox/" + id + "/dispatch"
    case ResultRecord(id) => "audit/outbox/" + id + "/result"
    case ReceiptRecord(day, id) => "audit/operations/" + day + "/" + id
    case EvidenceRecord(hex) => "audit/evidence/" + hex
  }

  lemma StemIsPlain(k: Key)
    requires ValidKey(k)
    ensures AllPlain(Stem(k)) && Stem(k) != "" && Stem(k)[0] == 'a' && |Stem(k)| <= 500
  {
    hide IsPlain, AllPlain, IsLowerHex, AllLowerHex;
    PlainReplay();
    PlainRecords();
    PlainEnds();
    match k
    case ReplayRequest(id) => PlainIds(id); PlainConcat("audit/replay/requests/", id);
    case ReplayBinding(hex) => PlainIds(hex); PlainConcat("audit/replay/bindings/", hex);
    case ReplayApproval(id) => PlainIds(id); PlainConcat("audit/replay/approvals/", id);
    case RequestRecord(id) => PlainIds(id); PlainConcat("audit/requests/", id);
    case DispatchRecord(id) =>
      PlainIds(id);
      PlainConcat("audit/outbox/", id);
      PlainConcat("audit/outbox/" + id, "/dispatch");
    case ResultRecord(id) =>
      PlainIds(id);
      PlainConcat("audit/outbox/", id);
      PlainConcat("audit/outbox/" + id, "/result");
    case ReceiptRecord(day, id) =>
      PlainIds(day);
      PlainIds(id);
      PlainConcat("audit/operations/", day);
      PlainConcat("audit/operations/" + day, "/");
      PlainConcat("audit/operations/" + day + "/", id);
    case EvidenceRecord(hex) => PlainIds(hex); PlainConcat("audit/evidence/", hex);
  }

  // ---------------------------------------------------------------- receipt names

  /** The pattern that `GetReceiptByObject` accepts. */
  predicate IsReceiptName(s: string)
  {
    && |s| == 69 && s[..17] == "audit/operations/" && IsDay(s[17..27]) && s[27] == '/' && IsReceiptText(s[28..64])
    && s[64..] == ".json"
  }

  /** The accepted names are exactly the names of receipt records. */
  lemma ReceiptNames(s: string)
    ensures IsReceiptName(s) <==> exists k :: ValidKey(k) && k.ReceiptRecord? && NameOf(k) == s
  {
    hide IsDay, IsReceiptText;
    if IsReceiptName(s) {
      var k := ReceiptRecord(s[17..27], s[28..64]);
      assert s == s[..17] + s[17..27] + s[27..28] + s[28..64] + s[64..];
      assert s[27..28] == "/";
      assert NameOf(k) == s;
    }
    if k :| ValidKey(k) && k.ReceiptRecord? && NameOf(k) == s {
      DayLength(k.day, k.id);
      assert s[17..27] == k.day && s[28..64] == k.id;
    }
  }

  lemma DayLength(day: string, id: string)
    ensures (IsDay(day) ==> |day| == 10) && (IsReceiptText(id) ==> |id| == 36)
  {}
}
