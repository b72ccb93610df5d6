/** `writeCanonical` and `CanonicalJSON` as the source writes them: appending to a shared buffer,
    collecting an object's keys in whatever order the map yields them and sorting the slice. */
module CanonicalWriter {
  import opened Prelude
  import opened CanonicalJson
  import Utf8

  /** `bytes.Buffer`, holding text that is encoded once the tree is complete. */
  class Buffer {
    var text: string

    constructor ()
      ensures text == ""
    {
      text := "";
    }

    method Write(s: string)
      modifies this
      ensures text == old(text) + s
    {
      text := text + s;
    }
  }

  ghost predicate Distinct(keys: seq<string>)
  {
    forall i, j :: 0 <= i < j < |keys| ==> keys[i] != keys[j]
  }

  /** The keys of a map, in the unspecified order of a Go map range. */
  method CollectKeys(fields: map<string, Json>) returns (keys: seq<string>)
    ensures Distinct(keys)
    ensures forall k :: k in keys <==> k in fields
  {
    keys := [];
    var remaining := fields.Keys;
    while remaining != {}
      invariant remaining <= fields.Keys
      invariant Distinct(keys)
      invariant forall k :: k in keys <==> k in fields.Keys - remaining
      decreases |remaining|
    {
      var key :| key in remaining;
      assert key !in keys;
      keys := keys + [key];
      remaining := remaining - {key};
    }
  }

  method Insert(key: string, sorted: seq<string>) returns (r: seq<string>)
    requires StrictlySorted(sorted) && key !in sorted
    ensures StrictlySorted(r)
    ensures forall k :: k in r <==> k == key || k in sorted
  {
    var i := 0;
    while i < |sorted| && StrLess(sorted[i], key)
      invariant 0 <= i <= |sorted|
      invariant forall j :: 0 <= j < i ==> StrLess(sorted[j], key)
    {
      i := i + 1;
    }
    r := sorted[..i] + [key] + sorted[i..];
    forall j | i <= j < |sorted| ensures StrLess(key, sorted[j]) {
      StrLessTotal(key, sorted[i]);
      if j > i { StrLessTrans(key, sorted[i], sorted[j]); }
    }
    assert forall k :: k in sorted <==> k in sorted[..i] || k in sorted[i..];
  }

  /** `sort.Strings` on distinct keys. */
  method SortStrings(keys: seq<string>) returns (sorted: seq<string>)
    requires Distinct(keys)
    ensures StrictlySorted(sorted)
    ensures forall k :: k in sorted <==> k in keys
  {
    sorted := [];
    for i := 0 to |keys|
      invariant StrictlySorted(sorted)
      invariant forall k :: k in sorted <==> k in keys[..i]
    {
      sorted := Insert(keys[i], sorted);
    }
    assert keys[..|keys|] == keys;
  }

  lemma {:induction false} ItemsAppend(items: seq<Json>, i: nat)
    requires i < |items|
    ensures PrintItems(items[..i + 1]) == PrintItems(items[..i]) + (if i > 0 then "," else "") + Print(items[i])
  {
    hide Print;
    if i == 0 {
      assert items[..1] == [items[0]];
    } else {
      ItemsAppend(items[1..], i - 1);
      assert items[..i + 1][1..] == items[1..][..i] && items[..i][1..] == items[1..][..i - 1];
      if i == 1 {
        assert items[..2][1..] == [items[1]] && items[..1] == [items[0]];
      }
    }
  }

  lemma {:induction false} FieldsAppend(t: Json, keys: seq<string>, i: nat)
    requires t.Obj? && i < |keys| && forall k :: k in keys ==> k in t.fields
    ensures PrintFields(t, keys[..i + 1]) == PrintFields(t, keys[..i]) + (if i > 0 then "," else "") + PrintField(t, keys[i])
  {
    hide PrintField;
    if i == 0 {
      assert keys[..1] == [keys[0]];
    } else {
      FieldsAppend(t, keys[1..], i - 1);
      assert keys[..i + 1][1..] == keys[1..][..i] && keys[..i][1..] == keys[1..][..i - 1];
      if i == 1 {
        assert keys[..2][1..] == [keys[1]] && keys[..1] == [keys[0]];
      }
    }
  }

  /** Appends the canonical text of `t` and succeeds exactly when every number is an int64
      literal. The result does not depend on the order in which the map yielded its keys. */
  method WriteCanonical(out: Buffer, t: Json) returns (ok: bool)
    modifies out
    ensures ok <==> Printable(t)
    ensures ok ==> out.text == old(out.text) + Print(t)
    decreases t, 1
  {
    hide PrintFields, PrintItems, Quote, SortedKeys, Int64Literal;
    match t {
      case Null => out.Write("null"); ok := true;
      case Bool(b) =>
        if b { out.Write("true"); } else { out.Write("false"); }
        ok := true;
      case Str(s) => out.Write(Quote(s)); ok := true;
      case Num(literal) => ok := WriteNumber(out, literal);
      case Arr(items) => ok := WriteArray(out, items);
      case Obj(fields) => ok := WriteObject(out, t);
    }
  }

  method WriteNumber(out: Buffer, literal: string) returns (ok: bool)
    modifies out
    ensures ok <==> Int64Literal(literal)
    ensures ok ==> out.text == old(out.text) + literal
  {
    if exists i :: 0 <= i < |literal| && literal[i] in ['.', 'e', 'E'] {
      if Int64Literal(literal) { LiteralChars(literal); }
      return false;
    }
    if !Int64Literal(literal) {
      return false;
    }
    out.Write(literal);
    ok := true;
  }

  method WriteArray(out: Buffer, items: seq<Json>) returns (ok: bool)
    modifies out
    ensures ok <==> forall i :: 0 <= i < |items| ==> Printable(items[i])
    ensures ok ==> out.text == old(out.text) + "[" + PrintItems(items) + "]"
    decreases items, 0
  {
    hide Print, Printable;
    out.Write("[");
    for i := 0 to |items|
      invariant forall j :: 0 <= j < i ==> Printable(items[j])
      invariant out.text == old(out.text) + "[" + PrintItems(items[..i])
    {
      if i > 0 { out.Write(","); }
      var written := WriteCanonical(out, items[i]);
      if !written { return false; }
      ItemsAppend(items, i);
    }
    assert items[..|items|] == items;
    out.Write("]");
    ok := true;
  }

  method WriteField(out: Buffer, t: Json, key: string) returns (ok: bool)
    requires t.Obj? && key in t.fields
    modifies out
    ensures ok <==> Printable(t.fields[key])
    ensures ok ==> out.text == old(out.text) + PrintField(t, key)
    decreases t, 0, 0
  {
    hide Print, Printable, Quote;
    out.Write(Quote(key));
    out.Write(":");
    ok := WriteCanonical(out, t.fields[key]);
  }

  method WriteObject(out: Buffer, t: Json) returns (ok: bool)
    requires t.Obj?
    modifies out
    ensures ok <==> Printable(t)
    ensures ok ==> out.text == old(out.text) + Print(t)
    decreases t, 0, 1
  {
    hide Print, Printable, PrintField, SortedKeys, StrictlySorted;
    var collected := CollectKeys(t.fields);
    var keys := SortStrings(collected);
    out.Write("{");
    for i := 0 to |keys|
      invariant forall j :: 0 <= j < i ==> Printable(t.fields[keys[j]])
      invariant out.text == old(out.text) + "{" + PrintFields(t, keys[..i])
    {
      if i > 0 { out.Write(","); }
      var written := WriteField(out, t, keys[i]);
      if !written { ObjectWritten(t, keys); return false; }
      FieldsAppend(t, keys, i);
    }
    assert keys[..|keys|] == keys;
    out.Write("}");
    ObjectWritten(t, keys);
    ok := true;
  }

  lemma ObjectWritten(t: Json, keys: seq<string>)
    requires t.Obj? && StrictlySorted(keys) && forall k :: k in keys <==> k in t.fields
    ensures Print(t) == "{" + PrintFields(t, keys) + "}"
    ensures Printable(t) <==> forall j :: 0 <= j < |keys| ==> Printable(t.fields[keys[j]])
  {
    StrictlySortedUnique(keys, SortedKeys(t.fields.Keys));
    hide SortedKeys, StrictlySorted;
    assert forall k :: k in t.fields ==> exists j :: 0 <= j < |keys| && keys[j] == k;
  }

  /** `CanonicalJSON`, from the decoded tree on. */
  method Canonical(t: Json) returns (r: Option<seq<Byte>>)
    ensures r == CanonicalBytes(t)
  {
    var out := new Buffer();
    var ok := WriteCanonical(out, t);
    if !ok { return None; }
    assert out.text == Print(t);
    r := Some(Utf8.Encode(out.text));
  }
}
