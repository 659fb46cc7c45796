/**
 JSON values as JavaScript holds them, and the length of their `JSON.stringify` text.

 Strings are sequences of UTF-16 code units, because every length the proxy
 computes is a count of code units and because a cut may split a surrogate pair.
 */
module JsonValues {
  import opened Common

  type CodeUnit = n: int | 0 <= n < 0x1_0000
  type JsString = seq<CodeUnit>

  datatype Field = Field(key: string, value: Json)

  /** Numbers carry their serialized text; fields keep insertion order. */
  datatype Json =
    | Null
    | Bool(b: bool)
    | Num(text: string)
    | Str(s: JsString)
    | Arr(items: seq<Json>)
    | Obj(fields: seq<Field>)

  /** An ASCII literal as code units. */
  function Units(literal: string): JsString {
    seq(|literal|, i requires 0 <= i < |literal| =>
      if literal[i] as int < 0x80 then literal[i] as int else 0xFFFD)
  }

  // ----- lengths (section 7 of RFC 8259; lone surrogates are escaped) -----

  predicate IsHigh(u: CodeUnit) { 0xD800 <= u < 0xDC00 }

  predicate IsLow(u: CodeUnit) { 0xDC00 <= u < 0xE000 }

  /** Characters written for one code unit that is not half of a pair. */
  function UnitCost(u: CodeUnit): (n: nat)
    ensures 1 <= n <= 6
  {
    if u == 0x22 || u == 0x5C || u == 8 || u == 9 || u == 10 || u == 12 || u == 13 then 2
    else if u < 0x20 || IsHigh(u) || IsLow(u) then 6
    else 1
  }

  /** Characters written between the quotes for `s`. */
  function EscapedLength(s: JsString): nat {
    if s == [] then 0
    else if |s| > 1 && IsHigh(s[0]) && IsLow(s[1]) then 2 + EscapedLength(s[2..])
    else UnitCost(s[0]) + EscapedLength(s[1..])
  }

  /** Object keys are well-formed Unicode; a character outside the basic plane is two units. */
  function KeyLength(key: string): nat {
    if key == "" then 0
    else
      (var c := key[0] as int; if c >= 0x1_0000 then 2 else UnitCost(c)) + KeyLength(key[1..])
  }

  function Commas(n: nat): nat { if n == 0 then 0 else n - 1 }

  /** `JSON.stringify(v).length`. */
  function SerializedLength(v: Json): nat
    decreases v, 0
  {
    match v
    case Null => 4
    case Bool(b) => if b then 4 else 5
    case Num(text) => |text|
    case Str(s) => 2 + EscapedLength(s)
    case Arr(items) => 2 + Commas(|items|) + ItemsLength(items)
    case Obj(fields) => 2 + Commas(|fields|) + FieldsLength(fields)
  }

  function ItemsLength(items: seq<Json>): nat
    decreases items, 0
  {
    if items == [] then 0 else SerializedLength(items[0]) + ItemsLength(items[1..])
  }

  function FieldsLength(fields: seq<Field>): nat
    decreases fields, 0
  {
    if fields == [] then 0
    else KeyLength(fields[0].key) + 3 + SerializedLength(fields[0].value) + FieldsLength(fields[1..])
  }

  // ----- object access -----

  /** Position of `key`, or the number of fields when absent. */
  function Find(fields: seq<Field>, key: string): (i: nat)
    ensures i <= |fields|
    ensures i < |fields| ==> fields[i].key == key
    ensures forall j :: 0 <= j < i ==> fields[j].key != key
  {
    if fields == [] then 0
    else if fields[0].key == key then 0
    else 1 + Find(fields[1..], key)
  }

  /** `v[key]`, None for undefined. */
  function Get(v: Json, key: string): Option<Json> {
    if v.Obj? && Find(v.fields, key) < |v.fields| then Some(v.fields[Find(v.fields, key)].value) else None
  }

  /** `{ ...v, [key]: value }`. */
  function Set(v: Json, key: string, value: Json): Json
    requires v.Obj?
  {
    var i := Find(v.fields, key);
    if i < |v.fields| then Obj(v.fields[i := Field(key, value)])
    else Obj(v.fields + [Field(key, value)])
  }

  lemma GetSet(v: Json, key: string, value: Json, other: string)
    requires v.Obj?
    ensures Get(Set(v, key, value), other) == if other == key then Some(value) else Get(v, other)
  {
    var i, j := Find(v.fields, key), Find(v.fields, other);
    var w := Set(v, key, value);
    var k := Find(w.fields, other);
    if i < |v.fields| {
      assert forall m :: 0 <= m < |v.fields| ==> w.fields[m].key == v.fields[m].key;
    } else {
      assert w.fields[|v.fields|].key == key;
      assert forall m :: 0 <= m < |v.fields| ==> w.fields[m] == v.fields[m];
    }
  }

  /** A second assignment to the same key replaces the first. */
  lemma SetSet(v: Json, key: string, a: Json, b: Json)
    requires v.Obj?
    ensures Set(Set(v, key, a), key, b) == Set(v, key, b)
  {
    var i := Find(v.fields, key);
    var w := Set(v, key, a);
    if i < |v.fields| {
      assert forall m :: 0 <= m < |v.fields| ==> w.fields[m].key == v.fields[m].key;
      assert Find(w.fields, key) == i;
      assert v.fields[i := Field(key, a)][i := Field(key, b)] == v.fields[i := Field(key, b)];
    } else {
      assert forall m :: 0 <= m < |v.fields| ==> w.fields[m] == v.fields[m];
      assert w.fields[|v.fields|].key == key;
      assert Find(w.fields, key) == |v.fields|;
    }
  }

  // ----- length arithmetic -----

  lemma {:induction false} EscapedLengthBounds(s: JsString)
    ensures |s| <= EscapedLength(s) <= 6 * |s|
  {
    if s != [] {
      if |s| > 1 && IsHigh(s[0]) && IsLow(s[1]) {
        EscapedLengthBounds(s[2..]);
      } else {
        EscapedLengthBounds(s[1..]);
      }
    }
  }

  /**
   Cutting a string in two loses at most a surrogate pair: its two halves cost 6 each
   when apart and 2 when together. No other cut changes the escaped length.
   */
  lemma {:induction false} EscapedLengthSplit(a: JsString, b: JsString)
    ensures EscapedLength(a) + EscapedLength(b) - 10 <= EscapedLength(a + b) <= EscapedLength(a) + EscapedLength(b)
    ensures a == [] || b == [] || !IsHigh(a[|a| - 1]) || !IsLow(b[0])
            ==> EscapedLength(a + b) == EscapedLength(a) + EscapedLength(b)
  {
    if a == [] {
      assert a + b == b;
    } else if |a| == 1 {
      assert (a + b)[1..] == b;
      assert a[1..] == [];
      if b != [] && IsHigh(a[0]) && IsLow(b[0]) {
        assert (a + b)[2..] == b[1..];
        EscapedLengthHead(b);
      }
    } else if IsHigh(a[0]) && IsLow(a[1]) {
      EscapedLengthSplit(a[2..], b);
      assert (a + b)[2..] == a[2..] + b;
    } else {
      EscapedLengthSplit(a[1..], b);
      assert (a + b)[1..] == a[1..] + b;
    }
  }

  lemma EscapedLengthHead(b: JsString)
    requires b != [] && IsLow(b[0])
    ensures EscapedLength(b) == 6 + EscapedLength(b[1..])
  {
  }

  lemma {:induction false} ItemsLengthUpdate(items: seq<Json>, i: nat, v: Json)
    requires i < |items|
    ensures ItemsLength(items[i := v]) == ItemsLength(items) - SerializedLength(items[i]) + SerializedLength(v)
  {
    if i == 0 {
      assert items[i := v][1..] == items[1..];
    } else {
      ItemsLengthUpdate(items[1..], i - 1, v);
      assert items[i := v][1..] == items[1..][i - 1 := v];
    }
  }

  lemma {:induction false} FieldsLengthUpdate(fields: seq<Field>, i: nat, v: Json)
    requires i < |fields|
    ensures FieldsLength(fields[i := Field(fields[i].key, v)])
            == FieldsLength(fields) - SerializedLength(fields[i].value) + SerializedLength(v)
  {
    if i == 0 {
      assert fields[i := Field(fields[i].key, v)][1..] == fields[1..];
    } else {
      FieldsLengthUpdate(fields[1..], i - 1, v);
      assert fields[i := Field(fields[i].key, v)][1..] == fields[1..][i - 1 := Field(fields[i].key, v)];
    }
  }

  /** Replacing one field of an object shifts its length by the difference of the two values. */
  lemma SetLength(v: Json, key: string, value: Json)
    requires v.Obj? && Get(v, key).Some?
    ensures SerializedLength(Set(v, key, value))
            == SerializedLength(v) - SerializedLength(Get(v, key).value) + SerializedLength(value)
  {
    FieldsLengthUpdate(v.fields, Find(v.fields, key), value);
  }
}
