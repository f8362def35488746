/** JSON values as the backend and the frontend see them: serde_json::Value,
    bson Documents and parsed JavaScript values all share this shape.
    An object is an ORDERED list of fields. Inserting a key that is already
    present replaces its value in place, and inserting a new key appends it,
    which is how bson Documents and insertion-ordered maps behave. */
module Json {

  datatype Option<T> = None | Some(value: T)

  /** The error half carries the message the source formats. */
  datatype Result<T> = Ok(value: T) | Err(error: string)

  datatype Value =
    | Null
    | Bool(b: bool)
    | Num(n: int)
    | Str(s: string)
    | Arr(items: seq<Value>)
    | Obj(fields: seq<Field>)

  datatype Field = Field(key: string, value: Value)

  /** The keys of an object, in order. */
  function Keys(fs: seq<Field>): (ks: seq<string>)
    ensures |ks| == |fs|
    ensures forall i :: 0 <= i < |fs| ==> ks[i] == fs[i].key
  {
    if fs == [] then [] else [fs[0].key] + Keys(fs[1..])
  }

  predicate DistinctKeys(fs: seq<Field>)
  {
    forall i, j :: 0 <= i < j < |fs| ==> fs[i].key != fs[j].key
  }

  /** Every object anywhere inside `v` has distinct keys, as every map type
      of the source guarantees. */
  predicate WellFormed(v: Value)
  {
    match v
    case Arr(items) => forall i :: 0 <= i < |items| ==> WellFormed(items[i])
    case Obj(fs) => WellFormedFields(fs)
    case _ => true
  }

  predicate WellFormedFields(fs: seq<Field>)
  {
    DistinctKeys(fs) && forall i :: 0 <= i < |fs| ==> WellFormed(fs[i].value)
  }

  /** The value stored under `k` (the first entry with that key). */
  function Lookup(fs: seq<Field>, k: string): (r: Option<Value>)
    ensures r.Some? <==> k in Keys(fs)
    ensures r.Some? ==> Field(k, r.value) in fs
    ensures r.Some? ==> exists i :: 0 <= i < |fs| && fs[i] == Field(k, r.value)
                                    && forall j :: 0 <= j < i ==> fs[j].key != k
  {
    if fs == [] then None
    else if fs[0].key == k then Some(fs[0].value)
    else
      var r := Lookup(fs[1..], k);
      assert Keys(fs) == [fs[0].key] + Keys(fs[1..]);
      if r.Some? then
        ghost var i :| 0 <= i < |fs[1..]| && fs[1..][i] == Field(k, r.value)
                       && forall j :: 0 <= j < i ==> fs[1..][j].key != k;
        assert fs[i + 1] == Field(k, r.value);
        r
      else r
  }

  /** The value of the field at the first position holding `k`. */
  lemma LookupAt(fs: seq<Field>, i: nat, k: string)
    requires i < |fs| && fs[i].key == k
    requires forall j :: 0 <= j < i ==> fs[j].key != k
    ensures Lookup(fs, k) == Some(fs[i].value)
  {
    if i > 0 {
      LookupAt(fs[1..], i - 1, k);
    }
  }

  lemma LookupDistinct(fs: seq<Field>, i: nat)
    requires DistinctKeys(fs) && i < |fs|
    ensures Lookup(fs, fs[i].key) == Some(fs[i].value)
  {
    LookupAt(fs, i, fs[i].key);
  }

  /** Object insert: replace the value of an existing key in place, or append. */
  function Insert(fs: seq<Field>, k: string, v: Value): (r: seq<Field>)
    ensures Keys(r) == if k in Keys(fs) then Keys(fs) else Keys(fs) + [k]
  {
    if fs == [] then [Field(k, v)]
    else if fs[0].key == k then [Field(k, v)] + fs[1..]
    else
      assert Keys(fs) == [fs[0].key] + Keys(fs[1..]);
      [fs[0]] + Insert(fs[1..], k, v)
  }

  lemma LookupInsert(fs: seq<Field>, k: string, v: Value, q: string)
    ensures Lookup(Insert(fs, k, v), q) == if q == k then Some(v) else Lookup(fs, q)
  {
    if fs != [] && fs[0].key != k {
      LookupInsert(fs[1..], k, v, q);
    }
  }

  /** After an insert the key is present, and so is every key that was. */
  lemma InsertKeys(fs: seq<Field>, k: string, v: Value, q: string)
    ensures q in Keys(Insert(fs, k, v)) <==> q == k || q in Keys(fs)
  {
  }

  lemma InsertDistinct(fs: seq<Field>, k: string, v: Value)
    requires DistinctKeys(fs)
    ensures DistinctKeys(Insert(fs, k, v))
  {
    var r := Insert(fs, k, v);
    assert forall i :: 0 <= i < |r| ==> r[i].key == Keys(r)[i];
  }

  /** Every field of an insert result is an old field or the new one. */
  lemma {:induction false} InsertFields(fs: seq<Field>, k: string, v: Value)
    ensures forall f :: f in Insert(fs, k, v) ==> f in fs || f == Field(k, v)
  {
    if fs != [] && fs[0].key != k {
      InsertFields(fs[1..], k, v);
    }
  }

  lemma InsertWellFormed(fs: seq<Field>, k: string, v: Value)
    requires WellFormedFields(fs) && WellFormed(v)
    ensures WellFormedFields(Insert(fs, k, v))
  {
    InsertDistinct(fs, k, v);
    InsertFields(fs, k, v);
    var r := Insert(fs, k, v);
    forall i | 0 <= i < |r|
      ensures WellFormed(r[i].value)
    {
      assert r[i] in r;
    }
  }

  /** On distinct keys, inserting the key found at position `i` overwrites
      exactly that position. */
  lemma DistinctTail(fs: seq<Field>)
    requires fs != [] && DistinctKeys(fs)
    ensures DistinctKeys(fs[1..])
  {
    var tail := fs[1..];
    forall i, j | 0 <= i < j < |tail|
      ensures tail[i].key != tail[j].key
    {
      assert tail[i] == fs[i + 1] && tail[j] == fs[j + 1];
    }
  }

  lemma InsertAt(fs: seq<Field>, i: nat, v: Value)
    requires DistinctKeys(fs) && i < |fs|
    ensures Insert(fs, fs[i].key, v) == fs[i := Field(fs[i].key, v)]
  {
    assert forall j :: 0 <= j < i ==> fs[j].key != fs[i].key;
    InsertFirst(fs, i, fs[i].key, v);
  }

  /** Inserting a key whose first occurrence is at `i` overwrites position `i`. */
  lemma {:induction false} InsertFirst(fs: seq<Field>, i: nat, k: string, v: Value)
    requires i < |fs| && fs[i].key == k
    requires forall j :: 0 <= j < i ==> fs[j].key != k
    ensures Insert(fs, k, v) == fs[i := Field(k, v)]
  {
    if i == 0 {
      assert Insert(fs, k, v) == [Field(k, v)] + fs[1..];
    } else {
      var tail := fs[1..];
      InsertFirst(tail, i - 1, k, v);
      assert Insert(fs, k, v) == [fs[0]] + Insert(tail, k, v);
      ConsUpdate(fs, i, Field(k, v));
    }
  }

  lemma ConsUpdate<T>(s: seq<T>, i: nat, y: T)
    requires 0 < i < |s|
    ensures [s[0]] + s[1..][i - 1 := y] == s[i := y]
  {
  }

  /** Every field whose key is `k` removed. */
  function Remove(fs: seq<Field>, k: string): (r: seq<Field>)
    ensures k !in Keys(r)
    ensures forall q :: q != k ==> Lookup(r, q) == Lookup(fs, q)
    ensures k !in Keys(fs) ==> r == fs
  {
    if fs == [] then []
    else if fs[0].key == k then Remove(fs[1..], k)
    else
      var r := [fs[0]] + Remove(fs[1..], k);
      assert Keys(r) == [fs[0].key] + Keys(Remove(fs[1..], k));
      assert Keys(fs) == [fs[0].key] + Keys(fs[1..]);
      r
  }

  /** Every field of a removal result is a field of the input. */
  lemma {:induction false} RemoveFields(fs: seq<Field>, k: string)
    ensures forall f :: f in Remove(fs, k) ==> f in fs
  {
    if fs != [] {
      RemoveFields(fs[1..], k);
    }
  }

  lemma {:induction false} RemoveWellFormed(fs: seq<Field>, k: string)
    requires WellFormedFields(fs)
    ensures WellFormedFields(Remove(fs, k))
  {
    if fs != [] {
      RemoveWellFormed(fs[1..], k);
      RemoveFields(fs[1..], k);
      var rest := Remove(fs[1..], k);
      if fs[0].key != k {
        var r := [fs[0]] + rest;
        forall j | 0 < j < |r|
          ensures r[j].key != fs[0].key && WellFormed(r[j].value)
        {
          assert r[j] == rest[j - 1];
          assert rest[j - 1] in fs[1..];
        }
      }
    }
  }

  /** serde_json's `Value::get` with a string index: only objects have keys. */
  function Get(v: Value, k: string): (r: Option<Value>)
    ensures r.Some? <==> v.Obj? && k in Keys(v.fields)
  {
    if v.Obj? then Lookup(v.fields, k) else None
  }

  /** bson's `Document::get_str`: the key must hold a string. */
  function GetStr(fs: seq<Field>, k: string): (r: Option<string>)
    ensures r.Some? <==> Lookup(fs, k).Some? && Lookup(fs, k).value.Str?
    ensures r.Some? ==> Field(k, Str(r.value)) in fs
  {
    match Lookup(fs, k)
    case Some(Str(s)) => Some(s)
    case _ => None
  }

  // ---------------------------------------------------------------------
  // Compact serialisation (serde_json's `Value::to_string`)
  // ---------------------------------------------------------------------

  function DigitChar(d: nat): char
    requires d < 10
  {
    "0123456789"[d]
  }

  function NatText(n: nat): (s: string)
    ensures 0 < |s|
    ensures forall i :: 0 <= i < |s| ==> '0' <= s[i] <= '9'
  {
    if n < 10 then [DigitChar(n)] else NatText(n / 10) + [DigitChar(n % 10)]
  }

  /** Decimal text of an integer, as Rust's `Display` writes it. */
  function IntText(n: int): string
  {
    if n < 0 then "-" + NatText(-n) else NatText(n)
  }

  /** The number a string of decimal digits denotes. */
  function DigitsValue(s: string): nat
    requires forall i :: 0 <= i < |s| ==> '0' <= s[i] <= '9'
  {
    if s == [] then 0 else DigitsValue(s[..|s| - 1]) * 10 + (s[|s| - 1] as int - '0' as int)
  }

  /** Reading back the digits gives the number written. */
  lemma {:induction false} NatTextValue(n: nat)
    ensures DigitsValue(NatText(n)) == n
  {
    if n >= 10 {
      NatTextValue(n / 10);
      var s := NatText(n);
      assert s[..|s| - 1] == NatText(n / 10);
    }
  }

  function HexDigit(d: nat): char
    requires d < 16
  {
    "0123456789abcdef"[d]
  }

  /** serde_json's escaping of one character inside a string literal. */
  function EscapeChar(c: char): string
  {
    if c == '"' then "\\\""
    else if c == '\\' then "\\\\"
    else if c == '\U{8}' then "\\b"
    else if c == '\U{C}' then "\\f"
    else if c == '\n' then "\\n"
    else if c == '\r' then "\\r"
    else if c == '\t' then "\\t"
    else if (c as int) < 0x20 then "\\u00" + [HexDigit(c as int / 16), HexDigit(c as int % 16)]
    else [c]
  }

  function Escape(s: string): string
  {
    if s == [] then "" else Escape(s[..|s| - 1]) + EscapeChar(s[|s| - 1])
  }

  function Quote(s: string): string
  {
    "\"" + Escape(s) + "\""
  }

  /** The compact JSON text of a value. Only integral numbers are modelled. */
  function ToText(v: Value): (t: string)
    ensures 0 < |t|
  {
    match v
    case Null => "null"
    case Bool(b) => if b then "true" else "false"
    case Num(n) => IntText(n)
    case Str(s) => Quote(s)
    case Arr(items) => "[" + ItemsText(items) + "]"
    case Obj(fs) => "{" + FieldsText(fs) + "}"
  }

  function ItemsText(items: seq<Value>): string
  {
    if items == [] then ""
    else if |items| == 1 then ToText(items[0])
    else ItemsText(items[..|items| - 1]) + "," + ToText(items[|items| - 1])
  }

  function FieldsText(fs: seq<Field>): string
  {
    if fs == [] then ""
    else
      var last := fs[|fs| - 1];
      var entry := Quote(last.key) + ":" + ToText(last.value);
      if |fs| == 1 then entry else FieldsText(fs[..|fs| - 1]) + "," + entry
  }
}
