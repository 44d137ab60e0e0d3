/**
 * PHP values as they reach `FrenchAddress::createFromArray`: null, numbers,
 * strings and (ordered) arrays, with the three operations the normaliser
 * applies to them: `empty()`, reading `$v['key']` and `foreach`.
 */
module PhpValues {
  import opened Wrappers

  /**
   * A PHP number. A float is kept as its IEEE 754 binary64 bit pattern and is
   * never interpreted: coordinates and bounds are only null-checked and passed
   * on; only `empty()` needs to know whether a float is zero.
   */
  datatype Number = IntNumber(i: int) | FloatNumber(bits: bv64)

  /** A PHP array key: lists use integer keys, records use string keys. */
  datatype Key = IntKey(n: int) | StrKey(s: string)

  /** A PHP value. An array keeps its entries in insertion order. */
  datatype Value =
    | Null
    | Num(n: Number)
    | Str(s: string)
    | Arr(entries: seq<(Key, Value)>)

  /** PHP's `empty()`: null, 0, 0.0, -0.0, "", "0" and the empty array. */
  predicate Empty(v: Value) {
    match v
    case Null => true
    case Num(IntNumber(i)) => i == 0
    case Num(FloatNumber(bits)) => bits & 0x7FFF_FFFF_FFFF_FFFF == 0
    case Str(s) => s == "" || s == "0"
    case Arr(entries) => entries == []
  }

  /** A value a `?string` parameter accepts. */
  predicate NullableString(v: Value) {
    v.Null? || v.Str?
  }

  /** A `?string` value as an optional string. */
  function OptString(v: Value): Option<string>
    requires NullableString(v)
  {
    if v.Str? then Some(v.s) else None
  }

  /** An optional string as the PHP string or null it stands for; `OptString` undoes it. */
  function StrOrNull(o: Option<string>): (v: Value)
    ensures NullableString(v) && OptString(v) == o
  {
    if o.Some? then Str(o.value) else Null
  }

  /**
   * `$v['key']` for a non-numeric key: the value stored under the key, or null
   * when the key is missing or `$v` is not an array (PHP reads null there).
   */
  function Lookup(v: Value, key: string): Value {
    if v.Arr? then Find(v.entries, key) else Null
  }

  /** The value of the first entry under `key`; PHP keys are unique, so the only one. */
  function Find(entries: seq<(Key, Value)>, key: string): Value {
    if entries == [] then Null
    else if entries[0].0 == StrKey(key) then entries[0].1
    else Find(entries[1..], key)
  }

  /** Reading any key of an array whose values are all null gives null. */
  lemma {:induction false} FindAllNull(entries: seq<(Key, Value)>, key: string)
    requires forall j :: 0 <= j < |entries| ==> entries[j].1 == Null
    ensures Find(entries, key) == Null
  {
    if entries != [] {
      FindAllNull(entries[1..], key);
    }
  }

  /** The values `foreach` visits, in order; iterating a non-array visits none. */
  function Items(v: Value): (r: seq<Value>)
    ensures v.Arr? ==> |r| == |v.entries| && forall j :: 0 <= j < |r| ==> r[j] == v.entries[j].1
    ensures !v.Arr? ==> r == []
  {
    if v.Arr? then seq(|v.entries|, j requires 0 <= j < |v.entries| => v.entries[j].1) else []
  }
}
