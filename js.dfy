/**
 * JavaScript values as the extraction code sees them: parsed JSON and plain
 * objects, `undefined` (Option.None), truthiness, `||`, `String()`,
 * `Number()`, property access and `Object.entries`.
 */
module Js {
  import opened Wrappers
  import opened Text

  /**
   * A JavaScript value. `JNum` carries a numeral: for a parsed JSON number its
   * rendering `String(n)`, for a number the DOM scan read, the text it matched.
   */
  datatype Json =
    | JNull
    | JBool(b: bool)
    | JNum(text: string)
    | JStr(s: string)
    | JArr(items: seq<Json>)
    | JObj(fields: seq<(string, Json)>)

  /** A possibly `undefined` value. */
  type Value = Option<Json>

  /** The result of `Number(x)`. */
  datatype Number = Finite(value: real) | NaN

  /** Why an operation threw. */
  datatype Error =
    | Thrown(message: string)  // `throw new Error(message)`
    | TypeError                // a property read on null/undefined, or a method missing on a value
    | SchemaViolation          // the output schema rejected the record

  type Outcome<T> = Result<T, Error>

  // ---------------------------------------------------------------------
  // numbers

  function Negate(n: Number): Number {
    if n.Finite? then Finite(-n.value) else NaN
  }

  function UnsignedDecimal(u: string): Number {
    if IsDecimalLiteral(u) then Finite(DecimalValue(u)) else NaN
  }

  /** `Number(s)` for a string: trimmed, empty is 0, an optional sign and a decimal literal. */
  function StringToNumber(s: string): (n: Number)
    ensures Trim(s) == [] ==> n == Finite(0.0)
    ensures IsDecimalLiteral(Trim(s)) ==> n == Finite(DecimalValue(Trim(s)))
  {
    var t := Trim(s);
    if t == [] then Finite(0.0)
    else if t[0] == '-' then Negate(UnsignedDecimal(t[1..]))
    else if t[0] == '+' then UnsignedDecimal(t[1..])
    else UnsignedDecimal(t)
  }

  lemma NoDotInDigits(s: string)
    requires AllDigits(s)
    ensures IndexOf(s, ".").None?
  {
  }

  lemma NumberOfDigits(s: string)
    requires AllDigits(s) && s != []
    ensures StringToNumber(s) == Finite(DigitsValue(s) as real)
  {
    assert !IsSpace(s[0]) && !IsSpace(s[|s| - 1]) by {
      assert IsDigit(s[0]) && IsDigit(s[|s| - 1]);
    }
    TrimOfTrimmed(s);
    NoDotInDigits(s);
    assert IsDecimalLiteral(s) by {
      assert s[0] != '.';
    }
  }

  /** `Number(s)` of a decimal literal (no sign, no spaces) is its exact value. */
  lemma NumberOfDecimalLiteral(s: string)
    requires IsDecimalLiteral(s)
    ensures StringToNumber(s) == Finite(DecimalValue(s))
  {
    DigitsDotDigitsChars(s);
    assert !IsSpace(s[0]) && !IsSpace(s[|s| - 1]);
    TrimOfTrimmed(s);
  }

  /** `n.toLocaleString('en-US')`; `NaN` renders as "NaN". */
  function ToLocaleString(n: Number): string {
    if n.NaN? then "NaN" else LocaleString(n.value)
  }

  lemma NumberOfNatString(n: nat)
    ensures StringToNumber(NatToString(n)) == Finite(n as real)
  {
    NumberOfDigits(NatToString(n));
  }

  /** A run of digits renders, in en-US, as its value grouped in threes; ungrouping gives the value's digits back. */
  lemma LocaleOfDigits(s: string)
    requires AllDigits(s) && s != []
    ensures var n := DigitsValue(s);
      ToLocaleString(StringToNumber(s)) == GroupThousands(NatToString(n))
      && RemoveCommas(GroupThousands(NatToString(n))) == NatToString(n)
      && StringToNumber(NatToString(n)) == StringToNumber(s)
  {
    var n := DigitsValue(s);
    NumberOfDigits(s);
    LocaleOfNat(n);
    assert ',' !in NatToString(n) by {
      assert forall k :: 0 <= k < |NatToString(n)| ==> IsDigit(NatToString(n)[k]);
    }
    UngroupThousands(NatToString(n));
    NumberOfNatString(n);
  }

  // ---------------------------------------------------------------------
  // truthiness and ||

  predicate Truthy(v: Value) {
    match v
    case None => false
    case Some(j) =>
      match j
      case JNull => false
      case JBool(b) => b
      case JNum(t) => var n := StringToNumber(t); n.Finite? && n.value != 0.0
      case JStr(s) => s != []
      case JArr(_) => true
      case JObj(_) => true
  }

  /** `a || b`. */
  function Or(a: Value, b: Value): Value {
    if Truthy(a) then a else b
  }

  /** `v0 || v1 || ... || vn`: the first truthy operand, else the last one. */
  function OrChain(vs: seq<Value>): (r: Value)
    requires |vs| > 0
    ensures r in vs
    ensures Truthy(r) <==> exists k :: 0 <= k < |vs| && Truthy(vs[k])
    ensures forall k :: 0 <= k < |vs| && Truthy(vs[k]) && (forall j :: 0 <= j < k ==> !Truthy(vs[j])) ==> r == vs[k]
    ensures (forall k :: 0 <= k < |vs| ==> !Truthy(vs[k])) ==> r == vs[|vs| - 1]
  {
    if |vs| == 1 || Truthy(vs[0]) then vs[0] else OrChain(vs[1..])
  }

  // ---------------------------------------------------------------------
  // property access

  function Lookup<V>(fields: seq<(string, V)>, key: string): (r: Option<V>)
    ensures r.Some? <==> exists k :: 0 <= k < |fields| && fields[k].0 == key
    ensures r.Some? ==> exists k :: 0 <= k < |fields| && fields[k] == (key, r.value)
  {
    if fields == [] then None
    else if fields[0].0 == key then Some(fields[0].1)
    else Lookup(fields[1..], key)
  }

  /** `j[key]`: throws on null, and is `undefined` on a primitive or an absent key. */
  function Prop(j: Json, key: string): (r: Outcome<Value>)
    ensures r.Err? <==> j.JNull?
    ensures j.JObj? ==> r == Ok(Lookup(j.fields, key))
    ensures !j.JObj? && !j.JNull? ==> r == Ok(None)
  {
    match j
    case JNull => Err(TypeError)
    case JObj(f) => Ok(Lookup(f, key))
    case _ => Ok(None)
  }

  /** `j[key]` on a value that is not null: `undefined` unless `j` is an object holding `key`. */
  function Get(j: Json, key: string): (r: Value)
    ensures !j.JNull? ==> Prop(j, key) == Ok(r)
  {
    if j.JObj? then Lookup(j.fields, key) else None
  }

  /** A property read on a possibly undefined value. */
  function PropOf(v: Value, key: string): (r: Outcome<Value>)
    ensures r.Err? <==> (v.None? || v.value.JNull?)
  {
    match v
    case None => Err(TypeError)
    case Some(j) => Prop(j, key)
  }

  /** `Array.isArray(v)`. */
  predicate IsArray(v: Value) {
    v.Some? && v.value.JArr?
  }

  /** `typeof v === 'object'`, which also holds for null. */
  predicate TypeofObject(v: Value) {
    v.Some? && (v.value.JNull? || v.value.JArr? || v.value.JObj?)
  }

  function Items(v: Value): seq<Json> {
    if IsArray(v) then v.value.items else []
  }

  // ---------------------------------------------------------------------
  // String()

  function Join(parts: seq<string>, sep: string): string {
    if parts == [] then ""
    else if |parts| == 1 then parts[0]
    else parts[0] + sep + Join(parts[1..], sep)
  }

  /** `String(j)`; an array joins its elements with commas, null elements as "". */
  function JsonToStr(j: Json): string
    decreases j
  {
    match j
    case JNull => "null"
    case JBool(b) => if b then "true" else "false"
    case JNum(t) => t
    case JStr(s) => s
    case JArr(items) =>
      Join(seq(|items|, k requires 0 <= k < |items| =>
        if items[k].JNull? then "" else JsonToStr(items[k])), ",")
    case JObj(_) => "[object Object]"
  }

  /** `String(v)`, also the key an object property lookup converts `v` to. */
  function ToStr(v: Value): string {
    if v.None? then "undefined" else JsonToStr(v.value)
  }

  /** `Number(v)`. */
  function ToNumber(v: Value): Number {
    match v
    case None => NaN
    case Some(j) =>
      match j
      case JNull => Finite(0.0)
      case JBool(b) => if b then Finite(1.0) else Finite(0.0)
      case JNum(t) => StringToNumber(t)
      case JStr(s) => StringToNumber(s)
      case _ => StringToNumber(JsonToStr(j))
  }

  lemma StrOfString(s: string)
    ensures ToStr(Some(JStr(s))) == s
  {
  }

  // ---------------------------------------------------------------------
  // Object.entries and in-place property writes

  /** `Object.entries(j)` for a truthy value: fields, array indices, or string positions. */
  function Entries(j: Json): (r: seq<(string, Json)>)
    ensures j.JObj? ==> r == j.fields
    ensures j.JArr? ==> |r| == |j.items| && forall k :: 0 <= k < |r| ==> r[k] == (NatToString(k), j.items[k])
    ensures j.JStr? ==> |r| == |j.s| && forall k :: 0 <= k < |r| ==> r[k] == (NatToString(k), JStr([j.s[k]]))
    ensures (j.JNull? || j.JBool? || j.JNum?) ==> r == []
  {
    match j
    case JObj(f) => f
    case JArr(items) => seq(|items|, k requires 0 <= k < |items| => (NatToString(k), items[k]))
    case JStr(s) => seq(|s|, k requires 0 <= k < |s| => (NatToString(k), JStr([s[k]])))
    case _ => []
  }

  function Keys<V>(fields: seq<(string, V)>): seq<string> {
    seq(|fields|, k requires 0 <= k < |fields| => fields[k].0)
  }

  predicate DistinctKeys<V>(fields: seq<(string, V)>) {
    forall i, j :: 0 <= i < j < |fields| ==> fields[i].0 != fields[j].0
  }

  /**
   * `obj[key] = v`: an existing key keeps its position and takes the new
   * value; a new key is added at the end.
   */
  function Put<V>(fields: seq<(string, V)>, key: string, v: V): (r: seq<(string, V)>)
    ensures Lookup(r, key) == Some(v)
    ensures forall k :: k != key ==> Lookup(r, k) == Lookup(fields, k)
  {
    if fields == [] then [(key, v)]
    else if fields[0].0 == key then [(key, v)] + fields[1..]
    else [fields[0]] + Put(fields[1..], key, v)
  }

  lemma KeysCons<V>(fields: seq<(string, V)>)
    requires fields != []
    ensures Keys(fields) == [fields[0].0] + Keys(fields[1..])
  {
  }

  /** Writing a present key keeps the key order; writing a new key appends it. */
  lemma {:induction false} PutKeys<V>(fields: seq<(string, V)>, key: string, v: V)
    ensures key in Keys(fields) ==> Keys(Put(fields, key, v)) == Keys(fields)
    ensures key !in Keys(fields) ==> Keys(Put(fields, key, v)) == Keys(fields) + [key]
  {
    if fields != [] {
      var r := Put(fields, key, v);
      KeysCons(fields);
      KeysCons(r);
      if fields[0].0 != key {
        PutKeys(fields[1..], key, v);
        assert r[1..] == Put(fields[1..], key, v);
      } else {
        assert r[1..] == fields[1..];
      }
    }
  }

  /** Every entry after a write was there before, or is the written one. */
  lemma {:induction false} PutFrom<V>(fields: seq<(string, V)>, key: string, v: V)
    ensures forall i :: 0 <= i < |Put(fields, key, v)| ==> Put(fields, key, v)[i] in fields || Put(fields, key, v)[i] == (key, v)
  {
    if fields != [] && fields[0].0 != key {
      PutFrom(fields[1..], key, v);
      var r := Put(fields, key, v);
      forall i | 0 < i < |r|
        ensures r[i] in fields || r[i] == (key, v)
      {
        assert r[i] == Put(fields[1..], key, v)[i - 1];
      }
    }
  }

  lemma PutDistinct<V>(fields: seq<(string, V)>, key: string, v: V)
    requires DistinctKeys(fields)
    ensures DistinctKeys(Put(fields, key, v))
  {
    PutKeys(fields, key, v);
    var r := Put(fields, key, v);
    assert forall i :: 0 <= i < |r| ==> r[i].0 == Keys(r)[i];
    assert forall i :: 0 <= i < |fields| ==> fields[i].0 == Keys(fields)[i];
    KeysOfPrefix(fields, key);
  }

  lemma KeysOfPrefix<V>(fields: seq<(string, V)>, key: string)
    ensures (key in Keys(fields)) <==> Lookup(fields, key).Some?
  {
    if fields != [] {
      assert Keys(fields) == [fields[0].0] + Keys(fields[1..]);
      KeysOfPrefix(fields[1..], key);
    }
  }
}
