/**
 * The JavaScript values that the client code inspects: the already-decoded
 * HTTP bodies, and the values it converts to strings when it stores them or
 * builds a header. Only the operations the client applies to them are defined
 * here: truthiness, `typeof … === 'object'`, `Array.isArray`, the `in`
 * operator, property reads (`v?.[k]`), `String(v)` and `Object.values(v).join(sep)`.
 *
 * Numbers are integers; an object is the sequence of its own properties in
 * enumeration order, with distinct keys.
 */
module Js {
  import opened Wrappers

  datatype Value =
    | Undefined
    | Null
    | Bool(b: bool)
    | Num(n: int)
    | Str(s: string)
    | Arr(items: seq<Value>)
    | Obj(fields: seq<(string, Value)>)

  /** `!!v` */
  predicate Truthy(v: Value) {
    match v
    case Undefined => false
    case Null => false
    case Bool(b) => b
    case Num(n) => n != 0
    case Str(s) => s != ""
    case Arr(_) => true
    case Obj(_) => true
  }

  /** `v === null || v === undefined` */
  predicate IsNullish(v: Value) {
    v.Undefined? || v.Null?
  }

  /** `a || b` */
  function Or(a: Value, b: Value): (r: Value)
    ensures Truthy(a) ==> r == a
    ensures !Truthy(a) ==> r == b
  {
    if Truthy(a) then a else b
  }

  /** `typeof v === 'object'`, which holds of `null` and of arrays too */
  predicate IsObject(v: Value) {
    v.Null? || v.Arr? || v.Obj?
  }

  /** A value the `in` operator can be applied to without throwing */
  predicate HasProperties(v: Value) {
    v.Arr? || v.Obj?
  }

  predicate IsDigit(c: char) {
    '0' <= c <= '9'
  }

  function DigitChar(d: nat): (c: char)
    requires d < 10
    ensures IsDigit(c)
  {
    (('0' as int) + d) as char
  }

  /** Decimal notation of a natural number, as JavaScript prints it */
  function NatToString(n: nat): (s: string)
    ensures |s| > 0
    ensures forall j :: 0 <= j < |s| ==> IsDigit(s[j])
  {
    if n < 10 then [DigitChar(n)] else NatToString(n / 10) + [DigitChar(n % 10)]
  }

  function IntToString(n: int): (s: string)
    ensures |s| > 0
  {
    if n < 0 then "-" + NatToString(-n) else NatToString(n)
  }

  /** `k` names one of the first `n` array indices */
  predicate IsIndexKey(k: string, n: nat) {
    exists i :: 0 <= i < n && NatToString(i) == k
  }

  predicate HasField(fields: seq<(string, Value)>, k: string) {
    exists i :: 0 <= i < |fields| && fields[i].0 == k
  }

  /** `k in v`; the client only applies `in` after checking that `v` is a non-null object */
  predicate HasKey(v: Value, k: string)
    requires HasProperties(v)
  {
    match v
    case Arr(xs) => k == "length" || IsIndexKey(k, |xs|)
    case Obj(fields) => HasField(fields, k)
  }

  function FieldValue(fields: seq<(string, Value)>, k: string): (r: Value)
    ensures !HasField(fields, k) ==> r == Undefined
  {
    if fields == [] then Undefined
    else if fields[0].0 == k then fields[0].1
    else FieldValue(fields[1..], k)
  }

  function ElementAt(xs: seq<Value>, k: string, i: nat): (r: Value)
    requires i <= |xs|
    decreases |xs| - i
  {
    if i == |xs| then Undefined
    else if NatToString(i) == k then xs[i]
    else ElementAt(xs, k, i + 1)
  }

  /** `v?.[k]`: the property's value, `undefined` when it is absent or `v` is nullish */
  function Get(v: Value, k: string): Value {
    match v
    case Obj(fields) => FieldValue(fields, k)
    case Arr(xs) => if k == "length" then Num(|xs|) else ElementAt(xs, k, 0)
    case _ => Undefined
  }

  /** `String(v)`, also what `localStorage.setItem` and a template literal store */
  function ToStr(v: Value): string
    decreases v, 0
  {
    match v
    case Undefined => "undefined"
    case Null => "null"
    case Bool(b) => if b then "true" else "false"
    case Num(n) => IntToString(n)
    case Str(s) => s
    case Arr(xs) => Join(xs, ",")
    case Obj(_) => "[object Object]"
  }

  /** `Array.prototype.join`: nullish elements contribute the empty string */
  function Join(xs: seq<Value>, sep: string): string
    decreases xs, 0
  {
    if |xs| == 0 then ""
    else if |xs| == 1 then Piece(xs[0])
    else Piece(xs[0]) + sep + Join(xs[1..], sep)
  }

  function Piece(v: Value): string
    decreases v, 1
  {
    if IsNullish(v) then "" else ToStr(v)
  }

  function FieldValues(fields: seq<(string, Value)>): (vs: seq<Value>)
    ensures |vs| == |fields|
    ensures forall i :: 0 <= i < |fields| ==> vs[i] == fields[i].1
  {
    if fields == [] then [] else [fields[0].1] + FieldValues(fields[1..])
  }

  /** `Object.values(v)` for a non-null object */
  function ObjectValues(v: Value): seq<Value>
    requires HasProperties(v)
  {
    match v
    case Arr(xs) => xs
    case Obj(fields) => FieldValues(fields)
  }

  /** Concatenation of the string forms of the values, nullish ones contributing nothing */
  function Concat(xs: seq<Value>): string {
    if xs == [] then "" else Piece(xs[0]) + Concat(xs[1..])
  }

  /** Joining with the empty separator is plain concatenation. */
  lemma {:induction false} JoinEmptyIsConcat(xs: seq<Value>)
    ensures Join(xs, "") == Concat(xs)
  {
    if |xs| > 1 {
      JoinEmptyIsConcat(xs[1..]);
    }
  }

  /** A key that does not start with a digit and is not `length` is no property of an array. */
  lemma NotAnArrayKey(v: Value, k: string)
    requires |k| > 0 && !IsDigit(k[0]) && k != "length"
    ensures v.Arr? ==> !HasKey(v, k) && Get(v, k) == Undefined
  {
    if v.Arr? {
      ElementAtMissing(v.items, k, 0);
    }
  }

  lemma {:induction false} ElementAtMissing(xs: seq<Value>, k: string, i: nat)
    requires i <= |xs|
    requires |k| > 0 && !IsDigit(k[0])
    ensures ElementAt(xs, k, i) == Undefined
    decreases |xs| - i
  {
    if i < |xs| {
      assert NatToString(i) != k by {
        assert IsDigit(NatToString(i)[0]);
      }
      ElementAtMissing(xs, k, i + 1);
    }
  }
}
