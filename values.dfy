/** JavaScript run-time values as the matcher of lib/simplecheck.js sees them.

    The engine inspects values only through `typeof`, `===`, `instanceof`,
    `.constructor.name`, `.name`, property lookup `value[k]` and `for..in`
    enumeration. This module gives each of those a definition over a closed
    datatype. Classes are identified by their names. */
module JsValues {

  /** A JavaScript number. Finite doubles are abstracted to the reals they
      denote (negative zero collapses onto zero, which `===` also does). */
  datatype Number = Finite(r: real) | NaN | PosInf | NegInf

  /** A run-time value.
      - `Obj(ctor, supers, fields)`: an object whose constructor is named `ctor`,
        whose prototype chain also holds the classes named in `supers`, and
        whose own enumerable properties, in enumeration order, are `fields`.
        A plain object is `Obj("Object", [], ...)`, a Date `Obj("Date", [], [])`.
      - `Fn(name)`: a function or a class used as a value. */
  datatype Value =
    | Undefined
    | Null
    | Bool(b: bool)
    | Num(n: Number)
    | Str(s: string)
    | Arr(elems: seq<Value>)
    | Obj(ctor: string, supers: seq<string>, fields: seq<(string, Value)>)
    | Fn(name: string)

  /** The primitive values; a pattern that is one of these is a literal. */
  datatype Prim = PUndefined | PNull | PBool(b: bool) | PNum(n: Number) | PStr(s: string)

  /** The answers of `typeof` that the engine compares against. */
  datatype TypeTag = TUndefined | TObject | TBoolean | TNumber | TString | TFunction

  function FromPrim(p: Prim): Value {
    match p
    case PUndefined => Undefined
    case PNull => Null
    case PBool(b) => Bool(b)
    case PNum(n) => Num(n)
    case PStr(s) => Str(s)
  }

  /** `typeof value`: null and arrays are objects. */
  function TypeOf(v: Value): (t: TypeTag)
    ensures t == TObject <==> v.Null? || v.Arr? || v.Obj?
    ensures t == TFunction <==> v.Fn?
  {
    match v
    case Undefined => TUndefined
    case Null => TObject
    case Bool(_) => TBoolean
    case Num(_) => TNumber
    case Str(_) => TString
    case Arr(_) => TObject
    case Obj(_, _, _) => TObject
    case Fn(_) => TFunction
  }

  /** `a === b` on numbers: NaN equals nothing, not even itself. */
  predicate NumberEquals(a: Number, b: Number) {
    match a
    case Finite(x) => b.Finite? && b.r == x
    case NaN => false
    case PosInf => b.PosInf?
    case NegInf => b.NegInf?
  }

  /** `value === literal` for a primitive literal. */
  predicate StrictEqualsPrim(v: Value, p: Prim) {
    match p
    case PUndefined => v.Undefined?
    case PNull => v.Null?
    case PBool(b) => v.Bool? && v.b == b
    case PNum(n) => v.Num? && NumberEquals(v.n, n)
    case PStr(s) => v.Str? && v.s == s
  }

  /** JavaScript truthiness of a primitive. */
  predicate PrimTruthy(p: Prim) {
    match p
    case PUndefined => false
    case PNull => false
    case PBool(b) => b
    case PNum(n) => (n.Finite? && n.r != 0.0) || n.PosInf? || n.NegInf?
    case PStr(s) => s != ""
  }

  /** `value instanceof C` for a user class or constructor function named `name`:
      only objects are instances, and an object is an instance of every class on
      its prototype chain. */
  predicate InstanceOfName(v: Value, name: string) {
    v.Obj? && (v.ctor == name || name in v.supers)
  }

  /** `value.constructor.name` for a value that `typeof` calls an object and
      that is not null. */
  function ConstructorName(v: Value): string
    requires v.Arr? || v.Obj?
  {
    if v.Arr? then "Array" else v.ctor
  }

  // ---------------------------------------------------------------------------
  // Property lookup and enumeration, for objects and arrays.

  function Digit(d: nat): char
    requires d < 10
  {
    "0123456789"[d]
  }

  /** The canonical key of array index `i` ("0", "1", ..., "10", ...). */
  function IndexKey(i: nat): (k: string)
    ensures |k| > 0
    decreases i
  {
    if i < 10 then [Digit(i)] else IndexKey(i / 10) + [Digit(i % 10)]
  }

  /** The element of `xs` whose index key is `k`, searching from index `i`;
      `undefined` when there is none. */
  function ElementByKey(xs: seq<Value>, k: string, i: nat): Value
    decreases |xs| - i
  {
    if i >= |xs| then Undefined
    else if IndexKey(i) == k then xs[i]
    else ElementByKey(xs, k, i + 1)
  }

  /** The value of the first own property named `k`, or `undefined`. */
  function FieldValue(fields: seq<(string, Value)>, k: string): (v: Value)
    ensures (forall i :: 0 <= i < |fields| ==> fields[i].0 != k) ==> v == Undefined
  {
    if fields == [] then Undefined
    else if fields[0].0 == k then fields[0].1
    else FieldValue(fields[1..], k)
  }

  /** The outcome of evaluating `value[k]`: it throws a TypeError on null. */
  datatype Lookup = Found(value: Value) | LookupThrows

  function Get(v: Value, k: string): (r: Lookup)
    requires TypeOf(v) == TObject
    ensures r.LookupThrows? <==> v.Null?
  {
    match v
    case Null => LookupThrows
    case Arr(xs) => Found(if k == "length" then Num(Finite(|xs| as real)) else ElementByKey(xs, k, 0))
    case Obj(_, _, fields) => Found(FieldValue(fields, k))
  }

  /** The keys `for (k in value)` visits, in order, for a non-null object. */
  function EnumerableKeys(v: Value): (ks: seq<string>)
    requires v.Arr? || v.Obj?
    ensures v.Obj? ==> |ks| == |v.fields|
    ensures v.Arr? ==> |ks| == |v.elems|
  {
    if v.Arr? then seq(|v.elems|, i requires 0 <= i => IndexKey(i))
    else seq(|v.fields|, i requires 0 <= i < |v.fields| => v.fields[i].0)
  }

  // ---------------------------------------------------------------------------
  // `value | 0`: the ToInt32 conversion of section 7.1.6 of ECMA-262.

  const TwoTo31: int := 0x8000_0000
  const TwoTo32: int := 0x1_0000_0000

  /** Rounding toward zero. */
  function Trunc(r: real): (t: int)
    ensures r >= 0.0 ==> t as real <= r < t as real + 1.0
    ensures r < 0.0 ==> t as real - 1.0 < r <= t as real
  {
    if r >= 0.0 then r.Floor else -((-r).Floor)
  }

  /** ToInt32: NaN and the infinities become 0; a finite number is truncated
      and reduced modulo 2^32 into the signed range. */
  function ToInt32(n: Number): (i: int)
    ensures -TwoTo31 <= i < TwoTo31
  {
    match n
    case Finite(r) =>
      var m := Trunc(r) % TwoTo32;
      if m >= TwoTo31 then m - TwoTo32 else m
    case _ => 0
  }

  predicate IsIntegral(r: real) {
    r.Floor as real == r
  }

  /** `(value | 0) === value` for a number `value`. */
  predicate PassesInt32Test(n: Number) {
    n.Finite? && ToInt32(n) as real == n.r
  }

  /** The ToInt32 round trip succeeds exactly on the integers of the signed
      32-bit range; NaN, the infinities, fractions and larger magnitudes fail. */
  lemma Int32TestIff(n: Number)
    ensures PassesInt32Test(n) <==>
      n.Finite? && IsIntegral(n.r) && -TwoTo31 as real <= n.r < TwoTo31 as real
  {
    if n.Finite? && IsIntegral(n.r) && -TwoTo31 as real <= n.r < TwoTo31 as real {
      var i := n.r.Floor;
      assert Trunc(n.r) == i;
      if i >= 0 {
        assert i % TwoTo32 == i;
      } else {
        assert i % TwoTo32 == i + TwoTo32;
      }
    }
  }
}
