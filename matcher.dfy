/** The matching engine of lib/simplecheck.js as recursive functions.

    `CheckType(v, p, strict)` is what `checkType(value, pattern, strict)`
    does: return (`Ok`), throw a MatchError (`MatchErr`) or throw some other
    error (`OtherErr`). The step-by-step versions in module Engine are proved
    to compute exactly these outcomes; module MatcherProperties proves what
    the outcomes mean. */
module Matcher {
  import opened JsValues
  import opened Patterns

  /** `scalarTypeMap(pattern)`: the `typeof` answer demanded by a scalar
      descriptor, nothing for every other pattern. */
  function ScalarTypeMap(p: Pattern): Option<TypeTag> {
    if p.Scalar? then Some(ScalarTag(p.kind)) else None
  }

  /** `checkType(value, pattern, strict)`. The six branches, in the source's
      order: scalar descriptor, non-native function, array literal, regular
      expression, non-native object, and the `===` / `instanceof` fallback for
      native constructors and primitive literals. */
  function CheckType(v: Value, p: Pattern, strict: bool): Outcome
    decreases p, 4
  {
    match p
    case Scalar(kind) =>
      if TypeOf(v) == ScalarTag(kind) then Ok else MatchErr(NotScalarType(kind))
    case ArrPat(elems) => CheckArray(v, elems)
    case Regex(source, test) => if test(v) then Ok else MatchErr(RegexMismatch(source))
    case ObjPat(_, _) => CheckObject(v, p, strict)
    case NativeCtor(c) => CheckNative(v, c)
    case Literal(lit) => CheckLiteral(v, lit)
    case _ => FunctionVerdict(v, p, Call(p, v))
  }

  // ---------------------------------------------------------------------------
  // Non-native function patterns.

  /** What calling the function pattern `p` with `v` does. */
  function Call(p: Pattern, v: Value): CallResult
    requires IsFunctionPattern(p)
    decreases p, 3
  {
    match p
    case ClassPat(_) => ThrewOther
    case UserFn(_, _, run) => run(v)
    case Optional(inner) => OptionalCall(inner, v)
    case Anything => Returned(Truthy)
    case OneOf(alts) => OneOfCall(alts, v)
    case IntegerPat => IntegerCall(v)
  }

  /** `validateClassPattern(value, pattern)`: undefined and null never match;
      a function value matches when its name equals the pattern's; an object
      matches when the pattern is a constructor on its prototype chain. The
      closures of the combinators are on no object's prototype chain. */
  predicate ValidateClassPattern(v: Value, p: Pattern)
    requires IsFunctionPattern(p)
  {
    match v
    case Undefined => false
    case Null => false
    case Fn(name) => name == FunctionName(p)
    case Obj(_, _, _) => (p.ClassPat? || p.UserFn?) && InstanceOfName(v, FunctionName(p))
    case _ => false
  }

  /** `value instanceof pattern` in `validateClassPattern` throws a TypeError
      when the value is an object (so the `prototype` lookup is reached) and
      the pattern has no `prototype` object. Every pattern but a user function
      has one: classes, and the function expressions and declarations of the
      combinators. */
  predicate ClassMatchThrows(v: Value, p: Pattern) {
    (v.Arr? || v.Obj?) && p.UserFn? && !p.hasPrototype
  }

  /** Class matching, followed by the final "Invalid match" check. */
  function ClassVerdict(v: Value, p: Pattern): Outcome
    requires IsFunctionPattern(p)
  {
    if ClassMatchThrows(v, p) then OtherErr
    else if ValidateClassPattern(v, p) then Ok
    else MatchErr(InvalidMatch)
  }

  /** The function branch after the call: a MatchError propagates, any other
      error or an `undefined` result switches to class matching, and a falsy
      result becomes "Invalid match". */
  function FunctionVerdict(v: Value, p: Pattern, r: CallResult): Outcome
    requires IsFunctionPattern(p)
  {
    match r
    case ThrewMatch(reason) => MatchErr(reason)
    case ThrewOther => ClassVerdict(v, p)
    case Returned(ReturnedUndefined) => ClassVerdict(v, p)
    case Returned(Falsy) => MatchErr(InvalidMatch)
    case Returned(Truthy) => Ok
  }

  // ---------------------------------------------------------------------------
  // The combinators.

  /** The closure `optional(inner)` returns. */
  function OptionalCall(inner: Pattern, v: Value): CallResult
    decreases inner, 5
  {
    if v.Undefined? || v.Null? then Returned(Truthy)
    else
      match CheckType(v, inner, true)
      case Ok => Returned(Truthy)
      case MatchErr(r) => ThrewMatch(r)
      case OtherErr => ThrewOther
  }

  /** The closure `oneOf(alts...)` returns. Every error of an alternative is
      swallowed; building the final message runs `typesInArray`, which itself
      throws when an alternative is `undefined`. */
  function OneOfCall(alts: seq<Pattern>, v: Value): CallResult
    decreases alts, 5
  {
    if exists i | 0 <= i < |alts| :: CheckType(v, alts[i], true).Ok? then Returned(Truthy)
    else if AnyNameThrows(alts) then ThrewOther
    else ThrewMatch(NoAlternative)
  }

  /** `typesInArray(choices)` throws: some choice, looking through nested array
      patterns, is `undefined` (whose `.constructor` cannot be read). */
  predicate AnyNameThrows(ps: seq<Pattern>)
    decreases ps
  {
    exists i | 0 <= i < |ps| :: NameThrows(ps[i])
  }

  predicate NameThrows(p: Pattern)
    decreases p
  {
    (p.Literal? && p.lit.PUndefined?) || (p.ArrPat? && AnyNameThrows(p.elems))
  }

  /** `typesInArray` applied to array values, as `Integer` does for an array
      argument: it throws when `undefined` occurs inside, looking through
      nested arrays. */
  predicate ArrayNamesThrow(xs: seq<Value>)
    decreases xs
  {
    exists i | 0 <= i < |xs| :: xs[i].Undefined? || (xs[i].Arr? && ArrayNamesThrow(xs[i].elems))
  }

  /** `Integer(value)`. A number passes when `(value | 0) === value`. Otherwise
      reading `value.constructor` throws a TypeError for undefined and null,
      and `typesInArray` throws for an array holding `undefined`; everything
      else gets "Expected Integer". */
  function IntegerCall(v: Value): CallResult {
    if v.Num? && PassesInt32Test(v.n) then Returned(Truthy)
    else if v.Undefined? || v.Null? then ThrewOther
    else if v.Arr? && ArrayNamesThrow(v.elems) then ThrewOther
    else ThrewMatch(NotAnInteger)
  }

  // ---------------------------------------------------------------------------
  // The fallback branch.

  /** `value instanceof C` for a native constructor `C`. */
  predicate InstanceOfNative(v: Value, c: Native) {
    match c
    case ObjectCtor => v.Arr? || v.Obj? || v.Fn?
    case ArrayCtor => v.Arr?
    case FunctionCtor => v.Fn?
    case DateCtor => InstanceOfName(v, "Date")
    case RegExpCtor => InstanceOfName(v, "RegExp")
  }

  /** A native constructor pattern: `value === pattern` or
      `value instanceof pattern`, else "Expected ... to be (an instance of) ...". */
  function CheckNative(v: Value, c: Native): Outcome {
    if v == Fn(NativeName(c)) || InstanceOfNative(v, c) then Ok else MatchErr(NotInstance(c))
  }

  /** A primitive literal pattern: `value === pattern`, else `value instanceof
      pattern` throws a TypeError because the right-hand side is not callable. */
  function CheckLiteral(v: Value, lit: Prim): Outcome {
    if StrictEqualsPrim(v, lit) then Ok else OtherErr
  }

  // ---------------------------------------------------------------------------
  // `checkArray(value, pattern[0])`. The array branch does not pass `strict`
  // on, so elements are always checked strictly.

  function CheckArray(v: Value, elems: seq<Pattern>): Outcome
    decreases elems, 5
  {
    if !v.Arr? then MatchErr(NotAnArray) else CheckElements(v.elems, elems)
  }

  /** The `forEach` over the elements: the first failure propagates unchanged. */
  function CheckElements(xs: seq<Value>, elems: seq<Pattern>): Outcome
    decreases elems, 4, |xs|
  {
    if xs == [] then Ok
    else
      var o := CheckItem(xs[0], elems);
      if o.Ok? then CheckElements(xs[1..], elems) else o
  }

  /** One element against `pattern[0]`, which is `undefined` for an empty
      array pattern. */
  function CheckItem(x: Value, elems: seq<Pattern>): Outcome
    decreases elems, 3
  {
    if |elems| == 0 then CheckLiteral(x, PUndefined) else CheckType(x, elems[0], true)
  }

  // ---------------------------------------------------------------------------
  // `checkObject(value, pattern, strict)`.

  function CheckObject(v: Value, p: Pattern, strict: bool): Outcome
    requires p.ObjPat?
    decreases p, 3
  {
    if TypeOf(v) != TObject then MatchErr(NotAnObject)
    else
      var fieldsOutcome := CheckFields(v, p, 0);
      if !fieldsOutcome.Ok? then fieldsOutcome
      else if !strict then Ok
      else StrictClosure(v, p)
  }

  /** The first `for..in` loop, from the `i`-th key of the pattern on. */
  function CheckFields(v: Value, p: Pattern, i: nat): Outcome
    requires p.ObjPat? && TypeOf(v) == TObject && i <= |p.fields|
    decreases p, 2, |p.fields| - i
  {
    if i == |p.fields| then Ok
    else
      var o := FieldOutcome(v, p, i);
      if o.Ok? then CheckFields(v, p, i + 1) else KeyFailure(p.fields[i].0, o)
  }

  /** `checkType(value[k], pattern[k])` for the `i`-th key `k` of the pattern;
      reading `null[k]` throws a TypeError. */
  function FieldOutcome(v: Value, p: Pattern, i: nat): Outcome
    requires p.ObjPat? && TypeOf(v) == TObject && i < |p.fields|
    decreases p, 1
  {
    match Get(v, p.fields[i].0)
    case LookupThrows => OtherErr
    case Found(x) => CheckType(x, p.fields[i].1, true)
  }

  /** The catch around a field check: any error becomes a MatchError whose
      message is the key prefix followed by the inner message. */
  function KeyFailure(k: string, o: Outcome): Outcome
    requires !o.Ok?
  {
    if o.MatchErr? then MatchErr(KeyFailed(k, o.reason)) else MatchErr(KeyFailed(k, ForeignError))
  }

  /** The strict part: constructor names must agree (`null.constructor`
      throws), and every key of the value needs a truthy pattern entry. */
  function StrictClosure(v: Value, p: Pattern): Outcome
    requires p.ObjPat? && TypeOf(v) == TObject
  {
    if v.Null? then OtherErr
    else if ConstructorName(v) != p.ctor then MatchErr(ClassMismatch(ConstructorName(v), p.ctor))
    else
      match FirstUndeclared(EnumerableKeys(v), p.fields)
      case Some(k) => MatchErr(UnknownKey(k))
      case None => Ok
  }

  /** `pattern[k]`: the first entry of the pattern under key `k`. */
  function PatternEntry(fields: seq<(string, Pattern)>, k: string): Option<Pattern> {
    if fields == [] then None
    else if fields[0].0 == k then Some(fields[0].1)
    else PatternEntry(fields[1..], k)
  }

  /** `!pattern[k]` is false: the pattern has a truthy entry under `k`. */
  predicate Declared(fields: seq<(string, Pattern)>, k: string) {
    match PatternEntry(fields, k)
    case None => false
    case Some(q) => PatternTruthy(q)
  }

  /** The first of `keys` without a truthy pattern entry (the second loop). */
  function FirstUndeclared(keys: seq<string>, fields: seq<(string, Pattern)>): Option<string> {
    if keys == [] then None
    else if !Declared(fields, keys[0]) then Some(keys[0])
    else FirstUndeclared(keys[1..], fields)
  }

  // ---------------------------------------------------------------------------
  // Entry points.

  /** `ensure(value, pattern, strict)` returns `true` when `checkType` returns
      and throws what `checkType` throws; `Ok` stands for the returned `true`. */
  function Ensure(v: Value, p: Pattern, strict: bool): Outcome {
    CheckType(v, p, strict)
  }

  /** `matches(value, pattern, strict)`: every thrown error becomes `false`. */
  predicate Matches(v: Value, p: Pattern, strict: bool) {
    Ensure(v, p, strict).Ok?
  }
}
