/** Patterns, failure reasons and outcomes of lib/simplecheck.js.

    A JavaScript pattern is any value; the engine tells the kinds apart with
    `switch`, `instanceof` and membership in its list of native constructors.
    Here every kind the engine distinguishes is a constructor of its own. */
module Patterns {
  import opened JsValues

  datatype Option<+T> = None | Some(value: T)

  /** The three scalar descriptors `String`, `Boolean` and `Number`. */
  datatype ScalarKind = StringKind | BooleanKind | NumberKind

  /** The other native constructors the engine lists (`Date`, `RegExp`,
      `Object`, `Array`, `Function`); used as patterns they reach the final
      `===` / `instanceof` branch. */
  datatype Native = DateCtor | RegExpCtor | ObjectCtor | ArrayCtor | FunctionCtor

  /** What calling a non-native function pattern did: returned a truthy value,
      returned a falsy value other than `undefined`, returned `undefined`,
      threw a MatchError, or threw some other error. */
  datatype Verdict = Truthy | Falsy | ReturnedUndefined
  datatype CallResult = Returned(verdict: Verdict) | ThrewMatch(reason: Reason) | ThrewOther

  /** A pattern.
      - `Scalar`: `String`, `Boolean` or `Number`.
      - `NativeCtor`: `Date`, `RegExp`, `Object`, `Array` or `Function`.
      - `ClassPat(name)`: a class; calling it without `new` throws a TypeError.
      - `UserFn(name, hasPrototype, run)`: any other user function; what
        calling it does is given by `run`, which stays uninterpreted.
        `hasPrototype` is false for arrow functions and methods, which have
        no `prototype` object for `instanceof` to consult.
      - `Optional`, `Anything`, `OneOf`, `IntegerPat`: the library's combinators.
      - `ArrPat(elems)`: an array literal; only its first element is used.
      - `Regex(source, test)`: a regular expression; `test` stands for
        `RegExp.prototype.test` applied to the value.
      - `ObjPat(ctor, fields)`: any other object; `ctor` is its constructor's
        name and `fields` its enumerable properties in enumeration order.
      - `Literal(lit)`: a primitive value. */
  datatype Pattern =
    | Scalar(kind: ScalarKind)
    | NativeCtor(native: Native)
    | ClassPat(name: string)
    | UserFn(name: string, hasPrototype: bool, run: Value -> CallResult)
    | Optional(inner: Pattern)
    | Anything
    | OneOf(alts: seq<Pattern>)
    | IntegerPat
    | ArrPat(elems: seq<Pattern>)
    | Regex(source: string, test: Value -> bool)
    | ObjPat(ctor: string, fields: seq<(string, Pattern)>)
    | Literal(lit: Prim)

  /** Why a MatchError was thrown; one constructor per throw site of the engine.
      `KeyFailed` is the "(Key k in ...) - " prefix put in front of the inner
      failure; `ForeignError` stands for the message of a non-MatchError that
      such a prefix wraps. */
  datatype Reason =
    | NotScalarType(kind: ScalarKind)
    | InvalidMatch
    | NotAnArray
    | RegexMismatch(source: string)
    | NotAnObject
    | NotInstance(native: Native)
    | NoAlternative
    | NotAnInteger
    | KeyFailed(key: string, inner: Reason)
    | ForeignError
    | ClassMismatch(valueCtor: string, patternCtor: string)
    | UnknownKey(key: string)
    | UserReason(message: string)

  /** What a call of `checkType` does: return a truthy value, throw a
      MatchError, or throw some other error. */
  datatype Outcome = Ok | MatchErr(reason: Reason) | OtherErr

  /** The `typeof` answer a scalar descriptor demands. */
  function ScalarTag(k: ScalarKind): TypeTag {
    match k
    case StringKind => TString
    case BooleanKind => TBoolean
    case NumberKind => TNumber
  }

  /** The name of a native constructor. */
  function NativeName(c: Native): string {
    match c
    case DateCtor => "Date"
    case RegExpCtor => "RegExp"
    case ObjectCtor => "Object"
    case ArrayCtor => "Array"
    case FunctionCtor => "Function"
  }

  /** `pattern instanceof Function` and not one of the native constructors. */
  predicate IsFunctionPattern(p: Pattern) {
    p.ClassPat? || p.UserFn? || p.Optional? || p.Anything? || p.OneOf? || p.IntegerPat?
  }

  /** The `name` of a function pattern. The closures `optional` and `oneOf`
      return are anonymous function expressions, so their name is empty. */
  function FunctionName(p: Pattern): string
    requires IsFunctionPattern(p)
  {
    match p
    case ClassPat(name) => name
    case UserFn(name, _, _) => name
    case Anything => "anything"
    case IntegerPat => "Integer"
    case _ => ""
  }

  /** JavaScript truthiness of a pattern value: every object and function is
      truthy, a primitive literal as usual. */
  predicate PatternTruthy(p: Pattern) {
    if p.Literal? then PrimTruthy(p.lit) else true
  }
}
