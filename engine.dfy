/** The engine of lib/simplecheck.js step by step, as the source runs it:
    `checkType` reassigns its local `valid` across the branches, `checkArray`
    walks the elements, `checkObject` runs its two `for..in` loops and the
    closure of `oneOf` tries the alternatives in an indexed loop. A thrown
    error is an early `return` of a non-`Ok` outcome; a `catch` is a test of
    the outcome of the call it guards.

    Every method is proved to compute the outcome that module Matcher
    defines. */
module Engine {
  import opened JsValues
  import opened Patterns
  import Matcher

  function FromBool(b: bool): Verdict {
    if b then Truthy else Falsy
  }

  /** `checkType(value, pattern, strict)`. */
  method CheckType(v: Value, p: Pattern, strict: bool) returns (o: Outcome)
    ensures o == Matcher.CheckType(v, p, strict)
    decreases p, 4
  {
    var valid := Truthy;
    var typeMap := Matcher.ScalarTypeMap(p);
    if typeMap.Some? {
      if TypeOf(v) != typeMap.value {
        return MatchErr(NotScalarType(p.kind));
      }
    } else if IsFunctionPattern(p) {
      var r := Call(p, v);
      match r {
        case ThrewMatch(reason) =>
          return MatchErr(reason);
        case ThrewOther =>
          if Matcher.ClassMatchThrows(v, p) {
            return OtherErr;
          }
          valid := FromBool(Matcher.ValidateClassPattern(v, p));
        case Returned(verdict) =>
          valid := verdict;
      }
      if valid == ReturnedUndefined {
        if Matcher.ClassMatchThrows(v, p) {
          return OtherErr;
        }
        valid := FromBool(Matcher.ValidateClassPattern(v, p));
      }
    } else if p.ArrPat? {
      o := CheckArray(v, p.elems);
      if !o.Ok? {
        return o;
      }
    } else if p.Regex? {
      if !p.test(v) {
        return MatchErr(RegexMismatch(p.source));
      }
    } else if p.ObjPat? {
      o := CheckObject(v, p, strict);
      if !o.Ok? {
        return o;
      }
    } else if p.NativeCtor? {
      if v == Fn(NativeName(p.native)) {
        return Ok;
      } else if !Matcher.InstanceOfNative(v, p.native) {
        return MatchErr(NotInstance(p.native));
      }
    } else {
      if StrictEqualsPrim(v, p.lit) {
        return Ok;
      }
      // `value instanceof pattern` with a primitive on the right throws.
      return OtherErr;
    }
    if valid != Truthy {
      return MatchErr(InvalidMatch);
    }
    return Ok;
  }

  /** Calling a non-native function pattern. */
  method Call(p: Pattern, v: Value) returns (r: CallResult)
    requires IsFunctionPattern(p)
    ensures r == Matcher.Call(p, v)
    decreases p, 3
  {
    match p {
      case ClassPat(_) =>
        r := ThrewOther;
      case UserFn(_, _, run) =>
        r := run(v);
      case Optional(inner) =>
        r := OptionalCall(inner, v);
      case Anything =>
        r := Returned(Truthy);
      case OneOf(alts) =>
        r := OneOfCall(alts, v);
      case IntegerPat =>
        r := Matcher.IntegerCall(v);
    }
  }

  /** The closure `optional(inner)` returns. */
  method OptionalCall(inner: Pattern, v: Value) returns (r: CallResult)
    ensures r == Matcher.OptionalCall(inner, v)
    decreases inner, 5
  {
    if v.Undefined? || v.Null? {
      return Returned(Truthy);
    }
    var o := CheckType(v, inner, true);
    match o {
      case Ok => r := Returned(Truthy);
      case MatchErr(reason) => r := ThrewMatch(reason);
      case OtherErr => r := ThrewOther;
    }
  }

  /** The closure `oneOf(alts...)` returns: try each alternative in turn,
      swallowing whatever it throws. */
  method OneOfCall(alts: seq<Pattern>, v: Value) returns (r: CallResult)
    ensures r == Matcher.OneOfCall(alts, v)
    decreases alts, 5
  {
    var i := 0;
    while i < |alts|
      invariant 0 <= i <= |alts|
      invariant forall j | 0 <= j < i :: !Matcher.CheckType(v, alts[j], true).Ok?
    {
      var o := CheckType(v, alts[i], true);
      if o.Ok? {
        return Returned(Truthy);
      }
      i := i + 1;
    }
    if Matcher.AnyNameThrows(alts) {
      return ThrewOther;
    }
    return ThrewMatch(NoAlternative);
  }

  /** `checkArray(value, pattern[0])`. */
  method CheckArray(v: Value, elems: seq<Pattern>) returns (o: Outcome)
    ensures o == Matcher.CheckArray(v, elems)
    decreases elems, 5
  {
    if !v.Arr? {
      return MatchErr(NotAnArray);
    }
    var xs := v.elems;
    var i := 0;
    while i < |xs|
      invariant 0 <= i <= |xs|
      invariant Matcher.CheckElements(xs, elems) == Matcher.CheckElements(xs[i..], elems)
    {
      assert xs[i..][1..] == xs[i + 1..];
      o := CheckItem(xs[i], elems);
      if !o.Ok? {
        return o;
      }
      i := i + 1;
    }
    return Ok;
  }

  /** One element against `pattern[0]`. */
  method CheckItem(x: Value, elems: seq<Pattern>) returns (o: Outcome)
    ensures o == Matcher.CheckItem(x, elems)
    decreases elems, 3
  {
    if |elems| == 0 {
      o := Matcher.CheckLiteral(x, PUndefined);
    } else {
      o := CheckType(x, elems[0], true);
    }
  }

  /** `checkObject(value, pattern, strict)`. */
  method CheckObject(v: Value, p: Pattern, strict: bool) returns (o: Outcome)
    requires p.ObjPat?
    ensures o == Matcher.CheckObject(v, p, strict)
    decreases p, 3
  {
    if TypeOf(v) != TObject {
      return MatchErr(NotAnObject);
    }
    var i := 0;
    while i < |p.fields|
      invariant 0 <= i <= |p.fields|
      invariant Matcher.CheckFields(v, p, 0) == Matcher.CheckFields(v, p, i)
    {
      var k := p.fields[i].0;
      var inner: Outcome;
      var lookup := Get(v, k);
      if lookup.LookupThrows? {
        inner := OtherErr;
      } else {
        inner := CheckType(lookup.value, p.fields[i].1, true);
      }
      if !inner.Ok? {
        return Matcher.KeyFailure(k, inner);
      }
      i := i + 1;
    }
    if strict {
      if v.Null? {
        // `null.constructor` throws.
        return OtherErr;
      }
      if ConstructorName(v) != p.ctor {
        return MatchErr(ClassMismatch(ConstructorName(v), p.ctor));
      }
      var keys := EnumerableKeys(v);
      var j := 0;
      while j < |keys|
        invariant 0 <= j <= |keys|
        invariant Matcher.FirstUndeclared(keys, p.fields) == Matcher.FirstUndeclared(keys[j..], p.fields)
      {
        assert keys[j..][1..] == keys[j + 1..];
        if !Matcher.Declared(p.fields, keys[j]) {
          return MatchErr(UnknownKey(keys[j]));
        }
        j := j + 1;
      }
    }
    return Ok;
  }

  /** `ensure(value, pattern, strict)`: `Ok` is the returned `true`. */
  method Ensure(v: Value, p: Pattern, strict: bool) returns (o: Outcome)
    ensures o == Matcher.Ensure(v, p, strict)
  {
    o := CheckType(v, p, strict);
  }

  /** `matches(value, pattern, strict)`. */
  method Matches(v: Value, p: Pattern, strict: bool) returns (b: bool)
    ensures b == Matcher.Matches(v, p, strict)
  {
    var o := Ensure(v, p, strict);
    b := o.Ok?;
  }
}
