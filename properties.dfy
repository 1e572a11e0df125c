/** What the outcomes of the matcher in lib/simplecheck.js mean, for every
    value and pattern. */
module MatcherProperties {
  import opened JsValues
  import opened Patterns
  import opened Matcher

  // ---------------------------------------------------------------------------
  // Scalar descriptors.

  /** `String`, `Number` and `Boolean` accept exactly the values of their
      primitive type; anything else gets "Expected ... to be a ...". */
  lemma ScalarPatternIff(v: Value, k: ScalarKind, strict: bool)
    ensures Matches(v, Scalar(StringKind), strict) <==> v.Str?
    ensures Matches(v, Scalar(NumberKind), strict) <==> v.Num?
    ensures Matches(v, Scalar(BooleanKind), strict) <==> v.Bool?
    ensures !Matches(v, Scalar(k), strict) ==> CheckType(v, Scalar(k), strict) == MatchErr(NotScalarType(k))
  {
  }

  // ---------------------------------------------------------------------------
  // Non-native function patterns.

  /** A MatchError thrown by a function pattern propagates unchanged. */
  lemma FunctionMatchErrorPropagates(v: Value, p: Pattern, strict: bool, reason: Reason)
    requires IsFunctionPattern(p) && Call(p, v) == ThrewMatch(reason)
    ensures CheckType(v, p, strict) == MatchErr(reason)
  {
  }

  /** Any other error, or an `undefined` result, switches to class matching.
      Class matching itself throws a TypeError for an object value when the
      pattern has no `prototype`; otherwise its answer decides. */
  lemma FunctionFallsBackToClassMatching(v: Value, p: Pattern, strict: bool)
    requires IsFunctionPattern(p)
    requires Call(p, v).ThrewOther? || Call(p, v) == Returned(ReturnedUndefined)
    ensures ClassMatchThrows(v, p) ==> CheckType(v, p, strict) == OtherErr
    ensures Matches(v, p, strict) <==> !ClassMatchThrows(v, p) && ValidateClassPattern(v, p)
    ensures !Matches(v, p, strict) && !ClassMatchThrows(v, p) ==> CheckType(v, p, strict) == MatchErr(InvalidMatch)
  {
  }

  /** A user function without a `prototype` (an arrow function or a method)
      that returns undefined or throws a plain error makes `checkType` throw a
      TypeError for every array or object value. */
  lemma PrototypeLessFunctionThrows(v: Value, name: string, run: Value -> CallResult, strict: bool)
    requires v.Arr? || v.Obj?
    requires run(v).ThrewOther? || run(v) == Returned(ReturnedUndefined)
    ensures CheckType(v, UserFn(name, false, run), strict) == OtherErr
  {
    FunctionFallsBackToClassMatching(v, UserFn(name, false, run), strict);
  }

  /** A falsy result never passes: it becomes "Invalid match". */
  lemma FalsyVerdictIsInvalidMatch(v: Value, p: Pattern, strict: bool)
    requires IsFunctionPattern(p) && Call(p, v) == Returned(Falsy)
    ensures CheckType(v, p, strict) == MatchErr(InvalidMatch)
  {
  }

  /** A class pattern: undefined and null never match; an object matches when
      the class is on its prototype chain (so a subclass instance matches its
      superclass); a class value matches only a class of the same name. */
  lemma ClassPatternIff(v: Value, name: string, strict: bool)
    ensures Matches(v, ClassPat(name), strict) <==> InstanceOfName(v, name) || v == Fn(name)
    ensures v.Undefined? || v.Null? ==> CheckType(v, ClassPat(name), strict) == MatchErr(InvalidMatch)
    ensures !Matches(v, ClassPat(name), strict) ==> CheckType(v, ClassPat(name), strict) == MatchErr(InvalidMatch)
  {
    assert CheckType(v, ClassPat(name), strict) == ClassVerdict(v, ClassPat(name));
  }

  /** A subclass instance matches its superclass; the subclass itself, used as
      a value, does not. */
  lemma SubclassAsymmetry(child: string, parent: string, fields: seq<(string, Value)>, strict: bool)
    requires child != parent
    ensures Matches(Obj(child, [parent], fields), ClassPat(parent), strict)
    ensures !Matches(Fn(child), ClassPat(parent), strict)
  {
    ClassPatternIff(Obj(child, [parent], fields), parent, strict);
    ClassPatternIff(Fn(child), parent, strict);
  }

  // ---------------------------------------------------------------------------
  // The fallback branch.

  /** A native constructor accepts itself and its instances: every object,
      array and function is an instance of `Object`. */
  lemma NativeCtorIff(v: Value, c: Native, strict: bool)
    ensures Matches(v, NativeCtor(c), strict) <==> v == Fn(NativeName(c)) || InstanceOfNative(v, c)
    ensures !Matches(v, NativeCtor(c), strict) ==> CheckType(v, NativeCtor(c), strict) == MatchErr(NotInstance(c))
    ensures Matches(v, NativeCtor(ObjectCtor), strict) <==> v.Arr? || v.Obj? || v.Fn?
  {
  }

  /** A primitive literal accepts only values `===` to it (never NaN); any
      other value makes `instanceof` throw a non-MatchError. */
  lemma LiteralIff(v: Value, lit: Prim, strict: bool)
    ensures Matches(v, Literal(lit), strict) <==> v == FromPrim(lit) && !(lit.PNum? && lit.n.NaN?)
    ensures !Matches(v, Literal(lit), strict) ==> CheckType(v, Literal(lit), strict) == OtherErr
  {
  }

  /** A regular expression passes exactly the values its `test` accepts;
      the others get "Expected ... to match pattern ...". */
  lemma RegexPatternIff(v: Value, source: string, test: Value -> bool, strict: bool)
    ensures Matches(v, Regex(source, test), strict) <==> test(v)
    ensures !test(v) ==> CheckType(v, Regex(source, test), strict) == MatchErr(RegexMismatch(source))
  {
  }

  /** `matches` is `false` for every thrown error, whatever its kind, and
      `ensure` returns exactly when `matches` is `true`. */
  lemma EntryPoints(v: Value, p: Pattern, strict: bool)
    ensures Matches(v, p, strict) <==> Ensure(v, p, strict) == Ok
    ensures CheckType(v, p, strict).OtherErr? ==> !Matches(v, p, strict)
    ensures CheckType(v, p, strict).MatchErr? ==> !Matches(v, p, strict)
  {
  }

  // ---------------------------------------------------------------------------
  // Array patterns.

  /** The element loop passes exactly when every element passes. */
  lemma {:induction false} ElementsIff(xs: seq<Value>, elems: seq<Pattern>)
    ensures CheckElements(xs, elems).Ok? <==> forall i | 0 <= i < |xs| :: CheckItem(xs[i], elems).Ok?
  {
    if xs != [] {
      ElementsIff(xs[1..], elems);
      assert forall i | 1 <= i < |xs| :: xs[i] == xs[1..][i - 1];
    }
  }

  /** The first failing element's outcome is the loop's, unwrapped. */
  lemma {:induction false} FirstFailingElement(xs: seq<Value>, elems: seq<Pattern>, i: nat)
    requires i < |xs| && !CheckItem(xs[i], elems).Ok?
    requires forall j | 0 <= j < i :: CheckItem(xs[j], elems).Ok?
    ensures CheckElements(xs, elems) == CheckItem(xs[i], elems)
  {
    if i > 0 {
      FirstFailingElement(xs[1..], elems, i - 1);
    }
  }

  /** An array pattern `[q, ...]` consults only `q`: a non-array fails with
      "Expected ... to be an array", an array passes exactly when every element
      matches `q` (strictly), and the first failing element's outcome is
      propagated unwrapped. */
  lemma ArrayPatternIff(v: Value, q: Pattern, rest: seq<Pattern>, strict: bool)
    ensures !v.Arr? ==> CheckType(v, ArrPat([q] + rest), strict) == MatchErr(NotAnArray)
    ensures Matches(v, ArrPat([q] + rest), strict) <==>
      v.Arr? && forall i | 0 <= i < |v.elems| :: Matches(v.elems[i], q, true)
    ensures CheckType(v, ArrPat([q] + rest), strict) == CheckType(v, ArrPat([q]), strict)
  {
    assert CheckType(v, ArrPat([q] + rest), strict) == CheckArray(v, [q] + rest);
    assert CheckType(v, ArrPat([q]), strict) == CheckArray(v, [q]);
    if v.Arr? {
      assert forall x :: CheckItem(x, [q] + rest) == CheckType(x, q, true) by {
        assert ([q] + rest)[0] == q;
      }
      ElementsIff(v.elems, [q] + rest);
      ElementsIff(v.elems, [q]);
      ElementsAgree(v.elems, [q] + rest, [q]);
    }
  }

  lemma {:induction false} ElementsAgree(xs: seq<Value>, e1: seq<Pattern>, e2: seq<Pattern>)
    requires |e1| > 0 && |e2| > 0 && e1[0] == e2[0]
    ensures CheckElements(xs, e1) == CheckElements(xs, e2)
  {
    if xs != [] {
      ElementsAgree(xs[1..], e1, e2);
    }
  }

  /** The first failing element decides the outcome of the whole pattern. */
  lemma ArrayFirstFailure(xs: seq<Value>, q: Pattern, rest: seq<Pattern>, strict: bool, i: nat)
    requires i < |xs| && !Matches(xs[i], q, true)
    requires forall j | 0 <= j < i :: Matches(xs[j], q, true)
    ensures CheckType(Arr(xs), ArrPat([q] + rest), strict) == CheckType(xs[i], q, true)
  {
    FirstFailingElement(xs, [q] + rest, i);
  }

  /** An empty array passes every array pattern. */
  lemma EmptyArrayPasses(elems: seq<Pattern>, strict: bool)
    ensures Matches(Arr([]), ArrPat(elems), strict)
  {
    assert CheckType(Arr([]), ArrPat(elems), strict) == CheckElements([], elems);
  }

  /** The empty array pattern `[]` checks each element against `undefined`. */
  lemma EmptyArrayPatternIff(v: Value, strict: bool)
    ensures Matches(v, ArrPat([]), strict) <==>
      v.Arr? && forall i | 0 <= i < |v.elems| :: v.elems[i].Undefined?
  {
    if v.Arr? {
      ElementsIff(v.elems, []);
    }
  }

  // ---------------------------------------------------------------------------
  // Object patterns.

  /** The object branch first demands `typeof value === 'object'`, which null
      and arrays also pass. */
  lemma ObjectPatternNeedsObject(v: Value, ctor: string, fields: seq<(string, Pattern)>, strict: bool)
    ensures TypeOf(v) != TObject ==> CheckType(v, ObjPat(ctor, fields), strict) == MatchErr(NotAnObject)
  {
  }

  /** The field loop from key `i` on passes exactly when every field does. */
  lemma {:induction false} FieldsIff(v: Value, p: Pattern, i: nat)
    requires p.ObjPat? && TypeOf(v) == TObject && i <= |p.fields|
    ensures CheckFields(v, p, i).Ok? ==> forall j | i <= j < |p.fields| :: FieldOutcome(v, p, j).Ok?
    ensures (forall j | i <= j < |p.fields| :: FieldOutcome(v, p, j).Ok?) ==> CheckFields(v, p, i).Ok?
    decreases |p.fields| - i
  {
    if i < |p.fields| {
      FieldsIff(v, p, i + 1);
      if FieldOutcome(v, p, i).Ok? {
        assert CheckFields(v, p, i) == CheckFields(v, p, i + 1);
      } else {
        assert !CheckFields(v, p, i).Ok?;
      }
    }
  }

  /** The first failing key stops the loop, and its error of either kind is
      rethrown as a MatchError prefixed with that key. */
  lemma {:induction false} FirstFailingField(v: Value, p: Pattern, i: nat, from: nat)
    requires p.ObjPat? && TypeOf(v) == TObject && from <= i < |p.fields|
    requires !FieldOutcome(v, p, i).Ok?
    requires forall j | from <= j < i :: FieldOutcome(v, p, j).Ok?
    ensures CheckFields(v, p, from) == KeyFailure(p.fields[i].0, FieldOutcome(v, p, i))
    ensures CheckFields(v, p, from).MatchErr? && CheckFields(v, p, from).reason.KeyFailed?
    decreases i - from
  {
    if from < i {
      FirstFailingField(v, p, i, from + 1);
    }
  }

  /** A key the object lacks is checked as `undefined`. */
  lemma AbsentKeyIsUndefined(v: Value, p: Pattern, i: nat)
    requires p.ObjPat? && v.Obj? && i < |p.fields|
    requires forall j | 0 <= j < |v.fields| :: v.fields[j].0 != p.fields[i].0
    ensures FieldOutcome(v, p, i) == CheckType(Undefined, p.fields[i].1, true)
  {
  }

  /** With `strict` false only the type test and the field checks remain. */
  lemma NonStrictObjectIff(v: Value, p: Pattern)
    requires p.ObjPat?
    ensures Matches(v, p, false) <==> TypeOf(v) == TObject && AllFieldsPass(v, p)
  {
    assert CheckType(v, p, false) == CheckObject(v, p, false);
    if TypeOf(v) == TObject {
      FieldsIff(v, p, 0);
    }
  }

  /** Every field check of the pattern passes. */
  ghost predicate AllFieldsPass(v: Value, p: Pattern)
    requires p.ObjPat? && TypeOf(v) == TObject
  {
    forall j | 0 <= j < |p.fields| :: FieldOutcome(v, p, j).Ok?
  }

  /** Every key `for..in` visits on the value has a truthy pattern entry. */
  ghost predicate AllKeysDeclared(v: Value, p: Pattern)
    requires p.ObjPat? && (v.Arr? || v.Obj?)
  {
    forall j | 0 <= j < |EnumerableKeys(v)| :: Declared(p.fields, EnumerableKeys(v)[j])
  }

  /** The second loop finds nothing exactly when every key is declared, and
      what it finds is an undeclared key of the value. */
  lemma {:induction false} FirstUndeclaredIff(keys: seq<string>, fields: seq<(string, Pattern)>)
    ensures FirstUndeclared(keys, fields).None? <==> forall i | 0 <= i < |keys| :: Declared(fields, keys[i])
    ensures FirstUndeclared(keys, fields).Some? ==>
      FirstUndeclared(keys, fields).value in keys && !Declared(fields, FirstUndeclared(keys, fields).value)
  {
    if keys != [] {
      FirstUndeclaredIff(keys[1..], fields);
      assert forall i | 1 <= i < |keys| :: keys[i] == keys[1..][i - 1];
    }
  }

  /** The second loop reports the first undeclared key. */
  lemma {:induction false} FirstUndeclaredAt(keys: seq<string>, fields: seq<(string, Pattern)>, j: nat)
    requires j < |keys| && !Declared(fields, keys[j])
    requires forall i | 0 <= i < j :: Declared(fields, keys[i])
    ensures FirstUndeclared(keys, fields) == Some(keys[j])
    decreases j
  {
    if j > 0 {
      assert forall i | 0 <= i < j - 1 :: keys[1..][i] == keys[i + 1];
      FirstUndeclaredAt(keys[1..], fields, j - 1);
    }
  }

  /** A failing field loop always fails with a MatchError carrying a key
      prefix, whatever kind of error the field raised. */
  lemma {:induction false} FailingFieldsAreKeyed(v: Value, p: Pattern, i: nat)
    requires p.ObjPat? && TypeOf(v) == TObject && i <= |p.fields|
    ensures !CheckFields(v, p, i).Ok? ==> CheckFields(v, p, i).MatchErr? && CheckFields(v, p, i).reason.KeyFailed?
    decreases |p.fields| - i
  {
    if i < |p.fields| && FieldOutcome(v, p, i).Ok? {
      FailingFieldsAreKeyed(v, p, i + 1);
    }
  }

  /** Strict matching against an object pattern: the value is an array or a
      non-null object, the fields pass, the constructor names are equal, and
      every key of the value has a truthy pattern entry. */
  lemma StrictObjectIff(v: Value, p: Pattern)
    requires p.ObjPat?
    ensures Matches(v, p, true) <==>
      (v.Arr? || v.Obj?) && AllFieldsPass(v, p) && ConstructorName(v) == p.ctor && AllKeysDeclared(v, p)
  {
    assert CheckType(v, p, true) == CheckObject(v, p, true);
    if v.Arr? || v.Obj? {
      FieldsIff(v, p, 0);
      FirstUndeclaredIff(EnumerableKeys(v), p.fields);
    }
  }

  /** Why a strict object match fails, in the order the source checks:
      a field's error (wrapped with its key) comes first, for either value of
      `strict`; then `null.constructor` throws a TypeError; then differing
      constructor names; then the first undeclared key. */
  lemma StrictObjectFailures(v: Value, p: Pattern, strict: bool)
    requires p.ObjPat? && TypeOf(v) == TObject
    ensures !AllFieldsPass(v, p) ==>
      CheckType(v, p, strict) == CheckFields(v, p, 0) &&
      CheckType(v, p, strict).MatchErr? && CheckType(v, p, strict).reason.KeyFailed?
    ensures AllFieldsPass(v, p) && v.Null? ==> CheckType(v, p, true) == OtherErr
    ensures AllFieldsPass(v, p) && !v.Null? && ConstructorName(v) != p.ctor ==>
      CheckType(v, p, true) == MatchErr(ClassMismatch(ConstructorName(v), p.ctor))
    ensures AllFieldsPass(v, p) && !v.Null? && ConstructorName(v) == p.ctor && !AllKeysDeclared(v, p) ==>
      CheckType(v, p, true).MatchErr? && CheckType(v, p, true).reason.UnknownKey? &&
      CheckType(v, p, true).reason.key in EnumerableKeys(v) &&
      !Declared(p.fields, CheckType(v, p, true).reason.key)
  {
    assert CheckType(v, p, strict) == CheckObject(v, p, strict);
    assert CheckType(v, p, true) == CheckObject(v, p, true);
    FieldsIff(v, p, 0);
    FailingFieldsAreKeyed(v, p, 0);
    if !v.Null? {
      FirstUndeclaredIff(EnumerableKeys(v), p.fields);
    }
  }

  /** The key reported as unknown is the first undeclared one in
      enumeration order. */
  lemma StrictFirstUnknownKey(v: Value, p: Pattern, j: nat)
    requires p.ObjPat? && (v.Arr? || v.Obj?)
    requires AllFieldsPass(v, p) && ConstructorName(v) == p.ctor
    requires j < |EnumerableKeys(v)| && !Declared(p.fields, EnumerableKeys(v)[j])
    requires forall i | 0 <= i < j :: Declared(p.fields, EnumerableKeys(v)[i])
    ensures CheckType(v, p, true) == MatchErr(UnknownKey(EnumerableKeys(v)[j]))
  {
    assert CheckType(v, p, true) == CheckObject(v, p, true);
    FieldsIff(v, p, 0);
    FirstUndeclaredAt(EnumerableKeys(v), p.fields, j);
  }

  /** `null` passes the `typeof` test of an object pattern; then `null[k]`
      throws for the first key, which the key prefix wraps, and with no keys
      strict mode reaches `null.constructor`, which throws a TypeError. */
  lemma NullAgainstObjectPattern(p: Pattern, strict: bool)
    requires p.ObjPat?
    ensures |p.fields| == 0 ==> CheckType(Null, p, strict) == (if strict then OtherErr else Ok)
    ensures |p.fields| > 0 ==> CheckType(Null, p, strict) == MatchErr(KeyFailed(p.fields[0].0, ForeignError))
  {
    assert CheckType(Null, p, strict) == CheckObject(Null, p, strict);
    if |p.fields| > 0 {
      assert FieldOutcome(Null, p, 0) == OtherErr;
      assert CheckFields(Null, p, 0) == KeyFailure(p.fields[0].0, OtherErr);
    } else {
      assert CheckFields(Null, p, 0) == Ok;
      assert StrictClosure(Null, p) == OtherErr;
    }
  }

  /** An array passes the `typeof` test too, but strictly its constructor is
      `Array`, so it fails any object pattern of another class. */
  lemma ArrayAgainstObjectPattern(xs: seq<Value>, p: Pattern)
    requires p.ObjPat? && p.ctor != "Array"
    ensures !Matches(Arr(xs), p, true)
    ensures AllFieldsPass(Arr(xs), p) ==> CheckType(Arr(xs), p, true) == MatchErr(ClassMismatch("Array", p.ctor))
  {
    StrictObjectIff(Arr(xs), p);
    StrictObjectFailures(Arr(xs), p, true);
  }

  /** A key whose pattern entry is a falsy literal makes strict matching fail;
      once the fields pass and the constructor names agree, the failure is an
      unknown key. */
  lemma FalsyEntryIsUnknown(v: Value, p: Pattern, j: nat)
    requires p.ObjPat? && v.Obj? && j < |v.fields|
    requires PatternEntry(p.fields, v.fields[j].0).Some?
    requires PatternEntry(p.fields, v.fields[j].0).value.Literal?
    requires !PrimTruthy(PatternEntry(p.fields, v.fields[j].0).value.lit)
    ensures !Matches(v, p, true)
    ensures AllFieldsPass(v, p) && v.ctor == p.ctor ==>
      CheckType(v, p, true).MatchErr? && CheckType(v, p, true).reason.UnknownKey?
  {
    assert EnumerableKeys(v)[j] == v.fields[j].0;
    StrictObjectIff(v, p);
    StrictObjectFailures(v, p, true);
  }

  /** Strict matching implies non-strict matching. */
  lemma StrictImpliesNonStrict(v: Value, p: Pattern)
    ensures Matches(v, p, true) ==> Matches(v, p, false)
  {
    if p.ObjPat? {
      assert CheckType(v, p, true) == CheckObject(v, p, true);
      assert CheckType(v, p, false) == CheckObject(v, p, false);
    } else {
      StrictOnlyAtTop(v, p);
    }
  }

  /** The strict flag matters only for an object pattern at the top: every
      other branch ignores it, and field checks, array elements and the
      combinators check strictly whatever the caller asked for. */
  lemma StrictOnlyAtTop(v: Value, p: Pattern)
    requires !p.ObjPat?
    ensures CheckType(v, p, true) == CheckType(v, p, false)
  {
  }

  /** A non-strict call still rejects an undeclared key one level down. */
  lemma NestedFieldsStayStrict(k: string, inner: Value, q: Pattern)
    requires q.ObjPat? && !Matches(inner, q, true)
    ensures !Matches(Obj("Object", [], [(k, inner)]), ObjPat("Object", [(k, q)]), false)
  {
    var v := Obj("Object", [], [(k, inner)]);
    var p := ObjPat("Object", [(k, q)]);
    assert FieldOutcome(v, p, 0) == CheckType(inner, q, true);
    NonStrictObjectIff(v, p);
  }

  // ---------------------------------------------------------------------------
  // Combinators.

  /** `optional(P)` accepts undefined and null whatever `P` is. */
  lemma OptionalAcceptsNullish(inner: Pattern, strict: bool)
    ensures Matches(Undefined, Optional(inner), strict)
    ensures Matches(Null, Optional(inner), strict)
  {
    assert Call(Optional(inner), Undefined) == Returned(Truthy);
    assert Call(Optional(inner), Null) == Returned(Truthy);
  }

  /** Any other value is re-checked strictly against `P`; a MatchError from
      `P` propagates unchanged. A non-MatchError from `P` turns into class
      matching against the anonymous closure, which only an anonymous function
      value passes. */
  lemma OptionalOtherwise(v: Value, inner: Pattern, strict: bool)
    requires !v.Undefined? && !v.Null?
    ensures Matches(v, Optional(inner), strict) <==>
      Matches(v, inner, true) || (CheckType(v, inner, true).OtherErr? && v == Fn(""))
    ensures CheckType(v, inner, true).MatchErr? ==>
      CheckType(v, Optional(inner), strict) == CheckType(v, inner, true)
  {
    assert Call(Optional(inner), v) == OptionalCall(inner, v);
  }

  /** `anything` accepts every value. */
  lemma AnythingAcceptsAll(v: Value, strict: bool)
    ensures Matches(v, Anything, strict)
  {
  }

  /** `oneOf(alts...)` passes when some alternative passes (strictly). When
      none does, it throws "Expected ... to be one of ...", unless rendering
      the alternatives' names throws, which again leads to class matching
      against the anonymous closure. */
  lemma OneOfIff(v: Value, alts: seq<Pattern>, strict: bool)
    ensures Matches(v, OneOf(alts), strict) <==>
      (exists i | 0 <= i < |alts| :: Matches(v, alts[i], true)) || (AnyNameThrows(alts) && v == Fn(""))
    ensures !AnyNameThrows(alts) && !Matches(v, OneOf(alts), strict) ==>
      CheckType(v, OneOf(alts), strict) == MatchErr(NoAlternative)
    ensures AnyNameThrows(alts) && !Matches(v, OneOf(alts), strict) ==>
      CheckType(v, OneOf(alts), strict) == MatchErr(InvalidMatch)
  {
    assert Call(OneOf(alts), v) == OneOfCall(alts, v);
    assert forall i | 0 <= i < |alts| :: Matches(v, alts[i], true) == CheckType(v, alts[i], true).Ok?;
  }

  /** With no alternatives `oneOf()` rejects everything. */
  lemma OneOfNoAlternatives(v: Value, strict: bool)
    ensures CheckType(v, OneOf([]), strict) == MatchErr(NoAlternative)
  {
  }

  /** `oneOf(P1, P2)` is the disjunction of `P1` and `P2` when their names
      render. */
  lemma OneOfOfTwo(v: Value, p1: Pattern, p2: Pattern, strict: bool)
    requires !NameThrows(p1) && !NameThrows(p2)
    ensures Matches(v, OneOf([p1, p2]), strict) <==> Matches(v, p1, true) || Matches(v, p2, true)
  {
    OneOfIff(v, [p1, p2], strict);
    if Matches(v, p1, true) {
      assert [p1, p2][0] == p1;
    }
    if Matches(v, p2, true) {
      assert [p1, p2][1] == p2;
    }
  }

  /** `Integer` accepts exactly the numbers that are integers of the signed
      32-bit range. undefined and null make it throw a TypeError, which class
      matching turns into "Invalid match"; other non-numbers, arrays without
      `undefined` inside and functions get "Expected Integer". */
  lemma IntegerPatternIff(v: Value, strict: bool)
    ensures Matches(v, IntegerPat, strict) <==>
      v.Num? && v.n.Finite? && IsIntegral(v.n.r) && -TwoTo31 as real <= v.n.r < TwoTo31 as real
    ensures v.Undefined? || v.Null? ==> CheckType(v, IntegerPat, strict) == MatchErr(InvalidMatch)
    ensures v.Arr? && ArrayNamesThrow(v.elems) ==> CheckType(v, IntegerPat, strict) == MatchErr(InvalidMatch)
    ensures !Matches(v, IntegerPat, strict) && !v.Undefined? && !v.Null? && !(v.Arr? && ArrayNamesThrow(v.elems)) ==>
      CheckType(v, IntegerPat, strict) == MatchErr(NotAnInteger)
  {
    if v.Num? {
      Int32TestIff(v.n);
    }
  }

  // ---------------------------------------------------------------------------
  // Where the engine's behaviour departs from the documented promises.

  /** An anonymous function value matches `optional(null)`: `null` does not
      match it (the literal branch throws a TypeError), and class matching
      against the anonymous closure compares two empty names. */
  lemma AnonymousFunctionMatchesOptionalNull()
    ensures !Matches(Fn(""), Literal(PNull), true)
    ensures Matches(Fn(""), Optional(Literal(PNull)), true)
  {
  }

  /** `oneOf` can pass with no passing alternative: with `undefined` among the
      alternatives, `typesInArray` throws while the message is built. */
  lemma OneOfWithoutPassingAlternative()
    ensures !Matches(Fn(""), Literal(PUndefined), true)
    ensures !Matches(Fn(""), Literal(PStr("x")), true)
    ensures Matches(Fn(""), OneOf([Literal(PUndefined), Literal(PStr("x"))]), true)
  {
    assert NameThrows([Literal(PUndefined), Literal(PStr("x"))][0]);
  }
}
