/** The case table of lib/simplecheck_test.js, restated over the model. Each
    lemma covers a group of rows of the table; every row is called with the
    default `strict`, which is true.

    The test file's classes: `MyClass`, `MyChildClass extends MyClass` and
    `MyOtherClass`, each storing its constructor argument in `value`. */
module SimplecheckTests {
  import opened JsValues
  import opened Patterns
  import opened Matcher
  import opened MatcherProperties

  function Instance(cls: string, supers: seq<string>, arg: string): Value {
    Obj(cls, supers, [("value", Str(arg))])
  }

  function PlainObject(fields: seq<(string, Value)>): Value {
    Obj("Object", [], fields)
  }

  function Int(i: int): Value {
    Num(Finite(i as real))
  }

  /** `s` occurs in `t`: what an unanchored regular expression made of plain
      characters tests. */
  predicate Occurs(s: string, t: string)
    decreases |t|
  {
    |s| <= |t| && (t[..|s|] == s || Occurs(s, t[1..]))
  }

  // The regular expressions of the table, described on string inputs only:
  // `RegExp.prototype.test` converts its argument with `String(value)` first,
  // so `/^foo$/` also accepts `['foo']`, which these fixtures reject. Every row
  // of the table passes a string, so the rows are unaffected.
  const FooRegex: Pattern := Regex("^foo$", (v: Value) => v.Str? && v.s == "foo")
  const AsdfRegex: Pattern := Regex("^asdf$", (v: Value) => v.Str? && v.s == "asdf")
  const FoRegex: Pattern := Regex("fo", (v: Value) => v.Str? && Occurs("fo", v.s))
  const BaRegex: Pattern := Regex("ba", (v: Value) => v.Str? && Occurs("ba", v.s))

  const StringP: Pattern := Scalar(StringKind)
  const NumberP: Pattern := Scalar(NumberKind)
  const BooleanP: Pattern := Scalar(BooleanKind)

  /** Lines 26-40: scalar descriptors and native constructors. */
  lemma ScalarAndNativeRows()
    ensures Matches(Str("foo"), StringP, true)
    ensures Matches(Int(10), NumberP, true)
    ensures Matches(Bool(false), BooleanP, true)
    ensures Matches(Arr([Str("foo")]), NativeCtor(ArrayCtor), true)
    ensures Matches(Arr([Str("foo")]), NativeCtor(ObjectCtor), true)
    ensures !Matches(Str("foo"), NumberP, true)
    ensures !Matches(Int(10), StringP, true)
    ensures !Matches(Int(8), BooleanP, true)
    ensures Matches(Fn(""), NativeCtor(FunctionCtor), true)
  {
  }

  /** Lines 41-45: `optional` and `oneOf` over scalars. */
  lemma CombinatorRows()
    ensures Matches(Null, Optional(StringP), true)
    ensures Matches(Str("foo"), Optional(StringP), true)
    ensures !Matches(Int(10), Optional(StringP), true)
    ensures Matches(Int(10), OneOf([StringP, NumberP]), true)
    ensures !Matches(Int(10), OneOf([StringP, BooleanP]), true)
  {
    OptionalAcceptsNullish(StringP, true);
    OptionalOtherwise(Str("foo"), StringP, true);
    OptionalOtherwise(Int(10), StringP, true);
    ScalarPatternIff(Str("foo"), StringKind, true);
    ScalarPatternIff(Int(10), StringKind, true);
    OneOfOfTwo(Int(10), StringP, NumberP, true);
    OneOfOfTwo(Int(10), StringP, BooleanP, true);
  }

  /** Lines 46-53: `Integer` on numbers. */
  lemma IntegerNumberRows()
    ensures Matches(Int(-1), IntegerPat, true)
    ensures Matches(Int(0), IntegerPat, true)
    ensures Matches(Int(1), IntegerPat, true)
    ensures Matches(Int(-2147483648), IntegerPat, true)
    ensures Matches(Int(2147483647), IntegerPat, true)
    ensures !Matches(Num(Finite(123.33)), IntegerPat, true)
    ensures !Matches(Num(Finite(0.33)), IntegerPat, true)
    ensures !Matches(Num(Finite(134819230849182400000000.0)), IntegerPat, true)
  {
    IntegerPatternIff(Int(-1), true);
    IntegerPatternIff(Int(0), true);
    IntegerPatternIff(Int(1), true);
    IntegerPatternIff(Int(-2147483648), true);
    IntegerPatternIff(Int(2147483647), true);
    IntegerPatternIff(Num(Finite(123.33)), true);
    assert (123.33).Floor == 123;
    IntegerPatternIff(Num(Finite(0.33)), true);
    assert (0.33).Floor == 0;
    IntegerPatternIff(Num(Finite(134819230849182400000000.0)), true);
  }

  /** Lines 54-62: `Integer` on non-finite numbers and non-numbers. */
  lemma IntegerOtherRows()
    ensures !Matches(Num(NaN), IntegerPat, true)
    ensures !Matches(Num(PosInf), IntegerPat, true)
    ensures !Matches(Num(NegInf), IntegerPat, true)
    ensures !Matches(Fn("MyClass"), IntegerPat, true)
    ensures !Matches(Instance("MyClass", [], "test"), IntegerPat, true)
    ensures !Matches(PlainObject([]), IntegerPat, true)
    ensures !Matches(Arr([]), IntegerPat, true)
    ensures !Matches(Fn(""), IntegerPat, true)
    ensures !Matches(Obj("Date", [], []), IntegerPat, true)
  {
    IntegerPatternIff(Num(NaN), true);
    IntegerPatternIff(Num(PosInf), true);
    IntegerPatternIff(Num(NegInf), true);
    IntegerPatternIff(Fn("MyClass"), true);
    IntegerPatternIff(Instance("MyClass", [], "test"), true);
    IntegerPatternIff(PlainObject([]), true);
    IntegerPatternIff(Arr([]), true);
    IntegerPatternIff(Fn(""), true);
    IntegerPatternIff(Obj("Date", [], []), true);
  }

  /** Lines 63-71: classes, instances and `undefined`. */
  lemma ClassRows()
    ensures Matches(Instance("MyClass", [], "foo"), ClassPat("MyClass"), true)
    ensures Matches(Instance("MyChildClass", ["MyClass"], "foo"), ClassPat("MyClass"), true)
    ensures !Matches(Instance("MyOtherClass", [], "foo"), ClassPat("MyClass"), true)
    ensures !Matches(Instance("MyChildClass", ["MyClass"], "foo"),
                     ObjPat("MyClass", [("value", Literal(PStr("foo")))]), true)
    ensures Matches(Fn("MyClass"), ClassPat("MyClass"), true)
    ensures !Matches(Fn("MyChildClass"), ClassPat("MyClass"), true)
    ensures !Matches(Fn("MyOtherClass"), ClassPat("MyClass"), true)
    ensures !Matches(Undefined, ClassPat("MyClass"), true)
    ensures Matches(Undefined, Literal(PUndefined), true)
  {
    ClassPatternIff(Instance("MyClass", [], "foo"), "MyClass", true);
    ClassPatternIff(Instance("MyChildClass", ["MyClass"], "foo"), "MyClass", true);
    ClassPatternIff(Instance("MyOtherClass", [], "foo"), "MyClass", true);
    StrictObjectIff(Instance("MyChildClass", ["MyClass"], "foo"), ObjPat("MyClass", [("value", Literal(PStr("foo")))]));
    ClassPatternIff(Fn("MyClass"), "MyClass", true);
    ClassPatternIff(Fn("MyChildClass"), "MyClass", true);
    ClassPatternIff(Fn("MyOtherClass"), "MyClass", true);
    ClassPatternIff(Undefined, "MyClass", true);
    LiteralIff(Undefined, PUndefined, true);
  }

  /** Lines 72-85: a class-valued field, plain and optional. */
  lemma ClassFieldRows()
    ensures Matches(PlainObject([("foo", Instance("MyClass", [], "foo")), ("bar", Str("bar"))]),
                    ObjPat("Object", [("foo", ClassPat("MyClass")), ("bar", StringP)]), true)
    ensures Matches(PlainObject([("foo", Instance("MyClass", [], "foo")), ("bar", Str("bar"))]),
                    ObjPat("Object", [("foo", Optional(ClassPat("MyClass"))), ("bar", StringP)]), true)
  {
    var v := PlainObject([("foo", Instance("MyClass", [], "foo")), ("bar", Str("bar"))]);
    ClassPatternIff(Instance("MyClass", [], "foo"), "MyClass", true);
    OptionalOtherwise(Instance("MyClass", [], "foo"), ClassPat("MyClass"), true);
    ScalarPatternIff(Str("bar"), StringKind, true);
    var p1 := ObjPat("Object", [("foo", ClassPat("MyClass")), ("bar", StringP)]);
    StrictObjectIff(v, p1);
    assert FieldOutcome(v, p1, 0).Ok? && FieldOutcome(v, p1, 1).Ok?;
    var p2 := ObjPat("Object", [("foo", Optional(ClassPat("MyClass"))), ("bar", StringP)]);
    assert Get(v, "foo") == Found(Instance("MyClass", [], "foo"));
    assert FieldOutcome(v, p2, 0) == CheckType(Instance("MyClass", [], "foo"), Optional(ClassPat("MyClass")), true);
    assert PatternEntry(p2.fields, "bar") == Some(StringP);
    StrictObjectIff(v, p2);
    assert FieldOutcome(v, p2, 0).Ok? && FieldOutcome(v, p2, 1).Ok?;
  }

  /** Lines 86-96: a string field, then the same object with an extra key,
      which strict matching reports as unknown. */
  lemma UnknownKeyRows()
    ensures Matches(PlainObject([("foo", Str("bar"))]), ObjPat("Object", [("foo", StringP)]), true)
    ensures CheckType(PlainObject([("foo", Str("bar")), ("baz", Str("bing"))]),
                      ObjPat("Object", [("foo", StringP)]), true) == MatchErr(UnknownKey("baz"))
    ensures !Matches(PlainObject([("foo", Str("bar")), ("baz", Str("bing"))]),
                     ObjPat("Object", [("foo", StringP)]), true)
  {
    ScalarPatternIff(Str("bar"), StringKind, true);
    var q := ObjPat("Object", [("foo", StringP)]);
    var v1 := PlainObject([("foo", Str("bar"))]);
    var v2 := PlainObject([("foo", Str("bar")), ("baz", Str("bing"))]);
    assert EnumerableKeys(v1)[0] == "foo";
    StrictObjectIff(v1, q);
    assert FieldOutcome(v1, q, 0).Ok?;
    assert EnumerableKeys(v2)[1] == "baz";
    assert PatternEntry(q.fields, "baz") == None;
    assert EnumerableKeys(v2)[0] == "foo";
    assert FieldOutcome(v2, q, 0).Ok?;
    StrictFirstUnknownKey(v2, q, 1);
    StrictObjectIff(v2, q);
  }

  /** Lines 97-116: an optional field, absent, present and of the wrong
      type. */
  lemma OptionalFieldRows()
    ensures Matches(PlainObject([("foo", Str("bar"))]),
                    ObjPat("Object", [("foo", StringP), ("baz", Optional(StringP))]), true)
    ensures Matches(PlainObject([("foo", Str("bar")), ("baz", Str("bing"))]),
                    ObjPat("Object", [("foo", StringP), ("baz", Optional(StringP))]), true)
    ensures !Matches(PlainObject([("foo", Str("bar")), ("baz", Int(10))]),
                     ObjPat("Object", [("foo", StringP), ("baz", Optional(StringP))]), true)
  {
    ScalarPatternIff(Str("bar"), StringKind, true);
    ScalarPatternIff(Str("bing"), StringKind, true);
    ScalarPatternIff(Int(10), StringKind, true);
    OptionalAcceptsNullish(StringP, true);
    OptionalOtherwise(Str("bing"), StringP, true);
    OptionalOtherwise(Int(10), StringP, true);
    var q := ObjPat("Object", [("foo", StringP), ("baz", Optional(StringP))]);
    var v1 := PlainObject([("foo", Str("bar"))]);
    var v2 := PlainObject([("foo", Str("bar")), ("baz", Str("bing"))]);
    var v3 := PlainObject([("foo", Str("bar")), ("baz", Int(10))]);
    assert EnumerableKeys(v1)[0] == "foo";
    StrictObjectIff(v1, q);
    assert FieldOutcome(v1, q, 0).Ok? && FieldOutcome(v1, q, 1).Ok?;
    assert PatternEntry(q.fields, "baz") == Some(Optional(StringP));
    assert EnumerableKeys(v2)[0] == "foo" && EnumerableKeys(v2)[1] == "baz";
    StrictObjectIff(v2, q);
    assert FieldOutcome(v2, q, 0).Ok? && FieldOutcome(v2, q, 1).Ok?;
    StrictObjectIff(v3, q);
    assert !FieldOutcome(v3, q, 1).Ok?;
  }

  /** Lines 117-118: `Date`. */
  lemma DateRows()
    ensures Matches(Obj("Date", [], []), NativeCtor(DateCtor), true)
    ensures !Matches(PlainObject([]), NativeCtor(DateCtor), true)
  {
    NativeCtorIff(Obj("Date", [], []), DateCtor, true);
    NativeCtorIff(PlainObject([]), DateCtor, true);
  }

  /** Lines 119, 120 and 136: array patterns over scalars. */
  lemma ArrayRows()
    ensures Matches(Arr([Str("foo"), Str("foo")]), ArrPat([StringP]), true)
    ensures !Matches(Arr([Str("foo")]), ArrPat([NumberP]), true)
    ensures Matches(Arr([Str("foo"), Int(10)]), ArrPat([OneOf([StringP, NumberP])]), true)
  {
    ScalarPatternIff(Str("foo"), StringKind, true);
    ScalarPatternIff(Int(10), StringKind, true);
    ArrayPatternIff(Arr([Str("foo"), Str("foo")]), StringP, [], true);
    assert [StringP] + [] == [StringP];
    ScalarPatternIff(Str("foo"), NumberKind, true);
    ArrayPatternIff(Arr([Str("foo")]), NumberP, [], true);
    assert !Matches(Arr([Str("foo")]).elems[0], NumberP, true);
    assert [NumberP] + [] == [NumberP];
    OneOfOfTwo(Str("foo"), StringP, NumberP, true);
    OneOfOfTwo(Int(10), StringP, NumberP, true);
    ArrayPatternIff(Arr([Str("foo"), Int(10)]), OneOf([StringP, NumberP]), [], true);
    assert [OneOf([StringP, NumberP])] + [] == [OneOf([StringP, NumberP])];
  }

  /** Lines 121-135: arrays of objects. */
  lemma ObjectArrayRows()
    ensures Matches(Arr([PlainObject([("foo", Str("bar"))])]), ArrPat([ObjPat("Object", [("foo", StringP)])]), true)
    ensures !Matches(Arr([PlainObject([("foo", Str("bar"))])]), ArrPat([ObjPat("Object", [("foo", NumberP)])]), true)
    ensures !Matches(Arr([PlainObject([("foo", Str("bar"))]), Int(10)]),
                     ArrPat([ObjPat("Object", [("foo", StringP)])]), true)
  {
    var o := PlainObject([("foo", Str("bar"))]);
    var qs := ObjPat("Object", [("foo", StringP)]);
    var qn := ObjPat("Object", [("foo", NumberP)]);
    ScalarPatternIff(Str("bar"), StringKind, true);
    StrictObjectIff(o, qs);
    assert FieldOutcome(o, qs, 0).Ok?;
    StrictObjectIff(o, qn);
    assert !FieldOutcome(o, qn, 0).Ok?;
    ObjectPatternNeedsObject(Int(10), "Object", [("foo", StringP)], true);
    ArrayPatternIff(Arr([o]), qs, [], true);
    assert [qs] + [] == [qs];
    ArrayPatternIff(Arr([o]), qn, [], true);
    assert !Matches(Arr([o]).elems[0], qn, true);
    assert [qn] + [] == [qn];
    ArrayPatternIff(Arr([o, Int(10)]), qs, [], true);
    assert Arr([o, Int(10)]).elems[1] == Int(10);
  }

  /** Lines 137-142: literals and regular expressions inside `oneOf`. */
  lemma LiteralAndRegexRows()
    ensures Matches(Str("foo"), OneOf([Literal(PStr("foo")), Literal(PStr("bar"))]), true)
    ensures !Matches(Str("foo"), OneOf([Literal(PStr("bar")), Literal(PStr("baz"))]), true)
    ensures Matches(Str("foo"), FooRegex, true)
    ensures Matches(Str("foo"), OneOf([Literal(PStr("bar")), FooRegex]), true)
    ensures !Matches(Str("foo"), OneOf([Literal(PStr("bar")), AsdfRegex]), true)
    ensures Matches(Str("foo"), OneOf([Literal(PStr("bar")), FoRegex]), true)
  {
    var foo := Str("foo");
    LiteralIff(foo, PStr("foo"), true);
    LiteralIff(foo, PStr("bar"), true);
    LiteralIff(foo, PStr("baz"), true);
    OneOfOfTwo(foo, Literal(PStr("foo")), Literal(PStr("bar")), true);
    OneOfOfTwo(foo, Literal(PStr("bar")), Literal(PStr("baz")), true);
    assert CheckType(foo, FooRegex, true) == Ok;
    OneOfOfTwo(foo, Literal(PStr("bar")), FooRegex, true);
    assert !CheckType(foo, AsdfRegex, true).Ok?;
    OneOfOfTwo(foo, Literal(PStr("bar")), AsdfRegex, true);
    assert "foo"[0..2] == "fo";
    assert CheckType(foo, FoRegex, true) == Ok;
    OneOfOfTwo(foo, Literal(PStr("bar")), FoRegex, true);
  }

  /** Lines 143-147: a regular expression as a field pattern. */
  lemma RegexFieldRow()
    ensures Matches(PlainObject([("foo", Str("bar"))]), ObjPat("Object", [("foo", BaRegex)]), true)
  {
    var v := PlainObject([("foo", Str("bar"))]);
    var q := ObjPat("Object", [("foo", BaRegex)]);
    assert "bar"[0..2] == "ba";
    assert CheckType(Str("bar"), BaRegex, true) == Ok;
    StrictObjectIff(v, q);
    assert FieldOutcome(v, q, 0).Ok?;
  }

  /** Lines 148-155: `anything`, optional, required and inside `oneOf`; the
      missing key `other` reads as undefined. */
  lemma AnythingFieldRow()
    ensures Matches(PlainObject([("foo", Str("bar")), ("baz", PlainObject([("foo", Str("bar"))]))]),
                    ObjPat("Object", [("foo", Optional(Anything)), ("baz", Anything), ("other", OneOf([Anything]))]), true)
  {
    var inner := PlainObject([("foo", Str("bar"))]);
    var v := PlainObject([("foo", Str("bar")), ("baz", inner)]);
    var q := ObjPat("Object", [("foo", Optional(Anything)), ("baz", Anything), ("other", OneOf([Anything]))]);
    AnythingAcceptsAll(Str("bar"), true);
    AnythingAcceptsAll(inner, true);
    AnythingAcceptsAll(Undefined, true);
    OptionalOtherwise(Str("bar"), Anything, true);
    OneOfIff(Undefined, [Anything], true);
    assert [Anything][0] == Anything;
    assert FieldOutcome(v, q, 0).Ok?;
    assert FieldOutcome(v, q, 1).Ok?;
    AbsentKeyIsUndefined(v, q, 2);
    assert FieldOutcome(v, q, 2).Ok?;
    assert PatternEntry(q.fields, "baz") == Some(Anything);
    StrictObjectIff(v, q);
  }

  /** Lines 156-160: an array is neither null nor undefined, so
      `optional(null)` rejects it. */
  lemma OptionalNullRow()
    ensures !Matches(PlainObject([("foo", Arr([Str("asdf"), Str("asdf")]))]),
                     ObjPat("Object", [("foo", Optional(Literal(PNull)))]), true)
  {
    var xs := Arr([Str("asdf"), Str("asdf")]);
    var v := PlainObject([("foo", xs)]);
    var q := ObjPat("Object", [("foo", Optional(Literal(PNull)))]);
    LiteralIff(xs, PNull, true);
    OptionalOtherwise(xs, Literal(PNull), true);
    StrictObjectIff(v, q);
    assert !FieldOutcome(v, q, 0).Ok?;
  }

  /** Lines 170-182: `ensure` throws a MatchError. */
  lemma EnsureRows()
    ensures Ensure(Str("foo"), NumberP, true).MatchErr?
    ensures Ensure(PlainObject([("foo", Str("bar"))]), ObjPat("Object", [("foo", ArrPat([StringP]))]), true).MatchErr?
  {
    ScalarPatternIff(Str("foo"), NumberKind, true);
    var v := PlainObject([("foo", Str("bar"))]);
    var q := ObjPat("Object", [("foo", ArrPat([StringP]))]);
    ArrayPatternIff(Str("bar"), StringP, [], true);
    assert [StringP] + [] == [StringP];
    assert FieldOutcome(v, q, 0) == MatchErr(NotAnArray);
    FirstFailingField(v, q, 0, 0);
    assert CheckType(v, q, true) == CheckObject(v, q, true);
  }
}
