/**
  The repository's own test cases, evaluated on the model. The two cases
  whose expectation the code does not meet (a `null` descriptor, and
  `null` against a structure descriptor) are stated as what the code does.

  Each outcome is derived from the general lemmas of `MatcherProperties`;
  messages are written with `Expected(path, wanted, actual)`, the template
  `Expected ${path} to be ${wanted}; Actual: ${actual}`.
 */
module Scenarios {
  import opened JsValues
  import opened Matcher
  import opened MatcherProperties
  import opened Fixtures

  /** An alternation passes as soon as one alternative passes. */
  lemma OneAlternativePasses(actual: Value, vs: seq<Value>, i: nat, custom: Option<string>, path: string)
    requires i < |vs| && Check(actual, vs[i], custom, path).Ok?
    ensures Check(actual, Or(vs), custom, path) == Ok
  {
    Alternation(actual, vs, custom, path);
  }

  /** An alternation fails when none of its alternatives passes, throwing one collected message per alternative. */
  lemma NoAlternativePasses(actual: Value, vs: seq<Value>, custom: Option<string>, path: string)
    requires forall i :: 0 <= i < |vs| ==> !Check(actual, vs[i], custom, path).Ok?
    ensures Check(actual, Or(vs), custom, path).Err?
    ensures Check(actual, Or(vs), custom, path).message.NoneMatched?
    ensures |Check(actual, Or(vs), custom, path).message.errors| == |vs|
    ensures forall i :: 0 <= i < |vs| ==>
              Check(actual, Or(vs), custom, path).message.errors[i] == Caught(Check(actual, vs[i], custom, path))
  {
    Alternation(actual, vs, custom, path);
  }

  /** An alternation of two that both fail throws both messages under the header. */
  lemma TwoAlternativesFail(actual: Value, v0: Value, v1: Value, custom: Option<string>, path: string, m0: Message, m1: Message)
    requires Check(actual, v0, custom, path) == Err(m0)
    requires Check(actual, v1, custom, path) == Err(m1)
    ensures Check(actual, Or([v0, v1]), custom, path) == Err(NoneMatched([m0, m1]))
  {
    var vs := [v0, v1];
    forall i | 0 <= i < |vs|
      ensures Check(actual, vs[i], custom, path) == Err([m0, m1][i])
    {
      if i == 0 {
        assert vs[i] == v0;
      } else {
        assert vs[i] == v1;
      }
    }
    AllAlternativesFail(actual, vs, [m0, m1], custom, path);
  }

  /** An alternation of two that both fail, by a message or a host error, throws what each one throws. */
  lemma TwoAlternativesFailCaught(actual: Value, v0: Value, v1: Value, custom: Option<string>, path: string)
    requires !Check(actual, v0, custom, path).Ok? && !Check(actual, v1, custom, path).Ok?
    ensures Check(actual, Or([v0, v1]), custom, path)
         == Err(NoneMatched([Caught(Check(actual, v0, custom, path)), Caught(Check(actual, v1, custom, path))]))
  {
    var vs := [v0, v1];
    forall i | 0 <= i < |vs|
      ensures !Check(actual, vs[i], custom, path).Ok?
    {
      if i == 0 {
        assert vs[i] == v0;
      } else {
        assert vs[i] == v1;
      }
    }
    NoAlternativePasses(actual, vs, custom, path);
    var errors := Check(actual, Or(vs), custom, path).message.errors;
    assert errors[0] == Caught(Check(actual, vs[0], custom, path));
    assert errors[1] == Caught(Check(actual, vs[1], custom, path));
    assert errors == [Caught(Check(actual, v0, custom, path)), Caught(Check(actual, v1, custom, path))];
  }

  /** An alternation of three that all fail throws the three messages under the header. */
  lemma ThreeAlternativesFail(actual: Value, v0: Value, v1: Value, v2: Value, custom: Option<string>, path: string,
                              m0: Message, m1: Message, m2: Message)
    requires Check(actual, v0, custom, path) == Err(m0)
    requires Check(actual, v1, custom, path) == Err(m1)
    requires Check(actual, v2, custom, path) == Err(m2)
    ensures Check(actual, Or([v0, v1, v2]), custom, path) == Err(NoneMatched([m0, m1, m2]))
  {
    var vs := [v0, v1, v2];
    forall i | 0 <= i < |vs|
      ensures Check(actual, vs[i], custom, path) == Err([m0, m1, m2][i])
    {
      if i == 0 {
        assert vs[i] == v0;
      } else if i == 1 {
        assert vs[i] == v1;
      } else {
        assert vs[i] == v2;
      }
    }
    AllAlternativesFail(actual, vs, [m0, m1, m2], custom, path);
  }

  /** Two collected messages print as the header and one line each. */
  lemma RenderTwo(a: string, b: string, hostText: HostFault -> string)
    ensures Render(NoneMatched([Text(a), Text(b)]), hostText) == NONE_MATCHED + (a + "\n" + b)
  {
    var es := [Text(a), Text(b)];
    assert es[1..] == [Text(b)];
    assert JoinLines(es[1..], hostText) == b;
    assert JoinLines(es, hostText) == a + "\n" + b;
  }

  // ----- success cases -----

  lemma MarkerSuccesses()
    ensures Check(Str("hello"), Ctor(StringCtor), None, ROOT) == Ok
    ensures Check(Num(1), Ctor(NumberCtor), None, ROOT) == Ok
    ensures Check(Bool(true), Ctor(BooleanCtor), None, ROOT) == Ok
    ensures Check(Arrow1(), Ctor(FunctionCtor), None, ROOT) == Ok
    ensures Check(Obj([]), Ctor(ObjectCtor), None, ROOT) == Ok
    ensures Check(Symbol1(), Ctor(SymbolCtor), None, ROOT) == Ok
    ensures Check(Undefined, Undefined, None, ROOT) == Ok
  {
    BuiltinMarker(Str("hello"), StringCtor, None, ROOT);
    BuiltinMarker(Num(1), NumberCtor, None, ROOT);
    BuiltinMarker(Bool(true), BooleanCtor, None, ROOT);
    BuiltinMarker(Arrow1(), FunctionCtor, None, ROOT);
    BuiltinMarker(Obj([]), ObjectCtor, None, ROOT);
    BuiltinMarker(Symbol1(), SymbolCtor, None, ROOT);
    UndefinedMarker(Undefined, None, ROOT);
  }

  lemma LiteralSuccesses()
    ensures Check(Str("hello"), Str("hello"), None, ROOT) == Ok
    ensures Check(Num(1), Num(1), None, ROOT) == Ok
    ensures Check(Bool(false), Bool(false), None, ROOT) == Ok
    ensures Check(Arrow1(), Arrow2(), None, ROOT) == Ok
    ensures Check(Obj([]), Obj([]), None, ROOT) == Ok
    ensures Check(Symbol1(), Symbol2(), None, ROOT) == Ok
  {
    PrimitiveLiteral(Str("hello"), Str("hello"), None, ROOT);
    PrimitiveLiteral(Num(1), Num(1), None, ROOT);
    PrimitiveLiteral(Bool(false), Bool(false), None, ROOT);
    FunctionLiteral(Arrow1(), 2, "() => {}", None, ROOT);
    StructureAll(Obj([]), [], None, ROOT);
    SymbolLiteral(Symbol1(), 2, "", None, ROOT);
  }

  /** Every string and every number passes `Assert.or(String, Number)`. */
  lemma StringOrNumberPasses(x: Value, path: string)
    requires x.Str? || x.Num?
    ensures Check(x, StringNumber(), None, path) == Ok
  {
    var vs := [Ctor(StringCtor), Ctor(NumberCtor)];
    if x.Str? {
      BuiltinMarker(x, StringCtor, None, path);
      OneAlternativePasses(x, vs, 0, None, path);
    } else {
      BuiltinMarker(x, NumberCtor, None, path);
      OneAlternativePasses(x, vs, 1, None, path);
    }
  }

  lemma StringNumberSuccesses()
    ensures Check(Str("hello"), StringNumber(), None, ROOT) == Ok
    ensures Check(Num(1), StringNumber(), None, ROOT) == Ok
  {
    StringOrNumberPasses(Str("hello"), ROOT);
    StringOrNumberPasses(Num(1), ROOT);
  }

  lemma StringOrArraySuccesses()
    ensures Check(Str("hello"), StringOrArray(), None, ROOT) == Ok
    ensures Check(Arr([]), StringOrArray(), None, ROOT) == Ok
    ensures Check(Arr([Str("hello")]), StringOrArray(), None, ROOT) == Ok
  {
    var vs := [Ctor(StringCtor), Arr([Ctor(StringCtor)])];
    OneAlternativePasses(Str("hello"), vs, 0, None, ROOT);
    EmptyArrayPasses([Ctor(StringCtor)], None, ROOT);
    OneAlternativePasses(Arr([]), vs, 1, None, ROOT);
    BuiltinMarker(Str("hello"), StringCtor, None, IndexPath(ROOT, 0));
    SequenceAll([Str("hello")], [Ctor(StringCtor)], None, ROOT);
    OneAlternativePasses(Arr([Str("hello")]), vs, 1, None, ROOT);
  }

  lemma BooleanOrArrayOrSimpleSuccesses()
    ensures Check(Bool(true), BooleanOrArrayOr(), None, ROOT) == Ok
    ensures Check(Arr([]), BooleanOrArrayOr(), None, ROOT) == Ok
  {
    var vs := [Ctor(BooleanCtor), Arr([StringNumber()])];
    OneAlternativePasses(Bool(true), vs, 0, None, ROOT);
    EmptyArrayPasses([StringNumber()], None, ROOT);
    OneAlternativePasses(Arr([]), vs, 1, None, ROOT);
  }

  /** An array passes `[Assert.or(String, Number)]` when each element is a string or a number. */
  lemma ElementsStringOrNumber(xs: seq<Value>)
    requires forall i :: 0 <= i < |xs| ==> xs[i].Str? || xs[i].Num?
    ensures Check(Arr(xs), BooleanOrArrayOr(), None, ROOT) == Ok
  {
    forall i | 0 <= i < |xs|
      ensures Check(xs[i], StringNumber(), None, IndexPath(ROOT, i)).Ok?
    {
      StringOrNumberPasses(xs[i], IndexPath(ROOT, i));
    }
    SequenceAll(xs, [StringNumber()], None, ROOT);
    OneAlternativePasses(Arr(xs), [Ctor(BooleanCtor), Arr([StringNumber()])], 1, None, ROOT);
  }

  lemma BooleanOrArrayOrElementSuccesses()
    ensures Check(Arr([Str("hello")]), BooleanOrArrayOr(), None, ROOT) == Ok
    ensures Check(Arr([Num(1)]), BooleanOrArrayOr(), None, ROOT) == Ok
    ensures Check(Arr([Num(2), Str("goodbye")]), BooleanOrArrayOr(), None, ROOT) == Ok
  {
    ElementsStringOrNumber([Str("hello")]);
    ElementsStringOrNumber([Num(1)]);
    ElementsStringOrNumber([Num(2), Str("goodbye")]);
  }

  lemma ExactOrSuccesses()
    ensures Check(Bool(true), ExactOr(), None, ROOT) == Ok
    ensures Check(Bool(false), ExactOr(), None, ROOT) == Ok
    ensures Check(Str("hello"), ExactOr(), None, ROOT) == Ok
    ensures Check(Num(55), ExactOr(), None, ROOT) == Ok
  {
    var vs := [Ctor(BooleanCtor), Str("hello"), Num(55)];
    BuiltinMarker(Bool(true), BooleanCtor, None, ROOT);
    OneAlternativePasses(Bool(true), vs, 0, None, ROOT);
    BuiltinMarker(Bool(false), BooleanCtor, None, ROOT);
    OneAlternativePasses(Bool(false), vs, 0, None, ROOT);
    PrimitiveLiteral(Str("hello"), Str("hello"), None, ROOT);
    OneAlternativePasses(Str("hello"), vs, 1, None, ROOT);
    PrimitiveLiteral(Num(55), Num(55), None, ROOT);
    OneAlternativePasses(Num(55), vs, 2, None, ROOT);
  }

  /** A boolean or an object passes `Assert.or(Boolean, Object)`. */
  lemma BooleanOrObject(v: Value, path: string)
    requires v.Bool? || v.Obj?
    ensures Check(v, Or([Ctor(BooleanCtor), Ctor(ObjectCtor)]), None, path) == Ok
  {
    if v.Bool? {
      BuiltinMarker(v, BooleanCtor, None, path);
      OneAlternativePasses(v, [Ctor(BooleanCtor), Ctor(ObjectCtor)], 0, None, path);
    } else {
      BuiltinMarker(v, ObjectCtor, None, path);
      OneAlternativePasses(v, [Ctor(BooleanCtor), Ctor(ObjectCtor)], 1, None, path);
    }
  }

  /** Every boolean or object element passes `[Assert.or(Boolean, Object)]`. */
  lemma BooleansOrObjects(c: seq<Value>, path: string)
    requires forall i :: 0 <= i < |c| ==> c[i].Bool? || c[i].Obj?
    ensures Check(Arr(c), Arr([Or([Ctor(BooleanCtor), Ctor(ObjectCtor)])]), None, path) == Ok
  {
    forall i | 0 <= i < |c|
      ensures Check(c[i], Or([Ctor(BooleanCtor), Ctor(ObjectCtor)]), None, IndexPath(path, i)).Ok?
    {
      BooleanOrObject(c[i], IndexPath(path, i));
    }
    SequenceAll(c, [Or([Ctor(BooleanCtor), Ctor(ObjectCtor)])], None, path);
  }

  /** Property reads on the dictionary test's object. */
  lemma DictionaryLookups(a: Value, b: Value, c: Value)
    ensures GetProperty(Obj([Field("a", a), Field("b", b), Field("c", c)]), "a") == Success(a)
    ensures GetProperty(Obj([Field("a", a), Field("b", b), Field("c", c)]), "b") == Success(b)
    ensures GetProperty(Obj([Field("a", a), Field("b", b), Field("c", c)]), "c") == Success(c)
  {
    var fs := [Field("a", a), Field("b", b), Field("c", c)];
    assert "a" != "b" && "a" != "c" && "b" != "c" by {
      assert "a"[0] != "b"[0] && "a"[0] != "c"[0] && "b"[0] != "c"[0];
    }
    assert fs[1..] == [Field("b", b), Field("c", c)] && fs[1..][1..] == [Field("c", c)];
    assert Lookup(fs[1..][1..], "c") == Some(c);
    assert Lookup(fs[1..], "b") == Some(b) && Lookup(fs[1..], "c") == Some(c);
  }

  /** The number under `a` passes `Number`. */
  lemma DictionaryFieldA(a: Value, b: Value, c: Value)
    requires a.Num?
    ensures Check(GetProperty(Obj([Field("a", a), Field("b", b), Field("c", c)]), "a").value,
                  Ctor(NumberCtor), None, KeyPath(ROOT, "a")).Ok?
  {
    DictionaryLookups(a, b, c);
    BuiltinMarker(a, NumberCtor, None, KeyPath(ROOT, "a"));
  }

  /** The string under `b` passes `String`. */
  lemma DictionaryFieldB(a: Value, b: Value, c: Value)
    requires b.Str?
    ensures Check(GetProperty(Obj([Field("a", a), Field("b", b), Field("c", c)]), "b").value,
                  Ctor(StringCtor), None, KeyPath(ROOT, "b")).Ok?
  {
    DictionaryLookups(a, b, c);
    BuiltinMarker(b, StringCtor, None, KeyPath(ROOT, "b"));
  }

  /** The array under `c` passes `[Assert.or(Boolean, Object)]`. */
  lemma DictionaryFieldC(a: Value, b: Value, c: seq<Value>)
    requires forall k :: 0 <= k < |c| ==> c[k].Bool? || c[k].Obj?
    ensures Check(GetProperty(Obj([Field("a", a), Field("b", b), Field("c", Arr(c))]), "c").value,
                  Arr([Or([Ctor(BooleanCtor), Ctor(ObjectCtor)])]), None, KeyPath(ROOT, "c")).Ok?
  {
    DictionaryLookups(a, b, Arr(c));
    BooleansOrObjects(c, KeyPath(ROOT, "c"));
  }

  /** The dictionary descriptor accepts any number, string and array of booleans and objects. */
  lemma DictionaryShape(a: Value, b: Value, c: seq<Value>)
    requires a.Num? && b.Str? && forall i :: 0 <= i < |c| ==> c[i].Bool? || c[i].Obj?
    ensures Check(Obj([Field("a", a), Field("b", b), Field("c", Arr(c))]), Obj(DictionaryDescriptor()), None, ROOT) == Ok
  {
    var actual := Obj([Field("a", a), Field("b", b), Field("c", Arr(c))]);
    var fs := DictionaryDescriptor();
    forall i | 0 <= i < |fs|
      ensures Check(GetProperty(actual, fs[i].key).value, fs[i].val, None, KeyPath(ROOT, fs[i].key)).Ok?
    {
      if i == 0 {
        assert fs[i] == Field("a", Ctor(NumberCtor));
        DictionaryFieldA(a, b, Arr(c));
      } else if i == 1 {
        assert fs[i] == Field("b", Ctor(StringCtor));
        DictionaryFieldB(a, b, Arr(c));
      } else {
        assert fs[i] == Field("c", Arr([Or([Ctor(BooleanCtor), Ctor(ObjectCtor)])]));
        DictionaryFieldC(a, b, c);
      }
    }
    StructureAll(actual, fs, None, ROOT);
  }

  /** The dictionary test: `a` is 1, `b` is 'string' and `c` is `[true]` followed by an empty object. */
  lemma DictionarySuccess()
    ensures Check(Obj([Field("a", Num(1)), Field("b", Str("string")), Field("c", Arr([Bool(true), Obj([])]))]),
                  Obj(DictionaryDescriptor()), None, ROOT)
         == Ok
  {
    DictionaryShape(Num(1), Str("string"), [Bool(true), Obj([])]);
  }

  // ----- failure cases -----

  /** The message template, written out for one case. */
  lemma MessageWording()
    ensures Expected(ROOT, "string", "number") == "Expected root to be string; Actual: number"
  {
  }

  lemma NumberAgainstString()
    ensures Check(Num(1), Ctor(StringCtor), None, ROOT) == Err(Text("Expected root to be string; Actual: number"))
  {
    MessageWording();
    BuiltinMarker(Num(1), StringCtor, None, ROOT);
  }

  lemma CustomError()
    ensures Check(Num(1), Ctor(StringCtor), Some("chicken nuggets"), ROOT) == Err(Text("chicken nuggets"))
  {
    BuiltinMarker(Num(1), StringCtor, Some("chicken nuggets"), ROOT);
  }

  /** How the numbers of the tests print. */
  lemma PrintedNumbers()
    ensures StringOf(Num(55)) == Success("55")
    ensures StringOf(Num(56)) == Success("56")
  {
    assert NatDecimal(55) == NatDecimal(5) + [DigitChar(5)] == "55";
    assert NatDecimal(56) == NatDecimal(5) + [DigitChar(6)] == "56";
  }

  lemma NumberAgainstOtherNumber()
    ensures Check(Num(56), Num(55), None, ROOT) == Err(Text(Expected("root", "55", "56")))
  {
    PrintedNumbers();
    PrimitiveLiteral(Num(56), Num(55), None, ROOT);
  }

  lemma StringNumberFailure()
    ensures Check(Bool(true), StringNumber(), None, ROOT)
         == Err(NoneMatched([Text(Expected("root", "string", "boolean")), Text(Expected("root", "number", "boolean"))]))
  {
    BuiltinMarker(Bool(true), StringCtor, None, ROOT);
    BuiltinMarker(Bool(true), NumberCtor, None, ROOT);
    TwoAlternativesFail(Bool(true), Ctor(StringCtor), Ctor(NumberCtor), None, ROOT,
                        Text(Expected(ROOT, "string", "boolean")), Text(Expected(ROOT, "number", "boolean")));
  }

  lemma ExactOrFailureOnString()
    ensures Check(Str("goodbye"), ExactOr(), None, ROOT)
         == Err(NoneMatched([Text(Expected("root", "boolean", "string")),
                             Text(Expected("root", "hello", "goodbye")),
                             Text(Expected("root", "55", "string"))]))
  {
    PrintedNumbers();
    BuiltinMarker(Str("goodbye"), BooleanCtor, None, ROOT);
    PrimitiveLiteral(Str("goodbye"), Str("hello"), None, ROOT);
    PrimitiveLiteral(Str("goodbye"), Num(55), None, ROOT);
    ThreeAlternativesFail(Str("goodbye"), Ctor(BooleanCtor), Str("hello"), Num(55), None, ROOT,
                          Text(Expected(ROOT, "boolean", "string")),
                          Text(Expected(ROOT, "hello", "goodbye")),
                          Text(Expected(ROOT, "55", "string")));
  }

  lemma ExactOrFailureOnNumber()
    ensures Check(Num(56), ExactOr(), None, ROOT)
         == Err(NoneMatched([Text(Expected("root", "boolean", "number")),
                             Text(Expected("root", "hello", "number")),
                             Text(Expected("root", "55", "56"))]))
  {
    NumberAgainstOtherNumber();
    BuiltinMarker(Num(56), BooleanCtor, None, ROOT);
    PrimitiveLiteral(Num(56), Str("hello"), None, ROOT);
    ThreeAlternativesFail(Num(56), Ctor(BooleanCtor), Str("hello"), Num(55), None, ROOT,
                          Text(Expected(ROOT, "boolean", "number")),
                          Text(Expected(ROOT, "hello", "number")),
                          Text(Expected(ROOT, "55", "56")));
  }

  lemma ExactOrFailureOnObject()
    ensures Check(Obj([]), ExactOr(), None, ROOT)
         == Err(NoneMatched([Text(Expected("root", "boolean", "object")),
                             Text(Expected("root", "hello", "object")),
                             Text(Expected("root", "55", "object"))]))
  {
    PrintedNumbers();
    BuiltinMarker(Obj([]), BooleanCtor, None, ROOT);
    PrimitiveLiteral(Obj([]), Str("hello"), None, ROOT);
    PrimitiveLiteral(Obj([]), Num(55), None, ROOT);
    ThreeAlternativesFail(Obj([]), Ctor(BooleanCtor), Str("hello"), Num(55), None, ROOT,
                          Text(Expected(ROOT, "boolean", "object")),
                          Text(Expected(ROOT, "hello", "object")),
                          Text(Expected(ROOT, "55", "object")));
  }

  lemma StringOrArrayRejectsBoolean()
    ensures Check(Bool(true), StringOrArray(), None, ROOT)
         == Err(NoneMatched([Text(Expected("root", "string", "boolean")), Text(Expected("root", "array", "boolean"))]))
  {
    BuiltinMarker(Bool(true), StringCtor, None, ROOT);
    SequenceRejectsNonArray(Bool(true), [Ctor(StringCtor)], None, ROOT);
    TwoAlternativesFail(Bool(true), Ctor(StringCtor), Arr([Ctor(StringCtor)]), None, ROOT,
                        Text(Expected(ROOT, "string", "boolean")), Text(Expected(ROOT, "array", "boolean")));
  }

  /** `[String]` against a one-element array fails as the element fails `String` at `path[0]`. */
  lemma ArrayOfNonString(x: Value, path: string)
    requires TypeOf(x) != KString && TypeOf(x) != KFunction
    ensures Check(Arr([x]), Arr([Ctor(StringCtor)]), None, path)
         == Err(Text(Expected(IndexPath(path, 0), "string", KindName(TypeOf(x)))))
  {
    BuiltinMarker(x, StringCtor, None, IndexPath(path, 0));
    SequenceFirstFailure([x], [Ctor(StringCtor)], None, path, 0);
  }

  /** An array is of kind "object" for the `String` marker, and its element fails the sequence alternative. */
  lemma StringOrArrayRejectsArrayOf(x: Value, path: string)
    requires TypeOf(x) != KString && TypeOf(x) != KFunction
    ensures Check(Arr([x]), StringOrArray(), None, path)
         == Err(NoneMatched([Text(Expected(path, "string", "object")),
                             Text(Expected(IndexPath(path, 0), "string", KindName(TypeOf(x))))]))
  {
    BuiltinMarker(Arr([x]), StringCtor, None, path);
    ArrayOfNonString(x, path);
    TwoAlternativesFail(Arr([x]), Ctor(StringCtor), Arr([Ctor(StringCtor)]), None, path,
                        Text(Expected(path, "string", "object")), Text(Expected(IndexPath(path, 0), "string", KindName(TypeOf(x)))));
  }

  lemma StringOrArrayRejectsNumberArray()
    ensures Check(Arr([Num(1)]), StringOrArray(), None, ROOT)
         == Err(NoneMatched([Text(Expected("root", "string", "object")), Text(Expected("root[0]", "string", "number"))]))
  {
    RootIndexPaths();
    StringOrArrayRejectsArrayOf(Num(1), ROOT);
  }

  lemma BooleanOrArrayOrRejectsString()
    ensures Check(Str("hello"), BooleanOrArrayOr(), None, ROOT)
         == Err(NoneMatched([Text(Expected("root", "boolean", "string")), Text(Expected("root", "array", "string"))]))
  {
    BuiltinMarker(Str("hello"), BooleanCtor, None, ROOT);
    SequenceRejectsNonArray(Str("hello"), [StringNumber()], None, ROOT);
    TwoAlternativesFail(Str("hello"), Ctor(BooleanCtor), Arr([StringNumber()]), None, ROOT,
                        Text(Expected(ROOT, "boolean", "string")), Text(Expected(ROOT, "array", "string")));
  }

  /**
    A value that is neither a string nor a number fails `Assert.or(String, Number)`
    with the composite message of both markers; for a value that is not a
    function these are the two generated messages.
   */
  lemma NeitherStringNorNumber(x: Value, path: string)
    requires TypeOf(x) != KString && TypeOf(x) != KNumber
    ensures Check(x, StringNumber(), None, path).Err?
    ensures Check(x, StringNumber(), None, path).message.NoneMatched?
    ensures |Check(x, StringNumber(), None, path).message.errors| == 2
    ensures TypeOf(x) != KFunction ==>
              Check(x, StringNumber(), None, path)
                == Err(NoneMatched([Text(Expected(path, "string", KindName(TypeOf(x)))),
                                    Text(Expected(path, "number", KindName(TypeOf(x))))]))
  {
    var vs := [Ctor(StringCtor), Ctor(NumberCtor)];
    BuiltinMarker(x, StringCtor, None, path);
    BuiltinMarker(x, NumberCtor, None, path);
    forall i | 0 <= i < |vs|
      ensures !Check(x, vs[i], None, path).Ok?
    {
      if i == 0 {
        assert vs[i] == Ctor(StringCtor);
      } else {
        assert vs[i] == Ctor(NumberCtor);
      }
    }
    NoAlternativePasses(x, vs, None, path);
    if TypeOf(x) != KFunction {
      TwoAlternativesFail(x, Ctor(StringCtor), Ctor(NumberCtor), None, path,
                          Text(Expected(path, "string", KindName(TypeOf(x)))),
                          Text(Expected(path, "number", KindName(TypeOf(x)))));
    }
  }

  /** An array has kind "object", so it fails the `Boolean` marker with `Actual: object`. */
  lemma BooleanRejectsArray(xs: seq<Value>, path: string)
    ensures Check(Arr(xs), Ctor(BooleanCtor), None, path) == Err(Text(Expected(path, "boolean", "object")))
  {
    BuiltinMarker(Arr(xs), BooleanCtor, None, path);
  }

  /**
    An array with an element that is neither a string nor a number fails
    `Assert.or(Boolean, [Assert.or(String, Number)])`: the composite holds the
    `Boolean` marker's message and the sequence alternative's, itself a composite.
   */
  lemma ElementNeitherStringNorNumber(xs: seq<Value>, j: nat, path: string)
    requires j < |xs| && TypeOf(xs[j]) != KString && TypeOf(xs[j]) != KNumber
    ensures !Check(Arr(xs), Arr([StringNumber()]), None, path).Ok?
    ensures Check(Arr(xs), BooleanOrArrayOr(), None, path)
         == Err(NoneMatched([Text(Expected(path, "boolean", "object")), Caught(Check(Arr(xs), Arr([StringNumber()]), None, path))]))
  {
    NeitherStringNorNumber(xs[j], IndexPath(path, j));
    SequenceFails(xs, StringNumber(), None, path, j);
    BooleanRejectsArray(xs, path);
    TwoAlternativesFailCaught(Arr(xs), Ctor(BooleanCtor), Arr([StringNumber()]), None, path);
  }

  /** `['hello', false, 2]` fails `[Assert.or(String, Number)]` at its boolean element, `path[1]`. */
  lemma MixedArrayElementFails(path: string)
    ensures Check(Arr([Str("hello"), Bool(false), Num(2)]), Arr([StringNumber()]), None, path)
         == Err(NoneMatched([Text(Expected(IndexPath(path, 1), "string", "boolean")),
                             Text(Expected(IndexPath(path, 1), "number", "boolean"))]))
  {
    var xs := [Str("hello"), Bool(false), Num(2)];
    StringOrNumberPasses(Str("hello"), IndexPath(path, 0));
    NeitherStringNorNumber(Bool(false), IndexPath(path, 1));
    assert xs[1] == Bool(false);
    SequenceFirstFailure(xs, [StringNumber()], None, path, 1);
  }

  /**
    `['hello', false, 2]`: the `Boolean` marker fails on the array, and the
    sequence alternative fails at `root[1]` with both messages of the inner
    alternation.
   */
  lemma BooleanOrArrayOrRejectsMixedArray()
    ensures Check(Arr([Str("hello"), Bool(false), Num(2)]), BooleanOrArrayOr(), None, ROOT)
         == Err(NoneMatched([Text(Expected("root", "boolean", "object")),
                             NoneMatched([Text(Expected("root[1]", "string", "boolean")),
                                          Text(Expected("root[1]", "number", "boolean"))])]))
  {
    RootIndexPaths();
    MixedArrayElementFails(ROOT);
    ElementNeitherStringNorNumber([Str("hello"), Bool(false), Num(2)], 1, ROOT);
  }

  // ----- the nested-error test -----

  /** The first two element paths below `root`. */
  lemma RootIndexPaths()
    ensures IndexPath(ROOT, 0) == "root[0]" && IndexPath(ROOT, 1) == "root[1]"
  {
    assert NatDecimal(0) == "0" && NatDecimal(1) == "1";
  }

  /** The paths the nested test reports. */
  lemma NestedPaths()
    ensures KeyPath(ROOT, "key1") == "root.key1"
    ensures IndexPath(KeyPath(ROOT, "key1"), 1) == "root.key1[1]"
    ensures IndexPath(IndexPath(KeyPath(ROOT, "key1"), 2), 0) == "root.key1[2][0]"
    ensures KeyPath(IndexPath(IndexPath(KeyPath(ROOT, "key1"), 2), 0), "key2") == "root.key1[2][0].key2"
    ensures KeyPath(IndexPath(IndexPath(KeyPath(ROOT, "key1"), 2), 0), "key3") == "root.key1[2][0].key3"
  {
    assert NatDecimal(0) == "0" && NatDecimal(1) == "1" && NatDecimal(2) == "2";
    assert IndexPath("root.key1", 2) == "root.key1[2]";
  }

  /** A value whose kind is not "object" is rejected at the root. */
  lemma NestedRejectsNonObject(x: Value)
    requires TypeOf(x) != KObject
    ensures Check(x, Nested(), None, ROOT) == Err(Text(Expected("root", "object", KindName(TypeOf(x)))))
  {
    StructureRejectsNonObject(x, Nested().fields, None, ROOT);
  }

  lemma NestedRejectsNumber()
    ensures Check(Num(1), Nested(), None, ROOT) == Err(Text(Expected("root", "object", "number")))
  {
    NestedRejectsNonObject(Num(1));
  }

  /** A structure of one untagged key fails exactly as the value under that key fails. */
  lemma OneKeyStructure(actual: Value, key: string, d: Value, path: string)
    requires actual.Obj? && Untagged([Field(key, d)])
    requires !Check(GetProperty(actual, key).value, d, None, KeyPath(path, key)).Ok?
    ensures Check(actual, Obj([Field(key, d)]), None, path) == Check(GetProperty(actual, key).value, d, None, KeyPath(path, key))
  {
    StructureFirstFailure(actual, [Field(key, d)], None, path, 0);
  }

  /** `[[d]]` against `[[], x]`: the failure of `x` against `[d]` is the failure of the whole. */
  lemma SecondOfNestedArrays(x: Value, d: Value, path: string)
    requires !Check(x, Arr([d]), None, IndexPath(path, 1)).Ok?
    ensures Check(Arr([Arr([]), x]), Arr([Arr([d])]), None, path) == Check(x, Arr([d]), None, IndexPath(path, 1))
  {
    var xs := [Arr([]), x];
    EmptyArrayPasses([d], None, IndexPath(path, 0));
    forall i | 0 <= i < 1
      ensures Check(xs[i], ElementDescriptor([Arr([d])]), None, IndexPath(path, i)).Ok?
    {
      assert xs[i] == Arr([]);
    }
    SequenceFirstFailure(xs, [Arr([d])], None, path, 1);
  }

  /** `[[d]]` against `[[], [], [o]]`: the failure of `o` against `d` is the failure of the whole. */
  lemma ThirdOfNestedArrays(o: Value, d: Value, path: string)
    requires !Check(o, d, None, IndexPath(IndexPath(path, 2), 0)).Ok?
    ensures Check(Arr([Arr([]), Arr([]), Arr([o])]), Arr([Arr([d])]), None, path)
         == Check(o, d, None, IndexPath(IndexPath(path, 2), 0))
  {
    var xs := [Arr([]), Arr([]), Arr([o])];
    EmptyArrayPasses([d], None, IndexPath(path, 0));
    EmptyArrayPasses([d], None, IndexPath(path, 1));
    forall i | 0 <= i < 2
      ensures Check(xs[i], ElementDescriptor([Arr([d])]), None, IndexPath(path, i)).Ok?
    {
      assert xs[i] == Arr([]);
    }
    SequenceFirstFailure([o], [d], None, IndexPath(path, 2), 0);
    SequenceFirstFailure(xs, [Arr([d])], None, path, 2);
  }

  /** The nested test's outer descriptor is a structure descriptor, not a tagged one. */
  lemma NestedUntagged()
    ensures Untagged([Field("key1", Arr([Arr([Inner()])]))])
  {
    assert "key1"[0] != "__assert"[0];
  }

  /** The outer structure fails exactly as the value of `key1` fails. */
  lemma NestedKey1(actual: Value, key1: Value)
    requires actual.Obj? && GetProperty(actual, "key1") == Success(key1)
    requires !Check(key1, Arr([Arr([Inner()])]), None, KeyPath(ROOT, "key1")).Ok?
    ensures Check(actual, Nested(), None, ROOT) == Check(key1, Arr([Arr([Inner()])]), None, KeyPath(ROOT, "key1"))
  {
    NestedUntagged();
    OneKeyStructure(actual, "key1", Arr([Arr([Inner()])]), ROOT);
  }

  /** An object without `key1` fails at `root.key1`, whose value is `undefined`. */
  lemma NestedMissingKey(actual: Value)
    requires actual.Obj? && Lookup(actual.fields, "key1").None?
    ensures Check(actual, Nested(), None, ROOT) == Err(Text(Expected("root.key1", "array", "undefined")))
  {
    NestedPaths();
    NestedUntagged();
    SequenceRejectsNonArray(Undefined, [Arr([Inner()])], None, KeyPath(ROOT, "key1"));
    MissingKeyIsUndefined(actual.fields, [Field("key1", Arr([Arr([Inner()])]))], 0, None, ROOT);
  }

  lemma NestedEmptyObject()
    ensures Check(Obj([]), Nested(), None, ROOT) == Err(Text(Expected("root.key1", "array", "undefined")))
  {
    NestedMissingKey(Obj([]));
  }

  /** A `key1` whose kind is not "object" fails at `root.key1`. */
  lemma NestedKeyNotArray(v: Value)
    requires TypeOf(v) != KObject
    ensures Check(Obj([Field("key1", v)]), Nested(), None, ROOT) == Err(Text(Expected("root.key1", "array", KindName(TypeOf(v)))))
  {
    NestedPaths();
    SequenceRejectsNonArray(v, [Arr([Inner()])], None, KeyPath(ROOT, "key1"));
    NestedKey1(Obj([Field("key1", v)]), v);
  }

  lemma NestedKeyNumber()
    ensures Check(Obj([Field("key1", Num(1))]), Nested(), None, ROOT) == Err(Text(Expected("root.key1", "array", "number")))
  {
    NestedKeyNotArray(Num(1));
  }

  /** A second element of `key1` whose kind is not "object" fails at `root.key1[1]`. */
  lemma NestedElementNotArray(x: Value)
    requires TypeOf(x) != KObject
    ensures Check(Obj([Field("key1", Arr([Arr([]), x]))]), Nested(), None, ROOT)
         == Err(Text(Expected("root.key1[1]", "array", KindName(TypeOf(x)))))
  {
    NestedPaths();
    var k := KeyPath(ROOT, "key1");
    SequenceRejectsNonArray(x, [Inner()], None, IndexPath(k, 1));
    SecondOfNestedArrays(x, Inner(), k);
    NestedKey1(Obj([Field("key1", Arr([Arr([]), x]))]), Arr([Arr([]), x]));
  }

  lemma NestedElementString()
    ensures Check(Obj([Field("key1", Arr([Arr([]), Str("1")]))]), Nested(), None, ROOT)
         == Err(Text(Expected("root.key1[1]", "array", "string")))
  {
    NestedElementNotArray(Str("1"));
  }

  /** Through `key1[2][0]`: a failure of the innermost element is the failure of the whole. */
  lemma ThroughKey1At2At0(o: Value)
    requires !Check(o, Inner(), None, IndexPath(IndexPath(KeyPath(ROOT, "key1"), 2), 0)).Ok?
    ensures Check(Obj([Field("key1", Arr([Arr([]), Arr([]), Arr([o])]))]), Nested(), None, ROOT)
         == Check(o, Inner(), None, IndexPath(IndexPath(KeyPath(ROOT, "key1"), 2), 0))
  {
    ThirdOfNestedArrays(o, Inner(), KeyPath(ROOT, "key1"));
    NestedKey1(Obj([Field("key1", Arr([Arr([]), Arr([]), Arr([o])]))]), Arr([Arr([]), Arr([]), Arr([o])]));
  }

  /** An innermost element whose kind is not "object" fails at `root.key1[2][0]`. */
  lemma NestedInnerNotObject(x: Value)
    requires TypeOf(x) != KObject
    ensures Check(Obj([Field("key1", Arr([Arr([]), Arr([]), Arr([x])]))]), Nested(), None, ROOT)
         == Err(Text(Expected("root.key1[2][0]", "object", KindName(TypeOf(x)))))
  {
    NestedPaths();
    StructureRejectsNonObject(x, Inner().fields, None, IndexPath(IndexPath(KeyPath(ROOT, "key1"), 2), 0));
    ThroughKey1At2At0(x);
  }

  lemma NestedInnerNumber()
    ensures Check(Obj([Field("key1", Arr([Arr([]), Arr([]), Arr([Num(1)])]))]), Nested(), None, ROOT)
         == Err(Text(Expected("root.key1[2][0]", "object", "number")))
  {
    NestedInnerNotObject(Num(1));
  }

  /** The inner descriptor of the nested test is a structure descriptor, not a tagged one. */
  lemma InnerUntagged()
    ensures Untagged(Inner().fields)
  {
    assert "key2"[0] != "__assert"[0] && "key3"[0] != "__assert"[0];
  }

  /** Property reads on an object with `key2` holding `n` and `key3` holding `v`. */
  lemma InnerLookups(n: Value, v: Value)
    ensures GetProperty(Obj([Field("key2", n), Field("key3", v)]), "key2") == Success(n)
    ensures GetProperty(Obj([Field("key2", n), Field("key3", v)]), "key3") == Success(v)
  {
    var fs := [Field("key2", n), Field("key3", v)];
    assert "key2" != "key3" by { assert "key2"[3] != "key3"[3]; }
    assert fs[1..] == [Field("key3", v)];
    assert Lookup(fs[1..], "key3") == Some(v);
  }

  /** `Inner()` is decided by `key2` first, then by `key3`. */
  lemma InnerOutcome(o: Value, path: string)
    requires o.Obj?
    ensures !Check(GetProperty(o, "key2").value, Ctor(NumberCtor), None, KeyPath(path, "key2")).Ok? ==>
              Check(o, Inner(), None, path) == Check(GetProperty(o, "key2").value, Ctor(NumberCtor), None, KeyPath(path, "key2"))
    ensures Check(GetProperty(o, "key2").value, Ctor(NumberCtor), None, KeyPath(path, "key2")).Ok? &&
            !Check(GetProperty(o, "key3").value, Or([Undefined, Ctor(StringCtor)]), None, KeyPath(path, "key3")).Ok? ==>
              Check(o, Inner(), None, path)
                == Check(GetProperty(o, "key3").value, Or([Undefined, Ctor(StringCtor)]), None, KeyPath(path, "key3"))
  {
    var fs := Inner().fields;
    InnerUntagged();
    if !Check(GetProperty(o, "key2").value, Ctor(NumberCtor), None, KeyPath(path, "key2")).Ok? {
      StructureFirstFailure(o, fs, None, path, 0);
    } else if !Check(GetProperty(o, "key3").value, Or([Undefined, Ctor(StringCtor)]), None, KeyPath(path, "key3")).Ok? {
      StructureFirstFailure(o, fs, None, path, 1);
    }
  }

  /** `Inner()` against an object whose only key `key2` holds `v` not a number fails under `key2`. */
  lemma InnerKey2Fails(v: Value, path: string)
    requires TypeOf(v) != KNumber && TypeOf(v) != KFunction
    ensures Check(Obj([Field("key2", v)]), Inner(), None, path)
         == Err(Text(Expected(KeyPath(path, "key2"), "number", KindName(TypeOf(v)))))
  {
    var o := Obj([Field("key2", v)]);
    assert GetProperty(o, "key2") == Success(v);
    BuiltinMarker(v, NumberCtor, None, KeyPath(path, "key2"));
    InnerOutcome(o, path);
  }

  /** A `key2` that is not a number fails at `root.key1[2][0].key2`. */
  lemma NestedKey2Mismatch(v: Value)
    requires TypeOf(v) != KNumber && TypeOf(v) != KFunction
    ensures Check(Obj([Field("key1", Arr([Arr([]), Arr([]), Arr([Obj([Field("key2", v)])])]))]), Nested(), None, ROOT)
         == Err(Text(Expected("root.key1[2][0].key2", "number", KindName(TypeOf(v)))))
  {
    NestedPaths();
    InnerKey2Fails(v, IndexPath(IndexPath(KeyPath(ROOT, "key1"), 2), 0));
    ThroughKey1At2At0(Obj([Field("key2", v)]));
  }

  lemma NestedKey2Boolean()
    ensures Check(Obj([Field("key1", Arr([Arr([]), Arr([]), Arr([Obj([Field("key2", Bool(true))])])]))]), Nested(), None, ROOT)
         == Err(Text(Expected("root.key1[2][0].key2", "number", "boolean")))
  {
    NestedKey2Mismatch(Bool(true));
  }

  /** A value that is neither `undefined` nor a string fails both alternatives of `Assert.or(undefined, String)`. */
  lemma UndefinedOrStringFails(v: Value, path: string)
    requires TypeOf(v) != KUndefined && TypeOf(v) != KString && TypeOf(v) != KFunction
    ensures Check(v, Or([Undefined, Ctor(StringCtor)]), None, path)
         == Err(NoneMatched([Text(Expected(path, "undefined", KindName(TypeOf(v)))),
                             Text(Expected(path, "string", KindName(TypeOf(v))))]))
  {
    UndefinedMarker(v, None, path);
    BuiltinMarker(v, StringCtor, None, path);
    TwoAlternativesFail(v, Undefined, Ctor(StringCtor), None, path,
                        Text(Expected(path, "undefined", KindName(TypeOf(v)))),
                        Text(Expected(path, "string", KindName(TypeOf(v)))));
  }

  /** `Inner()` against an object with a number `n` under `key2` and `v` under `key3` fails as `v` fails under `key3`. */
  lemma InnerKey3Fails(n: Value, v: Value, path: string)
    requires n.Num? && TypeOf(v) != KUndefined && TypeOf(v) != KString && TypeOf(v) != KFunction
    ensures Check(Obj([Field("key2", n), Field("key3", v)]), Inner(), None, path)
         == Err(NoneMatched([Text(Expected(KeyPath(path, "key3"), "undefined", KindName(TypeOf(v)))),
                             Text(Expected(KeyPath(path, "key3"), "string", KindName(TypeOf(v))))]))
  {
    var o := Obj([Field("key2", n), Field("key3", v)]);
    InnerLookups(n, v);
    BuiltinMarker(n, NumberCtor, None, KeyPath(path, "key2"));
    UndefinedOrStringFails(v, KeyPath(path, "key3"));
    InnerOutcome(o, path);
  }

  /** A number under `key2` and a `key3` that is neither `undefined` nor a string fail both alternatives at `root.key1[2][0].key3`. */
  lemma NestedKey3NoneMatched(n: Value, v: Value)
    requires n.Num? && TypeOf(v) != KUndefined && TypeOf(v) != KString && TypeOf(v) != KFunction
    ensures Check(Obj([Field("key1", Arr([Arr([]), Arr([]), Arr([Obj([Field("key2", n), Field("key3", v)])])]))]),
                  Nested(), None, ROOT)
         == Err(NoneMatched([Text(Expected("root.key1[2][0].key3", "undefined", KindName(TypeOf(v)))),
                             Text(Expected("root.key1[2][0].key3", "string", KindName(TypeOf(v))))]))
  {
    NestedPaths();
    InnerKey3Fails(n, v, IndexPath(IndexPath(KeyPath(ROOT, "key1"), 2), 0));
    ThroughKey1At2At0(Obj([Field("key2", n), Field("key3", v)]));
  }

  lemma NestedKey3Number()
    ensures Check(Obj([Field("key1", Arr([Arr([]), Arr([]), Arr([Obj([Field("key2", Num(1)), Field("key3", Num(1))])])]))]),
                  Nested(), None, ROOT)
         == Err(NoneMatched([Text(Expected("root.key1[2][0].key3", "undefined", "number")),
                             Text(Expected("root.key1[2][0].key3", "string", "number"))]))
  {
    NestedKey3NoneMatched(Num(1), Num(1));
  }

  /** The thrown `e.message` of that case: the header, then one line per alternative. */
  lemma NestedKey3Message(hostText: HostFault -> string)
    ensures Render(NoneMatched([Text(Expected("root.key1[2][0].key3", "undefined", "number")),
                                Text(Expected("root.key1[2][0].key3", "string", "number"))]), hostText)
         == "None of the types matched:\n" + (Expected("root.key1[2][0].key3", "undefined", "number")
            + "\n" + Expected("root.key1[2][0].key3", "string", "number"))
  {
    RenderTwo(Expected("root.key1[2][0].key3", "undefined", "number"),
              Expected("root.key1[2][0].key3", "string", "number"), hostText);
  }

  // ----- where the code and its tests disagree -----

  /** `check(null, null)`: the code throws a host TypeError at `'__assert' in null`. */
  lemma NullAgainstNull()
    ensures Check(Null, Null, None, ROOT) == HostError(InOperatorOnNull("__assert"))
  {
  }

  /** An array holding `null` against a sequence of the structure with key `a`: the code throws a host TypeError at `null['a']`. */
  lemma NullElementAgainstStructure()
    ensures Check(Arr([Null]), Arr([Obj([Field("a", Num(1))])]), None, ROOT) == HostError(PropertyOfNull("a"))
  {
    NullAgainstStructure([Field("a", Num(1))], None, IndexPath(ROOT, 0));
    SequenceFirstFailure([Null], [Obj([Field("a", Num(1))])], None, ROOT, 0);
  }

  // ----- further cases -----

  /** An object whose `__assert` is `'and'` is a tagged descriptor with an unknown operation. */
  lemma AndTag(actual: Value, path: string)
    ensures Check(actual, Obj([Field("__assert", Str("and"))]), None, path) == Err(Text("Invalid operation: and"))
  {
    assert Str("and") != Str(OR) by { assert "and"[0] != OR[0]; }
    UnknownOperation(actual, [Field("__assert", Str("and"))], Str("and"), None, path);
  }

  /** An unknown tag nested in an alternation becomes one of its collected messages. */
  lemma UnknownTagInsideAlternation()
    ensures Check(Num(1), Or([Obj([Field("__assert", Str("and"))]), Ctor(StringCtor)]), None, ROOT)
         == Err(NoneMatched([Text("Invalid operation: and"), Text(Expected("root", "string", "number"))]))
  {
    AndTag(Num(1), ROOT);
    BuiltinMarker(Num(1), StringCtor, None, ROOT);
    TwoAlternativesFail(Num(1), Obj([Field("__assert", Str("and"))]), Ctor(StringCtor), None, ROOT,
                        Text("Invalid operation: and"), Text(Expected(ROOT, "string", "number")));
  }

  /** The custom message replaces each alternative's message but not the composite header. */
  lemma CustomMessageInsideAlternation()
    ensures Check(Bool(true), StringNumber(), Some("bad"), ROOT) == Err(NoneMatched([Text("bad"), Text("bad")]))
  {
    BuiltinMarker(Bool(true), StringCtor, Some("bad"), ROOT);
    BuiltinMarker(Bool(true), NumberCtor, Some("bad"), ROOT);
    TwoAlternativesFail(Bool(true), Ctor(StringCtor), Ctor(NumberCtor), Some("bad"), ROOT, Text("bad"), Text("bad"));
  }

  /** A descriptor `[]` checks every element against `undefined`. */
  lemma EmptySequenceDescriptor()
    ensures Check(Arr([Num(1)]), Arr([]), None, ROOT) == Err(Text(Expected("root[0]", "undefined", "number")))
  {
    assert IndexPath(ROOT, 0) == "root[0]" by { assert NatDecimal(0) == "0"; }
    UndefinedMarker(Num(1), None, IndexPath(ROOT, 0));
    SequenceFirstFailure([Num(1)], [], None, ROOT, 0);
  }

  /** An array's `length` and its canonical index keys read as properties. */
  lemma ArrayProperties(x: Value)
    ensures GetProperty(Arr([x]), "length") == Success(Num(1))
    ensures GetProperty(Arr([x]), "0") == Success(x)
    ensures GetProperty(Arr([x]), "1") == Success(Undefined)
  {
    assert "0" != "length" && "1" != "length" by {
      assert |"0"| != |"length"|;
    }
    assert NatDecimal(0) == "0";
    assert NatDecimal(0) != "1" by { assert "0"[0] != "1"[0]; }
    assert IndexValue([x], "1", 0) == IndexValue([x], "1", 1) == Undefined;
  }

  /** A one-element array of a string passes a structure descriptor through its `length` and index keys. */
  lemma ArrayAsStructure(x: Value)
    requires x.Str?
    ensures Check(Arr([x]), Obj([Field("length", Num(1)), Field("0", Ctor(StringCtor))]), None, ROOT) == Ok
  {
    var fs := [Field("length", Num(1)), Field("0", Ctor(StringCtor))];
    ArrayProperties(x);
    forall i | 0 <= i < |fs|
      ensures Check(GetProperty(Arr([x]), fs[i].key).value, fs[i].val, None, KeyPath(ROOT, fs[i].key)).Ok?
    {
      if i == 0 {
        assert fs[i] == Field("length", Num(1));
        PrimitiveLiteral(Num(1), Num(1), None, KeyPath(ROOT, "length"));
      } else {
        assert fs[i] == Field("0", Ctor(StringCtor));
        BuiltinMarker(x, StringCtor, None, KeyPath(ROOT, "0"));
      }
    }
    assert Untagged(fs);
    StructureAll(Arr([x]), fs, None, ROOT);
  }

  /** A key past the end of an array reads `undefined`, so `String` fails on it at `path.key`. */
  lemma ArrayPastTheEnd(es: seq<Value>, i: nat)
    requires |es| <= i
    ensures Check(Arr(es), Obj([Field(NatDecimal(i), Ctor(StringCtor))]), None, ROOT)
         == Err(Text(Expected(KeyPath(ROOT, NatDecimal(i)), "string", "undefined")))
  {
    PastTheEndReadsUndefined(es, i);
    BuiltinMarker(Undefined, StringCtor, None, KeyPath(ROOT, NatDecimal(i)));
    assert NatDecimal(i) != "__assert" by {
      NatDecimalLast(i);
      assert "__assert"[7] == 't' != DigitChar(i % 10);
    }
    assert Untagged([Field(NatDecimal(i), Ctor(StringCtor))]);
    StructureFirstFailure(Arr(es), [Field(NatDecimal(i), Ctor(StringCtor))], None, ROOT, 0);
  }

  /** The one-element case: key `"1"` of `[x]`. */
  lemma OnePastTheEnd(x: Value)
    ensures Check(Arr([x]), Obj([Field("1", Ctor(StringCtor))]), None, ROOT)
         == Err(Text(Expected(KeyPath(ROOT, "1"), "string", "undefined")))
  {
    assert NatDecimal(1) == "1";
    ArrayPastTheEnd([x], 1);
  }
}
