/** The descriptors and values the repository's tests use. */
module Fixtures {
  import opened JsValues
  import opened Matcher

  /** Two distinct arrow functions with the same source text and two distinct `Symbol()` values. */
  function Arrow1(): Value { Func(1, "() => {}") }
  function Arrow2(): Value { Func(2, "() => {}") }
  function Symbol1(): Value { Sym(1, "") }
  function Symbol2(): Value { Sym(2, "") }

  function StringNumber(): Value { Or([Ctor(StringCtor), Ctor(NumberCtor)]) }
  function StringOrArray(): Value { Or([Ctor(StringCtor), Arr([Ctor(StringCtor)])]) }
  function BooleanOrArrayOr(): Value { Or([Ctor(BooleanCtor), Arr([StringNumber()])]) }
  function ExactOr(): Value { Or([Ctor(BooleanCtor), Str("hello"), Num(55)]) }

  /** The field list of the dictionary test's descriptor: `a` a number, `b` a string, `c` an array of booleans or objects. */
  function DictionaryDescriptor(): seq<Field> {
    [Field("a", Ctor(NumberCtor)), Field("b", Ctor(StringCtor)), Field("c", Arr([Or([Ctor(BooleanCtor), Ctor(ObjectCtor)])]))]
  }

  /** The descriptor of the nested-error test. */
  function Inner(): Value { Obj([Field("key2", Ctor(NumberCtor)), Field("key3", Or([Undefined, Ctor(StringCtor)]))]) }
  function Nested(): Value { Obj([Field("key1", Arr([Arr([Inner()])]))]) }
}
