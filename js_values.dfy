/**
  The slice of JavaScript's value universe that the matcher observes:
  the values it is handed, what `typeof` says about them, how they are
  turned into text by a template literal and by `String(...)`, and how a
  property is read from an object-kind value.
 */
module JsValues {

  datatype Option<+T> = None | Some(value: T)

  datatype Result<+T, +E> = Success(value: T) | Failure(error: E)

  /** The six built-in constructors the matcher treats as class markers. */
  datatype Builtin = BooleanCtor | FunctionCtor | NumberCtor | ObjectCtor | StringCtor | SymbolCtor

  /** The answers `typeof` can give for the values modelled here. */
  datatype Kind = KUndefined | KObject | KBoolean | KNumber | KString | KFunction | KSymbol

  /**
    A runtime value. Functions and symbols carry an identity and the text
    JavaScript prints for them; a built-in constructor is its own variant.
    A plain object lists its own fields in key order; an array lists its
    elements. Objects and arrays carry no identity of their own.
   */
  datatype Value =
    | Undefined
    | Null
    | Bool(b: bool)
    | Num(n: int)
    | Str(s: string)
    | Func(fnId: nat, source: string)
    | Ctor(ctor: Builtin)
    | Sym(symId: nat, description: string)
    | Obj(fields: seq<Field>)
    | Arr(elems: seq<Value>)

  datatype Field = Field(key: string, val: Value)

  /** The TypeErrors the host raises on the paths the matcher can take. */
  datatype HostFault =
    | InOperatorOnNull(key: string)    // `key in null`
    | PropertyOfNull(key: string)      // `null[key]`
    | NotAnArray(values: Value)        // `values.forEach(...)` on a non-array
    | SymbolToString                   // a symbol inside a template literal

  /** What `typeof v` evaluates to. */
  function TypeOf(v: Value): Kind {
    match v
    case Undefined => KUndefined
    case Null => KObject
    case Bool(_) => KBoolean
    case Num(_) => KNumber
    case Str(_) => KString
    case Func(_, _) => KFunction
    case Ctor(_) => KFunction
    case Sym(_, _) => KSymbol
    case Obj(_) => KObject
    case Arr(_) => KObject
  }

  /** The string `typeof` returns for a kind. */
  function KindName(k: Kind): string {
    match k
    case KUndefined => "undefined"
    case KObject => "object"
    case KBoolean => "boolean"
    case KNumber => "number"
    case KString => "string"
    case KFunction => "function"
    case KSymbol => "symbol"
  }

  /** `typeof C()` for a built-in constructor `C` called without arguments. */
  function ConstructedKind(c: Builtin): Kind {
    match c
    case BooleanCtor => KBoolean
    case FunctionCtor => KFunction
    case NumberCtor => KNumber
    case ObjectCtor => KObject
    case StringCtor => KString
    case SymbolCtor => KSymbol
  }

  function BuiltinName(c: Builtin): string {
    match c
    case BooleanCtor => "Boolean"
    case FunctionCtor => "Function"
    case NumberCtor => "Number"
    case ObjectCtor => "Object"
    case StringCtor => "String"
    case SymbolCtor => "Symbol"
  }

  function DigitChar(d: nat): char
    requires d < 10
  {
    "0123456789"[d]
  }

  /** Decimal digits of a natural number, most significant first. */
  function NatDecimal(n: nat): (r: string)
    ensures |r| > 0
    ensures n >= 10 ==> |r| >= 2
  {
    if n < 10 then [DigitChar(n)] else NatDecimal(n / 10) + [DigitChar(n % 10)]
  }

  /** The last digit printed is the units digit. */
  lemma NatDecimalLast(n: nat)
    ensures NatDecimal(n)[|NatDecimal(n)| - 1] == DigitChar(n % 10)
  {
  }

  /**
    How JavaScript prints an integral number below 2^53 in magnitude (the
    model's numbers are unbounded; see README for larger ones).
   */
  function Decimal(n: int): string {
    if n < 0 then "-" + NatDecimal(-n) else NatDecimal(n)
  }

  /** Two naturals with the same decimal text are equal. */
  lemma {:induction false} NatDecimalInjective(m: nat, n: nat)
    ensures NatDecimal(m) == NatDecimal(n) ==> m == n
  {
    if NatDecimal(m) == NatDecimal(n) {
      if m >= 10 && n >= 10 {
        var a, b := NatDecimal(m / 10), NatDecimal(n / 10);
        assert NatDecimal(m) == a + [DigitChar(m % 10)];
        assert NatDecimal(n) == b + [DigitChar(n % 10)];
        assert |a| == |b|;
        assert a == NatDecimal(m)[..|a|] == NatDecimal(n)[..|b|] == b;
        NatDecimalInjective(m / 10, n / 10);
        assert DigitChar(m % 10) == NatDecimal(m)[|a|] == NatDecimal(n)[|b|] == DigitChar(n % 10);
      } else if m < 10 && n < 10 {
        assert DigitChar(m) == NatDecimal(m)[0] == NatDecimal(n)[0] == DigitChar(n);
      }
    }
  }

  /**
    Termination measure for descriptors: leaves weigh nothing, every array
    or object one more than its parts.
   */
  function Size(v: Value): nat
    decreases v
  {
    match v
    case Arr(es) => 1 + SizeSeq(es)
    case Obj(fs) => 1 + SizeFields(fs)
    case _ => 0
  }

  function SizeSeq(es: seq<Value>): nat
    decreases es
  {
    if es == [] then 0 else Size(es[0]) + SizeSeq(es[1..])
  }

  function SizeFields(fs: seq<Field>): nat
    decreases fs
  {
    if fs == [] then 0 else Size(fs[0].val) + SizeFields(fs[1..])
  }

  /** The value stored under `key` in a field list, looking at the first match. */
  function Lookup(fs: seq<Field>, key: string): (r: Option<Value>)
    ensures r.Some? ==> Size(r.value) <= SizeFields(fs)
    ensures r.None? <==> forall i :: 0 <= i < |fs| ==> fs[i].key != key
  {
    if fs == [] then None
    else if fs[0].key == key then Some(fs[0].val)
    else Lookup(fs[1..], key)
  }

  /** The element of an array named by a canonical index key, if any. */
  function IndexValue(es: seq<Value>, key: string, i: nat): Value
    decreases |es| - i
  {
    if i >= |es| then Undefined
    else if NatDecimal(i) == key then es[i]
    else IndexValue(es, key, i + 1)
  }

  /** Scanning from any position up to `i`, the canonical key of element `i` finds that element. */
  lemma {:induction false} IndexValueFinds(es: seq<Value>, i: nat, k: nat)
    requires k <= i < |es|
    ensures IndexValue(es, NatDecimal(i), k) == es[i]
    decreases i - k
  {
    if k < i {
      NatDecimalInjective(k, i);
      IndexValueFinds(es, i, k + 1);
    }
  }

  /** Reading an array at the decimal text of an in-bounds index gives that element. */
  lemma IndexKeyReadsElement(es: seq<Value>, i: nat)
    requires i < |es|
    ensures GetProperty(Arr(es), NatDecimal(i)) == Success(es[i])
  {
    assert NatDecimal(i) != "length" by {
      NatDecimalLast(i);
      assert "length"[5] == 'h' != DigitChar(i % 10);
    }
    IndexValueFinds(es, i, 0);
  }

  /** Scanning from any position, the canonical key of an index past the end finds nothing. */
  lemma {:induction false} IndexValueMisses(es: seq<Value>, i: nat, k: nat)
    requires |es| <= i
    ensures IndexValue(es, NatDecimal(i), k) == Undefined
    decreases |es| - k
  {
    if k < |es| {
      NatDecimalInjective(k, i);
      IndexValueMisses(es, i, k + 1);
    }
  }

  /** Reading an array at the decimal text of an index past its end gives `undefined`. */
  lemma PastTheEndReadsUndefined(es: seq<Value>, i: nat)
    requires |es| <= i
    ensures GetProperty(Arr(es), NatDecimal(i)) == Success(Undefined)
  {
    assert NatDecimal(i) != "length" by {
      NatDecimalLast(i);
      assert "length"[5] == 'h' != DigitChar(i % 10);
    }
    IndexValueMisses(es, i, 0);
  }

  /**
    `v[key]` for an object-kind value: an own field of a plain object, an
    element or the length of an array, a TypeError for `null`.
   */
  function GetProperty(v: Value, key: string): Result<Value, HostFault>
    requires TypeOf(v) == KObject
  {
    if v.Null? then Failure(PropertyOfNull(key))
    else if v.Obj? then
      Success(match Lookup(v.fields, key) case Some(x) => x case None => Undefined)
    else if key == "length" then Success(Num(|v.elems|))
    else Success(IndexValue(v.elems, key, 0))
  }

  /** `key in v` for `null` or a plain object. */
  function HasProperty(v: Value, key: string): Result<bool, HostFault>
    requires v.Null? || v.Obj?
  {
    if v.Null? then Failure(InOperatorOnNull(key)) else Success(Lookup(v.fields, key).Some?)
  }

  /** The text a template literal produces for an interpolated value, or the TypeError it raises. */
  function TemplateString(v: Value): Result<string, HostFault>
    decreases v
  {
    match v
    case Undefined => Success("undefined")
    case Null => Success("null")
    case Bool(b) => Success(if b then "true" else "false")
    case Num(n) => Success(Decimal(n))
    case Str(s) => Success(s)
    case Func(_, source) => Success(source)
    case Ctor(c) => Success("function " + BuiltinName(c) + "() { [native code] }")
    case Sym(_, _) => Failure(SymbolToString)
    case Obj(_) => Success("[object Object]")
    case Arr(es) => JoinElements(es)
  }

  /** `Array.prototype.join(",")`: `null` and `undefined` elements print as nothing. */
  function JoinElements(es: seq<Value>): Result<string, HostFault>
    decreases es
  {
    if es == [] then Success("")
    else
      var head := if es[0].Undefined? || es[0].Null? then Success("") else TemplateString(es[0]);
      if |es| == 1 then head
      else
        match head
        case Failure(f) => Failure(f)
        case Success(h) =>
          match JoinElements(es[1..])
          case Failure(f) => Failure(f)
          case Success(t) => Success(h + "," + t)
  }

  /** `String(v)`: as a template literal, except that a symbol prints as `Symbol(description)`. */
  function StringOf(v: Value): Result<string, HostFault> {
    if v.Sym? then Success("Symbol(" + v.description + ")") else TemplateString(v)
  }

  /** `a === b` when `b` is not an object or array, the only case the matcher compares. */
  predicate StrictEquals(a: Value, b: Value)
    requires !b.Obj? && !b.Arr?
  {
    a == b
  }
}
