/**
  The structural matcher: `Assert.or`, the private `fail` closure and
  `Assert.check` with its six ordered dispatch cases. A thrown error is an
  outcome value; the recursive cases that the source writes as `forEach`
  loops whose only effect is to throw are recursions over the sequence.
 */
module Matcher {
  import opened JsValues

  /** The operation tag of an alternation descriptor. */
  const OR: string := "or"

  /** The path every top-level check starts from. */
  const ROOT: string := "root"

  /**
    The message of a thrown error. `Text` is a message the matcher builds,
    `HostText` the message of a host TypeError (whose wording belongs to
    the engine), `NoneMatched` the composite an alternation throws, holding
    the messages it collected.
   */
  datatype Message =
    | Text(text: string)
    | HostText(fault: HostFault)
    | NoneMatched(errors: seq<Message>)

  /** How a call to `check` ends: it returns, throws an `Error`, or hits a host TypeError. */
  datatype Outcome = Ok | Err(message: Message) | HostError(fault: HostFault)

  /** What the alternation loop has gathered: the `valid` flag and the `errors` array. */
  datatype Tally = Tally(valid: bool, errors: seq<Message>)

  /** The header of the composite alternation message. */
  const NONE_MATCHED: string := "None of the types matched:\n"

  /** `e.message` as read by the alternation's `catch`. */
  function Caught(o: Outcome): Message
    requires !o.Ok?
  {
    if o.Err? then o.message else HostText(o.fault)
  }

  /** The string a message is; `hostText` gives the engine's wording of a TypeError. */
  function Render(m: Message, hostText: HostFault -> string): string
    decreases m
  {
    match m
    case Text(s) => s
    case HostText(f) => hostText(f)
    case NoneMatched(es) => NONE_MATCHED + JoinLines(es, hostText)
  }

  /** `errors.join('\n')`. */
  function JoinLines(es: seq<Message>, hostText: HostFault -> string): string
    decreases es
  {
    if es == [] then ""
    else if |es| == 1 then Render(es[0], hostText)
    else Render(es[0], hostText) + "\n" + JoinLines(es[1..], hostText)
  }

  function StartsWith(s: string, prefix: string): bool {
    |prefix| <= |s| && s[..|prefix|] == prefix
  }

  /**
    Every message the matcher itself wrote names `path` (or a path below
    it), or reports an unknown operation tag.
   */
  predicate Located(m: Message, path: string)
    decreases m
  {
    match m
    case Text(s) => StartsWith(s, "Expected " + path) || StartsWith(s, "Invalid operation: ")
    case HostText(_) => true
    case NoneMatched(es) => forall i :: 0 <= i < |es| ==> Located(es[i], path)
  }

  /** Every message the matcher itself wrote is the custom message, or reports an unknown operation tag. */
  predicate CustomOnly(m: Message, custom: string)
    decreases m
  {
    match m
    case Text(s) => s == custom || StartsWith(s, "Invalid operation: ")
    case HostText(_) => true
    case NoneMatched(es) => forall i :: 0 <= i < |es| ==> CustomOnly(es[i], custom)
  }

  /** `if (customErrorMessage)`: present and not the empty string. */
  predicate Truthy(custom: Option<string>) {
    custom.Some? && custom.value != ""
  }

  function IndexPath(path: string, i: int): string {
    path + "[" + Decimal(i) + "]"
  }

  function KeyPath(path: string, key: string): string {
    path + "." + key
  }

  /** The generated failure message. */
  function Expected(path: string, wanted: string, act: string): string {
    "Expected " + path + " to be " + wanted + "; Actual: " + act
  }

  /** The members of the `classes` list: the six constructors and `undefined`. */
  predicate IsClassMarker(v: Value) {
    v.Ctor? || v.Undefined?
  }

  /** `Assert.or(...values)`: a tagged object holding the alternatives. */
  function Or(values: seq<Value>): (r: Value)
    ensures r.Obj? && Lookup(r.fields, "__assert") == Some(Str(OR))
    ensures Lookup(r.fields, "values") == Some(Arr(values))
  {
    Obj([Field("__assert", Str(OR)), Field("values", Arr(values))])
  }

  /**
    The `fail` closure: the custom message verbatim when it is truthy;
    otherwise "Expected <path> to be <wanted>; Actual: <act>", where `act`
    is the actual value when it has the expected value's kind and the
    kind's name otherwise.
   */
  function Fail(actual: Value, expected: Value, custom: Option<string>, path: string, wanted: string): (r: Outcome)
    ensures !r.Ok?
    ensures Truthy(custom) ==> r == Err(Text(custom.value))
    ensures !Truthy(custom) && TypeOf(actual) != TypeOf(expected) ==>
              r == Err(Text(Expected(path, wanted, KindName(TypeOf(actual)))))
    ensures !Truthy(custom) && TypeOf(actual) == TypeOf(expected) && TemplateString(actual).Success? ==>
              r == Err(Text(Expected(path, wanted, TemplateString(actual).value)))
    ensures !Truthy(custom) && TypeOf(actual) == TypeOf(expected) && TemplateString(actual).Failure? ==>
              r == HostError(TemplateString(actual).error)
    ensures !Truthy(custom) && r.Err? ==> Located(r.message, path)
    ensures Truthy(custom) && r.Err? ==> CustomOnly(r.message, custom.value)
  {
    if Truthy(custom) then Err(Text(custom.value))
    else
      var shown := if TypeOf(actual) == TypeOf(expected) then TemplateString(actual)
                   else Success(KindName(TypeOf(actual)));
      match shown
      case Failure(f) => HostError(f)
      case Success(act) => Err(Text(Expected(path, wanted, act)))
  }

  /** `expected[0]` of a sequence descriptor; `undefined` when it is empty. */
  function ElementDescriptor(ds: seq<Value>): (r: Value)
    ensures Size(r) < Size(Arr(ds))
  {
    if |ds| > 0 then ds[0] else Undefined
  }

  /** A message located at a path below `path` is located at `path`. */
  lemma {:induction false} LocatedBelow(m: Message, path: string, suffix: string)
    requires Located(m, path + suffix)
    ensures Located(m, path)
    decreases m
  {
    match m
    case Text(s) =>
      var x := "Expected " + path;
      if StartsWith(s, "Expected " + (path + suffix)) {
        assert "Expected " + (path + suffix) == x + suffix;
        assert s[..|x|] == (x + suffix)[..|x|] == x;
      }
    case HostText(_) =>
    case NoneMatched(es) =>
      forall i | 0 <= i < |es| ensures Located(es[i], path) {
        LocatedBelow(es[i], path, suffix);
      }
  }

  lemma LocatedBelowIndex(o: Outcome, path: string, i: int)
    requires o.Err? && Located(o.message, IndexPath(path, i))
    ensures Located(o.message, path)
  {
    assert IndexPath(path, i) == path + ("[" + Decimal(i) + "]");
    LocatedBelow(o.message, path, "[" + Decimal(i) + "]");
  }

  lemma LocatedBelowKey(o: Outcome, path: string, key: string)
    requires o.Err? && Located(o.message, KeyPath(path, key))
    ensures Located(o.message, path)
  {
    assert KeyPath(path, key) == path + ("." + key);
    LocatedBelow(o.message, path, "." + key);
  }

  /**
    `Assert.check(actual, expected, custom, path)`. The dispatch follows
    the source's order: sequence descriptor, class marker, tagged object,
    structure descriptor, function or symbol literal, strict equality.
    Every message the matcher writes names `path`, unless a truthy custom
    message replaces it everywhere below.
   */
  function Check(actual: Value, expected: Value, custom: Option<string>, path: string): (r: Outcome)
    ensures !Truthy(custom) && r.Err? ==> Located(r.message, path)
    ensures Truthy(custom) && r.Err? ==> CustomOnly(r.message, custom.value)
    decreases Size(expected), 1, 0
  {
    if expected.Arr? then
      if !actual.Arr? then Fail(actual, expected, custom, path, "array")
      else CheckElements(actual.elems, 0, ElementDescriptor(expected.elems), custom, path)
    else if IsClassMarker(expected) then
      // The source's third branch ("Invalid expected function") is
      // unreachable: a class marker is a constructor or `undefined`.
      if TypeOf(expected) == KFunction then
        var kind := ConstructedKind(expected.ctor);
        if TypeOf(actual) != kind then Fail(actual, expected, custom, path, KindName(kind)) else Ok
      else
        if !actual.Undefined? then Fail(actual, expected, custom, path, "undefined") else Ok
    else if TypeOf(expected) == KObject then
      match HasProperty(expected, "__assert")
      case Failure(f) => HostError(f)
      case Success(tagged) =>
        if tagged then
          var op := GetProperty(expected, "__assert").value;
          if StrictEquals(op, Str(OR)) then
            match GetProperty(expected, "values").value
            case Arr(values) =>
              assert Size(Arr(values)) <= SizeFields(expected.fields);
              var t := TryAlternatives(actual, values, custom, path);
              if t.valid then Ok else Err(NoneMatched(t.errors))
            case other => HostError(NotAnArray(other))
          else
            match TemplateString(op)
            case Failure(f) => HostError(f)
            case Success(s) => Err(Text("Invalid operation: " + s))
        else if TypeOf(actual) != KObject then Fail(actual, expected, custom, path, "object")
        else CheckFields(actual, expected.fields, custom, path)
    else if (TypeOf(expected) == KFunction || TypeOf(expected) == KSymbol) && TypeOf(actual) == TypeOf(expected) then
      Ok
    else if !StrictEquals(actual, expected) then
      match StringOf(expected)
      case Failure(f) => HostError(f)
      case Success(wanted) => Fail(actual, expected, custom, path, wanted)
    else
      Ok
  }

  /** The `actual.forEach` of the sequence case, from index `from` on: the first failure is thrown. */
  function CheckElements(elems: seq<Value>, from: nat, desc: Value, custom: Option<string>, path: string): (r: Outcome)
    ensures !Truthy(custom) && r.Err? ==> Located(r.message, path)
    ensures Truthy(custom) && r.Err? ==> CustomOnly(r.message, custom.value)
    decreases Size(desc), 2, |elems| - from
  {
    if from >= |elems| then Ok
    else
      var o := Check(elems[from], desc, custom, IndexPath(path, from));
      if !o.Ok? then
        if o.Err? && !Truthy(custom) then LocatedBelowIndex(o, path, from); o else o
      else CheckElements(elems, from + 1, desc, custom, path)
  }

  /** The `Object.keys(expected).forEach` of the structure case: the first failure is thrown. */
  function CheckFields(actual: Value, fields: seq<Field>, custom: Option<string>, path: string): (r: Outcome)
    requires TypeOf(actual) == KObject
    ensures !Truthy(custom) && r.Err? ==> Located(r.message, path)
    ensures Truthy(custom) && r.Err? ==> CustomOnly(r.message, custom.value)
    decreases SizeFields(fields), 2, |fields|
  {
    if fields == [] then Ok
    else
      match GetProperty(actual, fields[0].key)
      case Failure(f) => HostError(f)
      case Success(v) =>
        var o := Check(v, fields[0].val, custom, KeyPath(path, fields[0].key));
        if !o.Ok? then
          if o.Err? && !Truthy(custom) then LocatedBelowKey(o, path, fields[0].key); o else o
        else CheckFields(actual, fields[1..], custom, path)
  }

  /**
    The alternation's `values.forEach`: every alternative is run against
    the same actual value and path; a success sets `valid`, a failure
    contributes its message, in declaration order.
   */
  function TryAlternatives(actual: Value, values: seq<Value>, custom: Option<string>, path: string): (t: Tally)
    ensures !Truthy(custom) ==> forall i :: 0 <= i < |t.errors| ==> Located(t.errors[i], path)
    ensures Truthy(custom) ==> forall i :: 0 <= i < |t.errors| ==> CustomOnly(t.errors[i], custom.value)
    decreases SizeSeq(values), 2, |values|
  {
    if values == [] then Tally(false, [])
    else
      var o := Check(actual, values[0], custom, path);
      var rest := TryAlternatives(actual, values[1..], custom, path);
      if o.Ok? then Tally(true, rest.errors) else Tally(rest.valid, [Caught(o)] + rest.errors)
  }

  /** One iteration of the alternation loop: the body of the `try` / `catch`. */
  function Step(t: Tally, o: Outcome): Tally {
    if o.Ok? then Tally(true, t.errors) else Tally(t.valid, t.errors + [Caught(o)])
  }

  /** Running one more alternative extends the tally by one loop step. */
  lemma {:induction false} TryAlternativesSnoc(actual: Value, values: seq<Value>, v: Value, custom: Option<string>, path: string)
    ensures TryAlternatives(actual, values + [v], custom, path)
         == Step(TryAlternatives(actual, values, custom, path), Check(actual, v, custom, path))
  {
    if values != [] {
      assert (values + [v])[0] == values[0] && (values + [v])[1..] == values[1..] + [v];
      TryAlternativesSnoc(actual, values[1..], v, custom, path);
    } else {
      assert (values + [v])[1..] == [];
    }
  }

  /** `check` on `Assert.or(...values)` is decided by the tally of the alternatives. */
  lemma CheckOr(actual: Value, values: seq<Value>, custom: Option<string>, path: string)
    ensures Check(actual, Or(values), custom, path)
         == (var t := TryAlternatives(actual, values, custom, path);
             if t.valid then Ok else Err(NoneMatched(t.errors)))
  {
    var e := Or(values);
    assert HasProperty(e, "__assert") == Success(true);
    assert GetProperty(e, "__assert") == Success(Str(OR));
    assert GetProperty(e, "values") == Success(Arr(values));
  }

  /**
    The alternation's loop written as the source writes it: a `valid` flag
    and an `errors` array updated alternative by alternative, in order.
   */
  method TallyAlternatives(actual: Value, values: seq<Value>, custom: Option<string>, path: string) returns (valid: bool, errors: seq<Message>)
    ensures Tally(valid, errors) == TryAlternatives(actual, values, custom, path)
  {
    valid := false;
    errors := [];
    var i := 0;
    while i < |values|
      invariant 0 <= i <= |values|
      invariant Tally(valid, errors) == TryAlternatives(actual, values[..i], custom, path)
    {
      var o := Check(actual, values[i], custom, path);
      if o.Ok? {
        valid := true;
      } else {
        errors := errors + [Caught(o)];
      }
      TryAlternativesSnoc(actual, values[..i], values[i], custom, path);
      assert values[..i + 1] == values[..i] + [values[i]];
      i := i + 1;
    }
    assert values[..i] == values;
  }

  /**
    The alternation branch: the loop over the alternatives, then the
    composite error when nothing matched. It computes what `check` does
    on `Assert.or(...values)`.
   */
  method RunAlternation(actual: Value, values: seq<Value>, custom: Option<string>, path: string) returns (r: Outcome)
    ensures r == Check(actual, Or(values), custom, path)
  {
    var valid, errors := TallyAlternatives(actual, values, custom, path);
    CheckOr(actual, values, custom, path);
    if !valid {
      r := Err(NoneMatched(errors));
    } else {
      r := Ok;
    }
  }
}
