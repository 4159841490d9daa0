/**
  What `check` promises, case by case: class markers, sequence and
  structure descriptors, alternation, unknown tags, literals, and the
  fact that the custom message and the path only ever change the message.
 */
module MatcherProperties {
  import opened JsValues
  import opened Matcher

  /** The "Invalid expected function" branch cannot be reached: every class marker is a constructor or `undefined`. */
  lemma ClassMarkerIsConstructorOrUndefined(v: Value)
    requires IsClassMarker(v)
    ensures TypeOf(v) == KFunction <==> v.Ctor?
    ensures TypeOf(v) != KFunction ==> v == Undefined
  {
  }

  // ----- class markers -----

  /**
    A built-in constructor accepts exactly the values whose kind is the
    kind of what it constructs, and otherwise fails with that kind's name.
   */
  lemma BuiltinMarker(actual: Value, c: Builtin, custom: Option<string>, path: string)
    ensures Check(actual, Ctor(c), custom, path).Ok? <==> TypeOf(actual) == ConstructedKind(c)
    ensures TypeOf(actual) != ConstructedKind(c) ==>
              Check(actual, Ctor(c), custom, path) == Fail(actual, Ctor(c), custom, path, KindName(ConstructedKind(c)))
    ensures TypeOf(actual) != ConstructedKind(c) && TypeOf(actual) != KFunction && !Truthy(custom) ==>
              Check(actual, Ctor(c), custom, path)
                == Err(Text(Expected(path, KindName(ConstructedKind(c)), KindName(TypeOf(actual)))))
  {
  }

  /** The `Object` marker accepts `null` and arrays, since both have kind "object". */
  lemma ObjectMarkerAcceptsNullAndArrays(es: seq<Value>, custom: Option<string>, path: string)
    ensures Check(Null, Ctor(ObjectCtor), custom, path) == Ok
    ensures Check(Arr(es), Ctor(ObjectCtor), custom, path) == Ok
  {
  }

  /** The `undefined` marker accepts only `undefined` and otherwise fails with "undefined". */
  lemma UndefinedMarker(actual: Value, custom: Option<string>, path: string)
    ensures Check(actual, Undefined, custom, path).Ok? <==> actual == Undefined
    ensures actual != Undefined && !Truthy(custom) ==>
              Check(actual, Undefined, custom, path)
                == Err(Text(Expected(path, "undefined", KindName(TypeOf(actual)))))
  {
  }

  // ----- sequence descriptors -----

  /** A sequence descriptor rejects a non-array with "array". */
  lemma SequenceRejectsNonArray(actual: Value, ds: seq<Value>, custom: Option<string>, path: string)
    requires !actual.Arr?
    ensures Check(actual, Arr(ds), custom, path) == Fail(actual, Arr(ds), custom, path, "array")
    ensures !Truthy(custom) && TypeOf(actual) != KObject ==>
              Check(actual, Arr(ds), custom, path) == Err(Text(Expected(path, "array", KindName(TypeOf(actual)))))
  {
  }

  lemma {:induction false} ElementsPass(es: seq<Value>, from: nat, d: Value, custom: Option<string>, path: string)
    requires forall i :: from <= i < |es| ==> Check(es[i], d, custom, IndexPath(path, i)).Ok?
    ensures CheckElements(es, from, d, custom, path) == Ok
    decreases |es| - from
  {
    if from < |es| {
      assert Check(es[from], d, custom, IndexPath(path, from)).Ok?;
      ElementsPass(es, from + 1, d, custom, path);
    }
  }

  lemma {:induction false} ElementsFail(es: seq<Value>, from: nat, d: Value, custom: Option<string>, path: string, j: nat)
    requires from <= j < |es| && !Check(es[j], d, custom, IndexPath(path, j)).Ok?
    ensures !CheckElements(es, from, d, custom, path).Ok?
    decreases j - from
  {
    if from < j && Check(es[from], d, custom, IndexPath(path, from)).Ok? {
      ElementsFail(es, from + 1, d, custom, path, j);
    }
  }

  lemma ElementsOk(es: seq<Value>, from: nat, d: Value, custom: Option<string>, path: string)
    ensures CheckElements(es, from, d, custom, path).Ok?
        <==> forall i :: from <= i < |es| ==> Check(es[i], d, custom, IndexPath(path, i)).Ok?
  {
    if forall i :: from <= i < |es| ==> Check(es[i], d, custom, IndexPath(path, i)).Ok? {
      ElementsPass(es, from, d, custom, path);
    } else {
      var j :| from <= j < |es| && !Check(es[j], d, custom, IndexPath(path, j)).Ok?;
      ElementsFail(es, from, d, custom, path, j);
    }
  }

  lemma {:induction false} ElementsFirstFailure(es: seq<Value>, from: nat, d: Value, custom: Option<string>, path: string, j: nat)
    requires from <= j < |es|
    requires forall i :: from <= i < j ==> Check(es[i], d, custom, IndexPath(path, i)).Ok?
    requires !Check(es[j], d, custom, IndexPath(path, j)).Ok?
    ensures CheckElements(es, from, d, custom, path) == Check(es[j], d, custom, IndexPath(path, j))
    decreases j - from
  {
    if from < j {
      ElementsFirstFailure(es, from + 1, d, custom, path, j);
    }
  }

  /**
    An array passes a sequence descriptor iff every element passes its
    first descriptor element, each at `path[i]`.
   */
  lemma SequenceAll(xs: seq<Value>, ds: seq<Value>, custom: Option<string>, path: string)
    ensures Check(Arr(xs), Arr(ds), custom, path).Ok?
        <==> forall i :: 0 <= i < |xs| ==> Check(xs[i], ElementDescriptor(ds), custom, IndexPath(path, i)).Ok?
  {
    ElementsOk(xs, 0, ElementDescriptor(ds), custom, path);
  }

  /** The first failing element decides the error of a sequence descriptor. */
  lemma SequenceFirstFailure(xs: seq<Value>, ds: seq<Value>, custom: Option<string>, path: string, j: nat)
    requires j < |xs|
    requires forall i :: 0 <= i < j ==> Check(xs[i], ElementDescriptor(ds), custom, IndexPath(path, i)).Ok?
    requires !Check(xs[j], ElementDescriptor(ds), custom, IndexPath(path, j)).Ok?
    ensures Check(Arr(xs), Arr(ds), custom, path) == Check(xs[j], ElementDescriptor(ds), custom, IndexPath(path, j))
  {
    ElementsFirstFailure(xs, 0, ElementDescriptor(ds), custom, path, j);
  }

  /** One failing element makes an array fail the one-element sequence descriptor `[d]`. */
  lemma SequenceFails(xs: seq<Value>, d: Value, custom: Option<string>, path: string, j: nat)
    requires j < |xs| && !Check(xs[j], d, custom, IndexPath(path, j)).Ok?
    ensures !Check(Arr(xs), Arr([d]), custom, path).Ok?
  {
    SequenceAll(xs, [d], custom, path);
  }

  /** An empty array passes every sequence descriptor. */
  lemma EmptyArrayPasses(ds: seq<Value>, custom: Option<string>, path: string)
    ensures Check(Arr([]), Arr(ds), custom, path) == Ok
  {
  }

  /** Only the first descriptor element is used; `[]` behaves as `[undefined]`. */
  lemma SequenceUsesFirstElementOnly(actual: Value, d: Value, rest: seq<Value>, custom: Option<string>, path: string)
    ensures Check(actual, Arr([d] + rest), custom, path) == Check(actual, Arr([d]), custom, path)
    ensures Check(actual, Arr([]), custom, path) == Check(actual, Arr([Undefined]), custom, path)
  {
    assert ElementDescriptor([d] + rest) == d && ElementDescriptor([]) == Undefined;
    if !actual.Arr? {
      assert Fail(actual, Arr([d] + rest), custom, path, "array") == Fail(actual, Arr([d]), custom, path, "array");
      assert Fail(actual, Arr([]), custom, path, "array") == Fail(actual, Arr([Undefined]), custom, path, "array");
    }
  }

  // ----- the thrown string -----

  /**
    `errors.join('\n')` on one more message is the join so far, a newline and
    that message's text.
   */
  lemma {:induction false} JoinLinesSnoc(es: seq<Message>, m: Message, hostText: HostFault -> string)
    requires es != []
    ensures JoinLines(es + [m], hostText) == JoinLines(es, hostText) + "\n" + Render(m, hostText)
    decreases |es|
  {
    var xs := es + [m];
    assert xs[0] == es[0];
    if |es| > 1 {
      assert xs[1..] == es[1..] + [m];
      JoinLinesSnoc(es[1..], m, hostText);
    } else {
      assert xs[1..] == [m];
    }
  }

  /**
    A composite prints as the header followed by its messages' texts joined
    with newlines: it always starts with the header, and one more collected
    message adds a newline and that message's text at the end.
   */
  lemma RenderComposite(es: seq<Message>, m: Message, hostText: HostFault -> string)
    ensures StartsWith(Render(NoneMatched(es), hostText), NONE_MATCHED)
    ensures es == [] ==> Render(NoneMatched(es + [m]), hostText) == NONE_MATCHED + Render(m, hostText)
    ensures es != [] ==>
              Render(NoneMatched(es + [m]), hostText) == Render(NoneMatched(es), hostText) + "\n" + Render(m, hostText)
  {
    var r := Render(NoneMatched(es), hostText);
    assert r[..|NONE_MATCHED|] == NONE_MATCHED;
    if es == [] {
      assert es + [m] == [m];
    } else {
      JoinLinesSnoc(es, m, hostText);
    }
  }

  // ----- structure descriptors -----

  /** An untagged object: a structure descriptor. */
  predicate Untagged(fs: seq<Field>) {
    Lookup(fs, "__assert").None?
  }

  /** A structure descriptor rejects a value whose kind is not "object" with "object". */
  lemma StructureRejectsNonObject(actual: Value, fs: seq<Field>, custom: Option<string>, path: string)
    requires Untagged(fs) && TypeOf(actual) != KObject
    ensures !Truthy(custom) ==> Check(actual, Obj(fs), custom, path) == Err(Text(Expected(path, "object", KindName(TypeOf(actual)))))
    ensures Truthy(custom) ==> Check(actual, Obj(fs), custom, path) == Err(Text(custom.value))
  {
  }

  /** One field step of `CheckFields` on a suffix of the descriptor. */
  lemma FieldsStep(actual: Value, fs: seq<Field>, k: nat, custom: Option<string>, path: string)
    requires actual.Obj? || actual.Arr?
    requires k < |fs|
    ensures (var o := Check(GetProperty(actual, fs[k].key).value, fs[k].val, custom, KeyPath(path, fs[k].key));
             CheckFields(actual, fs[k..], custom, path) == if o.Ok? then CheckFields(actual, fs[k + 1..], custom, path) else o)
  {
    var rest := fs[k..];
    assert rest[0] == fs[k] && rest[1..] == fs[k + 1..];
    assert GetProperty(actual, fs[k].key).Success?;
  }

  lemma {:induction false} FieldsPassFrom(actual: Value, fs: seq<Field>, k: nat, custom: Option<string>, path: string)
    requires actual.Obj? || actual.Arr?
    requires k <= |fs|
    requires forall i :: k <= i < |fs| ==> Check(GetProperty(actual, fs[i].key).value, fs[i].val, custom, KeyPath(path, fs[i].key)).Ok?
    ensures CheckFields(actual, fs[k..], custom, path) == Ok
    decreases |fs| - k
  {
    if k < |fs| {
      FieldsStep(actual, fs, k, custom, path);
      FieldsPassFrom(actual, fs, k + 1, custom, path);
    }
  }

  lemma {:induction false} FieldsFirstFailureFrom(actual: Value, fs: seq<Field>, k: nat, custom: Option<string>, path: string, j: nat)
    requires actual.Obj? || actual.Arr?
    requires k <= j < |fs|
    requires forall i :: k <= i < j ==> Check(GetProperty(actual, fs[i].key).value, fs[i].val, custom, KeyPath(path, fs[i].key)).Ok?
    requires !Check(GetProperty(actual, fs[j].key).value, fs[j].val, custom, KeyPath(path, fs[j].key)).Ok?
    ensures CheckFields(actual, fs[k..], custom, path)
         == Check(GetProperty(actual, fs[j].key).value, fs[j].val, custom, KeyPath(path, fs[j].key))
    decreases j - k
  {
    FieldsStep(actual, fs, k, custom, path);
    if k < j {
      FieldsFirstFailureFrom(actual, fs, k + 1, custom, path, j);
    }
  }

  lemma FieldsFirstFailure(actual: Value, fs: seq<Field>, custom: Option<string>, path: string, j: nat)
    requires actual.Obj? || actual.Arr?
    requires j < |fs|
    requires forall i :: 0 <= i < j ==> Check(GetProperty(actual, fs[i].key).value, fs[i].val, custom, KeyPath(path, fs[i].key)).Ok?
    requires !Check(GetProperty(actual, fs[j].key).value, fs[j].val, custom, KeyPath(path, fs[j].key)).Ok?
    ensures CheckFields(actual, fs, custom, path)
         == Check(GetProperty(actual, fs[j].key).value, fs[j].val, custom, KeyPath(path, fs[j].key))
  {
    assert fs[0..] == fs;
    FieldsFirstFailureFrom(actual, fs, 0, custom, path, j);
  }

  lemma {:induction false} FieldsFailFrom(actual: Value, fs: seq<Field>, k: nat, custom: Option<string>, path: string, j: nat)
    requires actual.Obj? || actual.Arr?
    requires k <= j < |fs|
    requires !Check(GetProperty(actual, fs[j].key).value, fs[j].val, custom, KeyPath(path, fs[j].key)).Ok?
    ensures !CheckFields(actual, fs[k..], custom, path).Ok?
    decreases j - k
  {
    FieldsStep(actual, fs, k, custom, path);
    if k < j && Check(GetProperty(actual, fs[k].key).value, fs[k].val, custom, KeyPath(path, fs[k].key)).Ok? {
      FieldsFailFrom(actual, fs, k + 1, custom, path, j);
    }
  }

  lemma FieldsOk(actual: Value, fs: seq<Field>, custom: Option<string>, path: string)
    requires actual.Obj? || actual.Arr?
    ensures CheckFields(actual, fs, custom, path).Ok?
        <==> forall i :: 0 <= i < |fs| ==>
               Check(GetProperty(actual, fs[i].key).value, fs[i].val, custom, KeyPath(path, fs[i].key)).Ok?
  {
    assert fs[0..] == fs;
    if forall i :: 0 <= i < |fs| ==> Check(GetProperty(actual, fs[i].key).value, fs[i].val, custom, KeyPath(path, fs[i].key)).Ok? {
      FieldsPassFrom(actual, fs, 0, custom, path);
    } else {
      var j :| 0 <= j < |fs| && !Check(GetProperty(actual, fs[j].key).value, fs[j].val, custom, KeyPath(path, fs[j].key)).Ok?;
      FieldsFailFrom(actual, fs, 0, custom, path, j);
    }
  }

  /** Against a non-null object-kind value, an untagged descriptor is the walk over its declared fields. */
  lemma StructureIsFields(actual: Value, fs: seq<Field>, custom: Option<string>, path: string)
    requires Untagged(fs) && (actual.Obj? || actual.Arr?)
    ensures Check(actual, Obj(fs), custom, path) == CheckFields(actual, fs, custom, path)
  {
    assert HasProperty(Obj(fs), "__assert") == Success(false);
  }

  /**
    A non-null object-kind value passes a structure descriptor iff each
    declared field's value `actual[key]` passes the field's descriptor at
    `path.key`.
   */
  lemma StructureAll(actual: Value, fs: seq<Field>, custom: Option<string>, path: string)
    requires Untagged(fs) && (actual.Obj? || actual.Arr?)
    ensures Check(actual, Obj(fs), custom, path).Ok?
        <==> forall i :: 0 <= i < |fs| ==>
               Check(GetProperty(actual, fs[i].key).value, fs[i].val, custom, KeyPath(path, fs[i].key)).Ok?
  {
    StructureIsFields(actual, fs, custom, path);
    FieldsOk(actual, fs, custom, path);
  }

  /** The first failing declared field decides the error of a structure descriptor. */
  lemma StructureFirstFailure(actual: Value, fs: seq<Field>, custom: Option<string>, path: string, j: nat)
    requires Untagged(fs) && (actual.Obj? || actual.Arr?)
    requires j < |fs|
    requires forall i :: 0 <= i < j ==> Check(GetProperty(actual, fs[i].key).value, fs[i].val, custom, KeyPath(path, fs[i].key)).Ok?
    requires !Check(GetProperty(actual, fs[j].key).value, fs[j].val, custom, KeyPath(path, fs[j].key)).Ok?
    ensures Check(actual, Obj(fs), custom, path)
         == Check(GetProperty(actual, fs[j].key).value, fs[j].val, custom, KeyPath(path, fs[j].key))
  {
    StructureIsFields(actual, fs, custom, path);
    FieldsFirstFailure(actual, fs, custom, path, j);
  }

  lemma {:induction false} FieldsSeeOnlyDeclaredKeys(a1: Value, a2: Value, fs: seq<Field>, custom: Option<string>, path: string)
    requires TypeOf(a1) == KObject && TypeOf(a2) == KObject
    requires forall i :: 0 <= i < |fs| ==> GetProperty(a1, fs[i].key) == GetProperty(a2, fs[i].key)
    ensures CheckFields(a1, fs, custom, path) == CheckFields(a2, fs, custom, path)
  {
    if fs != [] {
      assert GetProperty(a1, fs[0].key) == GetProperty(a2, fs[0].key);
      assert forall i :: 0 <= i < |fs| - 1 ==> fs[1..][i] == fs[i + 1];
      FieldsSeeOnlyDeclaredKeys(a1, a2, fs[1..], custom, path);
    }
  }

  /**
    A structure descriptor looks only at the keys it declares: two
    object-kind values that agree on those keys get the same outcome, so
    extra keys never matter.
   */
  lemma ExtraKeysIgnored(a1: Value, a2: Value, fs: seq<Field>, custom: Option<string>, path: string)
    requires Untagged(fs)
    requires TypeOf(a1) == KObject && TypeOf(a2) == KObject
    requires forall i :: 0 <= i < |fs| ==> GetProperty(a1, fs[i].key) == GetProperty(a2, fs[i].key)
    ensures Check(a1, Obj(fs), custom, path) == Check(a2, Obj(fs), custom, path)
  {
    FieldsSeeOnlyDeclaredKeys(a1, a2, fs, custom, path);
  }

  /**
    A declared key missing from the actual plain object is read as
    `undefined`: the structure cannot pass unless that key's descriptor
    accepts `undefined`, and when every earlier declared key passes, the
    structure's outcome is that key's outcome for `undefined`.
   */
  lemma MissingKeyIsUndefined(afs: seq<Field>, fs: seq<Field>, j: nat, custom: Option<string>, path: string)
    requires Untagged(fs) && j < |fs| && Lookup(afs, fs[j].key).None?
    ensures GetProperty(Obj(afs), fs[j].key) == Success(Undefined)
    ensures Check(Obj(afs), Obj(fs), custom, path).Ok? ==> Check(Undefined, fs[j].val, custom, KeyPath(path, fs[j].key)).Ok?
    ensures (forall i :: 0 <= i < j ==>
               Check(GetProperty(Obj(afs), fs[i].key).value, fs[i].val, custom, KeyPath(path, fs[i].key)).Ok?) &&
            !Check(Undefined, fs[j].val, custom, KeyPath(path, fs[j].key)).Ok? ==>
              Check(Obj(afs), Obj(fs), custom, path) == Check(Undefined, fs[j].val, custom, KeyPath(path, fs[j].key))
  {
    assert GetProperty(Obj(afs), fs[j].key) == Success(Undefined);
    StructureAll(Obj(afs), fs, custom, path);
    if (forall i :: 0 <= i < j ==>
          Check(GetProperty(Obj(afs), fs[i].key).value, fs[i].val, custom, KeyPath(path, fs[i].key)).Ok?) &&
       !Check(Undefined, fs[j].val, custom, KeyPath(path, fs[j].key)).Ok? {
      StructureFirstFailure(Obj(afs), fs, custom, path, j);
    }
  }

  // ----- alternation -----

  lemma {:induction false} TallyValidFrom(actual: Value, vs: seq<Value>, k: nat, custom: Option<string>, path: string)
    requires k <= |vs|
    ensures TryAlternatives(actual, vs[k..], custom, path).valid
        <==> exists i :: k <= i < |vs| && Check(actual, vs[i], custom, path).Ok?
    decreases |vs| - k
  {
    if k < |vs| {
      TallyStep(actual, vs, k, custom, path);
      TallyValidFrom(actual, vs, k + 1, custom, path);
      if !Check(actual, vs[k], custom, path).Ok? && exists i :: k <= i < |vs| && Check(actual, vs[i], custom, path).Ok? {
        var i :| k <= i < |vs| && Check(actual, vs[i], custom, path).Ok?;
        assert k + 1 <= i;
      }
    }
  }

  lemma TallyValid(actual: Value, vs: seq<Value>, custom: Option<string>, path: string)
    ensures TryAlternatives(actual, vs, custom, path).valid
        <==> exists i :: 0 <= i < |vs| && Check(actual, vs[i], custom, path).Ok?
  {
    assert vs[0..] == vs;
    TallyValidFrom(actual, vs, 0, custom, path);
  }

  lemma TallyErrors(actual: Value, vs: seq<Value>, custom: Option<string>, path: string)
    ensures !TryAlternatives(actual, vs, custom, path).valid ==>
              (forall i :: 0 <= i < |vs| ==> !Check(actual, vs[i], custom, path).Ok?) &&
              |TryAlternatives(actual, vs, custom, path).errors| == |vs| &&
              forall i :: 0 <= i < |vs| ==>
                TryAlternatives(actual, vs, custom, path).errors[i] == Caught(Check(actual, vs[i], custom, path))
  {
    TallyValid(actual, vs, custom, path);
    if !TryAlternatives(actual, vs, custom, path).valid {
      var ms := seq(|vs|, i requires 0 <= i < |vs| => Caught(Check(actual, vs[i], custom, path)));
      assert vs[0..] == vs && ms[0..] == ms;
      TallyAllFailFrom(actual, vs, ms, 0, custom, path);
    }
  }

  lemma TallyOfAlternatives(actual: Value, vs: seq<Value>, custom: Option<string>, path: string)
    ensures TryAlternatives(actual, vs, custom, path).valid
        <==> exists i :: 0 <= i < |vs| && Check(actual, vs[i], custom, path).Ok?
    ensures !TryAlternatives(actual, vs, custom, path).valid ==>
              |TryAlternatives(actual, vs, custom, path).errors| == |vs| &&
              forall i :: 0 <= i < |vs| ==>
                TryAlternatives(actual, vs, custom, path).errors[i] == Caught(Check(actual, vs[i], custom, path))
  {
    TallyValid(actual, vs, custom, path);
    TallyErrors(actual, vs, custom, path);
  }

  /** One alternative of `TryAlternatives` on a suffix of the alternatives. */
  lemma TallyStep(actual: Value, vs: seq<Value>, k: nat, custom: Option<string>, path: string)
    requires k < |vs|
    ensures (var o := Check(actual, vs[k], custom, path);
             var t := TryAlternatives(actual, vs[k + 1..], custom, path);
             TryAlternatives(actual, vs[k..], custom, path)
               == if o.Ok? then Tally(true, t.errors) else Tally(t.valid, [Caught(o)] + t.errors))
  {
    assert vs[k..][0] == vs[k] && vs[k..][1..] == vs[k + 1..];
  }

  lemma {:induction false} TallyAllFailFrom(actual: Value, vs: seq<Value>, ms: seq<Message>, k: nat,
                                             custom: Option<string>, path: string)
    requires |ms| == |vs| && k <= |vs|
    requires forall i :: k <= i < |vs| ==> !Check(actual, vs[i], custom, path).Ok? && Caught(Check(actual, vs[i], custom, path)) == ms[i]
    ensures TryAlternatives(actual, vs[k..], custom, path) == Tally(false, ms[k..])
    decreases |vs| - k
  {
    if k < |vs| {
      TallyStep(actual, vs, k, custom, path);
      assert !Check(actual, vs[k], custom, path).Ok? && Caught(Check(actual, vs[k], custom, path)) == ms[k];
      TallyAllFailFrom(actual, vs, ms, k + 1, custom, path);
      assert ms[k..] == [ms[k]] + ms[k + 1..];
    }
  }

  /** When every alternative fails, the composite error holds their messages in order. */
  lemma AllAlternativesFail(actual: Value, vs: seq<Value>, ms: seq<Message>, custom: Option<string>, path: string)
    requires |ms| == |vs|
    requires forall i :: 0 <= i < |vs| ==> Check(actual, vs[i], custom, path) == Err(ms[i])
    ensures Check(actual, Or(vs), custom, path) == Err(NoneMatched(ms))
  {
    assert vs[0..] == vs && ms[0..] == ms;
    TallyAllFailFrom(actual, vs, ms, 0, custom, path);
    CheckOr(actual, vs, custom, path);
  }

  /**
    `or(v1, ..., vn)` passes iff some alternative passes. Otherwise it
    throws the composite message holding exactly the n messages of the
    alternatives, in declaration order, whatever the custom message.
   */
  lemma Alternation(actual: Value, vs: seq<Value>, custom: Option<string>, path: string)
    ensures Check(actual, Or(vs), custom, path).Ok? <==> exists i :: 0 <= i < |vs| && Check(actual, vs[i], custom, path).Ok?
    ensures !Check(actual, Or(vs), custom, path).Ok? ==>
              Check(actual, Or(vs), custom, path).Err? &&
              Check(actual, Or(vs), custom, path).message.NoneMatched? &&
              |Check(actual, Or(vs), custom, path).message.errors| == |vs| &&
              forall i :: 0 <= i < |vs| ==>
                Check(actual, Or(vs), custom, path).message.errors[i] == Caught(Check(actual, vs[i], custom, path))
  {
    CheckOr(actual, vs, custom, path);
    TallyOfAlternatives(actual, vs, custom, path);
  }

  /** A tagged object whose operation is not "or" throws "Invalid operation: " followed by the operation. */
  lemma UnknownOperation(actual: Value, fs: seq<Field>, op: Value, custom: Option<string>, path: string)
    requires Lookup(fs, "__assert") == Some(op) && op != Str(OR)
    ensures TemplateString(op).Success? ==>
              Check(actual, Obj(fs), custom, path) == Err(Text("Invalid operation: " + TemplateString(op).value))
    ensures TemplateString(op).Failure? ==> Check(actual, Obj(fs), custom, path) == HostError(TemplateString(op).error)
    ensures op.Str? ==> Check(actual, Obj(fs), custom, path) == Err(Text("Invalid operation: " + op.s))
  {
  }

  /** A tagged "or" object whose `values` is not an array hits a host TypeError at `forEach`. */
  lemma AlternativesNotAnArray(actual: Value, fs: seq<Field>, custom: Option<string>, path: string)
    requires Lookup(fs, "__assert") == Some(Str(OR))
    requires Lookup(fs, "values").None? || !Lookup(fs, "values").value.Arr?
    ensures Check(actual, Obj(fs), custom, path)
         == HostError(NotAnArray(if Lookup(fs, "values").Some? then Lookup(fs, "values").value else Undefined))
  {
  }

  // ----- literals -----

  /** A function that is not a class marker matches every function and nothing else. */
  lemma FunctionLiteral(actual: Value, id: nat, source: string, custom: Option<string>, path: string)
    ensures Check(actual, Func(id, source), custom, path).Ok? <==> TypeOf(actual) == KFunction
    ensures TypeOf(actual) != KFunction && !Truthy(custom) ==>
              Check(actual, Func(id, source), custom, path) == Err(Text(Expected(path, source, KindName(TypeOf(actual)))))
  {
  }

  /** A symbol matches every symbol, identity aside, and nothing else. */
  lemma SymbolLiteral(actual: Value, id: nat, description: string, custom: Option<string>, path: string)
    ensures Check(actual, Sym(id, description), custom, path).Ok? <==> TypeOf(actual) == KSymbol
    ensures TypeOf(actual) != KSymbol && !Truthy(custom) ==>
              Check(actual, Sym(id, description), custom, path)
                == Err(Text(Expected(path, "Symbol(" + description + ")", KindName(TypeOf(actual)))))
  {
  }

  /**
    A boolean, number or string literal matches only itself. A mismatch
    is reported with the literal's own text, and shows the actual value
    when it is of the same kind, its kind name otherwise.
   */
  lemma PrimitiveLiteral(actual: Value, expected: Value, custom: Option<string>, path: string)
    requires expected.Bool? || expected.Num? || expected.Str?
    ensures Check(actual, expected, custom, path).Ok? <==> actual == expected
    ensures actual != expected && !Truthy(custom) && TypeOf(actual) == TypeOf(expected) ==>
              Check(actual, expected, custom, path)
                == Err(Text(Expected(path, StringOf(expected).value, StringOf(actual).value)))
    ensures actual != expected && !Truthy(custom) && TypeOf(actual) != TypeOf(expected) ==>
              Check(actual, expected, custom, path)
                == Err(Text(Expected(path, StringOf(expected).value, KindName(TypeOf(actual)))))
  {
  }

  // ----- null -----

  /** `null` as a descriptor reaches `'__assert' in null`: a host TypeError, whatever the actual value. */
  lemma NullDescriptor(actual: Value, custom: Option<string>, path: string)
    ensures Check(actual, Null, custom, path) == HostError(InOperatorOnNull("__assert"))
  {
  }

  /** `null` against a structure descriptor with a declared key reaches `null[key]`: a host TypeError. */
  lemma NullAgainstStructure(fs: seq<Field>, custom: Option<string>, path: string)
    requires Untagged(fs)
    ensures fs != [] ==> Check(Null, Obj(fs), custom, path) == HostError(PropertyOfNull(fs[0].key))
    ensures fs == [] ==> Check(Null, Obj(fs), custom, path) == Ok
  {
  }

  // ----- the custom message and the path never change the verdict -----

  lemma SequenceVerdict(actual: Value, ds: seq<Value>, custom: Option<string>, path: string)
    ensures Check(actual, Arr(ds), custom, path).Ok?
        == (actual.Arr? && CheckElements(actual.elems, 0, ElementDescriptor(ds), custom, path).Ok?)
  {
  }

  lemma OrVerdict(actual: Value, fs: seq<Field>, values: seq<Value>, custom: Option<string>, path: string)
    requires Lookup(fs, "__assert") == Some(Str(OR)) && Lookup(fs, "values") == Some(Arr(values))
    ensures Check(actual, Obj(fs), custom, path).Ok? == TryAlternatives(actual, values, custom, path).valid
  {
    assert GetProperty(Obj(fs), "values") == Success(Arr(values));
  }

  lemma MalformedTagVerdict(actual: Value, fs: seq<Field>, custom: Option<string>, path: string)
    requires Lookup(fs, "__assert").Some?
    requires Lookup(fs, "__assert").value != Str(OR) || Lookup(fs, "values").None? || !Lookup(fs, "values").value.Arr?
    ensures !Check(actual, Obj(fs), custom, path).Ok?
  {
  }

  lemma StructureVerdict(actual: Value, fs: seq<Field>, custom: Option<string>, path: string)
    requires Untagged(fs)
    ensures Check(actual, Obj(fs), custom, path).Ok?
        == (TypeOf(actual) == KObject && CheckFields(actual, fs, custom, path).Ok?)
  {
  }

  lemma {:induction false} VerdictIndependent(actual: Value, expected: Value, c1: Option<string>, c2: Option<string>, p1: string, p2: string)
    ensures Check(actual, expected, c1, p1).Ok? == Check(actual, expected, c2, p2).Ok?
    decreases Size(expected), 1, 0
  {
    match expected
    case Arr(ds) =>
      SequenceVerdict(actual, ds, c1, p1);
      SequenceVerdict(actual, ds, c2, p2);
      if actual.Arr? {
        ElementsVerdictIndependent(actual.elems, 0, ElementDescriptor(ds), c1, c2, p1, p2);
      }
    case Obj(fs) =>
      if Lookup(fs, "__assert").None? {
        StructureVerdict(actual, fs, c1, p1);
        StructureVerdict(actual, fs, c2, p2);
        if TypeOf(actual) == KObject {
          FieldsVerdictIndependent(actual, fs, c1, c2, p1, p2);
        }
      } else if Lookup(fs, "__assert").value == Str(OR) && Lookup(fs, "values").Some? && Lookup(fs, "values").value.Arr? {
        var values := Lookup(fs, "values").value.elems;
        assert Size(Arr(values)) <= SizeFields(fs);
        OrVerdict(actual, fs, values, c1, p1);
        OrVerdict(actual, fs, values, c2, p2);
        TallyVerdictIndependent(actual, values, c1, c2, p1, p2);
      } else {
        MalformedTagVerdict(actual, fs, c1, p1);
        MalformedTagVerdict(actual, fs, c2, p2);
      }
    case Ctor(c) =>
      BuiltinMarker(actual, c, c1, p1);
      BuiltinMarker(actual, c, c2, p2);
    case Undefined =>
      UndefinedMarker(actual, c1, p1);
      UndefinedMarker(actual, c2, p2);
    case Null =>
      NullDescriptor(actual, c1, p1);
      NullDescriptor(actual, c2, p2);
    case Func(id, src) =>
      FunctionLiteral(actual, id, src, c1, p1);
      FunctionLiteral(actual, id, src, c2, p2);
    case Sym(id, d) =>
      SymbolLiteral(actual, id, d, c1, p1);
      SymbolLiteral(actual, id, d, c2, p2);
    case _ =>
      PrimitiveLiteral(actual, expected, c1, p1);
      PrimitiveLiteral(actual, expected, c2, p2);
  }

  lemma {:induction false} ElementsVerdictIndependent(es: seq<Value>, from: nat, d: Value, c1: Option<string>, c2: Option<string>, p1: string, p2: string)
    ensures CheckElements(es, from, d, c1, p1).Ok? == CheckElements(es, from, d, c2, p2).Ok?
    decreases Size(d), 2, |es| - from
  {
    if from < |es| {
      VerdictIndependent(es[from], d, c1, c2, IndexPath(p1, from), IndexPath(p2, from));
      ElementsVerdictIndependent(es, from + 1, d, c1, c2, p1, p2);
    }
  }

  lemma {:induction false} FieldsVerdictIndependent(actual: Value, fs: seq<Field>, c1: Option<string>, c2: Option<string>, p1: string, p2: string)
    requires TypeOf(actual) == KObject
    ensures CheckFields(actual, fs, c1, p1).Ok? == CheckFields(actual, fs, c2, p2).Ok?
    decreases SizeFields(fs), 2, |fs|
  {
    if fs != [] {
      match GetProperty(actual, fs[0].key)
      case Failure(_) =>
      case Success(v) =>
        VerdictIndependent(v, fs[0].val, c1, c2, KeyPath(p1, fs[0].key), KeyPath(p2, fs[0].key));
        FieldsVerdictIndependent(actual, fs[1..], c1, c2, p1, p2);
    }
  }

  lemma {:induction false} TallyVerdictIndependent(actual: Value, vs: seq<Value>, c1: Option<string>, c2: Option<string>, p1: string, p2: string)
    ensures TryAlternatives(actual, vs, c1, p1).valid == TryAlternatives(actual, vs, c2, p2).valid
    decreases SizeSeq(vs), 2, |vs|
  {
    if vs != [] {
      VerdictIndependent(actual, vs[0], c1, c2, p1, p2);
      TallyVerdictIndependent(actual, vs[1..], c1, c2, p1, p2);
    }
  }

  /**
    Under a truthy custom message, whatever `check` throws is that message
    verbatim (or an unknown-operation report), at any depth; alternation
    keeps its composite header around the collected copies.
   */
  lemma CustomMessageEverywhere(actual: Value, expected: Value, custom: string, path: string)
    requires custom != ""
    ensures Check(actual, expected, Some(custom), path).Err? ==>
              CustomOnly(Check(actual, expected, Some(custom), path).message, custom)
    ensures Check(actual, expected, Some(custom), path).Ok? == Check(actual, expected, None, ROOT).Ok?
  {
    VerdictIndependent(actual, expected, Some(custom), None, path, ROOT);
  }
}
