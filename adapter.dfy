/**
 * `createExpectWithWildCard(actual)`: a wildcard-aware stand-in for
 * `expect(actual)` whose methods substitute, delegate to the underlying
 * assertion library, and then validate the original expected value.
 *
 * The assertion library is a parameter: `chai` says whether a delegated
 * call passes. The methods are attached by name, as the source attaches
 * them, to the tables `to` and `to.deep`.
 */
module Adapter {
  import opened JsValues
  import opened Markers
  import opened Substitution
  import opened Validation

  /** `expect(actual).to.method(...args)`, or `expect(actual).to.deep.method(...args)`. */
  datatype Delegation = Delegation(actual: Value, deep: bool, name: string, args: seq<Value>)

  /**
   * What the adapter relies on and this model does not contain: the
   * validators, the assertion library's verdict, and JavaScript's
   * conversion of a non-string property name to a key.
   */
  datatype Host = Host(env: Env, chai: Delegation -> bool, propertyKey: Value -> string)

  datatype Failure =
    | AssertionFailed(call: Delegation)  // the library's own assertion error, unchanged
    | Raised(error: Error)               // an error thrown by the adapter or the validator
    | NotAFunction(name: string)         // calling a name outside the attached tables

  datatype Result = Ok | Err(failure: Failure)

  /** The closures `createMethod(method)` and `createDeepMethod(method)`. */
  datatype Handler = Plain(name: string) | Deep(name: string)

  /** The object returned: the bound actual value and the two method tables. */
  datatype ExpectWithWildCard = ExpectWithWildCard(actual: Value, to: map<string, Handler>, deep: map<string, Handler>)

  const PlainMethods: seq<string> := ["equal", "eql", "property", "include", "members", "keys"]
  const DeepMethods: seq<string> := ["equal", "include", "eql"]

  /**
   * Builds the tables with the two `forEach` loops: every name of
   * `methods` is bound under `to` to its plain handler, every name of
   * `deepMethods` under `to.deep` to its deep handler, and nothing else.
   */
  method CreateExpectWithWildCard(actual: Value) returns (w: ExpectWithWildCard)
    ensures w.actual == actual
    ensures forall name :: name in w.to <==> name in PlainMethods
    ensures forall name :: name in w.to ==> w.to[name] == Plain(name)
    ensures forall name :: name in w.deep <==> name in DeepMethods
    ensures forall name :: name in w.deep ==> w.deep[name] == Deep(name)
  {
    var to: map<string, Handler> := map[];
    for i := 0 to |PlainMethods|
      invariant forall name :: name in to <==> name in PlainMethods[..i]
      invariant forall name :: name in to ==> to[name] == Plain(name)
    {
      var m := PlainMethods[i];
      assert PlainMethods[..i + 1] == PlainMethods[..i] + [m];
      to := to[m := Plain(m)];
    }
    assert PlainMethods[..|PlainMethods|] == PlainMethods;
    var deep: map<string, Handler> := map[];
    for i := 0 to |DeepMethods|
      invariant forall name :: name in deep <==> name in DeepMethods[..i]
      invariant forall name :: name in deep ==> deep[name] == Deep(name)
    {
      var m := DeepMethods[i];
      assert DeepMethods[..i + 1] == DeepMethods[..i] + [m];
      deep := deep[m := Deep(m)];
    }
    assert DeepMethods[..|DeepMethods|] == DeepMethods;
    w := ExpectWithWildCard(actual, to, deep);
  }

  /** The property key `actual[expected]` reads. */
  function KeyOf(host: Host, name: Value): string {
    if name.Str? then name.s else host.propertyKey(name)
  }

  /** What a handler hands to the library, or the error thrown before it gets there. */
  datatype Step = Call(call: Delegation) | Threw(error: Error)

  function Delegate(host: Host, actual: Value, h: Handler, expected: Value, args: seq<Value>): Step {
    match h
    case Plain(m) =>
      if m == "property" && |args| > 0 then
        // `actual[expected]` is read without optional chaining.
        if Nullish(actual) then Threw(NullRead(KeyOf(host, expected)))
        else Call(Delegation(actual, false, "property",
                             [expected, Substituted(args[0], Get(actual, KeyOf(host, expected)))]))
      else Call(Delegation(actual, false, m, [Substituted(expected, actual)] + args))
    case Deep(m) =>
      // The deep closures take only `expected`; further arguments are dropped.
      Call(Delegation(actual, true, m, [Substituted(expected, actual)]))
  }

  /** One call of a handler: substitute and delegate, then validate the original expected value. */
  function Invoke(host: Host, actual: Value, h: Handler, expected: Value, args: seq<Value>): Result {
    match Delegate(host, actual, h, expected, args)
    case Threw(e) => Err(Raised(e))
    case Call(d) =>
      if !host.chai(d) then Err(AssertionFailed(d))
      else
        match ValidateWildcards(host.env, expected, actual)
        case Pass => Ok
        case Fail(e) => Err(Raised(e))
  }

  /** `w.to[name](expected, ...args)`. */
  function CallTo(host: Host, w: ExpectWithWildCard, name: string, expected: Value, args: seq<Value>): Result {
    if name in w.to then Invoke(host, w.actual, w.to[name], expected, args) else Err(NotAFunction(name))
  }

  /** `w.to.deep[name](expected, ...args)`. */
  function CallDeep(host: Host, w: ExpectWithWildCard, name: string, expected: Value, args: seq<Value>): Result {
    if name in w.deep then Invoke(host, w.actual, w.deep[name], expected, args) else Err(NotAFunction(name))
  }

  /**
   * A call succeeds exactly when the library accepts the delegated call
   * and validation of the original expected value against the actual
   * value passes; both are needed.
   */
  lemma InvokeSucceedsIff(host: Host, actual: Value, h: Handler, expected: Value, args: seq<Value>)
    ensures Invoke(host, actual, h, expected, args).Ok? <==>
      Delegate(host, actual, h, expected, args).Call? &&
      host.chai(Delegate(host, actual, h, expected, args).call) &&
      ValidateWildcards(host.env, expected, actual).Pass?
  {
  }

  /**
   * The library's failure is reported unchanged and first; a validation
   * failure is reported even when the library accepted the call.
   */
  lemma InvokeFailureOrder(host: Host, actual: Value, h: Handler, expected: Value, args: seq<Value>)
    requires Delegate(host, actual, h, expected, args).Call?
    ensures !host.chai(Delegate(host, actual, h, expected, args).call) ==>
      Invoke(host, actual, h, expected, args) == Err(AssertionFailed(Delegate(host, actual, h, expected, args).call))
    ensures host.chai(Delegate(host, actual, h, expected, args).call) && ValidateWildcards(host.env, expected, actual).Fail? ==>
      Invoke(host, actual, h, expected, args) == Err(Raised(ValidateWildcards(host.env, expected, actual).error))
  {
  }

  /**
   * Generic methods hand the library the substituted expected value
   * followed by the extra arguments, verbatim; deep methods hand it the
   * substituted expected value alone.
   */
  lemma GenericDelegation(host: Host, actual: Value, h: Handler, expected: Value, args: seq<Value>)
    requires !(h.Plain? && h.name == "property" && |args| > 0)
    ensures Delegate(host, actual, h, expected, args).Call?
    ensures Delegate(host, actual, h, expected, args).call.actual == actual
    ensures Delegate(host, actual, h, expected, args).call.name == h.name
    ensures Delegate(host, actual, h, expected, args).call.deep == h.Deep?
    ensures h.Plain? ==> Delegate(host, actual, h, expected, args).call.args == [Substituted(expected, actual)] + args
    ensures h.Deep? ==> Delegate(host, actual, h, expected, args).call.args == [Substituted(expected, actual)]
  {
  }

  /** Deep methods ignore every argument after `expected`. */
  lemma DeepIgnoresExtraArgs(host: Host, actual: Value, m: string, expected: Value, args: seq<Value>)
    ensures Invoke(host, actual, Deep(m), expected, args) == Invoke(host, actual, Deep(m), expected, [])
  {
  }

  /**
   * `property(name, value, ...)`: only `value` is substituted, against
   * `actual[name]`; the arguments after it are dropped; a nullish actual
   * value throws before the library is reached; and validation of a string
   * name never fails, so the call succeeds exactly when the library accepts.
   */
  lemma PropertyWithValue(host: Host, actual: Value, name: Value, args: seq<Value>)
    requires |args| > 0
    ensures Nullish(actual) ==> Invoke(host, actual, Plain("property"), name, args) == Err(Raised(NullRead(KeyOf(host, name))))
    ensures !Nullish(actual) ==> (Delegate(host, actual, Plain("property"), name, args) ==
      Call(Delegation(actual, false, "property", [name, Substituted(args[0], Get(actual, KeyOf(host, name)))])))
    ensures !Nullish(actual) && name.Str? ==>
      (Invoke(host, actual, Plain("property"), name, args).Ok? <==> host.chai(Delegate(host, actual, Plain("property"), name, args).call))
  {
  }

  /**
   * A marker given as the property value is not replaced: being the
   * top-level value of its own substitution, it is walked as a plain
   * mapping and handed to the library as it is.
   */
  lemma PropertyMarkerNotSubstituted(host: Host, actual: Value, name: string, k: Kind)
    requires !Nullish(actual)
    ensures Delegate(host, actual, Plain("property"), Str(name), [Make(k)]) ==
      Call(Delegation(actual, false, "property", [Str(name), Make(k)]))
  {
    MarkerItselfUnchanged(k, Get(actual, name));
  }

  /** `property(name)` with no value does no wildcard work at all. */
  lemma PropertyWithoutValue(host: Host, actual: Value, name: string)
    ensures Invoke(host, actual, Plain("property"), Str(name), []) ==
      if host.chai(Delegation(actual, false, "property", [Str(name)])) then Ok
      else Err(AssertionFailed(Delegation(actual, false, "property", [Str(name)])))
  {
    SubstituteScalar(Str(name), actual);
    assert [Substituted(Str(name), actual)] + [] == [Str(name)];
    ValidateScalar(host.env, Str(name), actual, "");
  }

  /** Calls through the tables reach the handler attached under the name, and only attached names. */
  lemma CallDispatch(host: Host, w: ExpectWithWildCard, name: string, expected: Value, args: seq<Value>)
    requires forall n :: n in w.to <==> n in PlainMethods
    requires forall n :: n in w.to ==> w.to[n] == Plain(n)
    requires forall n :: n in w.deep <==> n in DeepMethods
    requires forall n :: n in w.deep ==> w.deep[n] == Deep(n)
    ensures CallTo(host, w, name, expected, args) ==
      if name in PlainMethods then Invoke(host, w.actual, Plain(name), expected, args) else Err(NotAFunction(name))
    ensures CallDeep(host, w, name, expected, args) ==
      if name in DeepMethods then Invoke(host, w.actual, Deep(name), expected, []) else Err(NotAFunction(name))
  {
  }

  /**
   * Substitution and validation agree on what a marker stands for: the
   * value the validator checks under a marker key is the value the
   * library is given at that key.
   */
  lemma MarkerChecksSubstitutedValue(env: Env, props: seq<(string, Value)>, actual: Value, path: string, i: nat, k: Kind)
    requires i < |props| && IsWildcard(props[i].1) && KindOfTag(WildcardTag(props[i].1)) == Some(k) && k != Any
    requires !Nullish(actual)
    ensures EntryOutcome(env, props[i].1, actual, props[i].0, path).Pass? <==>
      KindAccepts(env, k, Substituted(Obj(props), actual).props[i].1)
  {
    SubstituteMapping(props, actual);
    KnownKindOutcome(env, props[i].1, actual, props[i].0, path, k);
  }

  /**
   * A tree with no marker in key position and no Date object (the side
   * condition under which substitution is the identity) has no marker in
   * key position in the sense validation uses.
   */
  lemma {:induction false} MarkerFreeHasNoKeyMarkers(v: Value)
    requires MarkerFree(v)
    ensures NoKeyMarkers(v)
    decreases v
  {
    match v
    case Arr(items) =>
      forall i | 0 <= i < |items| ensures NoKeyMarkers(items[i]) {
        MarkerFreeHasNoKeyMarkers(items[i]);
      }
    case Obj(props) =>
      forall i | 0 <= i < |props| ensures NoKeyMarkers(props[i].1) {
        MarkerFreeHasNoKeyMarkers(props[i].1);
      }
    case _ =>
  }

  /**
   * With no marker in key position and no Date object, an assertion
   * reduces to the library's own: it is given the expected value
   * unchanged, and validation can only add a TypeError for a property read
   * of an undefined or null actual value.
   */
  lemma MarkerFreeReducesToLibrary(host: Host, actual: Value, h: Handler, expected: Value, args: seq<Value>)
    requires MarkerFree(expected)
    requires !(h.Plain? && h.name == "property" && |args| > 0)
    ensures Delegate(host, actual, h, expected, args).call.args[0] == expected
    ensures Invoke(host, actual, h, expected, args).Err? && Invoke(host, actual, h, expected, args).failure.Raised? ==>
      Invoke(host, actual, h, expected, args).failure.error.NullRead?
  {
    SubstituteMarkerFree(expected, actual);
    MarkerFreeHasNoKeyMarkers(expected);
    MarkerFreeOnlyNullReads(host.env, expected, actual, "");
  }

  const ExampleUuid: string := "550e8400-e29b-41d4-a716-446655440000"

  /** `{ user: { id: uuid(), name: "Ann" }, tags: ["a", any()] }` */
  const NestedExpected: Value :=
    Obj([("user", Obj([("id", Make(Uuid)), ("name", Str("Ann"))])), ("tags", Arr([Str("a"), Make(Any)]))])

  /** `{ user: { id: "550e8400-...", name: "Ann" }, tags: ["a", 42] }` */
  const NestedActual: Value :=
    Obj([("user", Obj([("id", Str(ExampleUuid)), ("name", Str("Ann"))])), ("tags", Arr([Str("a"), Num(42)]))])

  /**
   * The nested example: the uuid marker under `user.id` is replaced by the
   * actual id, but the `any()` marker inside the array is kept as the
   * mapping `{ __wildcard: "any" }`, so what the library is given differs
   * from the actual value at `tags[1]`.
   */
  lemma NestedExampleSubstitution()
    ensures Substituted(NestedExpected, NestedActual) ==
      Obj([("user", Obj([("id", Str(ExampleUuid)), ("name", Str("Ann"))])), ("tags", Arr([Str("a"), Make(Any)]))])
    ensures Substituted(NestedExpected, NestedActual) != NestedActual
  {
    var user := Obj([("id", Make(Uuid)), ("name", Str("Ann"))]);
    var tags := Arr([Str("a"), Make(Any)]);
    var actualUser := Obj([("id", Str(ExampleUuid)), ("name", Str("Ann"))]);
    var actualTags := Arr([Str("a"), Num(42)]);
    NestedExampleReads();
    NestedExampleUser();
    NestedExampleTags();
    assert !IsWildcard(user) && !IsWildcard(tags);
    var r := Substituted(NestedExpected, NestedActual);
    assert r.props[0] == ("user", actualUser);
    assert r.props[1] == ("tags", tags);
    assert r.props == [("user", actualUser), ("tags", tags)];
    assert r.props[1].1.elems[1] != NestedActual.props[1].1.elems[1];
  }

  /** The property reads the example performs. */
  lemma NestedExampleReads()
    ensures Get(NestedActual, "user") == Obj([("id", Str(ExampleUuid)), ("name", Str("Ann"))])
    ensures Get(NestedActual, "tags") == Arr([Str("a"), Num(42)])
    ensures Get(Obj([("id", Str(ExampleUuid)), ("name", Str("Ann"))]), "id") == Str(ExampleUuid)
    ensures Get(Obj([("id", Str(ExampleUuid)), ("name", Str("Ann"))]), "name") == Str("Ann")
  {
    LookupFirst(NestedActual.props, 1);
    LookupFirst([("id", Str(ExampleUuid)), ("name", Str("Ann"))], 1);
  }

  lemma NestedExampleUser()
    ensures Substituted(Obj([("id", Make(Uuid)), ("name", Str("Ann"))]), Obj([("id", Str(ExampleUuid)), ("name", Str("Ann"))])) ==
      Obj([("id", Str(ExampleUuid)), ("name", Str("Ann"))])
  {
    var user := Obj([("id", Make(Uuid)), ("name", Str("Ann"))]);
    var actualUser := Obj([("id", Str(ExampleUuid)), ("name", Str("Ann"))]);
    NestedExampleReads();
    assert !IsWildcard(Str("Ann"));
    var r := Substituted(user, actualUser);
    assert r.props[0] == ("id", Str(ExampleUuid));
    assert r.props[1] == ("name", Str("Ann"));
    assert r.props == actualUser.props;
  }

  lemma NestedExampleTags()
    ensures Substituted(Arr([Str("a"), Make(Any)]), Arr([Str("a"), Num(42)])) == Arr([Str("a"), Make(Any)])
  {
    var tags := [Str("a"), Make(Any)];
    var actualTags := Arr([Str("a"), Num(42)]);
    MarkerInArrayUnchanged(tags, actualTags, 1, Any);
    var r := Substituted(Arr(tags), actualTags);
    assert r.elems[0] == Str("a");
    assert r.elems == tags;
  }

  /** Validation of the nested example passes when the id is a valid UUID. */
  lemma NestedExampleValidation(env: Env)
    requires env.isValidUuid(Str(ExampleUuid))
    ensures ValidateWildcards(env, NestedExpected, NestedActual) == Pass
  {
    NestedExampleUserValid(env);
    NestedExampleTagsValid(env);
    ValidateMapping(env, NestedExpected.props, NestedActual, "");
  }

  lemma NestedExampleUserValid(env: Env)
    requires env.isValidUuid(Str(ExampleUuid))
    ensures EntryOutcome(env, Obj([("id", Make(Uuid)), ("name", Str("Ann"))]), NestedActual, "user", "") == Pass
  {
    var user := Obj([("id", Make(Uuid)), ("name", Str("Ann"))]);
    var actualUser := Obj([("id", Str(ExampleUuid)), ("name", Str("Ann"))]);
    NestedExampleReads();
    assert ChildPath("", "user") == "user";
    assert !IsWildcard(user) && !IsWildcard(Str("Ann"));
    assert EntryOutcome(env, Make(Uuid), actualUser, "id", "user") == Pass;
    assert EntryOutcome(env, Str("Ann"), actualUser, "name", "user") == Pass;
    ValidateMapping(env, user.props, actualUser, "user");
  }

  lemma NestedExampleTagsValid(env: Env)
    ensures EntryOutcome(env, Arr([Str("a"), Make(Any)]), NestedActual, "tags", "") == Pass
  {
    var tags := Arr([Str("a"), Make(Any)]);
    var actualTags := Arr([Str("a"), Num(42)]);
    NestedExampleReads();
    assert ChildPath("", "tags") == "tags";
    assert !IsWildcard(tags);
    MarkerItselfNotChecked(env, Any, At(actualTags, 1), IndexPath("tags", 1));
    assert Validate(env, Str("a"), At(actualTags, 0), IndexPath("tags", 0)) == Pass;
    ValidateArray(env, tags.elems, actualTags, "tags");
  }
}
