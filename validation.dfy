/**
 * `validateWildcards(expected, actual, path)`: a walk of the original
 * expected tree, with the same shape decisions as substitution, that checks
 * every marker met as the value of a mapping key against the actual value
 * under that key, and throws on the first violation.
 *
 * A throw is a `Fail` outcome carrying the path and what went wrong; the
 * wording of the messages is not modelled.
 */
module Validation {
  import opened JsValues
  import opened Markers
  import opened TraceIds

  /**
   * The collaborators whose code is not part of this model:
   * `isValidUuid`, `isValidUrl` (the WHATWG URL constructor) and
   * `Date.parse` (whether it yields a number rather than NaN).
   */
  datatype Env = Env(isValidUuid: Value -> bool, isValidUrl: Value -> bool, parsesAsDate: string -> bool)

  datatype Error =
    | WrongType(path: string, kind: Kind)       // the `throw` of a failed kind check
    | UnknownWildcard(path: string, tag: Value) // the `default:` case of the switch
    | NullRead(path: string)                    // TypeError: reading `actual[key]` of undefined or null;
                                                // the path records where, the thrown error carries none

  datatype Outcome = Pass | Fail(error: Error)

  /**
   * `${path}.${key}`, or just `key` when the path so far is empty: the
   * child's path starts with the parent's, ends with the key, and the two
   * are joined by exactly one '.' unless the parent is the root.
   */
  function ChildPath(path: string, key: string): (p: string)
    ensures path <= p && |key| <= |p| && p[|p| - |key|..] == key
    ensures path == "" ==> |p| == |key|
    ensures path != "" ==> |p| == |path| + 1 + |key| && p[|path|] == '.'
  {
    if path == "" then key else path + "." + key
  }

  /** `${path}[${index}]`. */
  function IndexPath(path: string, i: nat): (p: string)
    ensures path <= p && |p| > |path|
  {
    path + "[" + IndexKey(i) + "]"
  }

  /**
   * `isValidTraceId(v)`: `RegExp.prototype.test` converts its argument to
   * a string first. For a string that is the string itself; an array
   * converts to its elements' strings joined by "," (undefined and null as
   * ""), so only a one-element array can convert to 32 hex digits. No other
   * modelled value converts to one: "undefined", "null", "true", "false",
   * "[object Object]", a number's decimal or exponent form (at most 21
   * digits), a function's source text and a date's text all fail.
   */
  predicate TraceIdAccepts(v: Value)
    decreases v
  {
    match v
    case Str(s) => IsValidTraceId(s)
    case Arr(xs) => |xs| == 1 && !Nullish(xs[0]) && TraceIdAccepts(xs[0])
    case _ => false
  }

  /** Whether the actual value `v` satisfies the constraint of kind `k`. */
  predicate KindAccepts(env: Env, k: Kind, v: Value) {
    match k
    case Any => true
    case String => v.Str?
    case Number => v.Num?
    case Object => TypeofObject(v) && !v.Null?
    case Array => v.Arr?
    case Function => v.Fn?
    case Uuid => env.isValidUuid(v)
    case TraceId => TraceIdAccepts(v)
    case Url => env.isValidUrl(v)
    case Date => v.DateObj? || (v.Str? && env.parsesAsDate(v.s))
  }

  /** The outcome of a walk that stops at the first failure. */
  function FirstFailure(os: seq<Outcome>): (r: Outcome)
    ensures r.Pass? <==> forall i :: 0 <= i < |os| ==> os[i].Pass?
    ensures r.Fail? ==> exists i :: 0 <= i < |os| && os[i] == r && forall j :: 0 <= j < i ==> os[j].Pass?
  {
    if os == [] then Pass
    else if os[0].Fail? then os[0]
    else
      var r := FirstFailure(os[1..]);
      assert forall j :: 0 <= j < |os[1..]| ==> os[1..][j] == os[j + 1];
      r
  }

  /**
   * The body of the `for...in` loop for one own key `key` of `expected`,
   * whose value is `ev`, with `actual` the actual value at the enclosing
   * level and `path` the path of that level. A marker's tag is read first;
   * `actual[key]` is read without optional chaining, so it throws on a
   * nullish `actual` except for an "any" marker or an unknown tag, which
   * never read it.
   */
  function EntryOutcome(env: Env, ev: Value, actual: Value, key: string, path: string): Outcome
    decreases ev, 1
  {
    var here := ChildPath(path, key);
    if IsWildcard(ev) then
      match KindOfTag(WildcardTag(ev))
      case None => Fail(UnknownWildcard(here, WildcardTag(ev)))
      case Some(k) =>
        if k == Any then Pass
        else if Nullish(actual) then Fail(NullRead(here))
        else if KindAccepts(env, k, Get(actual, key)) then Pass
        else Fail(WrongType(here, k))
    else if Nullish(actual) then Fail(NullRead(here))
    else Validate(env, ev, Get(actual, key), here)
  }

  function Validate(env: Env, expected: Value, actual: Value, path: string): Outcome
    decreases expected, 0
  {
    match expected
    case Arr(items) =>
      FirstFailure(seq(|items|, i requires 0 <= i < |items| =>
        Validate(env, items[i], At(actual, i), IndexPath(path, i))))
    case Obj(props) =>
      FirstFailure(seq(|props|, i requires 0 <= i < |props| =>
        EntryOutcome(env, props[i].1, actual, props[i].0, path)))
    case _ =>
      // Scalars, null and functions return at once; a Date object has no own keys.
      Pass
  }

  /** `validateWildcards(expected, actual)` with the default empty path. */
  function ValidateWildcards(env: Env, expected: Value, actual: Value): Outcome {
    Validate(env, expected, actual, "")
  }

  /** Scalars, null, functions and Date objects in the expected tree never fail. */
  lemma ValidateScalar(env: Env, expected: Value, actual: Value, path: string)
    requires !TypeofObject(expected) || expected.Null? || expected.DateObj?
    ensures Validate(env, expected, actual, path) == Pass
  {
  }

  /**
   * A marker tagged "any" (the factory's or a hand-built one) never fails,
   * whatever the actual value, even an undefined or null parent.
   */
  lemma AnyNeverFails(env: Env, ev: Value, actual: Value, key: string, path: string)
    requires IsWildcard(ev) && KindOfTag(WildcardTag(ev)) == Some(Any)
    ensures EntryOutcome(env, ev, actual, key, path) == Pass
  {
  }

  /**
   * A marker of any other known kind, under key `key`: it fails exactly
   * when the parent cannot be read or the value there is rejected by the
   * kind's check, and the error names the path of the key.
   */
  lemma KnownKindOutcome(env: Env, ev: Value, actual: Value, key: string, path: string, k: Kind)
    requires IsWildcard(ev) && KindOfTag(WildcardTag(ev)) == Some(k) && k != Any
    ensures EntryOutcome(env, ev, actual, key, path).Pass? <==> !Nullish(actual) && KindAccepts(env, k, Get(actual, key))
    ensures Nullish(actual) ==> EntryOutcome(env, ev, actual, key, path) == Fail(NullRead(ChildPath(path, key)))
    ensures !Nullish(actual) && !KindAccepts(env, k, Get(actual, key)) ==>
      EntryOutcome(env, ev, actual, key, path) == Fail(WrongType(ChildPath(path, key), k))
  {
  }

  /** A truthy tag that is not one of the ten kinds always fails, whatever the actual value. */
  lemma UnknownTagFails(env: Env, ev: Value, actual: Value, key: string, path: string)
    requires IsWildcard(ev) && KindOfTag(WildcardTag(ev)) == None
    ensures EntryOutcome(env, ev, actual, key, path) == Fail(UnknownWildcard(ChildPath(path, key), WildcardTag(ev)))
  {
  }

  /** A hand-built marker with a tag outside the ten kinds reaches the default case. */
  lemma UnknownTagExample(env: Env, actual: Value)
    ensures EntryOutcome(env, Obj([(WildcardKey, Str("email"))]), actual, "to", "mail") ==
      Fail(UnknownWildcard("mail.to", Str("email")))
  {
    var ev := Obj([(WildcardKey, Str("email"))]);
    assert WildcardTag(ev) == Str("email");
    assert KindOfTag(Str("email")) == None;
    assert ChildPath("mail", "to") == "mail.to";
    UnknownTagFails(env, ev, actual, "to", "mail");
  }

  /**
   * What each kind accepts: `string`, `number`, `array` and `function`
   * test the type; `object` accepts arrays and Date objects but not null;
   * `traceid` on a string is the trace-id test; `date` accepts a Date object
   * or a string that parses as a date.
   */
  lemma KindSemantics(env: Env, v: Value)
    ensures KindAccepts(env, Any, v)
    ensures KindAccepts(env, String, v) <==> v.Str?
    ensures KindAccepts(env, Number, v) <==> v.Num?
    ensures KindAccepts(env, Array, v) <==> v.Arr?
    ensures KindAccepts(env, Function, v) <==> v.Fn?
    ensures KindAccepts(env, Object, v) <==> v.Obj? || v.Arr? || v.DateObj?
    ensures !KindAccepts(env, Object, Null) && !KindAccepts(env, Object, Fn)
    ensures v.Str? ==> (KindAccepts(env, TraceId, v) <==> IsValidTraceId(v.s))
    ensures !v.Str? && !v.Arr? ==> !KindAccepts(env, TraceId, v)
    ensures KindAccepts(env, Date, v) <==> v.DateObj? || (v.Str? && env.parsesAsDate(v.s))
    ensures KindAccepts(env, Uuid, v) == env.isValidUuid(v) && KindAccepts(env, Url, v) == env.isValidUrl(v)
  {
  }

  /**
   * A mapping passes exactly when every own key passes; when it fails, the
   * error is that of the first key, in enumeration order, that fails.
   */
  lemma ValidateMapping(env: Env, props: seq<(string, Value)>, actual: Value, path: string)
    ensures Validate(env, Obj(props), actual, path).Pass? <==>
      forall i :: 0 <= i < |props| ==> EntryOutcome(env, props[i].1, actual, props[i].0, path).Pass?
    ensures Validate(env, Obj(props), actual, path).Fail? ==>
      exists i :: 0 <= i < |props| &&
        EntryOutcome(env, props[i].1, actual, props[i].0, path) == Validate(env, Obj(props), actual, path) &&
        forall j :: 0 <= j < i ==> EntryOutcome(env, props[j].1, actual, props[j].0, path).Pass?
  {
    var os := seq(|props|, i requires 0 <= i < |props| => EntryOutcome(env, props[i].1, actual, props[i].0, path));
    assert Validate(env, Obj(props), actual, path) == FirstFailure(os);
    assert forall i :: 0 <= i < |props| ==> os[i] == EntryOutcome(env, props[i].1, actual, props[i].0, path);
  }

  /**
   * An array is checked element by element: element `i` against
   * `actual?.[i]` under the path `path[i]`; the first failing element's
   * error is the array's.
   */
  lemma ValidateArray(env: Env, items: seq<Value>, actual: Value, path: string)
    ensures Validate(env, Arr(items), actual, path).Pass? <==>
      forall i :: 0 <= i < |items| ==> Validate(env, items[i], At(actual, i), IndexPath(path, i)).Pass?
    ensures Validate(env, Arr(items), actual, path).Fail? ==>
      exists i :: 0 <= i < |items| &&
        Validate(env, items[i], At(actual, i), IndexPath(path, i)) == Validate(env, Arr(items), actual, path) &&
        forall j :: 0 <= j < i ==> Validate(env, items[j], At(actual, j), IndexPath(path, j)).Pass?
  {
    var os := seq(|items|, i requires 0 <= i < |items| => Validate(env, items[i], At(actual, i), IndexPath(path, i)));
    assert Validate(env, Arr(items), actual, path) == FirstFailure(os);
    assert forall i :: 0 <= i < |items| ==> os[i] == Validate(env, items[i], At(actual, i), IndexPath(path, i));
  }

  /** Every error names a path that extends the path of the level where the walk started. */
  lemma {:induction false} ErrorPathExtends(env: Env, expected: Value, actual: Value, path: string)
    ensures Validate(env, expected, actual, path).Fail? ==> path <= Validate(env, expected, actual, path).error.path
    decreases expected
  {
    var r := Validate(env, expected, actual, path);
    if r.Fail? {
      match expected
      case Arr(items) =>
        ValidateArray(env, items, actual, path);
        var i :| 0 <= i < |items| && Validate(env, items[i], At(actual, i), IndexPath(path, i)) == r;
        ErrorPathExtends(env, items[i], At(actual, i), IndexPath(path, i));
      case Obj(props) =>
        ValidateMapping(env, props, actual, path);
        var i :| 0 <= i < |props| && EntryOutcome(env, props[i].1, actual, props[i].0, path) == r;
        var here := ChildPath(path, props[i].0);
        assert path <= here;
        if !IsWildcard(props[i].1) && !Nullish(actual) {
          ErrorPathExtends(env, props[i].1, Get(actual, props[i].0), here);
        }
      case _ =>
    }
  }

  /**
   * A marker that is not the value of a mapping key (the top-level
   * expected value, or an array element) is walked as the plain mapping
   * `{ __wildcard: tag }`: its kind is never checked; the walk only throws
   * when the actual value there is undefined or null.
   */
  lemma MarkerItselfNotChecked(env: Env, k: Kind, actual: Value, path: string)
    ensures Validate(env, Make(k), actual, path) ==
      if Nullish(actual) then Fail(NullRead(ChildPath(path, WildcardKey))) else Pass
  {
    var tag := Str(Tag(k));
    assert !IsWildcard(tag) by {
      WildcardIsObject(tag);
    }
    assert Validate(env, Make(k), actual, path) == FirstFailure([EntryOutcome(env, tag, actual, WildcardKey, path)]);
  }

  /**
   * A tree with no marker in key position never reports a kind violation
   * or an unknown tag: it can only throw on reading a property of an
   * undefined or null actual value.
   */
  lemma {:induction false} MarkerFreeOnlyNullReads(env: Env, expected: Value, actual: Value, path: string)
    requires NoKeyMarkers(expected)
    ensures Validate(env, expected, actual, path).Fail? ==> Validate(env, expected, actual, path).error.NullRead?
    decreases expected
  {
    var r := Validate(env, expected, actual, path);
    if r.Fail? {
      match expected
      case Arr(items) =>
        ValidateArray(env, items, actual, path);
        var i :| 0 <= i < |items| && Validate(env, items[i], At(actual, i), IndexPath(path, i)) == r;
        MarkerFreeOnlyNullReads(env, items[i], At(actual, i), IndexPath(path, i));
      case Obj(props) =>
        ValidateMapping(env, props, actual, path);
        var i :| 0 <= i < |props| && EntryOutcome(env, props[i].1, actual, props[i].0, path) == r;
        if !Nullish(actual) {
          MarkerFreeOnlyNullReads(env, props[i].1, Get(actual, props[i].0), ChildPath(path, props[i].0));
        }
      case _ =>
    }
  }

  /** No value of a mapping key, at any depth, is recognised as a marker. */
  predicate NoKeyMarkers(v: Value)
    decreases v
  {
    match v
    case Arr(items) => forall i :: 0 <= i < |items| ==> NoKeyMarkers(items[i])
    case Obj(props) => forall i :: 0 <= i < |props| ==> !IsWildcard(props[i].1) && NoKeyMarkers(props[i].1)
    case _ => true
  }
}
