/**
 * `replaceWildcards(expected, actual)`: the rewrite of an expected tree in
 * which each marker that is the value of a mapping key is replaced by the
 * actual value under the same key, so that the result can be handed to an
 * exact deep-equality check.
 *
 * `Substituted` is the specification; `ReplaceWildcards` is the procedure
 * as the source writes it (a `map` over arrays, a `for...in` loop filling a
 * fresh result object).
 */
module Substitution {
  import opened JsValues
  import opened Markers

  /** The rewritten value of one entry `key: ev` of an expected mapping. */
  function SubstitutedValue(ev: Value, actual: Value, key: string): Value
    decreases ev, 1
  {
    if IsWildcard(ev) then Get(actual, key) else Substituted(ev, Get(actual, key))
  }

  function Substituted(expected: Value, actual: Value): Value
    decreases expected, 0
  {
    match expected
    case Arr(items) =>
      Arr(seq(|items|, i requires 0 <= i < |items| => Substituted(items[i], At(actual, i))))
    case Obj(props) =>
      Obj(seq(|props|, i requires 0 <= i < |props| =>
        (props[i].0, SubstitutedValue(props[i].1, actual, props[i].0))))
    case DateObj =>
      // `typeof` is "object" and a Date has no own enumerable keys.
      Obj([])
    case _ =>
      expected
  }

  method ReplaceWildcards(expected: Value, actual: Value) returns (r: Value)
    ensures r == Substituted(expected, actual)
    decreases expected, 2
  {
    if !TypeofObject(expected) || expected.Null? {
      r := expected;
    } else if expected.Arr? {
      r := MapElements(expected, actual);
    } else {
      r := FillResult(expected, actual);
    }
  }

  /** `expected.map((item, index) => replaceWildcards(item, actual?.[index]))`. */
  method MapElements(expected: Value, actual: Value) returns (r: Value)
    requires expected.Arr?
    ensures r == Substituted(expected, actual)
    decreases expected, 1
  {
    var items := expected.elems;
    var mapped: seq<Value> := [];
    for i := 0 to |items|
      invariant |mapped| == i
      invariant forall j :: 0 <= j < i ==> mapped[j] == Substituted(items[j], At(actual, j))
    {
      var item := ReplaceWildcards(items[i], At(actual, i));
      mapped := mapped + [item];
    }
    r := Arr(mapped);
  }

  /**
   * The `for...in` loop over the own keys of `expected` that fills a fresh
   * `result` object. A Date object has no own enumerable keys, so the loop
   * does nothing for it.
   */
  method FillResult(expected: Value, actual: Value) returns (r: Value)
    requires expected.Obj? || expected.DateObj?
    ensures r == Substituted(expected, actual)
    decreases expected, 1
  {
    var props := if expected.Obj? then expected.props else [];
    var result: seq<(string, Value)> := [];
    for i := 0 to |props|
      invariant |result| == i
      invariant forall j :: 0 <= j < i ==> result[j] == (props[j].0, SubstitutedValue(props[j].1, actual, props[j].0))
    {
      var v := FillEntry(props[i].1, actual, props[i].0);
      result := result + [(props[i].0, v)];
    }
    r := Obj(result);
  }

  /** The body of the `for...in` loop: `result[key]` for the entry `key: value`. */
  method FillEntry(value: Value, actual: Value, key: string) returns (v: Value)
    ensures v == SubstitutedValue(value, actual, key)
    decreases value, 3
  {
    if IsWildcard(value) {
      v := Get(actual, key);
    } else {
      v := ReplaceWildcards(value, Get(actual, key));
    }
  }

  /** A non-object or null expected value comes back unchanged, whatever the actual value. */
  lemma SubstituteScalar(expected: Value, actual: Value)
    requires !TypeofObject(expected) || expected.Null?
    ensures Substituted(expected, actual) == expected
  {
  }

  /**
   * An array comes back as an array of the same length whose element `i`
   * is element `i` substituted against `actual[i]`, which is undefined when
   * `actual` has no such element or cannot be indexed.
   */
  lemma SubstituteArray(items: seq<Value>, actual: Value)
    ensures Substituted(Arr(items), actual).Arr?
    ensures |Substituted(Arr(items), actual).elems| == |items|
    ensures forall i :: 0 <= i < |items| ==> Substituted(Arr(items), actual).elems[i] == Substituted(items[i], At(actual, i))
    ensures actual.Arr? ==> forall i :: 0 <= i < |items| ==>
      Substituted(Arr(items), actual).elems[i] == Substituted(items[i], if i < |actual.elems| then actual.elems[i] else Undefined)
    ensures !(actual.Arr? || actual.Str? || actual.Obj?) ==> forall i :: 0 <= i < |items| ==>
      Substituted(Arr(items), actual).elems[i] == Substituted(items[i], Undefined)
  {
  }

  /**
   * A mapping comes back as a mapping with exactly the keys of the
   * expected one, in the same order. A key whose value is a marker takes
   * the actual value at that key, unchecked and undefined when missing;
   * any other key holds its value substituted against the actual value at
   * that key.
   */
  lemma SubstituteMapping(props: seq<(string, Value)>, actual: Value)
    ensures Substituted(Obj(props), actual).Obj?
    ensures Keys(Substituted(Obj(props), actual).props) == Keys(props)
    ensures forall i :: 0 <= i < |props| && IsWildcard(props[i].1) ==>
      Substituted(Obj(props), actual).props[i].1 == Get(actual, props[i].0)
    ensures forall i :: 0 <= i < |props| && !IsWildcard(props[i].1) ==>
      Substituted(Obj(props), actual).props[i].1 == Substituted(props[i].1, Get(actual, props[i].0))
  {
  }

  /** A Date object in the expected tree is rewritten to an empty plain object. */
  lemma SubstituteDate(actual: Value)
    ensures Substituted(DateObj, actual) == Obj([])
  {
  }

  /**
   * A marker that is not the value of a mapping key (the top-level
   * expected value, or an array element) is walked as the plain mapping
   * `{ __wildcard: tag }`: its tag is a string, returned unchanged, so the
   * marker itself comes back unchanged.
   */
  lemma MarkerItselfUnchanged(k: Kind, actual: Value)
    ensures Substituted(Make(k), actual) == Make(k)
  {
    var tag := Str(Tag(k));
    assert !IsWildcard(tag) by {
      WildcardIsObject(tag);
    }
    assert SubstitutedValue(tag, actual, WildcardKey) == tag;
    var r := Substituted(Make(k), actual);
    assert r.props[0] == (WildcardKey, tag);
    assert r.props == Make(k).props;
  }

  /** So a marker placed directly in an array is never replaced. */
  lemma MarkerInArrayUnchanged(items: seq<Value>, actual: Value, i: nat, k: Kind)
    requires i < |items| && items[i] == Make(k)
    ensures Substituted(Arr(items), actual).elems[i] == Make(k)
  {
    MarkerItselfUnchanged(k, At(actual, i));
  }

  /**
   * A tree without markers in key position and without Date objects: the
   * trees on which substitution is the identity, for every actual value
   * (`SubstituteMarkerFree`), and the only ones (`IdentityIsMarkerFree`).
   */
  predicate MarkerFree(v: Value)
    decreases v
  {
    match v
    case Arr(items) => forall i :: 0 <= i < |items| ==> MarkerFree(items[i])
    case Obj(props) => forall i :: 0 <= i < |props| ==> !IsWildcard(props[i].1) && MarkerFree(props[i].1)
    case DateObj => false
    case _ => true
  }

  /** With no markers, substitution is the identity, whatever the actual value. */
  lemma {:induction false} SubstituteMarkerFree(expected: Value, actual: Value)
    requires MarkerFree(expected)
    ensures Substituted(expected, actual) == expected
    decreases expected
  {
    match expected
    case Arr(items) =>
      var r := Substituted(expected, actual).elems;
      forall i | 0 <= i < |items| ensures r[i] == items[i] {
        SubstituteMarkerFree(items[i], At(actual, i));
      }
      assert r == items;
    case Obj(props) =>
      var r := Substituted(expected, actual).props;
      forall i | 0 <= i < |props| ensures r[i] == props[i] {
        assert !IsWildcard(props[i].1) && MarkerFree(props[i].1);
        SubstituteMarkerFree(props[i].1, Get(actual, props[i].0));
        assert r[i] == (props[i].0, SubstitutedValue(props[i].1, actual, props[i].0));
      }
      assert r == props;
    case _ =>
  }

  /**
   * Conversely, a tree that substitution against `undefined` leaves
   * unchanged has no marker in key position (it would become undefined)
   * and no Date object (it would become `{}`).
   */
  lemma {:induction false} IdentityIsMarkerFree(expected: Value)
    requires Substituted(expected, Undefined) == expected
    ensures MarkerFree(expected)
    decreases expected
  {
    match expected
    case Arr(items) =>
      var r := Substituted(expected, Undefined).elems;
      forall i | 0 <= i < |items| ensures MarkerFree(items[i]) {
        assert At(Undefined, i) == Undefined;
        assert r[i] == items[i];
        IdentityIsMarkerFree(items[i]);
      }
    case Obj(props) =>
      var r := Substituted(expected, Undefined).props;
      forall i | 0 <= i < |props| ensures !IsWildcard(props[i].1) && MarkerFree(props[i].1) {
        assert r[i] == props[i];
        assert Get(Undefined, props[i].0) == Undefined;
        assert SubstitutedValue(props[i].1, Undefined, props[i].0) == props[i].1;
        IdentityIsMarkerFree(props[i].1);
      }
    case _ =>
  }
}
