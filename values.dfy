/**
 * The JavaScript values that the wildcard engine walks, and the two ways it
 * reads a property: `v?.[key]` (optional chaining) and `v[key]`.
 *
 * Objects are sequences of own enumerable (key, value) pairs in `for...in`
 * order. Numbers are integers (floating point, NaN and -0 are not modelled).
 */
module JsValues {

  datatype Option<T> = None | Some(value: T)

  datatype Value =
    | Undefined
    | Null
    | Bool(b: bool)
    | Num(n: int)
    | Str(s: string)
    | Arr(elems: seq<Value>)
    | Obj(props: seq<(string, Value)>)
    | Fn          // any callable
    | DateObj     // an instance of Date

  /** `v === undefined || v === null`: the values whose properties cannot be read. */
  predicate Nullish(v: Value) {
    v.Undefined? || v.Null?
  }

  /** JavaScript truthiness, as used by `a && a.b`. */
  predicate Truthy(v: Value) {
    match v
    case Undefined => false
    case Null => false
    case Bool(b) => b
    case Num(n) => n != 0
    case Str(s) => s != ""
    case _ => true
  }

  /** `typeof v === "object"` (note: true of null, arrays and Date objects). */
  predicate TypeofObject(v: Value) {
    v.Null? || v.Arr? || v.Obj? || v.DateObj?
  }

  /** The keys of an object, in enumeration order. */
  function Keys(props: seq<(string, Value)>): (ks: seq<string>)
    ensures |ks| == |props|
    ensures forall i :: 0 <= i < |props| ==> ks[i] == props[i].0
  {
    seq(|props|, i requires 0 <= i < |props| => props[i].0)
  }

  /** Own-property lookup; a missing key reads as undefined. */
  function Lookup(props: seq<(string, Value)>, key: string): Value
  {
    if props == [] then Undefined
    else if props[0].0 == key then props[0].1
    else Lookup(props[1..], key)
  }

  lemma {:induction false} LookupFirst(props: seq<(string, Value)>, j: nat)
    requires j < |props|
    requires forall i :: 0 <= i < j ==> props[i].0 != props[j].0
    ensures Lookup(props, props[j].0) == props[j].1
  {
    if j > 0 {
      LookupFirst(props[1..], j - 1);
    }
  }

  predicate IsDigit(c: char) {
    '0' <= c <= '9'
  }

  function DigitChar(d: nat): (c: char)
    requires d < 10
    ensures IsDigit(c)
  {
    ('0' as int + d) as char
  }

  function DigitValue(c: char): (d: nat)
    requires IsDigit(c)
    ensures d < 10
  {
    c as int - '0' as int
  }

  /** `String(i)` for an array index: decimal digits, no leading zero. */
  function IndexKey(i: nat): (r: string)
    ensures |r| > 0
    ensures forall k :: 0 <= k < |r| ==> IsDigit(r[k])
    ensures (r[0] == '0') == (i == 0)
    ensures i < 10 ==> |r| == 1
  {
    if i < 10 then [DigitChar(i)] else IndexKey(i / 10) + [DigitChar(i % 10)]
  }

  /** The number a string of decimal digits denotes. */
  function DecimalValue(s: string): nat
    requires forall k :: 0 <= k < |s| ==> IsDigit(s[k])
  {
    if s == [] then 0 else DecimalValue(s[..|s| - 1]) * 10 + DigitValue(s[|s| - 1])
  }

  /**
   * The array index a property key denotes, if any: a canonical decimal
   * string (no leading zero, except "0" itself).
   */
  function ParseIndex(key: string): (r: Option<nat>)
    ensures r.Some? ==> IndexKey(r.value) == key
  {
    if |key| > 0 && (forall k :: 0 <= k < |key| ==> IsDigit(key[k])) && (key[0] != '0' || |key| == 1)
    then
      IndexKeyOfDecimal(key);
      Some(DecimalValue(key))
    else None
  }

  lemma {:induction false} IndexKeyOfDecimal(s: string)
    requires |s| > 0 && (forall k :: 0 <= k < |s| ==> IsDigit(s[k])) && (s[0] != '0' || |s| == 1)
    ensures IndexKey(DecimalValue(s)) == s
  {
    var n := DecimalValue(s);
    var init := s[..|s| - 1];
    var d := DigitValue(s[|s| - 1]);
    if |s| == 1 {
      assert init == [];
      assert DecimalValue(init) == 0;
      assert n == d;
      assert IndexKey(n) == [DigitChar(d)];
    } else {
      assert init[0] == s[0];
      IndexKeyOfDecimal(init);
      var m := DecimalValue(init);
      assert m != 0 by {
        assert IndexKey(m)[0] != '0';
      }
      assert n == m * 10 + d;
      assert n / 10 == m && n % 10 == d;
      assert IndexKey(n) == IndexKey(m) + [DigitChar(d)];
      assert s == init + [s[|s| - 1]];
    }
  }

  /** Round trip: the key of an index parses back to that index. */
  lemma {:induction false} ParseIndexKey(i: nat)
    ensures ParseIndex(IndexKey(i)) == Some(i)
  {
    var r := IndexKey(i);
    DecimalOfIndexKey(i);
    assert r[0] != '0' || |r| == 1;
  }

  lemma {:induction false} DecimalOfIndexKey(i: nat)
    ensures DecimalValue(IndexKey(i)) == i
  {
    var r := IndexKey(i);
    if i < 10 {
      assert r[..|r| - 1] == [];
    } else {
      DecimalOfIndexKey(i / 10);
      assert r[..|r| - 1] == IndexKey(i / 10);
    }
  }

  /**
   * `v?.[key]`: a property read that gives undefined on a nullish value.
   * Arrays and strings expose their elements under index keys and their
   * size under "length"; objects their own properties. Properties that
   * other values inherit from their prototypes are not modelled.
   */
  function Get(v: Value, key: string): Value
  {
    match v
    case Obj(props) => Lookup(props, key)
    case Arr(xs) =>
      if key == "length" then Num(|xs|)
      else (match ParseIndex(key)
            case Some(i) => if i < |xs| then xs[i] else Undefined
            case None => Undefined)
    case Str(s) =>
      if key == "length" then Num(|s|)
      else (match ParseIndex(key)
            case Some(i) => if i < |s| then Str([s[i]]) else Undefined
            case None => Undefined)
    case _ => Undefined
  }

  /** `v?.[i]` for a numeric index `i`, which JavaScript reads as the key `String(i)`. */
  function At(v: Value, i: nat): (r: Value)
    ensures v.Arr? ==> r == if i < |v.elems| then v.elems[i] else Undefined
    ensures v.Str? ==> r == if i < |v.s| then Str([v.s[i]]) else Undefined
    ensures v.Obj? ==> r == Lookup(v.props, IndexKey(i))
    ensures !(v.Arr? || v.Str? || v.Obj?) ==> r == Undefined
  {
    ParseIndexKey(i);
    assert IndexKey(i) != "length" by {
      assert IsDigit(IndexKey(i)[0]);
    }
    Get(v, IndexKey(i))
  }
}
