/**
 * The marker factory: ten zero-argument constructors, each returning the
 * plain object `{ __wildcard: tag }`, and the test by which the engine
 * recognises a marker when it meets one as the value of a mapping key.
 */
module Markers {
  import opened JsValues

  /** The constraint kinds, one per factory constructor. */
  datatype Kind = Any | String | Number | Uuid | Date | TraceId | Function | Object | Array | Url

  const WildcardKey: string := "__wildcard"

  /** The tag string a constructor stores; `fn()` stores "function". */
  function Tag(k: Kind): string {
    match k
    case Any => "any"
    case String => "string"
    case Number => "number"
    case Uuid => "uuid"
    case Date => "date"
    case TraceId => "traceid"
    case Function => "function"
    case Object => "object"
    case Array => "array"
    case Url => "url"
  }

  /**
   * The constructors `any`, `string`, `number`, `uuid`, `date`, `traceid`,
   * `fn`, `object`, `array` and `url`: `Make(k)` is the fresh object each
   * returns. It is recognised as a marker, and its tag names its kind.
   */
  function Make(k: Kind): (m: Value)
    ensures m.Obj? && Keys(m.props) == [WildcardKey]
    ensures IsWildcard(m) && WildcardTag(m) == Str(Tag(k))
  {
    Obj([(WildcardKey, Str(Tag(k)))])
  }

  /** `v.__wildcard`, read the way the engine reads it. */
  function WildcardTag(v: Value): Value {
    Get(v, WildcardKey)
  }

  /** `v && v.__wildcard`: the test the engine applies to the value of a mapping key. */
  predicate IsWildcard(v: Value) {
    Truthy(v) && Truthy(WildcardTag(v))
  }

  /**
   * The `switch` over the tag: it compares the tag with `===` against each
   * case label, so only a string equal to a label selects a kind.
   */
  function KindOfTag(tag: Value): (r: Option<Kind>)
    ensures r.Some? ==> tag == Str(Tag(r.value))
  {
    match tag
    case Str(s) =>
      if s == "any" then Some(Any)
      else if s == "string" then Some(String)
      else if s == "object" then Some(Object)
      else if s == "array" then Some(Array)
      else if s == "number" then Some(Number)
      else if s == "function" then Some(Function)
      else if s == "uuid" then Some(Uuid)
      else if s == "traceid" then Some(TraceId)
      else if s == "url" then Some(Url)
      else if s == "date" then Some(Date)
      else None
    case _ => None
  }

  /** Every constructor's tag selects its own kind in the `switch`. */
  lemma KindOfTagRoundTrip(k: Kind)
    ensures KindOfTag(Str(Tag(k))) == Some(k)
  {
  }

  /** Distinct constructors build distinct markers. */
  lemma MakeInjective(k1: Kind, k2: Kind)
    requires Make(k1) == Make(k2)
    ensures k1 == k2
  {
    KindOfTagRoundTrip(k1);
    KindOfTagRoundTrip(k2);
  }

  /**
   * Only an object can be recognised as a marker: no other value has a
   * `__wildcard` property of its own.
   */
  lemma WildcardIsObject(v: Value)
    ensures IsWildcard(v) <==> v.Obj? && Truthy(Lookup(v.props, WildcardKey))
  {
    assert ParseIndex(WildcardKey) == None by {
      assert !IsDigit(WildcardKey[0]);
    }
  }
}
