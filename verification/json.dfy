/**
 * JSON values as the relay sees them after parsing, and the two pieces of
 * JavaScript semantics the message handler relies on: reading a property
 * (which throws a TypeError on `undefined` and `null`) and truthiness.
 */
module Json {

  datatype Option<+T> = None | Some(value: T)

  /** A parsed JSON value. Numbers are kept as reals; JSON has no NaN or infinities. */
  datatype Value =
    | Null
    | Bool(b: bool)
    | Number(n: real)
    | Str(s: string)
    | Array(items: seq<Value>)
    | Object(fields: map<string, Value>)

  /** A JavaScript property read either throws or yields a value that may be `undefined` (None). */
  datatype Read = Throws | Yields(result: Option<Value>)

  /**
   * `v.key` on a value that is neither undefined nor null, for a key no built-in
   * prototype defines (the handler reads only `action`, `data` and `remoteId`):
   * the own field of an object, else undefined. The prototype chain is not modelled.
   */
  function Get(v: Value, key: string): Option<Value>
  {
    if v.Object? && key in v.fields then Some(v.fields[key]) else None
  }

  /**
   * `base.key` where `base` may be undefined (None), for a key no built-in
   * prototype defines: a TypeError on undefined and null, else as `Get`.
   */
  function Member(base: Option<Value>, key: string): (r: Read)
    ensures r.Throws? <==> base == None || base == Some(Null)
    ensures r.Yields? && r.result.Some? ==>
              base.Some? && base.value.Object? && key in base.value.fields &&
              r.result.value == base.value.fields[key]
    ensures base.Some? && base.value.Object? && key in base.value.fields ==>
              r == Yields(Some(base.value.fields[key]))
    ensures base.Some? && base.value != Null && !(base.value.Object? && key in base.value.fields) ==>
              r == Yields(None)
  {
    match base
    case None => Throws
    case Some(Null) => Throws
    case Some(v) => Yields(Get(v, key))
  }

  /** JavaScript truthiness of a value that may be undefined. */
  predicate Truthy(p: Option<Value>)
  {
    match p
    case None => false
    case Some(Null) => false
    case Some(Bool(b)) => b
    case Some(Number(n)) => n != 0.0
    case Some(Str(s)) => s != ""
    case Some(Array(_)) => true
    case Some(Object(_)) => true
  }

  /** Exactly `undefined`, `null`, `false`, `0` and `""` are falsy. */
  lemma FalsyValues(p: Option<Value>)
    ensures !Truthy(p) <==> p in {None, Some(Null), Some(Bool(false)), Some(Number(0.0)), Some(Str(""))}
  {
  }
}
