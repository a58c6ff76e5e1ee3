/**
  The small part of JavaScript's value semantics that the multimedia bridge
  relies on: plain objects as string-keyed maps, `undefined` for a missing
  property, truthiness for `||`, and object spread `{...o}`.
 */
module JsObjects {

  datatype Option<+T> = None | Some(value: T)

  /** A JavaScript value as far as the bridge can observe it. Numbers are kept
      as integers: the bridge only copies them and never computes with them. */
  datatype Value =
    | Undefined
    | Null
    | Bool(b: bool)
    | Num(n: int)
    | Str(s: string)
    | Obj(fields: map<string, Value>)

  /** A plain object: the attribute maps and payloads the bridge builds. */
  type Attrs = map<string, Value>

  /** Property read `o[k]`: a missing own property reads as `undefined`. */
  function Get(o: Attrs, k: string): Value {
    if k in o then o[k] else Undefined
  }

  /** JavaScript truthiness (NaN is not modelled, since numbers are integers). */
  predicate Truthy(v: Value) {
    match v
    case Undefined => false
    case Null => false
    case Bool(b) => b
    case Num(n) => n != 0
    case Str(s) => s != ""
    case Obj(_) => true
  }

  /** The own properties that object spread `{...v}` contributes: those of an
      object, and none for `undefined`, `null`, booleans and numbers. */
  function Spread(v: Value): Attrs {
    match v
    case Obj(fields) => fields
    case _ => map[]
  }

  /** `{k: v, ...rest}`: spread keys are written after `k`, so they win. */
  function With(k: string, v: Value, rest: Attrs): (m: Attrs)
    ensures m.Keys == {k} + rest.Keys
    ensures m[k] == if k in rest then rest[k] else v
    ensures forall j :: j in rest ==> m[j] == rest[j]
  {
    map[k := v] + rest
  }
}
