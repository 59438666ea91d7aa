/** JavaScript values as the hooks see them: enough structure to decide the
    truthiness tests (`!v`, `v && ...`), the `typeof v === 'object'` tests and
    the property reads (`v?.target`, `target.value`) that drive every branch of
    the form reducers. */
module JsValues {

  datatype Option<+T> = None | Some(value: T)

  /** A JavaScript value. `Obj` is any non-null object (plain object, array or
      event), given by its own enumerable properties. */
  datatype Value =
    | Undefined
    | Null
    | Bool(b: bool)
    | Num(n: int)
    | Str(s: string)
    | Obj(props: map<string, Value>)

  /** JavaScript truthiness: `undefined`, `null`, `false`, `0` and `""` are falsy. */
  predicate Truthy(v: Value) {
    match v
    case Undefined => false
    case Null => false
    case Bool(b) => b
    case Num(n) => n != 0
    case Str(s) => s != ""
    case Obj(_) => true
  }

  /** `typeof v === 'object' && v` — the only values whose keys a `for...in`
      loop of the hooks walks. */
  predicate IsObject(v: Value) {
    v.Obj?
  }

  /** Optional-chaining property read `v?.key`: the own property of an object,
      `undefined` for everything else. */
  function Prop(v: Value, key: string): Value {
    match v
    case Obj(props) => if key in props then props[key] else Undefined
    case _ => Undefined
  }
}
