/** JavaScript values as the launcher and its exit hook see them. */
module Js {

  /** A plain JavaScript object whose identity matters (it is shared or mutated):
      its own enumerable properties, keyed by name. */
  class JsObject {
    var props: map<string, JsValue>

    constructor (props: map<string, JsValue>)
      ensures this.props == props
    {
      this.props := props;
    }
  }

  /** A JavaScript value. Numbers are integers; objects are references. */
  datatype JsValue =
    | Undefined
    | Null
    | Bool(b: bool)
    | Num(n: int)
    | Str(s: string)
    | Arr(elems: seq<JsValue>)
    | Ref(obj: JsObject)

  datatype Option<T> = None | Some(value: T)

  /** A call of `process.exit()` (no code) or `process.exit(code)`. */
  datatype ExitRequest = ExitNoCode | ExitCode(code: JsValue)

  /** JavaScript truthiness. */
  predicate Truthy(v: JsValue) {
    match v
    case Undefined => false
    case Null => false
    case Bool(b) => b
    case Num(n) => n != 0
    case Str(s) => s != ""
    case Arr(_) => true
    case Ref(_) => true
  }

  /** The objects a value refers to directly (what reading one of its properties reads). */
  function ObjectsOf(v: JsValue): set<object> {
    if v.Ref? then {v.obj} else {}
  }

  /** `o[key]` on a property map: the value, or `undefined` when the key is absent. */
  function Prop(props: map<string, JsValue>, key: string): JsValue {
    if key in props then props[key] else Undefined
  }

  /** The own properties of `v`: those of the object it refers to, none for anything else. */
  function Props(v: JsValue): map<string, JsValue>
    reads ObjectsOf(v)
  {
    if v.Ref? then v.obj.props else map[]
  }

  /** `_.get(v, key)` for a single key: `undefined` unless `v` is an object holding `key`. */
  function Get(v: JsValue, key: string): JsValue
    reads ObjectsOf(v)
  {
    Prop(Props(v), key)
  }
}
