/** Python-level values as far as the core needs them: the optional
    (`X | None`) wrapper, keyword-argument values and their truthiness. */
module PyValues {

  /** `X | None` in a Python signature. */
  datatype Option<+T> = None | Some(value: T)

  /** A keyword-argument value. Only the shapes whose truthiness Python
      fixes are told apart; any other object is `Obj`, which has no
      `__bool__` or `__len__` of its own and is therefore truthy. */
  datatype Value =
    | NoneValue
    | Bool(b: bool)
    | Int(i: int)
    | Str(s: string)
    | List(items: seq<Value>)
    | Obj(id: nat)

  /** Python's truth test `if v:` on the shapes above. */
  predicate Truthy(v: Value) {
    match v
    case NoneValue => false
    case Bool(b) => b
    case Int(i) => i != 0
    case Str(s) => s != ""
    case List(items) => items != []
    case Obj(_) => true
  }

  /** `d.get(key)`: the value under `key`, or `None` when it is absent. */
  function DictGet(d: map<string, Value>, key: string): (v: Value)
    ensures key !in d ==> v == NoneValue
    ensures key in d ==> v == d[key]
  {
    if key in d then d[key] else NoneValue
  }
}
