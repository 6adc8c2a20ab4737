/** JSON values as the request handlers see them, and Python's truth test on them. */
module Values {

  datatype Option<+T> = None | Some(value: T)

  /** A decoded JSON value. Numbers are modelled as one kind, reals, so
      the int/float distinction Python's decoder makes is not kept. */
  datatype Val =
    | VNull
    | VBool(b: bool)
    | VNum(n: real)
    | VStr(s: string)
    | VList(items: seq<Val>)
    | VObj(fields: map<string, Val>)

  /** The dict form of an object, and the attribute dictionary of an instance. */
  type Record = map<string, Val>

  /** Python's `bool(v)`: None, False, 0, "", [] and {} are falsy. */
  predicate Truthy(v: Val)
  {
    match v
    case VNull => false
    case VBool(b) => b
    case VNum(n) => n != 0.0
    case VStr(s) => s != ""
    case VList(xs) => xs != []
    case VObj(m) => m != map[]
  }

  /** `d.get(name, None)` */
  function GetOr(d: Record, name: string): (v: Val)
    ensures name !in d ==> v == VNull
    ensures name in d ==> v == d[name]
  {
    if name in d then d[name] else VNull
  }
}
