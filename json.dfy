/**
  JSON values as Python's json module hands them to the application, with the
  few Python operations the application applies to them: truthiness,
  `dict.get` and `str()`.
 */
module Json {
  import opened Wrappers

  datatype Json =
    | JNull
    | JBool(b: bool)
    | JNum(n: int)
    | JStr(s: string)
    | JArr(elems: seq<Json>)
    | JObj(fields: map<string, Json>)

  const EmptyObject: Json := JObj(map[])

  /** Python truthiness: `None`, `False`, `0`, `""`, `[]` and `{}` are false, everything else is true. */
  predicate Truthy(j: Json) {
    match j
    case JNull => false
    case JBool(b) => b
    case JNum(n) => n != 0
    case JStr(s) => s != ""
    case JArr(elems) => elems != []
    case JObj(fields) => fields != map[]
  }

  /** `obj.get(key, default)`; None when `obj` is not a dict, where Python raises AttributeError. */
  function Get(obj: Json, key: string, default: Json): Option<Json> {
    match obj
    case JObj(fields) => Some(if key in fields then fields[key] else default)
    case _ => None
  }

  /** True when `key` is absent from `fields` or holds a dict, so that a chained `.get` on it does not raise. */
  predicate DictOrAbsent(fields: map<string, Json>, key: string) {
    key !in fields || fields[key].JObj?
  }

  function Digit(d: nat): char
    requires d < 10
  {
    "0123456789"[d]
  }

  function Decimal(n: nat): string {
    if n < 10 then [Digit(n)] else Decimal(n / 10) + [Digit(n % 10)]
  }

  /** The text an f-string gives for a decoded JSON value, that is Python's `str()`. */
  function PyStr(j: Json): string {
    match j
    case JNull => "None"
    case JBool(b) => if b then "True" else "False"
    case JNum(n) => if n < 0 then "-" + Decimal(-n) else Decimal(n)
    case JStr(s) => s
    case JArr(_) => "[...]"
    case JObj(_) => "{...}"
  }
}
