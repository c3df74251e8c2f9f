/**
 * JSON values as `json.loads` returns them (dicts, lists, strings, integers,
 * booleans, `None`), with the few Python operations the clients apply to them:
 * truthiness, `dict.get`, iteration, and how a value behaves as a dict key.
 */
module Json {
  import opened Wrappers

  datatype Json =
    | JNull
    | JBool(b: bool)
    | JNum(n: int)
    | JStr(s: string)
    | JArr(items: seq<Json>)
    | JObj(fields: map<string, Json>)

  /** A JSON object, as a Python `dict` with string keys. */
  type Object = map<string, Json>

  /** Python truthiness: `None`, `False`, `0` and empty strings, lists and dicts are false. */
  predicate Truthy(j: Json) {
    match j
    case JNull => false
    case JBool(b) => b
    case JNum(n) => n != 0
    case JStr(s) => |s| > 0
    case JArr(items) => |items| > 0
    case JObj(fields) => |fields| > 0
  }

  /** `d.get(key, default)`. */
  function Get(d: Object, key: string, default: Json): (r: Json)
    ensures key in d ==> r == d[key]
    ensures key !in d ==> r == default
  {
    if key in d then d[key] else default
  }

  /** The empty dict `{}`. */
  const Empty: Json := JObj(map[])

  /**
   * A value may be looked up in a dict (`x in d`): lists and dicts raise
   * `TypeError` because they are unhashable.
   */
  predicate Hashable(j: Json) {
    !j.JArr? && !j.JObj?
  }

  /**
   * The integer key a hashable value is equal to, if any: Python has
   * `True == 1` and `False == 0`, so a boolean finds the entry stored under
   * that integer; strings and `None` are never equal to an integer.
   */
  function IntKey(j: Json): (r: Option<int>)
    requires Hashable(j)
    ensures j.JNum? ==> r == Some(j.n)
    ensures r.Some? <==> j.JNum? || j.JBool?
  {
    match j
    case JNum(n) => Some(n)
    case JBool(b) => Some(if b then 1 else 0)
    case _ => None
  }

  /**
   * The elements a `for` loop visits when each of them is then used as a
   * dict (`x.get(...)`): a list gives its items; an empty dict or string
   * gives nothing; a non-empty dict or string yields strings, whose `.get`
   * raises at once; `None`, numbers and booleans are not iterable. `None`
   * stands for "raises".
   */
  function DictElements(j: Json): (r: Option<seq<Json>>)
    ensures j.JArr? ==> r == Some(j.items)
    ensures r.Some? && !j.JArr? ==> r == Some([])
  {
    match j
    case JArr(items) => Some(items)
    case JObj(fields) => if |fields| == 0 then Some([]) else None
    case JStr(s) => if |s| == 0 then Some([]) else None
    case _ => None
  }

  /** Python's name for the type of a value, as it appears in error messages. */
  function TypeName(j: Json): string {
    match j
    case JNull => "NoneType"
    case JBool(_) => "bool"
    case JNum(_) => "int"
    case JStr(_) => "str"
    case JArr(_) => "list"
    case JObj(_) => "dict"
  }

  /** The message of the `AttributeError` raised by calling `.get` on a value that is not a dict. */
  function NoGetMessage(j: Json): string {
    "'" + TypeName(j) + "' object has no attribute 'get'"
  }
}
