/** JSON values as the agents exchange them (what `json.loads` returns), and the
    handful of Python operations the pipelines apply to them: truthiness,
    `dict.get`, iteration, slicing, `str()` and hashability. */
module JsonValues {
  import opened Wrappers
  import Text

  datatype Json =
    | JNull
    | JBool(b: bool)
    | JNum(n: real)
    | JStr(s: string)
    | JArr(items: seq<Json>)
    | JObj(fields: map<string, Json>)

  /** A Python dict with string keys. */
  type Obj = map<string, Json>

  const EmptyObj: Json := JObj(map[])

  /** Python truthiness: `None`, `False`, `0`, `""`, `[]` and `{}` are false. */
  predicate Truthy(j: Json) {
    match j
    case JNull => false
    case JBool(b) => b
    case JNum(n) => n != 0.0
    case JStr(s) => s != []
    case JArr(a) => a != []
    case JObj(m) => m != map[]
  }

  /** `d.get(k, default)` on a dict. */
  function Lookup(o: Obj, k: string, default: Json): Json {
    if k in o then o[k] else default
  }

  /** `x.get(k, default)` where `x` may be any value: only a dict has `.get`,
      anything else raises `AttributeError`. */
  function Get(x: Json, k: string, default: Json): (r: Result<Json, string>)
    ensures r.Success? <==> x.JObj?
  {
    match x
    case JObj(o) => Success(Lookup(o, k, default))
    case _ => Failure("AttributeError: object has no attribute 'get'")
  }

  /** The one-character strings a Python string iterates over. */
  function Chars(s: string): (r: seq<Json>)
    ensures |r| == |s|
    ensures forall k :: 0 <= k < |s| ==> r[k] == JStr([s[k]])
  {
    seq(|s|, k requires 0 <= k < |s| => JStr([s[k]]))
  }

  /** What `for v in x` visits: a list's items, a string's characters, nothing for
      an empty dict.  A non-empty dict would visit its keys in insertion order,
      which a `map` does not keep, so it is refused here together with the
      scalars, which raise `TypeError`. */
  function Iterate(x: Json): Result<seq<Json>, string> {
    match x
    case JArr(items) => Success(items)
    case JStr(s) => Success(Chars(s))
    case JObj(m) => if m == map[] then Success([]) else Failure("dict iteration order is not modelled")
    case _ => Failure("TypeError: object is not iterable")
  }

  /** `x[:n]` as a list of elements: a list's first items or a string's first
      characters; a dict or a scalar raises `TypeError`. */
  function Prefix(x: Json, n: nat): (r: Result<seq<Json>, string>)
    ensures r.Success? <==> x.JArr? || x.JStr?
    ensures x.JArr? ==> r.value == x.items[..if |x.items| < n then |x.items| else n]
    ensures r.Success? ==> |r.value| <= n
  {
    match x
    case JArr(items) => Success(if |items| <= n then items else items[..n])
    case JStr(s) => Success(Chars(Text.Take(s, n)))
    case _ => Failure("TypeError: object is not subscriptable")
  }

  /** Elements that must all be dicts (`item.get(...)` or `item[k] = v` follows). */
  function AllObjects(xs: seq<Json>): (r: Result<seq<Obj>, string>)
    ensures r.Success? <==> forall k :: 0 <= k < |xs| ==> xs[k].JObj?
    ensures r.Success? ==> |r.value| == |xs| && forall k :: 0 <= k < |xs| ==> r.value[k] == xs[k].fields
  {
    if xs == [] then Success([])
    else if !xs[0].JObj? then Failure("TypeError: element is not a dict")
    else match AllObjects(xs[1..])
      case Success(rest) => Success([xs[0].fields] + rest)
      case Failure(e) => Failure(e)
  }

  /** Values a Python `set` or `in` test accepts; lists and dicts raise `TypeError`. */
  predicate Hashable(j: Json) {
    !j.JArr? && !j.JObj?
  }

  /** What Python's `==` and hashing identify among hashable values:
      `True == 1 == 1.0` and `False == 0`. */
  function Key(j: Json): (r: Json)
    ensures Truthy(r) == Truthy(j) && Hashable(r) == Hashable(j)
  {
    match j
    case JBool(b) => JNum(if b then 1.0 else 0.0)
    case _ => j
  }

  /** `str(x)`: a string is itself, `None`/`True`/`False` print as Python names,
      anything else goes through the interpreter's `repr`, a parameter here. */
  function PyStr(x: Json, repr: Json -> string): string {
    match x
    case JStr(s) => s
    case JNull => "None"
    case JBool(b) => if b then "True" else "False"
    case _ => repr(x)
  }
}
