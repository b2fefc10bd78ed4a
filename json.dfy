/** The JSON-shaped values the Flask handlers receive and return, with the parts of
    Python's semantics the backend relies on: truthiness, `dict.get`, `x in c` and
    `c[key]`, including the exceptions they raise. */
module Json {
  import opened Common
  import opened Strings

  /** A JSON value; an object keeps its fields in insertion order, as a Python dict does. */
  datatype Json =
    | Null
    | Bool(b: bool)
    | Num(n: int)
    | Str(s: string)
    | Arr(items: seq<Json>)
    | Obj(fields: seq<(string, Json)>)

  /** The Python exceptions the modelled code can raise on an unexpected shape. */
  datatype PyError = TypeError | AttributeError | KeyError

  datatype Result<T> = Ok(value: T) | Err(error: PyError)

  /** Python truthiness: `None`, `False`, `0`, `''`, `[]` and `{}` are false. */
  predicate Truthy(j: Json) {
    match j
    case Null => false
    case Bool(b) => b
    case Num(n) => n != 0
    case Str(s) => s != []
    case Arr(a) => a != []
    case Obj(f) => f != []
  }

  function Keys(fields: seq<(string, Json)>): (r: seq<string>)
    ensures |r| == |fields|
    ensures forall i :: 0 <= i < |r| ==> r[i] == fields[i].0
  {
    seq(|fields|, i requires 0 <= i < |fields| => fields[i].0)
  }

  /** The value stored under `key` (a dict holds each key once; the first entry is taken). */
  function Get(fields: seq<(string, Json)>, key: string): (r: Option<Json>)
    ensures r.None? <==> key !in Keys(fields)
    ensures r.Some? ==> (key, r.value) in fields
    decreases |fields|
  {
    if fields == [] then None
    else if fields[0].0 == key then Some(fields[0].1)
    else Get(fields[1..], key)
  }

  /** `d.get(key, default)`. */
  function GetOr(fields: seq<(string, Json)>, key: string, default: Json): Json {
    match Get(fields, key)
    case Some(v) => v
    case None => default
  }

  /** Python's `key in container` for a string `key`: a key test on a dict, an element
      test on a list, a substring test on a string, a `TypeError` otherwise. */
  function In(key: string, container: Json): (r: Result<bool>)
    ensures container.Obj? ==> r == Ok(key in Keys(container.fields))
    ensures container.Arr? ==> r == Ok(Str(key) in container.items)
    ensures container.Str? ==> r == Ok(Contains(container.s, key))
    ensures r.Err? <==> container.Null? || container.Bool? || container.Num?
  {
    match container
    case Obj(f) => Ok(key in Keys(f))
    case Arr(a) => Ok(Str(key) in a)
    case Str(s) => Ok(Contains(s, key))
    case _ => Err(TypeError)
  }

  /** Python's `container[key]` for a string `key`: only a dict holding the key succeeds. */
  function Index(container: Json, key: string): (r: Result<Json>)
    ensures r.Ok? <==> container.Obj? && key in Keys(container.fields)
    ensures r.Ok? ==> Get(container.fields, key) == Some(r.value)
  {
    match container
    case Obj(f) => (match Get(f, key) case Some(v) => Ok(v) case None => Err(KeyError))
    case _ => Err(TypeError)
  }
}
