/**
  Values of the configuration store and of remote payloads, and the handful
  of Python dictionary/list operations the engine applies to them, with the
  exceptions those operations raise written out as `Err` results.
 */
module Json {

  /** A parsed JSON document (floating-point numbers are not modelled). */
  datatype Json =
    | JNull
    | JBool(b: bool)
    | JInt(i: int)
    | JStr(s: string)
    | JArr(items: seq<Json>)
    | JObj(fields: map<string, Json>)

  /** The Python exception classes the engine distinguishes. */
  datatype Exc = KeyError | AttributeError | TypeError | OSError | ValueError

  datatype Result<+T> = Ok(value: T) | Err(exc: Exc) {
    predicate IsFailure() { Err? }
    function PropagateFailure<U>(): Result<U> requires Err? { Err(exc) }
    function Extract(): T requires Ok? { value }
  }

  datatype Option<+T> = None | Some(value: T) {
    function GetOr(default: T): T {
      match this
      case Some(v) => v
      case None => default
    }
  }

  /** Python truthiness of a JSON value. */
  predicate Truthy(j: Json) {
    match j
    case JNull => false
    case JBool(b) => b
    case JInt(i) => i != 0
    case JStr(s) => s != ""
    case JArr(xs) => xs != []
    case JObj(m) => m != map[]
  }

  /** `j[k]` for a string key `k`. */
  function Index(j: Json, k: string): (r: Result<Json>)
    ensures r.Ok? <==> j.JObj? && k in j.fields
    ensures r.Ok? ==> r.value == j.fields[k]
    ensures r.Err? ==> r.exc == (if j.JObj? then KeyError else TypeError)
  {
    match j
    case JObj(m) => if k in m then Ok(m[k]) else Err(KeyError)
    case _ => Err(TypeError)
  }

  /** `j.get(k, default)`: only dictionaries have `get`. */
  function Get(j: Json, k: string, default: Json): (r: Result<Json>)
    ensures r.Ok? <==> j.JObj?
    ensures r.Ok? ==> r.value == (if k in j.fields then j.fields[k] else default)
    ensures r.Err? ==> r.exc == AttributeError
  {
    match j
    case JObj(m) => Ok(if k in m then m[k] else default)
    case _ => Err(AttributeError)
  }

  /** `m.get(k, default)` on a dictionary known to be one. */
  function MapGet(m: map<string, Json>, k: string, default: Json): Json {
    if k in m then m[k] else default
  }

  /**
    `target.update(src)`: the keys of `src` overwrite those of `target`.
    Only a dictionary has `update`; a source that is not a dictionary is
    refused with a TypeError.
   */
  function Update(target: Json, src: Json): (r: Result<Json>)
    ensures r.Ok? <==> target.JObj? && src.JObj?
    ensures r.Ok? ==> (r.value.JObj?
      && r.value.fields.Keys == target.fields.Keys + src.fields.Keys
      && (forall k :: k in src.fields ==> r.value.fields[k] == src.fields[k])
      && (forall k :: k in target.fields && k !in src.fields ==> r.value.fields[k] == target.fields[k]))
    ensures r.Err? ==> r.exc == (if target.JObj? then TypeError else AttributeError)
  {
    if !target.JObj? then Err(AttributeError)
    else if !src.JObj? then Err(TypeError)
    else Ok(JObj(target.fields + src.fields))
  }

  /** `j.pop(k)` without a default. */
  function Pop(j: Json, k: string): (r: Result<Json>)
    ensures r.Ok? <==> j.JObj? && k in j.fields
    ensures r.Ok? ==> (r.value.JObj? && r.value.fields.Keys == j.fields.Keys - {k}
      && forall k' :: k' in r.value.fields ==> r.value.fields[k'] == j.fields[k'])
    ensures r.Err? ==> r.exc == (if j.JObj? then KeyError else if j.JArr? then TypeError else AttributeError)
  {
    match j
    case JObj(m) => if k in m then Ok(JObj(m - {k})) else Err(KeyError)
    case JArr(_) => Err(TypeError)
    case _ => Err(AttributeError)
  }

  /** `t` occurs as a contiguous piece of `s`. */
  predicate IsSubstring(t: string, s: string) {
    t <= s || (s != [] && IsSubstring(t, s[1..]))
  }

  /**
    `item in container` (Python): key membership for a dictionary, element
    membership for a list, substring test for a string; anything else, or an
    unhashable item looked up in a dictionary, raises TypeError.
   */
  function Contains(container: Json, item: Json): (r: Result<bool>)
    ensures container.JArr? ==> r == Ok(item in container.items)
    ensures container.JObj? && item.JStr? ==> r == Ok(item.s in container.fields)
    ensures r.Err? ==> r.exc == TypeError
    ensures r.Err? <==> !(container.JArr? || container.JObj? || container.JStr?)
                        || (container.JObj? && (item.JArr? || item.JObj?))
                        || (container.JStr? && !item.JStr?)
  {
    match container
    case JArr(xs) => Ok(item in xs)
    case JObj(m) =>
      (match item
       case JStr(s) => Ok(s in m)
       case JArr(_) => Err(TypeError)
       case JObj(_) => Err(TypeError)
       case _ => Ok(false))
    case JStr(s) => if item.JStr? then Ok(IsSubstring(item.s, s)) else Err(TypeError)
    case _ => Err(TypeError)
  }

  /** A dictionary updated twice with the same source equals one update. */
  lemma UpdateIdempotent(target: Json, src: Json)
    requires Update(target, src).Ok?
    ensures Update(Update(target, src).value, src) == Update(target, src)
  {
    var once := Update(target, src).value;
    assert once.fields + src.fields == once.fields;
  }
}
