/** JSON values as the router handles them after `json.loads`, and the parts
    of Python's behaviour on them that the router depends on: truthiness,
    `str()`, `json.dumps`, `len()`, `d.get(k, default)` and subscripting,
    with the exceptions each can raise. Numbers are integers only. An object
    is a sequence of fields with distinct keys, in insertion order, as a
    Python dict built by `json.loads` is. */
module PyJson {
  import opened Wrappers
  import opened Text

  datatype Json =
    | JNull
    | JBool(b: bool)
    | JInt(i: int)
    | JStr(s: string)
    | JArr(items: seq<Json>)
    | JObj(fields: seq<(string, Json)>)

  /** The Python exceptions the modelled code can raise or catch. `key` of a
      KeyError is the repr of the missing key, which is also what `str(exc)` gives. */
  datatype PyError =
    | KeyError(key: string)
    | IndexError(what: string)
    | TypeError(what: string)
    | AttributeError(what: string)
    | ValueError(what: string)

  /** `str(exc)`. */
  function Message(e: PyError): string {
    match e
    case KeyError(k) => k
    case IndexError(w) => w
    case TypeError(w) => w
    case AttributeError(w) => w
    case ValueError(w) => w
  }

  /** Python's type name of the value `json.loads` produces. */
  function TypeName(j: Json): string {
    match j
    case JNull => "NoneType"
    case JBool(_) => "bool"
    case JInt(_) => "int"
    case JStr(_) => "str"
    case JArr(_) => "list"
    case JObj(_) => "dict"
  }

  /** Python's `bool(j)`. */
  predicate Truthy(j: Json) {
    match j
    case JNull => false
    case JBool(b) => b
    case JInt(i) => i != 0
    case JStr(s) => s != ""
    case JArr(xs) => xs != []
    case JObj(fs) => fs != []
  }

  /** The value stored under `key` in an object's fields (the first, and with
      distinct keys the only, match). */
  function Lookup(fields: seq<(string, Json)>, key: string): (r: Option<Json>)
    ensures r.Some? <==> exists i :: 0 <= i < |fields| && fields[i].0 == key
    ensures r.Some? ==> exists i :: 0 <= i < |fields| && fields[i] == (key, r.value)
  {
    if fields == [] then None
    else if fields[0].0 == key then Some(fields[0].1)
    else
      var r := Lookup(fields[1..], key);
      assert forall i :: 1 <= i < |fields| ==> fields[i] == fields[1..][i - 1];
      r
  }

  /** Looking past a first field that has another key. */
  lemma LookupCons(k: string, v: Json, rest: seq<(string, Json)>, key: string)
    ensures Lookup([(k, v)] + rest, key) == if k == key then Some(v) else Lookup(rest, key)
  {
    assert ([(k, v)] + rest)[1..] == rest;
  }

  /** Python's `j.get(key, default)`: only dicts have `get`. */
  function Get(j: Json, key: string, default: Json): (r: Result<Json, PyError>)
    ensures r.Failure? <==> !j.JObj?
  {
    match j
    case JObj(fs) => Success(Lookup(fs, key).GetOr(default))
    case _ => Failure(AttributeError("'" + TypeName(j) + "' object has no attribute 'get'"))
  }

  /** Python's `j[key]` for a string key. */
  function Index(j: Json, key: string): (r: Result<Json, PyError>)
    ensures r.Success? <==> j.JObj? && Lookup(j.fields, key).Some?
  {
    match j
    case JObj(fs) =>
      (match Lookup(fs, key)
       case Some(v) => Success(v)
       case None => Failure(KeyError("'" + key + "'")))
    case JArr(_) => Failure(TypeError("list indices must be integers or slices, not str"))
    case JStr(_) => Failure(TypeError("string indices must be integers, not 'str'"))
    case _ => Failure(TypeError("'" + TypeName(j) + "' object is not subscriptable"))
  }

  /** Python's `j[0]`. */
  function First(j: Json): (r: Result<Json, PyError>)
    ensures r.Success? <==> (j.JArr? && j.items != []) || (j.JStr? && j.s != [])
  {
    match j
    case JArr(xs) => if xs == [] then Failure(IndexError("list index out of range")) else Success(xs[0])
    case JStr(s) => if s == [] then Failure(IndexError("string index out of range")) else Success(JStr([s[0]]))
    case JObj(fs) => Failure(KeyError("0"))
    case _ => Failure(TypeError("'" + TypeName(j) + "' object is not subscriptable"))
  }

  /** Python's `len(j)`; None where `len` raises TypeError. */
  function Len(j: Json): (r: Option<nat>)
    ensures r.Some? <==> j.JStr? || j.JArr? || j.JObj?
  {
    match j
    case JStr(s) => Some(|s|)
    case JArr(xs) => Some(|xs|)
    case JObj(fs) => Some(|fs|)
    case _ => None
  }

  /** Python's `str(j)`: a string is itself, everything else its repr. */
  function Str(j: Json): string {
    match j
    case JStr(s) => s
    case _ => Repr(j)
  }

  /** Python's `repr(j)`; quoting of strings is not escaped. */
  function Repr(j: Json): string
    decreases j
  {
    match j
    case JNull => "None"
    case JBool(b) => if b then "True" else "False"
    case JInt(i) => IntToString(i)
    case JStr(s) => "'" + s + "'"
    case JArr(xs) => "[" + Join(seq(|xs|, k requires 0 <= k < |xs| => Repr(xs[k])), ", ") + "]"
    case JObj(fs) =>
      "{" + Join(seq(|fs|, k requires 0 <= k < |fs| => "'" + fs[k].0 + "': " + Repr(fs[k].1)), ", ") + "}"
  }

  /** `json.dumps(j)` with the default separators; escaping is not modelled. */
  function Dumps(j: Json): string
    decreases j
  {
    match j
    case JNull => "null"
    case JBool(b) => if b then "true" else "false"
    case JInt(i) => IntToString(i)
    case JStr(s) => "\"" + s + "\""
    case JArr(xs) => "[" + Join(seq(|xs|, k requires 0 <= k < |xs| => Dumps(xs[k])), ", ") + "]"
    case JObj(fs) =>
      "{" + Join(seq(|fs|, k requires 0 <= k < |fs| => "\"" + fs[k].0 + "\": " + Dumps(fs[k].1)), ", ") + "}"
  }

  /** Python's `int(j)` on a decoded JSON value. */
  function ToInt(j: Json): Result<int, PyError> {
    match j
    case JInt(i) => Success(i)
    case JBool(b) => Success(if b then 1 else 0)
    case JStr(s) =>
      (match ParseInt(s)
       case Some(i) => Success(i)
       case None => Failure(ValueError("invalid literal for int() with base 10: '" + s + "'")))
    case _ => Failure(TypeError("int() argument must be a string, a bytes-like object or a real number, not '" + TypeName(j) + "'"))
  }
}
