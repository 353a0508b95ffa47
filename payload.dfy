/** Decoded JSON values as Python sees them after `response.json()`, the
    Python operations the parsers apply to them (truthiness, `dict.get`,
    iteration, `float()`, `str()`), and the HTTP exchange that produces them. */
module Payload {
  import opened Wrappers
  import Text

  /** A JSON value. Integers and floats stay apart, as `json.loads` keeps
      them; an object is an association list in document order (a decoded
      dict has no repeated keys, so the first binding is the only one). */
  datatype Json =
    | JNull
    | JBool(b: bool)
    | JInt(i: int)
    | JFloat(f: real)
    | JStr(s: string)
    | JArr(items: seq<Json>)
    | JObj(fields: seq<(string, Json)>)

  /** Python truthiness: `bool(value)`. */
  predicate Truthy(j: Json) {
    match j
    case JNull => false
    case JBool(b) => b
    case JInt(i) => i != 0
    case JFloat(f) => f != 0.0
    case JStr(s) => s != []
    case JArr(items) => items != []
    case JObj(fields) => fields != []
  }

  /** `key in d and d[key]` for a dict given as its fields. */
  function Lookup(fields: seq<(string, Json)>, key: string): (r: Option<Json>)
    ensures r.Some? <==> exists k :: 0 <= k < |fields| && fields[k].0 == key
    ensures r.Some? ==> exists k :: 0 <= k < |fields| && fields[k] == (key, r.value)
  {
    if fields == [] then None
    else if fields[0].0 == key then Some(fields[0].1)
    else
      var r := Lookup(fields[1..], key);
      assert forall k :: 1 <= k < |fields| ==> fields[k] == fields[1..][k - 1];
      r
  }

  /** `d.get(key, default)`. */
  function GetOr(fields: seq<(string, Json)>, key: string, default: Json): (r: Json)
    ensures Lookup(fields, key).Some? ==> r == Lookup(fields, key).value
    ensures Lookup(fields, key).None? ==> r == default
  {
    match Lookup(fields, key)
    case Some(v) => v
    case None => default
  }

  /** `x or {}`: the value itself when truthy, otherwise an empty dict. */
  function OrEmptyDict(j: Json): (r: Json)
    ensures Truthy(j) ==> r == j
    ensures !Truthy(j) ==> r == JObj([])
  {
    if Truthy(j) then j else JObj([])
  }

  /** What `for item in value` yields: a list its items, a dict its keys, a
      string its one-character strings; anything else is not iterable
      (`TypeError`), shown as `None`. */
  function Iterate(j: Json): (r: Option<seq<Json>>)
    ensures r.Some? <==> j.JArr? || j.JObj? || j.JStr?
    ensures j.JArr? ==> r == Some(j.items)
    ensures j.JObj? ==> (r.Some? && |r.value| == |j.fields|
      && forall k :: 0 <= k < |j.fields| ==> r.value[k] == JStr(j.fields[k].0))
    ensures j.JStr? ==> (r.Some? && |r.value| == |j.s|
      && forall k :: 0 <= k < |j.s| ==> r.value[k] == JStr([j.s[k]]))
  {
    match j
    case JArr(items) => Some(items)
    case JObj(fields) => Some(seq(|fields|, k requires 0 <= k < |fields| => JStr(fields[k].0)))
    case JStr(s) => Some(seq(|s|, k requires 0 <= k < |s| => JStr([s[k]])))
    case _ => None
  }

  /** Python's `float(value)`; `None` is the `TypeError` or `ValueError` it
      raises. Strings go through `parseFloat`, the model of Python's string
      to float conversion. */
  function PyFloat(j: Json, parseFloat: string -> Option<real>): (r: Option<real>)
    ensures j.JInt? ==> r == Some(j.i as real)
    ensures j.JFloat? ==> r == Some(j.f)
    ensures j.JStr? ==> r == parseFloat(j.s)
    ensures (j.JNull? || j.JArr? || j.JObj?) ==> r.None?
  {
    match j
    case JInt(i) => Some(i as real)
    case JFloat(f) => Some(f)
    case JBool(b) => Some(if b then 1.0 else 0.0)
    case JStr(s) => parseFloat(s)
    case _ => None
  }

  /** Python's `str(value)`. Ints, strings, booleans and `None` are rendered
      here; floats, lists and dicts go through `repr`, the model of Python's
      own rendering of those. */
  function PyStr(j: Json, repr: Json -> string): string {
    match j
    case JNull => "None"
    case JBool(b) => if b then "True" else "False"
    case JInt(i) => Text.DecimalString(i)
    case JStr(s) => s
    case _ => repr(j)
  }

  // ---------------------------------------------------------------------
  // One HTTP exchange: `response.raise_for_status()` then `response.json()`.
  // ---------------------------------------------------------------------

  /** What the network gives back for one request. `body` is `None` when the
      response text is not valid JSON. */
  datatype Exchange =
    | Response(status: int, body: Option<Json>)
    | TransportFailure

  /** The exceptions one exchange can raise. */
  datatype NetError =
    | HttpStatus(code: int)   // httpx.HTTPStatusError from raise_for_status
    | Transport               // httpx.TransportError (connect, read, timeout)
    | InvalidJson             // ValueError from response.json()

  /** A call that either returns a value or raises. */
  datatype Attempt<+T, +E> = Returned(value: T) | Threw(error: E)

  /** `raise_for_status` accepts exactly the 2xx statuses (httpx raises for
      informational and redirect statuses as well). */
  predicate IsSuccess(status: int) {
    200 <= status < 300
  }

  /** The outcome of `raise_for_status(); return response.json()`. */
  function Receive(x: Exchange): (r: Attempt<Json, NetError>)
    ensures r.Returned? <==> x.Response? && IsSuccess(x.status) && x.body.Some?
    ensures r.Returned? ==> r.value == x.body.value
    ensures x.Response? && !IsSuccess(x.status) ==> r == Threw(HttpStatus(x.status))
  {
    match x
    case TransportFailure => Threw(Transport)
    case Response(status, body) =>
      if !IsSuccess(status) then Threw(HttpStatus(status))
      else if body.None? then Threw(InvalidJson)
      else Returned(body.value)
  }
}
