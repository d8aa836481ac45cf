/**
 Decoded JSON values, as `json.loads`/`ujson.loads` return them: `None`,
 booleans, numbers, strings, lists and dicts. Numbers are integers here.
 A `JObj` stands for a decoded dict, whose keys are distinct (the decoders
 keep the last of repeated keys); the type itself does not rule out a
 repeated key, and on such a value the lookups below see the first one.
 */
module Json {
  import opened Wrappers
  import Dicts

  datatype Json =
    | JNull
    | JBool(b: bool)
    | JNum(n: int)
    | JStr(s: string)
    | JArr(items: seq<Json>)
    | JObj(fields: seq<(string, Json)>)

  /** `d.get(key)` on a decoded dict: the value, or `None` when the key is absent. */
  function GetOrNull(fields: seq<(string, Json)>, key: string): (r: Json)
    ensures key !in Dicts.Keys(fields) ==> r == JNull
    ensures key in Dicts.Keys(fields) ==> Dicts.Get(fields, key) == Some(r)
  {
    match Dicts.Get(fields, key)
    case Some(v) => v
    case None => JNull
  }

  /** The optional form of `d.get(key)`, for callers that tell "absent" from "null". */
  function Lookup(fields: seq<(string, Json)>, key: string): Option<Json> {
    Dicts.Get(fields, key)
  }

  /** A Python value that renders a `None` as `null` and a string as itself. */
  function StrOrNull(s: Option<string>): Json {
    match s
    case Some(x) => JStr(x)
    case None => JNull
  }
}

/** The HTTP request methods and the response the transport hands back. */
module Http {
  import opened Wrappers
  import opened Json

  datatype HttpMethod = GET | POST

  /** Status and decoded body; a `None` body is one that is not valid JSON. */
  datatype HttpResponse = HttpResponse(status: int, body: Option<Json>)
}

/**
 The exceptions the connectors raise or let through, and the Python runtime
 behaviour of the few operations they apply to decoded values: iteration,
 `x[key]`, `x[0]` and comparison with `0`.
 */
module PyRuntime {
  import opened Wrappers
  import opened Json
  import opened Http
  import Dicts

  datatype PyError =
    | IOError(detail: IODetail)
    | AttributeError
    | TypeError
    | ValueError
    | KeyError
    | IndexError
    /** a body or inbound frame that is not valid JSON */
    | DecodeError
    /** a failure of the HTTP or WebSocket client itself */
    | ClientError
    | TimeoutError
    | CancelledError

  /** What an `IOError` raised by the connectors carries. */
  datatype IODetail =
    | RequestStatus(verb: HttpMethod, url: string, status: int)
    | RequestCode(verb: HttpMethod, url: string, code: int, msg: Json)
    | OrderBookFetch(tradingPair: string, cause: PyError)
    | LastPricesStatus(status: int)
    | OrderBookStatus(pair: string, httpStatus: int)

  /** `for x in j`: lists yield their items, dicts their keys, strings their characters. */
  function Iterate(j: Json): (r: Result<seq<Json>, PyError>)
    ensures j.JArr? ==> r == Success(j.items)
    ensures (j.JNull? || j.JNum? || j.JBool?) ==> r == Failure(TypeError)
    ensures j.JObj? ==> r.Success? && |r.value| == |j.fields| && forall i :: 0 <= i < |r.value| ==> r.value[i] == JStr(j.fields[i].0)
    ensures j.JStr? ==> r.Success? && |r.value| == |j.s| && forall i :: 0 <= i < |r.value| ==> r.value[i] == JStr([j.s[i]])
  {
    match j
    case JArr(items) => Success(items)
    case JObj(fields) => Success(seq(|fields|, i requires 0 <= i < |fields| => JStr(fields[i].0)))
    case JStr(s) => Success(seq(|s|, i requires 0 <= i < |s| => JStr([s[i]])))
    case _ => Failure(TypeError)
  }

  /** `j[key]` with a string key. */
  function Subscript(j: Json, key: string): (r: Result<Json, PyError>)
    ensures r.Success? <==> j.JObj? && key in Dicts.Keys(j.fields)
    ensures r.Success? ==> Dicts.Get(j.fields, key) == Some(r.value)
  {
    match j
    case JObj(fields) => if key in Dicts.Keys(fields) then Success(GetOrNull(fields, key)) else Failure(KeyError)
    case _ => Failure(TypeError)
  }

  /** `j[0]`: the first item of a list or the first character of a string. */
  function First(j: Json): (r: Result<Json, PyError>)
    ensures r.Success? <==> (j.JArr? && |j.items| > 0) || (j.JStr? && |j.s| > 0)
    ensures j.JArr? && |j.items| > 0 ==> r == Success(j.items[0])
  {
    match j
    case JArr(items) => if |items| > 0 then Success(items[0]) else Failure(IndexError)
    case JStr(s) => if |s| > 0 then Success(JStr([s[0]])) else Failure(IndexError)
    case JObj(_) => Failure(KeyError)
    case _ => Failure(TypeError)
  }

  /** `j == 0` in Python, where `False == 0` holds. */
  predicate EqualsZero(j: Json) {
    j == JNum(0) || j == JBool(false)
  }
}
