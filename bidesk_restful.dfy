/** The Bidesk REST client (`bidesk_restful.py`). */
module BideskRestFul {
  import opened Wrappers
  import opened Json
  import opened Http
  import opened PyRuntime
  import opened Dicts
  import opened UrlEncoding
  import A = BideskAuth

  /**
   The HTTP exchange for one request: what `client.request(method, url,
   headers=...)` followed by `resp.json()` yields, or the exception the
   client raises instead. The network is outside this model.
   */
  type Transport = (HttpMethod, string, seq<(string, string)>) -> Result<HttpResponse, PyError>

  /** `result.get("code", None)` for a dict body; `None` for any other body. */
  function CodeOf(body: Json): Json {
    if body.JObj? then GetOrNull(body.fields, "code") else JNull
  }

  /** `code < 0` raises `TypeError` for a code Python cannot order against an int. */
  predicate Uncomparable(code: Json) {
    code.JStr? || code.JArr? || code.JObj?
  }

  /**
   What `request` makes of a response: a status other than 200 and a dict
   body whose `code` is negative are `IOError`s naming the request; a `code`
   that cannot be compared with 0 is a `TypeError`; anything else (a list
   body, a missing or `null` code, a non-negative one, a boolean one) is the
   decoded body, returned as it is.
   */
  function Classify(verb: HttpMethod, url: string, resp: HttpResponse): (r: Result<Json, PyError>)
    ensures resp.status != 200 ==> r == Failure(IOError(RequestStatus(verb, url, resp.status)))
    ensures resp.status == 200 && resp.body.None? ==> r == Failure(DecodeError)
    ensures resp.status == 200 && resp.body.Some? ==>
      var b := resp.body.value;
      var code := CodeOf(b);
      if code.JNum? && code.n < 0 then r == Failure(IOError(RequestCode(verb, url, code.n, GetOrNull(b.fields, "msg"))))
      else if Uncomparable(code) then r == Failure(TypeError)
      else r == Success(b)
  {
    if resp.status != 200 then Failure(IOError(RequestStatus(verb, url, resp.status)))
    else match resp.body
      case None => Failure(DecodeError)
      case Some(body) =>
        if !body.JObj? then Success(body)
        else match GetOrNull(body.fields, "code")
          case JNull => Success(body)
          case JBool(_) => Success(body)
          case JNum(n) =>
            if n < 0 then Failure(IOError(RequestCode(verb, url, n, GetOrNull(body.fields, "msg"))))
            else Success(body)
          case _ => Failure(TypeError)
  }

  /** The query string of a request: signed when the client has credentials. */
  function Query(auth: Option<A.BideskAuth>, items: seq<(string, Param)>, now: real, hmac: A.Hmac): string {
    match auth
    case Some(a) => Urlencode(A.Signed(a, items, now, hmac))
    case None => Urlencode(items)
  }

  /** `BideskRestFul(auth)`; `restUrl` is `REST_URL`. */
  class RestFul {
    const restUrl: string
    const auth: Option<A.BideskAuth>
    const hasAuth: bool
    const headers: seq<(string, string)>

    ghost predicate Valid() {
      hasAuth == auth.Some? &&
      headers == if auth.Some? then A.GetAuthHeaders(auth.value) else []
    }

    constructor (restUrl: string, auth: Option<A.BideskAuth>)
      ensures Valid() && this.restUrl == restUrl && this.auth == auth
    {
      this.restUrl := restUrl;
      this.auth := auth;
      hasAuth := auth.Some?;
      headers := if auth.Some? then A.GetAuthHeaders(auth.value) else [];
    }

    /** The URL `request` builds for `path` and the caller's items. */
    function Url(path: string, items: seq<(string, Param)>, now: real, hmac: A.Hmac): string {
      restUrl + path + "/?" + Query(auth, items, now, hmac)
    }

    /**
     `request(method, path, data)`: with credentials the caller's dict is
     signed in place (see `BideskAuth.GenAuthDict`); without, it is left as
     it is. The response is then classified.
     */
    method Request(verb: HttpMethod, path: string, data: Dict<Param>, now: real, hmac: A.Hmac,
                   transport: Transport) returns (r: Result<Json, PyError>)
      requires Valid() && data.Valid()
      modifies data
      ensures data.Valid()
      ensures data.items == if auth.Some? then A.Signed(auth.value, old(data.items), now, hmac) else old(data.items)
      ensures var url := Url(path, old(data.items), now, hmac);
        r == match transport(verb, url, headers)
             case Failure(e) => Failure(e)
             case Success(resp) => Classify(verb, url, resp)
    {
      ghost var items := data.items;
      var query;
      if hasAuth {
        query := A.GenAuthDict(auth.value, data, now, hmac);
      } else {
        query := Urlencode(data.items);
      }
      assert query == Query(auth, items, now, hmac);
      var url := restUrl + path + "/?" + query;
      assert url == Url(path, items, now, hmac);
      var resp := transport(verb, url, headers);
      match resp
      case Failure(e) =>
        r := Failure(e);
      case Success(resp) =>
        r := Classify(verb, url, resp);
    }

    /** `get(path, data)`. */
    method Get(path: string, data: Dict<Param>, now: real, hmac: A.Hmac, transport: Transport)
      returns (r: Result<Json, PyError>)
      requires Valid() && data.Valid()
      modifies data
      ensures data.Valid()
      ensures data.items == if auth.Some? then A.Signed(auth.value, old(data.items), now, hmac) else old(data.items)
      ensures var url := Url(path, old(data.items), now, hmac);
        r == match transport(GET, url, headers)
             case Failure(e) => Failure(e)
             case Success(resp) => Classify(GET, url, resp)
    {
      r := Request(GET, path, data, now, hmac, transport);
    }

    /** `post(path, data)`. */
    method Post(path: string, data: Dict<Param>, now: real, hmac: A.Hmac, transport: Transport)
      returns (r: Result<Json, PyError>)
      requires Valid() && data.Valid()
      modifies data
      ensures data.Valid()
      ensures data.items == if auth.Some? then A.Signed(auth.value, old(data.items), now, hmac) else old(data.items)
      ensures var url := Url(path, old(data.items), now, hmac);
        r == match transport(POST, url, headers)
             case Failure(e) => Failure(e)
             case Success(resp) => Classify(POST, url, resp)
    {
      r := Request(POST, path, data, now, hmac, transport);
    }
  }
}
