/** The slice of net/http the middlewares and proxies use: requests with
    their headers and cookies, responses, and the forwarding step both
    proxies share (copy the first value of each header, send, relay the
    answer or report the transport error as 500). */
module Http {
  import opened Base
  import Url

  datatype Cookie = Cookie(name: string, value: string)

  /** An incoming request; `path` is r.URL.Path. Header keys are taken to be
      in canonical form already. */
  datatype Request = Request(
    verb: string,
    path: string,
    headers: map<string, seq<string>>,
    cookies: seq<Cookie>,
    body: Bytes)

  datatype Response = Response(status: int, headers: map<string, string>, body: Bytes, setCookies: seq<Cookie>)

  /** What a middleware does with a request: hand it on, answer it itself,
      or panic. */
  datatype Handled = Next | Reply(response: Response) | Panicked

  /** The request a proxy sends upstream. */
  datatype Outbound = Outbound(verb: string, uri: string, headers: map<string, string>, body: Bytes)

  /** The upstream answer. */
  datatype Upstream = Upstream(status: int, headers: map<string, seq<string>>, body: Bytes)

  const StatusOK: int := 200
  const StatusBadRequest: int := 400
  const StatusUnauthorized: int := 401
  const StatusInternalServerError: int := 500

  /** r.Header.Get: the first value, or "" when there is none. */
  function HeaderGet(h: map<string, seq<string>>, key: string): string
  {
    if key in h && |h[key]| > 0 then h[key][0] else []
  }

  /** r.Cookie(name): the first cookie of that name. */
  function CookieNamed(cookies: seq<Cookie>, name: string): (r: Option<Cookie>)
    ensures r.Some? ==> r.value in cookies && r.value.name == name
    ensures r.None? ==> forall c :: c in cookies ==> c.name != name
  {
    if cookies == [] then None
    else if cookies[0].name == name then Some(cookies[0])
    else CookieNamed(cookies[1..], name)
  }

  /** The first value of every header; None when some header has no value,
      where Go's value[0] would panic. */
  function FirstValues(h: map<string, seq<string>>): (r: Option<map<string, string>>)
    ensures r.Some? <==> forall k :: k in h ==> |h[k]| > 0
    ensures r.Some? ==> r.value.Keys == h.Keys && forall k :: k in h ==> r.value[k] == h[k][0]
  {
    if forall k :: k in h ==> |h[k]| > 0 then Some(map k | k in h :: h[k][0]) else None
  }

  /** http.Error(w, message, 500). */
  function InternalError(message: string): Response
  {
    Response(StatusInternalServerError,
      map["Content-Type" := "text/plain; charset=utf-8", "X-Content-Type-Options" := "nosniff"],
      message + "\n", [])
  }

  /** The forwarding both proxies perform: http.NewRequest (whose error is
      ignored, so an unparsable target leaves a nil request that is then
      used), the first value of each request header, the transport call,
      then the first value of each response header and the upstream status
      and body. */
  function Forward(r: Request, uri: string, send: Outbound -> Result<Upstream, string>): (h: Handled)
    ensures h != Next
    ensures h.Panicked? <==>
      (Url.Parse(uri).Err? || FirstValues(r.headers).None? ||
       (send(Outbound(r.verb, uri, FirstValues(r.headers).value, r.body)).Ok? &&
        FirstValues(send(Outbound(r.verb, uri, FirstValues(r.headers).value, r.body)).value.headers).None?))
    ensures h.Reply? ==>
      var sent := send(Outbound(r.verb, uri, FirstValues(r.headers).value, r.body));
      (sent.Err? ==> h.response == InternalError(sent.error)) &&
      (sent.Ok? ==> h.response.status == sent.value.status && h.response.body == sent.value.body &&
                    h.response.headers.Keys == sent.value.headers.Keys &&
                    forall k :: k in sent.value.headers ==> h.response.headers[k] == sent.value.headers[k][0])
  {
    if Url.Parse(uri).Err? then Panicked
    else
      match FirstValues(r.headers)
      case None => Panicked
      case Some(hs) =>
        match send(Outbound(r.verb, uri, hs, r.body))
        case Err(e) => Reply(InternalError(e))
        case Ok(up) =>
          match FirstValues(up.headers)
          case None => Panicked
          case Some(rh) => Reply(Response(up.status, rh, up.body, []))
  }
}
