/**
 * The HTTP transport the storage client talks through.  The shared session
 * is the only piece of state: it is bound to a base URL and a header set once,
 * and every request sent through it is recorded in a ghost log.  What the
 * service answers is not computed here: each operation receives it as a
 * parameter.
 */
module Http {
  import opened Json

  newtype byte = x: int | 0 <= x < 256

  datatype Method = Get | Post | Delete

  /** One part of a multipart body: file name, payload and content type. */
  datatype FilePart = FilePart(filename: string, content: seq<byte>, contentType: string)

  datatype Body =
    | NoBody
    | JsonBody(json: Json)
    | Multipart(files: map<string, FilePart>)

  /**
   * A request as handed to the session: the path relative to the base URL,
   * the body, and the headers given for this request alone (the session adds
   * its own, see Session.EffectiveHeaders).
   */
  datatype Request = Request(verb: Method, path: string, body: Body, headers: map<string, string>)

  /** A reply: its status, its body decoded as JSON, and its raw bytes. */
  datatype Response = Response(status: int, body: Json, content: seq<byte>)

  /** The statuses for which `raise_for_status` does not raise. */
  predicate IsSuccess(status: int) {
    200 <= status < 300
  }

  /**
   * The base URL as the HTTP client stores it: with a trailing '/', added
   * when the given URL does not end in one.
   */
  function NormalisedBaseUrl(url: string): (b: string)
    ensures |url| <= |b| <= |url| + 1 && b[..|url|] == url
    ensures |b| > 0 && b[|b| - 1] == '/'
    ensures b == url <==> url != [] && url[|url| - 1] == '/'
  {
    if url != [] && url[|url| - 1] == '/' then url else url + "/"
  }

  /** The shared asynchronous HTTP session (one connection pool, one configuration). */
  class Session {
    const baseUrl: string
    const headers: map<string, string>
    /** Every request sent so far, oldest first. */
    ghost var log: seq<Request>

    constructor (url: string, headers: map<string, string>)
      ensures baseUrl == NormalisedBaseUrl(url) && this.headers == headers
      ensures log == []
    {
      baseUrl := NormalisedBaseUrl(url);
      this.headers := headers;
      log := [];
    }

    /** Sends one request; the service's answer is `reply`. */
    method Send(req: Request, reply: Response) returns (resp: Response)
      modifies this
      ensures log == old(log) + [req]
      ensures resp == reply
    {
      log := log + [req];
      resp := reply;
    }

    /**
     * The headers the session and `req` contribute: the session's own, with the
     * request's headers taking precedence where both name the same key.
     */
    function EffectiveHeaders(req: Request): (h: map<string, string>)
      ensures h.Keys == headers.Keys + req.headers.Keys
      ensures forall k :: k in req.headers ==> h[k] == req.headers[k]
      ensures forall k :: k in headers && k !in req.headers ==> h[k] == headers[k]
    {
      headers + req.headers
    }
  }
}
