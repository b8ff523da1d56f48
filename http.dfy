/** The small part of HTTP the handlers and middlewares share: header maps and status codes. */
module Http {

  /** A request or response header with one value per (canonical) name. */
  type Header = map<string, string>

  /** Go's `Header.Get`: the value, or "" when the name is absent. */
  function Get(h: Header, name: string): string
  {
    if name in h then h[name] else ""
  }

  /** The parts of a request URL the gateway looks at or rewrites. */
  datatype Url = Url(scheme: string, host: string, path: string)

  /** A value stored in a Go `context.Context`: a string, or something else. */
  datatype CtxValue = Str(s: string) | NonString

  /** The values a request's context carries, by key. */
  type Context = map<string, CtxValue>

  /** An incoming request as a Go handler sees it: the middlewares rewrite it in place. */
  class Request {
    var header: Header
    /** `req.Host`, the authority the client addressed. */
    var host: string
    var url: Url
    var remoteAddr: string
    var ctx: Context

    constructor (header: Header, host: string, url: Url, remoteAddr: string, ctx: Context)
      ensures this.header == header && this.host == host && this.url == url
      ensures this.remoteAddr == remoteAddr && this.ctx == ctx
    {
      this.header := header;
      this.host := host;
      this.url := url;
      this.remoteAddr := remoteAddr;
      this.ctx := ctx;
    }
  }

  const StatusOK := 200
  const StatusCreated := 201
  const StatusNoContent := 204
  const StatusBadRequest := 400
  const StatusUnauthorized := 401
  const StatusForbidden := 403
  const StatusNotFound := 404
  const StatusExpectationFailed := 417
  const StatusLocked := 423
  const StatusInternalServerError := 500
  const StatusBadGateway := 502
}
