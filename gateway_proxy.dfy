/**
 * The gateway's single-host reverse proxy: the director that rewrites an
 * outgoing request, the response hook that drops the upstream's CORS
 * headers, and the error handler. Transport, timeouts and TLS are left out.
 */
module GatewayProxy {
  import opened Text
  import opened Http

  /** `NewHTTPReverseProxy`'s options that shape requests. */
  datatype Options = Options(target: Url, stripPrefix: string)

  /** `a` without one trailing slash, if it has one. */
  function WithoutTrailingSlash(a: string): string
  {
    if |a| > 0 && a[|a| - 1] == '/' then a[..|a| - 1] else a
  }

  /**
   * `singleJoiningSlash` of `net/http/httputil`: whatever slashes the two
   * halves bring, exactly one slash sits at the seam.
   */
  function JoinPath(a: string, b: string): (r: string)
    ensures r == WithoutTrailingSlash(a) + "/" + TrimPrefix(b, "/")
    ensures HasPrefix(r, a) || (|a| > 0 && r == a[..|a| - 1] + b)
  {
    var aslash := |a| > 0 && a[|a| - 1] == '/';
    var bslash := |b| > 0 && b[0] == '/';
    if aslash && bslash then a + b[1..]
    else if !aslash && !bslash then a + "/" + b
    else a + b
  }

  /** The path after the prefix has been stripped: never empty when it was stripped. */
  function StrippedPath(path: string, prefix: string): string
  {
    if prefix != "" && HasPrefix(path, prefix) then
      var rest := TrimPrefix(path, prefix);
      if rest == "" then "/" else rest
    else path
  }

  /** Stripping is undone by putting the prefix back, unless the path was the prefix alone. */
  lemma StripRestores(path: string, prefix: string)
    requires prefix != "" && HasPrefix(path, prefix) && path != prefix
    ensures prefix + StrippedPath(path, prefix) == path
  {
    assert path == path[..|prefix|] + path[|prefix|..];
  }

  /** The bare prefix becomes the root, and a path without the prefix is left as it is. */
  lemma StripEdges(path: string, prefix: string)
    ensures prefix != "" ==> StrippedPath(prefix, prefix) == "/"
    ensures !HasPrefix(path, prefix) || prefix == "" ==> StrippedPath(path, prefix) == path
    ensures path != "" ==> StrippedPath(path, prefix) != ""
  {
    assert prefix[..|prefix|] == prefix;
  }

  /** The default director's work: target scheme and host, target path joined before the request's. */
  function DirectedUrl(u: Url, target: Url): Url
  {
    Url(target.scheme, target.host, JoinPath(target.path, u.path))
  }

  /** The headers after the director: forwarded host and protocol, a User-Agent entry kept or made empty. */
  function DirectedHeader(h: Header, originalHost: string): (r: Header)
    ensures r.Keys == h.Keys + {"User-Agent", "X-Forwarded-Host", "X-Forwarded-Proto"}
    ensures r["X-Forwarded-Host"] == originalHost && r["X-Forwarded-Proto"] == "http"
    ensures forall k :: k in h && k != "X-Forwarded-Host" && k != "X-Forwarded-Proto" ==> r[k] == h[k]
  {
    var ua := if "User-Agent" in h then h else h["User-Agent" := ""];
    ua["X-Forwarded-Host" := originalHost]["X-Forwarded-Proto" := "http"]
  }

  /**
   * `rp.Director`: the default single-host director, then the prefix strip,
   * the forwarded headers, and the upstream host as the request's Host.
   */
  method Director(req: Request, opt: Options)
    modifies req`header, req`host, req`url
    ensures req.url == (var d := DirectedUrl(old(req.url), opt.target);
                        d.(path := StrippedPath(d.path, opt.stripPrefix)))
    ensures req.header == DirectedHeader(old(req.header), old(req.host))
    ensures req.host == opt.target.host
  {
    req.url := DirectedUrl(req.url, opt.target);
    if !("User-Agent" in req.header) {
      req.header := req.header["User-Agent" := ""];
    }
    if opt.stripPrefix != "" && HasPrefix(req.url.path, opt.stripPrefix) {
      req.url := req.url.(path := TrimPrefix(req.url.path, opt.stripPrefix));
      if req.url.path == "" {
        req.url := req.url.(path := "/");
      }
    }
    req.header := req.header["X-Forwarded-Host" := req.host];
    req.header := req.header["X-Forwarded-Proto" := "http"];
    req.host := opt.target.host;
  }

  /**
   * With an upstream target that has no path, a request under the prefix
   * reaches the upstream at the rest of its path.
   */
  lemma RouteUnderPrefix(prefix: string, rest: string, target: Url)
    requires target.path == "" && prefix != "" && HasPrefix(prefix, "/") && HasPrefix(rest, "/")
    ensures StrippedPath(DirectedUrl(Url("", "", prefix + rest), target).path, prefix) == rest
  {
    assert (prefix + rest)[0] == '/';
    assert (prefix + rest)[..|prefix|] == prefix;
    assert (prefix + rest)[|prefix|..] == rest;
  }

  /** The CORS headers the gateway sets itself, removed from every upstream response. */
  const CorsHeaders: set<string> := {
    "Access-Control-Allow-Origin", "Access-Control-Allow-Headers", "Access-Control-Allow-Methods",
    "Access-Control-Expose-Headers", "Access-Control-Allow-Credentials"}

  /** A response from an upstream service, whose headers `ModifyResponse` edits in place. */
  class UpstreamResponse {
    var status: int
    var header: Header

    constructor (status: int, header: Header)
      ensures this.status == status && this.header == header
    {
      this.status := status;
      this.header := header;
    }
  }

  /** The headers with the CORS ones removed. */
  function WithoutCors(h: Header): (r: Header)
    ensures r.Keys !! CorsHeaders
    ensures r.Keys == h.Keys - CorsHeaders
    ensures forall k :: k in r ==> r[k] == h[k]
  {
    h - CorsHeaders
  }

  lemma WithoutCorsIdempotent(h: Header)
    ensures WithoutCors(WithoutCors(h)) == WithoutCors(h)
  {
  }

  /** `rp.ModifyResponse`: deletes the five CORS headers, one by one, and never fails. */
  method ModifyResponse(res: UpstreamResponse)
    modifies res`header
    ensures res.header == WithoutCors(old(res.header))
  {
    res.header := res.header - {"Access-Control-Allow-Origin"};
    res.header := res.header - {"Access-Control-Allow-Headers"};
    res.header := res.header - {"Access-Control-Allow-Methods"};
    res.header := res.header - {"Access-Control-Expose-Headers"};
    res.header := res.header - {"Access-Control-Allow-Credentials"};
  }

  /** `rp.ErrorHandler`: every transport failure answers 502 "Upstream unavailable". */
  datatype Reply = Reply(status: int, text: string)

  function ErrorHandler(): (r: Reply)
    ensures r.status == StatusBadGateway
  {
    Reply(StatusBadGateway, "Upstream unavailable")
  }
}
