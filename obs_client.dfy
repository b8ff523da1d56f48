/**
 * `CorrTransport`: the client transport that copies the correlation ids from
 * a request's context into its headers before handing it on.
 */
module ObsClient {
  import opened Wrappers
  import opened Http
  import ObsHttp

  /** A `http.RoundTripper`: the default transport or another one, named. */
  datatype RoundTripper = DefaultTransport | Transport(name: string)

  /** `CorrTransport{Base}`; a nil Base is None. */
  datatype CorrTransport = CorrTransport(base: Option<RoundTripper>)

  /** One header filled from the context when it is empty and the context has a value. */
  function Fill(h: Header, name: string, fromCtx: string): (r: Header)
    ensures Get(h, name) != "" || fromCtx == "" ==> r == h
    ensures Get(h, name) == "" && fromCtx != "" ==> r == h[name := fromCtx]
  {
    if Get(h, name) == "" && fromCtx != "" then h[name := fromCtx] else h
  }

  /** The headers `RoundTrip` sends. */
  function Propagated(h: Header, ctx: Context): Header
  {
    Fill(Fill(h, "X-Request-ID", ObsHttp.ReqIDFrom(ctx)), "X-Trace-Id", ObsHttp.TraceIDFrom(ctx))
  }

  /** A header that is already set is never overwritten, and one left empty is filled from the context. */
  lemma PropagationRules(h: Header, ctx: Context)
    ensures var r := Propagated(h, ctx);
            && (Get(h, "X-Request-ID") != "" ==> r["X-Request-ID"] == h["X-Request-ID"])
            && (Get(h, "X-Trace-Id") != "" ==> r["X-Trace-Id"] == h["X-Trace-Id"])
            && (Get(h, "X-Request-ID") == "" ==> Get(r, "X-Request-ID") == ObsHttp.ReqIDFrom(ctx))
            && (Get(h, "X-Trace-Id") == "" ==> Get(r, "X-Trace-Id") == ObsHttp.TraceIDFrom(ctx))
            && forall k :: k in h && k != "X-Request-ID" && k != "X-Trace-Id" ==> r[k] == h[k]
  {
  }

  lemma PropagationIdempotent(h: Header, ctx: Context)
    ensures Propagated(Propagated(h, ctx), ctx) == Propagated(h, ctx)
  {
  }

  /**
   * End to end: a request made under the context `TraceMiddleware` built
   * carries that request's ids to the next service.
   */
  lemma IdsTravelDownstream(incoming: Header, responseHeader: Header, ctx: Context, newId: string)
    requires newId != ""
    ensures var t := ObsHttp.TraceMiddleware(incoming, responseHeader, ctx, newId);
            var ids := ObsHttp.PickIds(incoming, newId);
            var out := Propagated(map[], t.ctx);
            out["X-Request-ID"] == ids.reqID && out["X-Trace-Id"] == ids.traceID
  {
    ObsHttp.TraceIdsReachContextAndResponse(incoming, responseHeader, ctx, newId);
  }

  /**
   * `RoundTrip`: fills the headers in place and delegates once, to Base or,
   * when Base is nil, to the default transport; `used` is the transport the
   * request was handed to.
   */
  method RoundTrip(t: CorrTransport, r: Request) returns (used: RoundTripper)
    modifies r`header
    ensures r.header == Propagated(old(r.header), r.ctx)
    ensures used == (if t.base.None? then DefaultTransport else t.base.value)
  {
    var base := if t.base.None? then DefaultTransport else t.base.value;
    if Get(r.header, "X-Request-ID") == "" {
      var id := ObsHttp.ReqIDFrom(r.ctx);
      if id != "" {
        r.header := r.header["X-Request-ID" := id];
      }
    }
    if Get(r.header, "X-Trace-Id") == "" {
      var id := ObsHttp.TraceIDFrom(r.ctx);
      if id != "" {
        r.header := r.header["X-Trace-Id" := id];
      }
    }
    used := base;
  }
}
