/**
 * The gRPC side of the `obs` package: the unary interceptor that settles the
 * request and trace ids, and the context readers.
 */
module ObsGrpc {
  import opened Wrappers
  import opened Http
  import ObsHttp

  /** Incoming gRPC metadata: lower-case keys, each with its list of values. */
  type Metadata = map<string, seq<string>>

  /** The first value under `key`, or "" when there is none. */
  function First(md: Option<Metadata>, key: string): (v: string)
    ensures v != "" ==> md.Some? && key in md.value && |md.value[key]| > 0 && md.value[key][0] == v
    ensures md.Some? && key in md.value && |md.value[key]| > 0 ==> v == md.value[key][0]
    ensures md.None? || key !in md.value || |md.value[key]| == 0 ==> v == ""
  {
    if md.Some? && key in md.value && |md.value[key]| > 0 then md.value[key][0] else ""
  }

  /** `ReqIDFromCtx`: the stored request id, or "" when it is missing, not a string or empty. */
  function ReqIDFromCtx(ctx: Context): (r: string)
    ensures r != "" <==> ObsHttp.CtxReqID in ctx && ctx[ObsHttp.CtxReqID].Str? && ctx[ObsHttp.CtxReqID].s != ""
  {
    if ObsHttp.CtxReqID in ctx && ctx[ObsHttp.CtxReqID].Str? && ctx[ObsHttp.CtxReqID].s != "" then
      ctx[ObsHttp.CtxReqID].s
    else ""
  }

  function TraceIDFromCtx(ctx: Context): (r: string)
    ensures r != "" <==> ObsHttp.CtxTraceID in ctx && ctx[ObsHttp.CtxTraceID].Str? && ctx[ObsHttp.CtxTraceID].s != ""
  {
    if ObsHttp.CtxTraceID in ctx && ctx[ObsHttp.CtxTraceID].Str? && ctx[ObsHttp.CtxTraceID].s != "" then
      ctx[ObsHttp.CtxTraceID].s
    else ""
  }

  /** The gRPC readers and the HTTP readers return the same id from every context. */
  lemma ReadersAgree(ctx: Context)
    ensures ReqIDFromCtx(ctx) == ObsHttp.ReqIDFrom(ctx)
    ensures TraceIDFromCtx(ctx) == ObsHttp.TraceIDFrom(ctx)
  {
  }

  /** The ids from metadata: first x-request-id or a new UUID; first x-trace-id or the request id. */
  function PickIds(md: Option<Metadata>, newId: string): ObsHttp.Ids
  {
    var reqID := if First(md, "x-request-id") == "" then newId else First(md, "x-request-id");
    ObsHttp.Ids(reqID, if First(md, "x-trace-id") == "" then reqID else First(md, "x-trace-id"))
  }

  /** A handler's answer: the response value and the error. */
  datatype Reply<R> = Reply(response: R, error: Option<string>)

  /** What the interceptor produces: the handler's reply, the context it ran under, the header sent back. */
  datatype Intercepted<R> = Intercepted(reply: Reply<R>, ctx: Context, header: Metadata)

  /** `GRPCTraceUnary`: settles the ids, stores them in the context, sends them back, calls the handler once. */
  function TraceUnary<Q, R>(ctx: Context, md: Option<Metadata>, req: Q, handler: (Context, Q) -> Reply<R>,
                            newId: string): Intercepted<R>
  {
    var ids := PickIds(md, newId);
    var ctx' := ctx[ObsHttp.CtxReqID := Str(ids.reqID)][ObsHttp.CtxTraceID := Str(ids.traceID)];
    Intercepted(handler(ctx', req), ctx', map["x-request-id" := [ids.reqID], "x-trace-id" := [ids.traceID]])
  }

  /**
   * The handler's reply is returned unchanged; inside it the context readers
   * see the ids the client is sent; the client's own non-empty ids are kept.
   */
  lemma TraceUnaryContract<Q, R>(ctx: Context, md: Option<Metadata>, req: Q, handler: (Context, Q) -> Reply<R>,
                                 newId: string)
    requires newId != ""
    ensures var t := TraceUnary(ctx, md, req, handler, newId);
            && t.reply == handler(t.ctx, req)
            && ReqIDFromCtx(t.ctx) == t.header["x-request-id"][0]
            && TraceIDFromCtx(t.ctx) == t.header["x-trace-id"][0]
            && (First(md, "x-request-id") != "" ==> ReqIDFromCtx(t.ctx) == First(md, "x-request-id"))
            && (First(md, "x-request-id") == "" ==> ReqIDFromCtx(t.ctx) == newId)
            && (First(md, "x-trace-id") == "" ==> TraceIDFromCtx(t.ctx) == ReqIDFromCtx(t.ctx))
  {
  }

  /** The interceptor and the HTTP middleware settle on the same ids for the same incoming values. */
  lemma SameRulesAsHttp(reqID: string, traceID: string, newId: string)
    ensures PickIds(Some(map["x-request-id" := [reqID], "x-trace-id" := [traceID]]), newId)
            == ObsHttp.PickIds(map["X-Request-ID" := reqID, "X-Trace-Id" := traceID], newId)
  {
  }
}
