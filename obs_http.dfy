/**
 * The HTTP side of the `obs` package: request and trace ids carried in the
 * request context and echoed on the response, the response writer that
 * counts status and bytes for the access log, and the client address.
 */
module ObsHttp {
  import opened Wrappers
  import opened Http

  const CtxReqID := "request_id"
  const CtxTraceID := "trace_id"

  /** The string stored under `key`, or "" when there is none. */
  function StringAt(ctx: Context, key: string): (r: string)
    ensures r != "" ==> key in ctx && ctx[key] == Str(r)
    ensures key in ctx && ctx[key].Str? ==> r == ctx[key].s
  {
    if key in ctx && ctx[key].Str? then ctx[key].s else ""
  }

  function ReqIDFrom(ctx: Context): string
  {
    StringAt(ctx, CtxReqID)
  }

  function TraceIDFrom(ctx: Context): string
  {
    StringAt(ctx, CtxTraceID)
  }

  datatype Ids = Ids(reqID: string, traceID: string)

  /**
   * The ids `TraceMiddleware` settles on: the incoming X-Request-ID, or a
   * new UUID when it is empty; the incoming X-Trace-Id, or the request id.
   */
  function PickIds(h: Header, newId: string): (ids: Ids)
    ensures Get(h, "X-Request-ID") != "" ==> ids.reqID == Get(h, "X-Request-ID")
    ensures Get(h, "X-Request-ID") == "" ==> ids.reqID == newId
    ensures Get(h, "X-Trace-Id") != "" ==> ids.traceID == Get(h, "X-Trace-Id")
    ensures Get(h, "X-Trace-Id") == "" ==> ids.traceID == ids.reqID
    ensures newId != "" ==> ids.reqID != "" && ids.traceID != ""
  {
    var reqID := if Get(h, "X-Request-ID") == "" then newId else Get(h, "X-Request-ID");
    var traceID := if Get(h, "X-Trace-Id") == "" then reqID else Get(h, "X-Trace-Id");
    Ids(reqID, traceID)
  }

  /** What the next handler gets from `TraceMiddleware`: the response headers so far and the request context. */
  datatype Traced = Traced(responseHeader: Header, ctx: Context)

  function TraceMiddleware(h: Header, responseHeader: Header, ctx: Context, newId: string): Traced
  {
    var ids := PickIds(h, newId);
    Traced(responseHeader["X-Request-ID" := ids.reqID]["X-Trace-Id" := ids.traceID],
           ctx[CtxReqID := Str(ids.reqID)][CtxTraceID := Str(ids.traceID)])
  }

  /**
   * Downstream of `TraceMiddleware` the context yields the ids that were
   * echoed on the response, and every other response header and context
   * entry is kept.
   */
  lemma TraceIdsReachContextAndResponse(h: Header, responseHeader: Header, ctx: Context, newId: string)
    ensures var t := TraceMiddleware(h, responseHeader, ctx, newId);
            var ids := PickIds(h, newId);
            && ReqIDFrom(t.ctx) == ids.reqID && TraceIDFrom(t.ctx) == ids.traceID
            && t.responseHeader["X-Request-ID"] == ids.reqID && t.responseHeader["X-Trace-Id"] == ids.traceID
            && (forall k :: k in responseHeader && k != "X-Request-ID" && k != "X-Trace-Id" ==>
                  t.responseHeader[k] == responseHeader[k])
            && (forall k :: k in ctx && k != CtxReqID && k != CtxTraceID ==> t.ctx[k] == ctx[k])
  {
  }

  /** A caller that sent both ids gets them back unchanged, whatever new id was drawn. */
  lemma CallerIdsWin(h: Header, newId1: string, newId2: string)
    requires Get(h, "X-Request-ID") != ""
    ensures PickIds(h, newId1) == PickIds(h, newId2)
  {
  }

  /** The sum of a sequence of byte counts. */
  function Total(ns: seq<nat>): nat
  {
    if |ns| == 0 then 0 else Total(ns[..|ns| - 1]) + ns[|ns| - 1]
  }

  /**
   * `lrw`: wraps the real writer and remembers the status and how many
   * bytes went through. `written` is the history of byte counts.
   */
  class LoggingWriter {
    var status: int
    var bytes: int
    ghost var written: seq<nat>

    ghost predicate Valid()
      reads this
    {
      bytes == Total(written)
    }

    /** `&lrw{ResponseWriter: w}`: status and bytes start at zero. */
    constructor ()
      ensures Valid() && status == 0 && bytes == 0 && written == []
    {
      status := 0;
      bytes := 0;
      written := [];
    }

    /** `WriteHeader`: records the code and passes it on. */
    method WriteHeader(code: int)
      modifies this`status
      ensures status == code
    {
      status := code;
    }

    /**
     * `Write`: the underlying writer reports `n` of the `b` bytes written;
     * they are counted, and a body with no status before it means 200.
     */
    method Write(b: seq<bv8>, n: nat) returns (count: nat)
      requires Valid() && n <= |b|
      modifies this
      ensures Valid() && count == n
      ensures written == old(written) + [n] && bytes == old(bytes) + n
      ensures status == (if old(status) == 0 then StatusOK else old(status))
    {
      bytes := bytes + n;
      written := written + [n];
      assert written[..|written| - 1] == old(written);
      if status == 0 {
        status := StatusOK;
      }
      count := n;
    }
  }

  /** A status set by `WriteHeader` survives later writes. */
  method WriteAfterHeader(code: int, body: seq<bv8>) returns (status: int, bytes: int)
    requires code != 0
    ensures status == code && bytes == |body|
  {
    var w := new LoggingWriter();
    w.WriteHeader(code);
    var _ := w.Write(body, |body|);
    status, bytes := w.status, w.bytes;
  }

  /** `net.SplitHostPort`: the host part of an address, or None when it does not parse. */
  type SplitHostPort = string -> Option<string>

  /** `clientIP`: X-Forwarded-For, then X-Real-IP, then the host of RemoteAddr, then RemoteAddr itself. */
  function ClientIP(h: Header, remoteAddr: string, split: SplitHostPort): (ip: string)
    ensures Get(h, "X-Forwarded-For") != "" ==> ip == Get(h, "X-Forwarded-For")
    ensures Get(h, "X-Forwarded-For") == "" && Get(h, "X-Real-IP") != "" ==> ip == Get(h, "X-Real-IP")
    ensures Get(h, "X-Forwarded-For") == "" && Get(h, "X-Real-IP") == "" ==>
              ip == (if split(remoteAddr).Some? then split(remoteAddr).value else remoteAddr)
  {
    var xf := Get(h, "X-Forwarded-For");
    if xf != "" then xf
    else
      var xr := Get(h, "X-Real-IP");
      if xr != "" then xr
      else match split(remoteAddr)
        case Some(host) => host
        case None => remoteAddr
  }

  /** The address the log records is the caller's to choose: a sent X-Forwarded-For is taken as it is. */
  lemma ClientIPIsCallerControlled(h: Header, remoteAddr: string, split: SplitHostPort, claimed: string)
    requires claimed != ""
    ensures ClientIP(h["X-Forwarded-For" := claimed], remoteAddr, split) == claimed
  {
  }
}
