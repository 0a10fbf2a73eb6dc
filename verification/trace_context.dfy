/** The trace-context middleware: it derives a Cloud Trace resource name from
    the `X-Cloud-Trace-Context` request header and stores it in the request
    context under the key "trace", where the log handler finds it again. */
module TraceContext {
  import opened Wrappers
  import GoStrings

  /** Name of the request header that carries `<trace-id>/<span-id>;o=<flag>`. */
  const TraceHeaderName: string := "X-Cloud-Trace-Context"

  /** Context key under which the middleware stores the trace resource name. */
  const TraceKey: string := "trace"

  /** Request headers: each (canonical) header name with its values in the
      order they arrived. */
  type Header = map<string, seq<string>>

  /** `http.Header.Get`: the first value of `name`, or "" when there is none,
      so an absent header reads like an empty one. */
  function HeaderGet(h: Header, name: string): (v: string)
    ensures name !in h ==> v == ""
    ensures name in h && |h[name]| > 0 ==> v == h[name][0]
    ensures name in h && |h[name]| == 0 ==> v == ""
  {
    if name in h && |h[name]| > 0 then h[name][0] else ""
  }

  /** A request's processing context, reduced to the string values stored in
      it by key. */
  datatype Context = Context(values: map<string, string>)

  /** `context.WithValue`: a context that answers `v` for `key` and otherwise
      answers like `ctx`. */
  function WithValue(ctx: Context, key: string, v: string): (r: Context)
    ensures Value(r, key) == Some(v)
    ensures forall k :: k != key ==> Value(r, k) == Value(ctx, k)
  {
    Context(ctx.values[key := v])
  }

  /** `ctx.Value(key)`: the value stored under `key`, if any. */
  function Value(ctx: Context, key: string): (r: Option<string>)
    ensures r.None? <==> key !in ctx.values
    ensures r.Some? ==> r.value == ctx.values[key]
  {
    if key in ctx.values then Some(ctx.values[key]) else None
  }

  /** The fixed part of every trace resource name of a project. */
  function TracesPath(projectID: string): string {
    "projects/" + projectID + "/traces/"
  }

  /** The trace value the middleware computes for one request: the header is
      split on "/" and, when the first piece is non-empty, the result is
      `projects/<projectID>/traces/<first piece>`; otherwise it is empty. */
  function DeriveTrace(projectID: string, header: string): (trace: string)
    ensures trace == "" <==> header == "" || header[0] == '/'
    ensures trace != "" ==> "projects/" <= trace
    ensures trace != "" ==>
      && TracesPath(projectID) < trace
      && GoStrings.Leading(header, '/', trace[|TracesPath(projectID)|..])
  {
    var traceParts := GoStrings.Split(header, '/');
    if |traceParts| > 0 && |traceParts[0]| > 0 then
      var trace := TracesPath(projectID) + traceParts[0];
      assert trace[|TracesPath(projectID)|..] == traceParts[0];
      trace
    else
      ""
  }

  /** The request handler's view of the middleware: the context it passes on
      holds the derived trace under "trace" (the empty string when there is
      none) and is otherwise the request's own context. */
  function WithCloudTraceContext(projectID: string, header: Header, ctx: Context): (inner: Context)
    ensures Value(inner, TraceKey) == Some(DeriveTrace(projectID, HeaderGet(header, TraceHeaderName)))
    ensures forall k :: k != TraceKey ==> Value(inner, k) == Value(ctx, k)
  {
    var traceHeader := HeaderGet(header, TraceHeaderName);
    WithValue(ctx, TraceKey, DeriveTrace(projectID, traceHeader))
  }

  /** `traceFromContext`: the trace stored under "trace", or "" when the key
      is absent. */
  function TraceFromContext(ctx: Context): (trace: string)
    ensures Value(ctx, TraceKey).None? ==> trace == ""
    ensures Value(ctx, TraceKey).Some? ==> trace == Value(ctx, TraceKey).value
  {
    Value(ctx, TraceKey).GetOr("")
  }

  /** Every header decomposes into a first piece `id` with no "/" and a rest
      that is empty or starts with "/"; the trace is then exactly
      `projects/<projectID>/traces/<id>`, or empty when `id` is. */
  lemma TraceOfHeader(projectID: string, id: string, suffix: string)
    requires '/' !in id
    requires suffix == "" || suffix[0] == '/'
    ensures DeriveTrace(projectID, id + suffix)
            == if id == "" then "" else "projects/" + projectID + "/traces/" + id
  {
    GoStrings.FirstPiece(id, suffix, '/');
  }

  /** Only the text before the first "/" matters: the span id, the `;o=`
      option and any further "/" pieces do not change the trace. */
  lemma TraceIgnoresSpan(projectID: string, id: string, span1: string, span2: string)
    requires '/' !in id
    ensures DeriveTrace(projectID, id + "/" + span1) == DeriveTrace(projectID, id + "/" + span2)
  {
    assert id + "/" + span1 == id + ("/" + span1);
    assert id + "/" + span2 == id + ("/" + span2);
    TraceOfHeader(projectID, id, "/" + span1);
    TraceOfHeader(projectID, id, "/" + span2);
  }

  /** Two headers with the same leading piece give the same trace. */
  lemma TraceDependsOnLeadingPiece(projectID: string, h1: string, h2: string, id: string)
    requires GoStrings.Leading(h1, '/', id) && GoStrings.Leading(h2, '/', id)
    ensures DeriveTrace(projectID, h1) == DeriveTrace(projectID, h2)
  {
    assert h1 == id + h1[|id|..];
    assert h2 == id + h2[|id|..];
    TraceOfHeader(projectID, id, h1[|id|..]);
    TraceOfHeader(projectID, id, h2[|id|..]);
  }

  /** What the middleware stores is what the log handler reads back. */
  lemma HandlerSeesDerivedTrace(projectID: string, header: Header, ctx: Context)
    ensures TraceFromContext(WithCloudTraceContext(projectID, header, ctx))
            == DeriveTrace(projectID, HeaderGet(header, TraceHeaderName))
  {
  }

  /** A request without the header gets the empty trace. */
  lemma AbsentHeaderNoTrace(projectID: string, header: Header, ctx: Context)
    requires TraceHeaderName !in header
    ensures TraceFromContext(WithCloudTraceContext(projectID, header, ctx)) == ""
  {
  }
}
