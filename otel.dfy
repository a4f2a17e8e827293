/** Request contexts, spans and the process-wide tracer provider of
    go/trace/otel.go: `SpanFromRemote`, `StartSpan`, `EndSpan` and the
    initialisers that replace the package-level `tp`. */
module Otel {
  import opened Outcomes
  import opened Encoding
  import opened TraceContext
  import Strconv

  // ---------------------------------------------------------------------
  // Spans and contexts

  datatype StatusCode = Unset | Error

  /** The SDK orders status codes: a span never moves to a lower one. */
  function StatusRank(c: StatusCode): nat {
    match c
    case Unset => 0
    case Error => 1
  }

  datatype AttributeValue = StringValue(s: string) | BoolValue(b: bool) | Int64Value(i: int)

  /** `attribute.KeyValue`. */
  datatype KeyValue = KeyValue(key: string, value: AttributeValue)

  /** A Go `error` value, known here by the text its `Error()` method gives. */
  datatype GoError = GoError(text: string)

  /** A recording span of the SDK. Once ended it ignores further writes and
      further calls to `End`. */
  class Span {
    const name: string
    const spanContext: SpanContext
    const parent: SpanContext
    var attributes: seq<KeyValue>
    var status: StatusCode
    var statusMessage: string
    var recordedErrors: seq<string>
    var ended: bool

    constructor (name: string, spanContext: SpanContext, parent: SpanContext)
      ensures this.name == name && this.spanContext == spanContext && this.parent == parent
      ensures attributes == [] && status == Unset && statusMessage == "" && recordedErrors == []
      ensures !ended
    {
      this.name := name;
      this.spanContext := spanContext;
      this.parent := parent;
      attributes := [];
      status := Unset;
      statusMessage := "";
      recordedErrors := [];
      ended := false;
    }

    method SetAttributes(kvs: seq<KeyValue>)
      modifies this
      ensures old(ended) ==> unchanged(this)
      ensures !old(ended) ==> attributes == old(attributes) + kvs
      ensures status == old(status) && statusMessage == old(statusMessage)
      ensures recordedErrors == old(recordedErrors) && ended == old(ended)
    {
      if !ended {
        attributes := attributes + kvs;
      }
    }

    /** `span.RecordError`: adds an exception event with the error's text. */
    method RecordError(err: GoError)
      modifies this
      ensures old(ended) ==> unchanged(this)
      ensures !old(ended) ==> recordedErrors == old(recordedErrors) + [err.text]
      ensures attributes == old(attributes) && status == old(status)
      ensures statusMessage == old(statusMessage) && ended == old(ended)
    {
      if !ended {
        recordedErrors := recordedErrors + [err.text];
      }
    }

    /** `span.SetStatus`: ignored once the span has ended or when `code` is
        lower than the current status; the description is kept only for an
        error status. */
    method SetStatus(code: StatusCode, description: string)
      modifies this
      ensures old(ended) || StatusRank(code) < StatusRank(old(status)) ==> unchanged(this)
      ensures !old(ended) && StatusRank(old(status)) <= StatusRank(code) ==>
        status == code && statusMessage == (if code == Error then description else "")
      ensures attributes == old(attributes) && recordedErrors == old(recordedErrors)
      ensures ended == old(ended)
    {
      if !ended && StatusRank(status) <= StatusRank(code) {
        status := code;
        statusMessage := if code == Error then description else "";
      }
    }

    method End()
      modifies this
      ensures ended
      ensures old(ended) ==> unchanged(this)
      ensures attributes == old(attributes) && status == old(status)
      ensures statusMessage == old(statusMessage) && recordedErrors == old(recordedErrors)
    {
      ended := true;
    }
  }

  /** The span a context carries: none (`SpanFromContext` then gives the
      no-op span), a non-recording span that only holds a span context (what
      `ContextWithRemoteSpanContext` stores), or a recording span. */
  datatype CurrentSpan = NoopSpan | NonRecording(sc: SpanContext) | Live(span: Span)

  /** A `context.Context`, as far as tracing sees it. */
  datatype Context = Context(current: CurrentSpan)

  /** `trace.SpanContextFromContext`. */
  function SpanContextOf(ctx: Context): SpanContext {
    match ctx.current
    case NoopSpan => EmptySpanContext
    case NonRecording(sc) => sc
    case Live(span) => span.spanContext
  }

  /** The objects an `EndSpan` on `ctx` may write: its recording span. */
  function SpanObjects(ctx: Context): set<object> {
    if ctx.current.Live? then {ctx.current.span} else {}
  }

  // ---------------------------------------------------------------------
  // SpanFromRemote

  /** An `http.Header`: canonical key to its values. */
  type Header = map<string, seq<string>>

  const GcpTraceHeader := "X-Cloud-Trace-Context"

  /** `http.Header.Get`: the first value, or "" when there is none. */
  function HeaderGet(header: Header, key: string): string {
    if key in header && header[key] != [] then header[key][0] else ""
  }

  /** `SpanFromRemote`: attach the span context parsed from
      `X-Cloud-Trace-Context` as the remote parent, but only when the
      header is non-empty, parsed without error and gave a valid span
      context; otherwise the context comes back unchanged. A header that
      makes `extract` panic makes this panic too. */
  function SpanFromRemote(ctx: Context, header: Header): (r: Run<Context>)
    ensures r.Panic? <==> HeaderGet(header, GcpTraceHeader) != "" && Extract(HeaderGet(header, GcpTraceHeader)).Panic?
    ensures r.Done? && r.value != ctx ==>
      r.value.current.NonRecording? && r.value.current.sc.IsValid() && r.value.current.sc.remote
    ensures var h := HeaderGet(header, GcpTraceHeader);
      h != "" && Extract(h).Done? && Extract(h).value.err.None? ==>
        var sc := Extract(h).value.sc;
        r == if sc.IsValid() then Done(Context(NonRecording(sc.(remote := true)))) else Done(ctx)
  {
    var h := HeaderGet(header, GcpTraceHeader);
    if h == "" then Done(ctx)
    else
      match Extract(h)
      case Panic => Panic
      case Done(Extraction(sc, err)) =>
        if err.Some? then Done(ctx)
        else if sc.IsValid() then Done(Context(NonRecording(sc.(remote := true))))
        else Done(ctx)
  }

  /** With no header, or one `extract` rejects with an error, the context
      is returned unchanged. */
  lemma SpanFromRemoteIgnores(ctx: Context, header: Header)
    requires var h := HeaderGet(header, GcpTraceHeader);
      h == "" || (Extract(h).Done? && Extract(h).value.err.Some?)
    ensures SpanFromRemote(ctx, header) == Done(ctx)
  {
  }

  /** A well-formed header `T/n;rest` attaches the remote parent with trace
      id `T` and span id `n` (big-endian) when `n` is not zero; a span id of
      zero leaves the span context invalid and the context unchanged. */
  lemma SpanFromRemoteWellFormed(ctx: Context, header: Header, t: string, n: nat, rest: string)
    requires AcceptableTraceHex(t) && n <= Strconv.MaxUint64
    requires HeaderGet(header, GcpTraceHeader) == t + "/" + Strconv.FormatUint(n) + ";" + rest
    ensures n != 0 ==>
      SpanFromRemote(ctx, header) == Done(Context(NonRecording(SpanContext(DecodeHex(t), PutUint64(n), false, true))))
    ensures n == 0 ==> SpanFromRemote(ctx, header) == Done(ctx)
  {
    ExtractWellFormed(t, n, rest);
    var _ := TraceIDFromHex(t);
  }

  // ---------------------------------------------------------------------
  // Tracer provider

  datatype Backend = Jaeger(endpoint: string) | CloudTrace(projectID: string)

  /** The resource attributes every SDK provider here is built with. */
  datatype Resource = Resource(serviceName: string, environment: string, version: string)

  const DefaultResource := Resource("isu13", "local", "devel")

  const Project := "isu13-406204"

  /** The provider behind `tp`: the no-op provider, or an SDK provider that
      batches into one exporter and samples every span. */
  datatype Provider = NoopProvider | SdkProvider(backend: Backend, resource: Resource)

  /** A `shutdown func()` value: `nopShutdown`, or a nil function. */
  datatype ShutdownFunc = NopShutdown | NilFunc

  /** Calling a shutdown function: a nil function value panics. */
  function CallShutdown(f: ShutdownFunc): Run<()> {
    if f == NilFunc then Panic else Done(())
  }

  /** The ids the SDK's random id generator draws for a new span. */
  datatype NewIDs = NewIDs(traceID: TraceID, spanID: SpanID)

  /** The span context the SDK gives a span started under `parent`: it
      continues the parent's trace when the parent has a trace id, else
      starts a new trace; it always has a fresh span id and, under
      always-sample, the sampled flag. */
  function ChildSpanContext(parent: SpanContext, ids: NewIDs): SpanContext {
    SpanContext(if parent.HasTraceID() then parent.traceID else ids.traceID, ids.spanID, true, false)
  }

  /** A span started under the context `SpanFromRemote` builds from a
      well-formed header `T/n;rest` with `n` non-zero belongs to trace `T`
      and has the remote span as its parent. */
  lemma RemoteParentContinuesTrace(ctx: Context, header: Header, t: string, n: nat, rest: string, ids: NewIDs)
    requires AcceptableTraceHex(t) && 0 < n <= Strconv.MaxUint64
    requires HeaderGet(header, GcpTraceHeader) == t + "/" + Strconv.FormatUint(n) + ";" + rest
    ensures SpanFromRemote(ctx, header).Done?
    ensures var parent := SpanContextOf(SpanFromRemote(ctx, header).value);
      FromBigEndian(parent.spanID) == n && ChildSpanContext(parent, ids).traceID == DecodeHex(t)
  {
    SpanFromRemoteWellFormed(ctx, header, t, n, rest);
    var _ := TraceIDFromHex(t);
  }

  /** The package state of go/trace: the `tp` handle. */
  class TracePackage {
    var tp: Provider

    /** `var tp = trace.NewNoopTracerProvider()`. */
    constructor ()
      ensures tp == NoopProvider
    {
      tp := NoopProvider;
    }

    /** `StartSpan`: start a span named `name` under `ctx` with the tracer
        of `tp` and return the context that carries it. The no-op tracer
        keeps a non-recording span already in `ctx` and otherwise carries
        the no-op span; the SDK tracer creates a recording span whose parent
        is the span context of `ctx`. Attributes are set only when given. */
    method StartSpan(ctx: Context, name: string, attributes: seq<KeyValue>, ids: NewIDs) returns (cctx: Context)
      ensures tp.NoopProvider? ==>
        cctx == (if ctx.current.NonRecording? then ctx else Context(NoopSpan))
      ensures tp.SdkProvider? ==> cctx.current.Live? && fresh(cctx.current.span)
      ensures tp.SdkProvider? ==> var s := cctx.current.span;
        && s.name == name && s.parent == SpanContextOf(ctx)
        && s.spanContext == ChildSpanContext(SpanContextOf(ctx), ids)
        && s.attributes == attributes && s.status == Unset && s.statusMessage == ""
        && s.recordedErrors == [] && !s.ended
    {
      if tp.NoopProvider? {
        cctx := if ctx.current.NonRecording? then ctx else Context(NoopSpan);
      } else {
        var parent := SpanContextOf(ctx);
        var span := new Span(name, ChildSpanContext(parent, ids), parent);
        if |attributes| > 0 {
          span.SetAttributes(attributes);
        }
        cctx := Context(Live(span));
      }
    }

    /** The pattern every handler uses: `StartSpan(ctx, name)` with its
        result discarded, then `EndSpan(ctx, nil)`. The returned context is
        the one the handler throws away: under an SDK provider its span is
        never ended, while the span `ctx` already carried is ended instead. */
    method HandlerSpans(ctx: Context, name: string, ids: NewIDs) returns (discarded: Context)
      modifies SpanObjects(ctx)
      ensures tp.SdkProvider? ==> discarded.current.Live? && fresh(discarded.current.span)
      ensures tp.SdkProvider? ==> !discarded.current.span.ended
      ensures tp.NoopProvider? ==> discarded == (if ctx.current.NonRecording? then ctx else Context(NoopSpan))
      ensures ctx.current.Live? ==> ctx.current.span.ended
      ensures ctx.current.Live? && old(ctx.current.span.ended) ==> unchanged(ctx.current.span)
      ensures ctx.current.Live? ==> var s := ctx.current.span;
        && s.status == old(s.status) && s.statusMessage == old(s.statusMessage)
        && s.attributes == old(s.attributes) && s.recordedErrors == old(s.recordedErrors)
    {
      discarded := StartSpan(ctx, name, [], ids);
      EndSpan(ctx, None);
    }

    /** `initJaeger`: on exporter failure nothing changes; otherwise `tp`
        becomes an SDK provider for the collector at `uri`. Either way the
        result is `(nopShutdown, nil)`. */
    method InitJaeger(uri: string, exporterErr: Option<GoError>) returns (shutdown: ShutdownFunc, err: Option<GoError>)
      modifies this
      ensures shutdown == NopShutdown && err == None
      ensures exporterErr.Some? ==> tp == old(tp)
      ensures exporterErr.None? ==> tp == SdkProvider(Jaeger(uri), DefaultResource)
    {
      if exporterErr.Some? {
        return NopShutdown, None;
      }
      tp := SdkProvider(Jaeger(uri), DefaultResource);
      return NopShutdown, None;
    }

    /** `initCloudTrace`: on exporter failure the error is returned with
        `nopShutdown` and `tp` is kept; on success `tp` becomes an SDK
        provider for `projectID` and the never-assigned named result
        `shutdown`, a nil function, is returned. */
    method InitCloudTrace(projectID: string, exporterErr: Option<GoError>) returns (shutdown: ShutdownFunc, err: Option<GoError>)
      modifies this
      ensures exporterErr.Some? ==> shutdown == NopShutdown && err == exporterErr && tp == old(tp)
      ensures exporterErr.None? ==> shutdown == NilFunc && err == None
      ensures exporterErr.None? ==> tp == SdkProvider(CloudTrace(projectID), DefaultResource)
    {
      if exporterErr.Some? {
        return NopShutdown, exporterErr;
      }
      tp := SdkProvider(CloudTrace(projectID), DefaultResource);
      return NilFunc, None;
    }

    /** `InitProvider`: always Cloud Trace for the fixed project; no
        configuration is read. After a success, calling the returned
        shutdown function panics. */
    method InitProvider(exporterErr: Option<GoError>) returns (shutdown: ShutdownFunc, err: Option<GoError>)
      modifies this
      ensures exporterErr.Some? ==> shutdown == NopShutdown && err == exporterErr && tp == old(tp)
      ensures exporterErr.None? ==> err == None && CallShutdown(shutdown).Panic?
      ensures exporterErr.None? ==> tp == SdkProvider(CloudTrace(Project), DefaultResource)
    {
      shutdown, err := InitCloudTrace(Project, exporterErr);
    }
  }

  /** `EndSpan`: on the span `ctx` carries, record a non-nil error and set
      status Error with the error's text, then end it. A nil error leaves the
      status as it was. Non-recording spans ignore all of it, and so does a
      span that has already ended. */
  method EndSpan(ctx: Context, err: Option<GoError>)
    modifies SpanObjects(ctx)
    ensures ctx.current.Live? ==> ctx.current.span.ended
    ensures ctx.current.Live? && old(ctx.current.span.ended) ==> unchanged(ctx.current.span)
    ensures ctx.current.Live? && !old(ctx.current.span.ended) ==> var s := ctx.current.span;
      && s.attributes == old(s.attributes)
      && (err.Some? ==> s.status == Error && s.statusMessage == err.value.text
                        && s.recordedErrors == old(s.recordedErrors) + [err.value.text])
      && (err.None? ==> s.status == old(s.status) && s.statusMessage == old(s.statusMessage)
                        && s.recordedErrors == old(s.recordedErrors))
  {
    if ctx.current.Live? {
      var span := ctx.current.span;
      if err.Some? {
        span.RecordError(err.value);
        span.SetStatus(Error, err.value.text);
      }
      span.End();
    }
  }
}
