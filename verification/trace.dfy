/** The trace SDKs (OpenCensus and OpenTelemetry) as the core sees them: span
    contexts, spans that record attributes and annotations or events, and a
    context that may carry the active span of either SDK. Id generation,
    sampling, export and timing are not modelled. */
module Trace {
  import opened Prelude
  import opened Fields
  import opened Zap

  type SpanRef = nat

  type TraceId = b: seq<byte> | |b| == 16 witness seq(16, _ => 0)

  type SpanId = b: seq<byte> | |b| == 8 witness seq(8, _ => 0)

  /** The propagated identifiers of a span: a 128-bit trace id and a 64-bit span id. */
  datatype SpanContext = SpanContext(traceId: TraceId, spanId: SpanId)

  /** A live span as code holds it: a reference to the recorded span and its identifiers. */
  datatype SpanHandle = SpanHandle(ref: SpanRef, context: SpanContext)

  /** A Go `context.Context` reduced to what the core reads from it: the
      active OpenCensus span and the active OpenTelemetry span, if any. */
  datatype Context = Context(ocSpan: Option<SpanHandle>, otelSpan: Option<SpanHandle>)

  /** `context.Background()`. */
  const Background: Context := Context(None, None)

  /** An OpenTelemetry tracer, known by identity only. */
  datatype Tracer = Tracer(id: nat)

  datatype Origin = OpenCensus | OpenTelemetry(tracer: Tracer)

  /** An OpenCensus annotation carries a message; an OpenTelemetry event a name. */
  datatype SpanEvent = Annotation(message: string) | Event(name: string)

  /** What a span has recorded so far. */
  datatype Span = Span(name: string, origin: Origin, attributes: seq<Attribute>, events: seq<SpanEvent>)

  /** The observable state: the log entries written so far and every span
      started so far, by reference. A reference absent from `spans` stands for
      a nil or non-recording span, on which every mutation is a no-op. */
  datatype World = World(logs: seq<Entry>, spans: map<SpanRef, Span>, nextRef: SpanRef)

  /** `AddAttributes` (OpenCensus) or `SetAttributes` (OpenTelemetry): appends
      `attrs` to the span's attributes and changes nothing else. */
  function AddAttributes(w: World, ref: SpanRef, attrs: seq<Attribute>): (r: World)
    ensures r.logs == w.logs && r.nextRef == w.nextRef && r.spans.Keys == w.spans.Keys
    ensures forall other | other in w.spans && other != ref :: r.spans[other] == w.spans[other]
    ensures ref in w.spans ==> r.spans[ref] == w.spans[ref].(attributes := w.spans[ref].attributes + attrs)
  {
    if ref in w.spans then
      var s := w.spans[ref];
      w.(spans := w.spans[ref := s.(attributes := s.attributes + attrs)])
    else w
  }

  /** `Annotate` (OpenCensus) or `AddEvent` (OpenTelemetry): appends one event
      and changes nothing else. */
  function AddEvent(w: World, ref: SpanRef, e: SpanEvent): (r: World)
    ensures r.logs == w.logs && r.nextRef == w.nextRef && r.spans.Keys == w.spans.Keys
    ensures forall other | other in w.spans && other != ref :: r.spans[other] == w.spans[other]
    ensures ref in w.spans ==> r.spans[ref] == w.spans[ref].(events := w.spans[ref].events + [e])
  {
    if ref in w.spans then
      var s := w.spans[ref];
      w.(spans := w.spans[ref := s.(events := s.events + [e])])
    else w
  }

  /** The result of starting a span: the child context and the new span. */
  datatype Started = Started(ctx: Context, span: SpanHandle, world: World)

  /** Starts a recording span named `name` under a fresh reference; the
      identifiers come from the SDK's generator, given here as `ids`. The
      returned context carries the new span for its SDK and keeps the other. */
  function StartSpan(w: World, ctx: Context, name: string, origin: Origin, ids: SpanContext): (r: Started)
    ensures r.span.ref == w.nextRef && r.span.context == ids
    ensures r.world.spans == w.spans[w.nextRef := Span(name, origin, [], [])]
    ensures r.world.logs == w.logs && r.world.nextRef > w.nextRef
    ensures origin.OpenCensus? ==> r.ctx == ctx.(ocSpan := Some(r.span))
    ensures origin.OpenTelemetry? ==> r.ctx == ctx.(otelSpan := Some(r.span))
  {
    var h := SpanHandle(w.nextRef, ids);
    var w' := World(w.logs, w.spans[w.nextRef := Span(name, origin, [], [])], w.nextRef + 1);
    var ctx' := if origin.OpenCensus? then ctx.(ocSpan := Some(h)) else ctx.(otelSpan := Some(h));
    Started(ctx', h, w')
  }

  /** Every reference handed out so far is below `nextRef`. */
  predicate Valid(w: World) {
    forall ref | ref in w.spans :: ref < w.nextRef
  }

  /** Starting a span keeps the state valid, and in a valid state the new
      reference names no span started before: no recorded span is replaced. */
  lemma StartSpanIsFresh(w: World, ctx: Context, name: string, origin: Origin, ids: SpanContext)
    requires Valid(w)
    ensures StartSpan(w, ctx, name, origin, ids).span.ref !in w.spans
    ensures Valid(StartSpan(w, ctx, name, origin, ids).world)
    ensures forall ref | ref in w.spans :: StartSpan(w, ctx, name, origin, ids).world.spans[ref] == w.spans[ref]
  {
  }

  /** Recording on a span keeps the state valid. */
  lemma RecordingKeepsValid(w: World, ref: SpanRef, attrs: seq<Attribute>, e: SpanEvent)
    requires Valid(w)
    ensures Valid(AddAttributes(w, ref, attrs)) && Valid(AddEvent(w, ref, e))
  {
  }
}
