/** The OpenTelemetry tracer helpers: pick a tracer, start a span named
    after the caller and hand back a logger for the child context. */
module OtelTracer {
  import opened Prelude
  import opened Fields
  import opened Trace
  import opened Logger
  import Factory
  import ITracer
  import Text
  import OcTracer

  /** The runtime handed to the helpers: it always provides a log factory,
      and provides an OpenTelemetry tracer when it is `Traceable`. */
  datatype Runtime = Runtime(factory: Factory.Factory, tracer: Option<Tracer>)

  /** `getTracer`: the runtime's own tracer when it has one, otherwise the
      globally registered one (`global`). */
  function GetTracer(rt: Runtime, global: Tracer): (r: Tracer)
    ensures rt.tracer.Some? ==> r == rt.tracer.value
    ensures rt.tracer.None? ==> r == global
  {
    match rt.tracer
    case Some(t) => t
    case None => global
  }

  /** `StartNamedSpan`: starts an OpenTelemetry span named `signature` with
      the chosen tracer, then builds the logger from the runtime's factory
      derived with the signed fields, for the child context. `For` only looks
      for an OpenCensus span, which the child context inherits unchanged: the
      logger is a background logger unless `ctx` already carried an
      OpenCensus span, and then it mirrors to that outer span, never to the
      new one. */
  function StartNamedSpan(g: ITracer.Globals, w: World, ctx: Context, rt: Runtime, global: Tracer, signature: string, fs: seq<Field>, ids: SpanContext): (r: OcTracer.Traced)
    ensures r.span.ref == w.nextRef && r.span.context == ids
    ensures r.world.spans == w.spans[r.span.ref := Span(signature, OpenTelemetry(GetTracer(rt, global)), [], [])]
    ensures r.world.logs == w.logs
    ensures r.ctx == ctx.(otelSpan := Some(r.span))
    ensures Engine(r.logger).context == rt.factory.zap.context + [String(g.prefix, signature)] + fs
    ensures Engine(r.logger).enabled == rt.factory.zap.enabled
    ensures ctx.ocSpan.None? ==> r.logger.Background?
    ensures ctx.ocSpan.Some? ==> r.logger.OcSpan? && r.logger.oc.span == ctx.ocSpan.value.ref
  {
    var started := Trace.StartSpan(w, ctx, signature, OpenTelemetry(GetTracer(rt, global)), ids);
    var signed := ITracer.SignedFields(g, signature, fs);
    assert rt.factory.zap.context + signed == rt.factory.zap.context + [String(g.prefix, signature)] + fs;
    var logger := Factory.For(Factory.With(rt.factory, signed), started.ctx);
    OcTracer.Traced(started.ctx, started.span, logger, started.world)
  }

  /** `StartSpan`: `StartNamedSpan` with the caller's signature, which the
      runtime reports through `caller`. */
  function StartSpan(g: ITracer.Globals, w: World, ctx: Context, rt: Runtime, global: Tracer, caller: Option<string>, fs: seq<Field>, ids: SpanContext): (r: OcTracer.Traced)
    ensures r == StartNamedSpan(g, w, ctx, rt, global, ITracer.Signature(caller), fs, ids)
    ensures w.nextRef in r.world.spans
    ensures caller.None? ==> r.world.spans[w.nextRef].name == ""
    ensures caller.Some? ==> r.world.spans[w.nextRef].name == Text.PathBase(caller.value) != ""
    ensures Engine(r.logger).context[|rt.factory.zap.context|] == String(g.prefix, r.world.spans[w.nextRef].name)
  {
    StartNamedSpan(g, w, ctx, rt, global, ITracer.Signature(caller), fs, ids)
  }

  /** `RegisterPrefix`: delegates to the shared helper. */
  function RegisterPrefix(g: ITracer.Globals, custom: string): (r: ITracer.Globals)
    ensures r.prefix == custom
  {
    ITracer.RegisterPrefix(g, custom)
  }

  /** Logging through the logger of a new OpenTelemetry span never records
      on that span: it stays without attributes or events, whether the
      context had no OpenCensus span or one started earlier. */
  lemma OtelSpanStaysEmpty(g: ITracer.Globals, w: World, ctx: Context, rt: Runtime, global: Tracer, signature: string, fs: seq<Field>, ids: SpanContext, level: MethodLevel, msg: string, more: seq<Field>)
    requires ctx.ocSpan.None? || ctx.ocSpan.value.ref < w.nextRef
    ensures var t := StartNamedSpan(g, w, ctx, rt, global, signature, fs, ids);
            var w' := Log(t.logger, level, msg, more, t.world);
            w'.spans[t.span.ref] == Span(signature, OpenTelemetry(GetTracer(rt, global)), [], [])
  {
  }
}
