/** The OpenCensus tracer helpers: start a span named after the caller and
    hand back a logger bound to it that logs the signature with every entry. */
module OcTracer {
  import opened Prelude
  import opened Fields
  import opened Trace
  import opened Logger
  import Factory
  import ITracer
  import Text

  /** What `StartSpan` returns: the child context, the new span and the
      logger, together with the state after starting the span. */
  datatype Traced = Traced(ctx: Context, span: SpanHandle, logger: Logger, world: World)

  /** `StartNamedSpan`: starts an OpenCensus span named `signature` under
      `ctx`, then builds the logger from the runtime's factory derived with the
      signed fields, for the child context. The logger is therefore a span
      logger on the new span, skipping one more caller frame, whose entries
      carry the factory's fields, the signature under the current prefix and
      `fs`; the derived factory has lost its options, so no Datadog fields. */
  function StartNamedSpan(g: ITracer.Globals, w: World, ctx: Context, rt: Factory.Factory, signature: string, fs: seq<Field>, ids: SpanContext): (r: Traced)
    ensures r.span.ref == w.nextRef && r.span.context == ids
    ensures r.world.spans == w.spans[r.span.ref := Span(signature, OpenCensus, [], [])]
    ensures r.world.logs == w.logs
    ensures r.ctx == ctx.(ocSpan := Some(r.span))
    ensures r.logger.OcSpan? && r.logger.oc.span == r.span.ref
    ensures r.logger.oc.fields == [] && !r.logger.oc.ddFlag
    ensures r.logger.oc.zap.context == rt.zap.context + [String(g.prefix, signature)] + fs
    ensures r.logger.oc.zap.enabled == rt.zap.enabled
    ensures r.logger.oc.zap.callerSkip == rt.zap.callerSkip + 1
  {
    var started := Trace.StartSpan(w, ctx, signature, OpenCensus, ids);
    var signed := ITracer.SignedFields(g, signature, fs);
    assert rt.zap.context + signed == rt.zap.context + [String(g.prefix, signature)] + fs;
    var logger := Factory.For(Factory.With(rt, signed), started.ctx);
    Traced(started.ctx, started.span, logger, started.world)
  }

  /** `StartSpan`: `StartNamedSpan` with the caller's signature, which the
      runtime reports through `caller`. */
  function StartSpan(g: ITracer.Globals, w: World, ctx: Context, rt: Factory.Factory, caller: Option<string>, fs: seq<Field>, ids: SpanContext): (r: Traced)
    ensures r == StartNamedSpan(g, w, ctx, rt, ITracer.Signature(caller), fs, ids)
    ensures w.nextRef in r.world.spans
    ensures caller.None? ==> r.world.spans[w.nextRef].name == ""
    ensures caller.Some? ==> r.world.spans[w.nextRef].name == Text.PathBase(caller.value) != ""
    ensures r.logger.OcSpan? && r.logger.oc.zap.context[|rt.zap.context|] == String(g.prefix, r.world.spans[w.nextRef].name)
  {
    StartNamedSpan(g, w, ctx, rt, ITracer.Signature(caller), fs, ids)
  }

  /** `RegisterPrefix`: delegates to the shared helper. */
  function RegisterPrefix(g: ITracer.Globals, custom: string): (r: ITracer.Globals)
    ensures r.prefix == custom
  {
    ITracer.RegisterPrefix(g, custom)
  }

  /** The first entry logged through a traced logger at an enabled level
      carries the signature under the prefix registered at the time the span
      was started, right after the runtime's own fields. */
  lemma TracedEntryCarriesSignature(g: ITracer.Globals, w: World, ctx: Context, rt: Factory.Factory, signature: string, fs: seq<Field>, ids: SpanContext, level: MethodLevel, msg: string, more: seq<Field>)
    requires level in rt.zap.enabled
    ensures var t := StartNamedSpan(g, w, ctx, rt, signature, fs, ids);
            var w' := Log(t.logger, level, msg, more, t.world);
            |w'.logs| == |w.logs| + 1
            && w'.logs[|w.logs|].context[|rt.zap.context|] == String(g.prefix, signature)
  {
    var t := StartNamedSpan(g, w, ctx, rt, signature, fs, ids);
    var w' := Log(t.logger, level, msg, more, t.world);
    assert w'.logs[|w.logs|].context == rt.zap.context + [String(g.prefix, signature)] + fs + more;
  }
}
