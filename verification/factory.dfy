/** The logger `Factory` and its options: a background logger for code
    without a trace, and a span logger for a context that carries an
    OpenCensus span, optionally with Datadog correlation fields. */
module Factory {
  import opened Prelude
  import opened Fields
  import opened Zap
  import opened Trace
  import opened Logger
  import BigEndian
  import OcLogger

  datatype FactoryOptions = FactoryOptions(datadog: bool)

  /** The only factory option, `WithDatadog(enabled)`. */
  datatype FactoryOption = WithDatadog(enabled: bool)

  /** The package defaults; also the zero value of the options struct. */
  const DefaultFactoryOptions: FactoryOptions := FactoryOptions(false)

  function ApplyOption(o: FactoryOptions, opt: FactoryOption): FactoryOptions {
    match opt
    case WithDatadog(enabled) => o.(datadog := enabled)
  }

  /** Applies the options left to right to a copy of `o`. */
  function ApplyAll(o: FactoryOptions, opts: seq<FactoryOption>): FactoryOptions
    decreases |opts|
  {
    if |opts| == 0 then o else ApplyAll(ApplyOption(o, opts[0]), opts[1..])
  }

  /** Applying two option lists in turn is applying their concatenation. */
  lemma {:induction false} ApplyAllAppend(o: FactoryOptions, a: seq<FactoryOption>, b: seq<FactoryOption>)
    ensures ApplyAll(o, a + b) == ApplyAll(ApplyAll(o, a), b)
    decreases |a|
  {
    if |a| == 0 {
      assert a + b == b;
    } else {
      assert (a + b)[0] == a[0];
      assert (a + b)[1..] == a[1..] + b;
      ApplyAllAppend(ApplyOption(o, a[0]), a[1..], b);
    }
  }

  /** The last option decides the Datadog flag, whatever came before it. */
  lemma {:induction false} ApplyAllLastWins(o: FactoryOptions, opts: seq<FactoryOption>)
    requires |opts| > 0
    ensures ApplyAll(o, opts).datadog == opts[|opts| - 1].enabled
    decreases |opts|
  {
    if |opts| > 1 {
      ApplyAllLastWins(ApplyOption(o, opts[0]), opts[1..]);
    }
  }

  /** `defaultOptions`: the defaults when no option is given, otherwise the
      options applied left to right to a copy of the defaults. */
  function DefaultOptions(opts: seq<FactoryOption>): (r: FactoryOptions)
    ensures |opts| == 0 ==> r == DefaultFactoryOptions
    ensures |opts| > 0 ==> r.datadog == opts[|opts| - 1].enabled
  {
    if |opts| == 0 then DefaultFactoryOptions
    else
      ApplyAllLastWins(DefaultFactoryOptions, opts);
      ApplyAll(DefaultFactoryOptions, opts)
  }

  /** A factory: the zap logger it wraps and its options. */
  datatype Factory = Factory(zap: ZapLogger, options: FactoryOptions)

  /** `NewFactory`: wraps `z` with the options folded over the defaults. */
  function NewFactory(z: ZapLogger, opts: seq<FactoryOption>): (r: Factory)
    ensures r.zap == z
    ensures r.options.datadog <==> |opts| > 0 && opts[|opts| - 1].enabled
  {
    Factory(z, DefaultOptions(opts))
  }

  /** `Bg`: a background logger over the factory's own zap logger. */
  function Bg(f: Factory): (r: Logger)
    ensures r.Background? && r.zap == f.zap
  {
    Background(f.zap)
  }

  /** The background logger does not depend on the factory's options. */
  lemma BgIgnoresOptions(f: Factory, o: FactoryOptions)
    ensures Bg(f.(options := o)) == Bg(f)
  {
  }

  /** The value 1.0 as an IEEE 754 binary64 bit pattern. */
  const One: Float64 := Float64(0x3FF0_0000_0000_0000)

  /** The Datadog correlation fields for a span: the low 64 bits of the trace
      id and the span id, each read big-endian, then a sampling priority of 1
      (this is what Datadog's OpenCensus exporter reports). */
  function DatadogFields(sc: SpanContext): (r: seq<Field>)
    ensures |r| == 3
    ensures FieldKeys(r) == ["dd.trace_id", "dd.span_id", "sampling.priority"]
    ensures r[0].value.IntValue? && r[0].value.kind == Uint64 && 0 <= r[0].value.i < TwoTo64
    ensures r[0].value.IntValue? ==> BigEndian.PutUint64(r[0].value.i as uint64) == sc.traceId[8..]
    ensures r[1].value.IntValue? && r[1].value.kind == Uint64 && 0 <= r[1].value.i < TwoTo64
    ensures r[1].value.IntValue? ==> BigEndian.PutUint64(r[1].value.i as uint64) == sc.spanId
    ensures r[2].value == Float64Value(One)
  {
    var traceId := BigEndian.Uint64(sc.traceId[8..]);
    var spanId := BigEndian.Uint64(sc.spanId[..]);
    assert sc.traceId[8..][..8] == sc.traceId[8..];
    assert sc.spanId[..][..8] == sc.spanId;
    [Uint64Field("dd.trace_id", traceId), Uint64Field("dd.span_id", spanId), Float64Field("sampling.priority", One)]
  }

  /** `For`: the background logger when the context has no OpenCensus span;
      otherwise a span logger on that span, with no accumulated fields and the
      Datadog flag left off, over a zap child that skips one more caller frame
      and, when the factory has Datadog on, carries the correlation fields. */
  function For(f: Factory, ctx: Context): (r: Logger)
    ensures ctx.ocSpan.None? ==> r == Bg(f)
    ensures ctx.ocSpan.Some? ==>
      && r.OcSpan?
      && r.oc.span == ctx.ocSpan.value.ref
      && r.oc.fields == []
      && !r.oc.ddFlag
      && r.oc.zap.enabled == f.zap.enabled
      && r.oc.zap.callerSkip == f.zap.callerSkip + 1
      && r.oc.zap.context == f.zap.context + (if f.options.datadog then DatadogFields(ctx.ocSpan.value.context) else [])
  {
    match ctx.ocSpan
    case None => Bg(f)
    case Some(span) =>
      var z := WithOptions(f.zap, [AddCallerSkip(1)]);
      var z := if f.options.datadog then Zap.With(z, DatadogFields(span.context)) else z;
      OcSpan(OcLogger.SpanLogger(z, span.ref, [], false))
  }

  /** `For` never builds an OpenTelemetry span logger: it only looks for an
      OpenCensus span. */
  lemma ForIsNeverOtel(f: Factory, ctx: Context)
    ensures !For(f, ctx).OtelSpan?
  {
  }

  /** `With`: a factory over the zap child carrying `fs`; the options are not
      carried over, so the child has the zero options (Datadog off). */
  function With(f: Factory, fs: seq<Field>): (r: Factory)
    ensures r.zap.context == f.zap.context + fs && r.zap.enabled == f.zap.enabled
    ensures r.options == DefaultFactoryOptions
  {
    Factory(Zap.With(f.zap, fs), DefaultFactoryOptions)
  }

  /** `WithZapOptions`: a factory over the zap clone with `opts` applied; the
      options are not carried over either. */
  function WithZapOptions(f: Factory, opts: seq<ZapOption>): (r: Factory)
    ensures r.zap.context == f.zap.context && r.zap.enabled == f.zap.enabled
    ensures r.options == DefaultFactoryOptions
  {
    Factory(WithOptions(f.zap, opts), DefaultFactoryOptions)
  }

  /** Deriving a factory twice accumulates both field lists, in order, and
      leaves the parent as it was. */
  lemma WithTwice(f: Factory, a: seq<Field>, b: seq<Field>)
    ensures With(With(f, a), b).zap.context == f.zap.context + a + b
    ensures With(With(f, a), b) == With(f, a + b)
  {
    assert f.zap.context + a + b == f.zap.context + (a + b);
  }

  /** Once a factory has been derived with `With`, the span loggers it builds
      never carry Datadog correlation fields, even when the parent had
      Datadog on. */
  lemma WithLosesDatadog(f: Factory, fs: seq<Field>, ctx: Context)
    requires ctx.ocSpan.Some?
    ensures For(With(f, fs), ctx).oc.zap.context == f.zap.context + fs
  {
  }

  /** A span logger built by `For` adds `[level] ++ adapted call fields` to
      its span on every enabled call, and never `log_msg`. */
  lemma ForMirrorsCallFieldsOnly(f: Factory, ctx: Context, level: string, msg: string, fs: seq<Field>)
    requires ctx.ocSpan.Some?
    ensures OcLogger.Mirrored(For(f, ctx).oc, level, msg, fs) == [LevelAttribute(level)] + OcLogger.Adapt(fs)
  {
    assert [] + fs == fs;
  }
}
