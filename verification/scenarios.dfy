/** End-to-end behaviour of the logging core on the situations its tests
    set up: a factory over a zap logger that enables every level, loggers
    built from it with and without an OpenCensus span, with Datadog on, and
    through both tracer helpers. */
module Scenarios {
  import opened Prelude
  import opened Fields
  import opened Zap
  import opened Trace
  import LG = Logger
  import OcLogger
  import Factory
  import ITracer
  import OcTracer
  import OtelTracer
  import OtelLogger

  /** Every level enabled, as with an observer core at the debug level. */
  const AllLevels: set<Level> := {Debug, Info, Warn, Error, DPanic, Panic, Fatal}

  const Root: ZapLogger := ZapLogger([], AllLevels, 0, [])

  function EntryKeys(w: World, i: nat): seq<string>
    requires i < |w.logs|
  {
    FieldKeys(w.logs[i].context)
  }

  function AttrKeys(w: World, ref: SpanRef): seq<string>
    requires ref in w.spans
  {
    AttributeKeys(w.spans[ref].attributes)
  }

  /** A background logger derived with one field writes one entry with that
      field and the call's field, and records nothing on any span. */
  lemma {:induction false} BackgroundScenario(w: World)
    ensures var l := LG.With(Factory.Bg(Factory.NewFactory(Root, [])), [String("tescase", "bg test")]);
            var w' := LG.Log(l, Warn, "background log", [Field("entries", IntValue(Int, 1))], w);
            && |w'.logs| == |w.logs| + 1
            && w'.logs[|w.logs|].level == Warn && w'.logs[|w.logs|].message == "background log"
            && EntryKeys(w', |w.logs|) == ["tescase", "entries"]
            && w'.spans == w.spans
  {
    var l := LG.With(Factory.Bg(Factory.NewFactory(Root, [])), [String("tescase", "bg test")]);
    assert LG.Engine(l) == Root.(context := [String("tescase", "bg test")]);
  }

  /** A context without a span gives the same logger as `Bg`. */
  lemma NoSpanScenario(f: Factory.Factory)
    ensures Factory.For(f, Trace.Background) == Factory.Bg(f)
  {
  }

  /** Logging at info on a span logger (Datadog off) writes an entry with the
      derived field and the call's field, and records on the span exactly one
      annotation with the message and three attributes: the level, then both
      fields. */
  lemma {:induction false} SpanScenario(w: World, ids: SpanContext)
    ensures var st := Trace.StartSpan(w, Trace.Background, "span name", OpenCensus, ids);
            var l := LG.With(Factory.For(Factory.NewFactory(Root, []), st.ctx), [String("tescase", "bg test")]);
            var w' := LG.Log(l, Info, "span log", [Field("entries", IntValue(Int, 1))], st.world);
            && |w'.logs| == |w.logs| + 1
            && EntryKeys(w', |w.logs|) == ["tescase", "entries"]
            && st.span.ref in w'.spans
            && AttrKeys(w', st.span.ref) == ["level", "tescase", "entries"]
            && w'.spans[st.span.ref].events == [Annotation("span log")]
  {
    var st := Trace.StartSpan(w, Trace.Background, "span name", OpenCensus, ids);
    var f := Factory.NewFactory(Root, []);
    var l := LG.With(Factory.For(f, st.ctx), [String("tescase", "bg test")]);
    var fs := [Field("entries", IntValue(Int, 1))];
    var w' := LG.Log(l, Info, "span log", fs, st.world);
    assert l.oc.fields == [String("tescase", "bg test")];
    assert OcLogger.Mirrored(l.oc, "info", "span log", fs)
        == [LevelAttribute("info"), Attribute("tescase", StringAttr("bg test")), Attribute("entries", Int64Attr(1))];
  }

  /** With Datadog on, the entry carries the three correlation fields ahead of
      the derived and call fields; the span gets the same three attributes as
      without Datadog and no `log_msg`, because `For` leaves the flag off. */
  lemma {:induction false} DatadogScenario(w: World, ids: SpanContext)
    ensures var st := Trace.StartSpan(w, Trace.Background, "span name", OpenCensus, ids);
            var l := LG.With(Factory.For(Factory.NewFactory(Root, [Factory.WithDatadog(true)]), st.ctx), [String("tescase", "bg test")]);
            var w' := LG.Log(l, Info, "span log", [Field("entries", IntValue(Int, 1))], st.world);
            && l.OcSpan? && !l.oc.ddFlag
            && |w'.logs| == |w.logs| + 1
            && EntryKeys(w', |w.logs|) == ["dd.trace_id", "dd.span_id", "sampling.priority", "tescase", "entries"]
            && st.span.ref in w'.spans
            && AttrKeys(w', st.span.ref) == ["level", "tescase", "entries"]
  {
    var st := Trace.StartSpan(w, Trace.Background, "span name", OpenCensus, ids);
    var f := Factory.NewFactory(Root, [Factory.WithDatadog(true)]);
    var l := LG.With(Factory.For(f, st.ctx), [String("tescase", "bg test")]);
    var fs := [Field("entries", IntValue(Int, 1))];
    var w' := LG.Log(l, Info, "span log", fs, st.world);
    var dd := Factory.DatadogFields(ids);
    assert w'.logs[|w.logs|].context == dd + [String("tescase", "bg test")] + fs;
    assert FieldKeys(dd + [String("tescase", "bg test")] + fs) == FieldKeys(dd) + ["tescase", "entries"];
    assert OcLogger.Mirrored(l.oc, "info", "span log", fs)
        == [LevelAttribute("info"), Attribute("tescase", StringAttr("bg test")), Attribute("entries", Int64Attr(1))];
  }

  /** The OpenCensus tracer helper, called from the test function (a caller
      whose signature is "tracer.TestSpanContent", as `OcTestSignature`
      shows the test's own function is) with three fields: the span is named
      after the caller; the entry carries the
      signature, the three fields and the call's field; but the span only
      gets the level and the call's field, since the signed fields live in
      the zap child, not in the span logger. */
  lemma {:induction false} OcTracerScenario(w: World, ids: SpanContext, caller: Option<string>, f: Factory.Factory)
    requires ITracer.Signature(caller) == "tracer.TestSpanContent"
    requires f == Factory.NewFactory(Root, [Factory.WithDatadog(true)])
    ensures var fs := TestFields;
            var t := OcTracer.StartSpan(ITracer.InitialGlobals, w, Trace.Background, f, caller, fs, ids);
            var w' := LG.Log(t.logger, Info, "test", [Field("called", BoolValue(true))], t.world);
            && t.span.ref in w'.spans
            && w'.spans[t.span.ref].name == "tracer.TestSpanContent"
            && AttrKeys(w', t.span.ref) == ["level", "called"]
            && w'.spans[t.span.ref].events == [Annotation("test")]
            && |w'.logs| == |w.logs| + 1
            && EntryKeys(w', |w.logs|) == ["function", "field", "int", "duration", "called"]
  {
    var fs := TestFields;
    TestFieldKeys();
    assert f.zap == Root;
    var sig := ITracer.Signature(caller);
    OcNamedScenario(w, ids, f, fs, sig);
  }

  /** The fields the tracer tests pass when starting a span. */
  const TestFields: seq<Field> := [String("field", "fred"), Field("int", IntValue(Int, 1)), Field("duration", DurationValue(1000000000, "1s"))]

  lemma TestFieldKeys()
    ensures FieldKeys(TestFields) == ["field", "int", "duration"]
  {
    assert FieldKeys(TestFields)[0] == "field" && FieldKeys(TestFields)[1] == "int" && FieldKeys(TestFields)[2] == "duration";
  }

  lemma OcTestSignature()
    ensures ITracer.Signature(Some("github.com/fredbi/go-trace/opencensus/tracer.TestSpanContent")) == "tracer.TestSpanContent"
  {
    var sig := "tracer.TestSpanContent";
    var dir := "github.com/fredbi/go-trace/opencensus";
    assert dir + "/" + sig == "github.com/fredbi/go-trace/opencensus/tracer.TestSpanContent";
    ITracer.SignatureOfQualifiedName(dir, sig);
  }

  lemma {:induction false} OcNamedScenario(w: World, ids: SpanContext, f: Factory.Factory, fs: seq<Field>, sig: string)
    requires Info in f.zap.enabled && f.zap.context == []
    ensures var t := OcTracer.StartNamedSpan(ITracer.InitialGlobals, w, Trace.Background, f, sig, fs, ids);
            var w' := LG.Log(t.logger, Info, "test", [Field("called", BoolValue(true))], t.world);
            && t.span.ref in w'.spans
            && w'.spans[t.span.ref].name == sig
            && AttrKeys(w', t.span.ref) == ["level", "called"]
            && w'.spans[t.span.ref].events == [Annotation("test")]
            && |w'.logs| == |w.logs| + 1
            && EntryKeys(w', |w.logs|) == ["function"] + FieldKeys(fs) + ["called"]
  {
    var t := OcTracer.StartNamedSpan(ITracer.InitialGlobals, w, Trace.Background, f, sig, fs, ids);
    var called := [Field("called", BoolValue(true))];
    var w' := LG.Log(t.logger, Info, "test", called, t.world);
    assert t.logger.oc.fields + called == called;
    assert OcLogger.Adapt(called) == OcLogger.AddField(called[0]) + OcLogger.Adapt([]);
    assert OcLogger.Mirrored(t.logger.oc, "info", "test", called) == [LevelAttribute("info"), Attribute("called", BoolAttr(true))];
    assert w'.logs[|w.logs|].context == [String("function", sig)] + fs + called;
  }

  /** The OpenTelemetry tracer helper, called from the test function (see
      `ITracer.SignatureOfTestFunction`) under a context without an
      OpenCensus span: the new span is named after the caller but records nothing, and
      the entry still carries the signature and every field. */
  lemma {:induction false} OtelTracerScenario(w: World, ids: SpanContext, tracer: Tracer, global: Tracer, caller: Option<string>)
    requires ITracer.Signature(caller) == "tracer.TestSpanContent"
    ensures var rt := OtelTracer.Runtime(Factory.NewFactory(Root, [Factory.WithDatadog(true)]), Some(tracer));
            var t := OtelTracer.StartSpan(ITracer.InitialGlobals, w, Trace.Background, rt, global,
                                          caller, TestFields, ids);
            var w' := LG.Log(t.logger, Info, "test", [Field("called", BoolValue(true))], t.world);
            && t.span.ref in w'.spans
            && w'.spans[t.span.ref] == Span("tracer.TestSpanContent", OpenTelemetry(tracer), [], [])
            && |w'.logs| == |w.logs| + 1
            && EntryKeys(w', |w.logs|) == ["function", "field", "int", "duration", "called"]
  {
    var rt := OtelTracer.Runtime(Factory.NewFactory(Root, [Factory.WithDatadog(true)]), Some(tracer));
    TestFieldKeys();
    assert rt.factory.zap == Root;
    OtelNamedScenario(w, ids, rt, global, TestFields);
  }

  lemma {:induction false} OtelNamedScenario(w: World, ids: SpanContext, rt: OtelTracer.Runtime, global: Tracer, fs: seq<Field>)
    requires Info in rt.factory.zap.enabled && rt.factory.zap.context == []
    ensures var t := OtelTracer.StartNamedSpan(ITracer.InitialGlobals, w, Trace.Background, rt, global, "tracer.TestSpanContent", fs, ids);
            var w' := LG.Log(t.logger, Info, "test", [Field("called", BoolValue(true))], t.world);
            && t.span.ref in w'.spans
            && w'.spans[t.span.ref] == Span("tracer.TestSpanContent", OpenTelemetry(OtelTracer.GetTracer(rt, global)), [], [])
            && |w'.logs| == |w.logs| + 1
            && EntryKeys(w', |w.logs|) == ["function"] + FieldKeys(fs) + ["called"]
  {
    var sig := "tracer.TestSpanContent";
    var t := OtelTracer.StartNamedSpan(ITracer.InitialGlobals, w, Trace.Background, rt, global, sig, fs, ids);
    var called := [Field("called", BoolValue(true))];
    var w' := LG.Log(t.logger, Info, "test", called, t.world);
    assert w'.logs[|w.logs|].context == [String("function", sig)] + fs + called;
  }

  /** An OpenTelemetry span logger on a freshly started span that holds the
      signature and the three fields mirrors, on an info call with one more
      field, six attributes — the level, the four held fields and the call's
      field — and one event named after the message. */
  lemma {:induction false} OtelLoggerScenario(w: World, z: ZapLogger, ref: SpanRef, ddFlag: bool)
    requires Info in z.enabled && ref in w.spans
    requires w.spans[ref].attributes == [] && w.spans[ref].events == []
    ensures var held := [String("function", "tracer.TestSpanContent"), String("field", "fred"), Field("int", IntValue(Int, 1)), Field("duration", DurationValue(1000000000, "1s"))];
            var w' := LG.Log(LG.OtelSpan(OtelLogger.OtelLogger(z, ref, held, ddFlag)), Info, "test", [Field("called", BoolValue(true))], w);
            && AttrKeys(w', ref) == ["level", "function", "field", "int", "duration", "called"]
            && w'.spans[ref].events == [Event("test")]
  {
    var held := [String("function", "tracer.TestSpanContent"), String("field", "fred"), Field("int", IntValue(Int, 1)), Field("duration", DurationValue(1000000000, "1s"))];
    var l := OtelLogger.OtelLogger(z, ref, held, ddFlag);
    var called := [Field("called", BoolValue(true))];
    var m := OtelLogger.Mirrored(l, "info", called);
    var all := held + called;
    assert all[1..][1..][1..][1..][1..] == [];
    assert OtelLogger.Adapt(all[1..][1..][1..][1..]) == [Attribute("called", BoolAttr(true))];
    assert OtelLogger.Adapt(all[1..][1..][1..]) == [Attribute("duration", StringAttr("1s")), Attribute("called", BoolAttr(true))];
    assert OtelLogger.Adapt(all[1..][1..]) == [Attribute("int", Int64Attr(1)), Attribute("duration", StringAttr("1s")), Attribute("called", BoolAttr(true))];
    assert OtelLogger.Adapt(all[1..]) == [Attribute("field", StringAttr("fred")), Attribute("int", Int64Attr(1)), Attribute("duration", StringAttr("1s")), Attribute("called", BoolAttr(true))];
    assert m == [LevelAttribute("info"), Attribute("function", StringAttr("tracer.TestSpanContent")), Attribute("field", StringAttr("fred")),
                 Attribute("int", Int64Attr(1)), Attribute("duration", StringAttr("1s")), Attribute("called", BoolAttr(true))];
    var w' := LG.Log(LG.OtelSpan(l), Info, "test", called, w);
    assert w'.spans[ref].attributes == w.spans[ref].attributes + m;
    assert AttributeKeys(w.spans[ref].attributes + m) == AttributeKeys(w.spans[ref].attributes) + AttributeKeys(m);
  }
}
