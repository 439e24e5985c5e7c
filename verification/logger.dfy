/** The `Logger` interface and its three implementations: the background
    `logger` that only forwards to zap, and the two span loggers. */
module Logger {
  import opened Fields
  import opened Zap
  import opened Trace
  import OcLogger
  import OtelLogger

  /** A value of the `Logger` interface, one alternative per implementation. */
  datatype Logger =
    | Background(zap: ZapLogger)
    | OcSpan(oc: OcLogger.SpanLogger)
    | OtelSpan(otel: OtelLogger.OtelLogger)

  /** The background logger's level methods: forward the message and fields
      unchanged to zap's method of the same level, with no level check and no
      span mirroring of their own. */
  function BackgroundLog(z: ZapLogger, level: MethodLevel, msg: string, fs: seq<Field>, w: World): (r: World)
    ensures r.spans == w.spans && r.nextRef == w.nextRef
    ensures level in z.enabled ==> r.logs == w.logs + [Entry(level, msg, z.context + fs)]
    ensures level !in z.enabled ==> r.logs == w.logs
  {
    w.(logs := Write(z, level, msg, fs, w.logs))
  }

  /** A call of the level method for `level` on any implementation: whatever
      the implementation, the entry reaches the sink exactly when the zap
      logger enables the level, carrying the logger's fields followed by the
      call's; a disabled level changes nothing; the background logger never
      touches a span. */
  function Log(l: Logger, level: MethodLevel, msg: string, fs: seq<Field>, w: World): (r: World)
    ensures level in Engine(l).enabled ==> r.logs == w.logs + [Entry(level, msg, Engine(l).context + fs)]
    ensures level !in Engine(l).enabled ==> r == w
    ensures l.Background? ==> r.spans == w.spans
    ensures r.nextRef == w.nextRef
  {
    match l
    case Background(z) => BackgroundLog(z, level, msg, fs, w)
    case OcSpan(sl) => OcLogger.Log(sl, level, msg, fs, w)
    case OtelSpan(ol) => OtelLogger.Log(ol, level, msg, fs, w)
  }

  /** `With` on any implementation: a logger of the same implementation whose
      entries carry `fs` after the receiver's fields. */
  function With(l: Logger, fs: seq<Field>): (r: Logger)
    ensures r.Background? <==> l.Background?
    ensures r.OcSpan? <==> l.OcSpan?
    ensures r.OtelSpan? <==> l.OtelSpan?
    ensures Engine(r).context == Engine(l).context + fs
  {
    match l
    case Background(z) => Background(Zap.With(z, fs))
    case OcSpan(sl) => OcSpan(OcLogger.With(sl, fs))
    case OtelSpan(ol) => OtelSpan(OtelLogger.With(ol, fs))
  }

  /** The zap logger an implementation writes through. */
  function Engine(l: Logger): ZapLogger {
    match l
    case Background(z) => z
    case OcSpan(sl) => sl.zap
    case OtelSpan(ol) => ol.zap
  }

  /** Deriving with no fields gives an equivalent logger of the same implementation. */
  lemma WithNothing(l: Logger)
    ensures With(l, []) == l
  {
    match l
    case Background(z) =>
    case OcSpan(sl) => OcLogger.WithNothing(sl);
    case OtelSpan(ol) => OtelLogger.WithNothing(ol);
  }

  /** Deriving twice is deriving once with both field lists, in order. */
  lemma WithTwice(l: Logger, a: seq<Field>, b: seq<Field>)
    ensures With(With(l, a), b) == With(l, a + b)
  {
    match l
    case Background(z) =>
      assert z.context + a + b == z.context + (a + b);
    case OcSpan(sl) => OcLogger.WithTwice(sl, a, b);
    case OtelSpan(ol) => OtelLogger.WithTwice(ol, a, b);
  }
}
