/** The structured-logging engine (go.uber.org/zap) as the core sees it: a
    logger carries context fields and a level enabler, derives children, and
    writes entries to a sink. Encoders, sinks and sampling are not modelled. */
module Zap {
  import opened Fields

  datatype ZapOption = AddCallerSkip(skip: int) | OtherOption(name: string)

  /** A zap logger: the fields added by `With`, the levels its core enables,
      the caller-skip count and the other options applied to it. */
  datatype ZapLogger = ZapLogger(context: seq<Field>, enabled: set<Level>, callerSkip: int, options: seq<ZapOption>)

  /** `zap.NewNop()`: a logger that enables no level. */
  const Nop: ZapLogger := ZapLogger([], {}, 0, [])

  /** `(*zap.Logger).With`: a child whose entries carry `fs` after the parent's fields. */
  function With(z: ZapLogger, fs: seq<Field>): (r: ZapLogger)
    ensures r.context == z.context + fs
    ensures r.enabled == z.enabled && r.callerSkip == z.callerSkip
  {
    if |fs| == 0 then z else z.(context := z.context + fs)
  }

  function ApplyOption(z: ZapLogger, o: ZapOption): ZapLogger {
    match o
    case AddCallerSkip(n) => z.(callerSkip := z.callerSkip + n)
    case OtherOption(_) => z.(options := z.options + [o])
  }

  /** `(*zap.Logger).WithOptions`: a clone with the options applied in order. */
  function WithOptions(z: ZapLogger, opts: seq<ZapOption>): (r: ZapLogger)
    ensures r.context == z.context && r.enabled == z.enabled
    decreases |opts|
  {
    if |opts| == 0 then z else WithOptions(ApplyOption(z, opts[0]), opts[1..])
  }

  /** A written log entry; its context is the logger's fields followed by the call's. */
  datatype Entry = Entry(level: Level, message: string, context: seq<Field>)

  /** A leveled call on a zap logger: the entry reaches the sink iff the core enables the level. */
  function Write(z: ZapLogger, level: Level, msg: string, fs: seq<Field>, logs: seq<Entry>): (r: seq<Entry>)
    ensures level !in z.enabled ==> r == logs
    ensures level in z.enabled ==> |r| == |logs| + 1 && r[..|logs|] == logs
    ensures level in z.enabled ==> r[|logs|] == Entry(level, msg, z.context + fs)
  {
    if level in z.enabled then logs + [Entry(level, msg, z.context + fs)] else logs
  }
}
