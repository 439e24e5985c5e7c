/** Options for building the root zap logger: the level text with its parse
    and fallback, the caller skip, and the development, stack-trace,
    standard-log and globals flags. */
module LoggerOptions {
  import opened Prelude
  import opened Fields
  import Text

  datatype LoggerOptions = LoggerOptions(
    logLevel: string,
    callerSkip: int,
    isDevelopment: bool,
    disableStackTrace: bool,
    redirectStdLog: bool,
    replaceGlobals: bool,
    ignoreLevelErr: bool)

  /** The option constructors of the package, one alternative each. */
  datatype LoggerOption =
    | WithLevel(level: string)
    | WithDisableStackTrace(disabled: bool)
    | WithCallerSkip(skipped: int)
    | WithRedirectStdLog(redirect: bool)
    | WithReplaceGlobals(replace: bool)
    | WithIgnoreErr(ignore: bool)

  /** `loggerDefaults`: level "info", no caller skip, every flag off. */
  const LoggerDefaults: LoggerOptions := LoggerOptions("info", 0, false, false, false, false, false)

  function ApplyOption(o: LoggerOptions, opt: LoggerOption): LoggerOptions {
    match opt
    case WithLevel(level) => o.(logLevel := level)
    case WithDisableStackTrace(disabled) => o.(disableStackTrace := disabled)
    case WithCallerSkip(skipped) => o.(callerSkip := skipped)
    case WithRedirectStdLog(redirect) => o.(redirectStdLog := redirect)
    case WithReplaceGlobals(replace) => o.(replaceGlobals := replace)
    case WithIgnoreErr(ignore) => o.(ignoreLevelErr := ignore)
  }

  /** Applies the options left to right to a copy of `o`. */
  function ApplyAll(o: LoggerOptions, opts: seq<LoggerOption>): LoggerOptions
    decreases |opts|
  {
    if |opts| == 0 then o else ApplyAll(ApplyOption(o, opts[0]), opts[1..])
  }

  /** `defaultLoggerOptions`: the defaults when no option is given, otherwise
      the options applied left to right to a copy of the defaults. */
  function DefaultLoggerOptions(opts: seq<LoggerOption>): (r: LoggerOptions)
    ensures |opts| == 0 ==> r == LoggerDefaults
    ensures forall s :: Get(r, s) == LastSet(Get(LoggerDefaults, s), opts, s)
    ensures !r.isDevelopment
  {
    if |opts| == 0 then LoggerDefaults
    else
      assert forall s :: Get(ApplyAll(LoggerDefaults, opts), s) == LastSet(Get(LoggerDefaults, s), opts, s) by {
        forall s ensures Get(ApplyAll(LoggerDefaults, opts), s) == LastSet(Get(LoggerDefaults, s), opts, s) {
          ApplyAllLastWins(LoggerDefaults, opts, s);
        }
      }
      ApplyAllLastWins(LoggerDefaults, opts, LevelSetting);
      ApplyAll(LoggerDefaults, opts)
  }

  /** The settings an option can change, to speak of all of them at once. */
  datatype Setting = LevelSetting | CallerSkipSetting | StackTraceSetting | StdLogSetting | GlobalsSetting | IgnoreErrSetting

  datatype SettingValue = Text(s: string) | Number(n: int) | Flag(b: bool)

  function Get(o: LoggerOptions, s: Setting): SettingValue {
    match s
    case LevelSetting => Text(o.logLevel)
    case CallerSkipSetting => Number(o.callerSkip)
    case StackTraceSetting => Flag(o.disableStackTrace)
    case StdLogSetting => Flag(o.redirectStdLog)
    case GlobalsSetting => Flag(o.replaceGlobals)
    case IgnoreErrSetting => Flag(o.ignoreLevelErr)
  }

  /** The setting an option changes, and the value it gives it. */
  function Sets(opt: LoggerOption): Setting {
    match opt
    case WithLevel(_) => LevelSetting
    case WithDisableStackTrace(_) => StackTraceSetting
    case WithCallerSkip(_) => CallerSkipSetting
    case WithRedirectStdLog(_) => StdLogSetting
    case WithReplaceGlobals(_) => GlobalsSetting
    case WithIgnoreErr(_) => IgnoreErrSetting
  }

  function ValueOf(opt: LoggerOption): SettingValue {
    match opt
    case WithLevel(level) => Text(level)
    case WithDisableStackTrace(disabled) => Flag(disabled)
    case WithCallerSkip(skipped) => Number(skipped)
    case WithRedirectStdLog(redirect) => Flag(redirect)
    case WithReplaceGlobals(replace) => Flag(replace)
    case WithIgnoreErr(ignore) => Flag(ignore)
  }

  /** The value of a setting after a list of options, read from the end: the
      value of the last option that sets it, or its value before them. */
  function LastSet(before: SettingValue, opts: seq<LoggerOption>, s: Setting): SettingValue
    decreases |opts|
  {
    if |opts| == 0 then before
    else if Sets(opts[|opts| - 1]) == s then ValueOf(opts[|opts| - 1])
    else LastSet(before, opts[..|opts| - 1], s)
  }

  /** An option changes its own setting and no other. */
  lemma ApplyOptionSetsOne(o: LoggerOptions, opt: LoggerOption, s: Setting)
    ensures Get(ApplyOption(o, opt), s) == (if Sets(opt) == s then ValueOf(opt) else Get(o, s))
    ensures ApplyOption(o, opt).isDevelopment == o.isDevelopment
  {
  }

  /** Options apply left to right and the last one that sets a setting wins;
      a setting no option names keeps its value, and the development flag,
      which no option sets, is never changed. */
  lemma {:induction false} ApplyAllLastWins(o: LoggerOptions, opts: seq<LoggerOption>, s: Setting)
    ensures Get(ApplyAll(o, opts), s) == LastSet(Get(o, s), opts, s)
    ensures ApplyAll(o, opts).isDevelopment == o.isDevelopment
    decreases |opts|
  {
    if |opts| > 0 {
      var init := opts[..|opts| - 1];
      var last := opts[|opts| - 1];
      ApplyAllSnoc(o, init, last);
      assert opts == init + [last];
      ApplyAllLastWins(o, init, s);
      ApplyOptionSetsOne(ApplyAll(o, init), last, s);
    }
  }

  lemma {:induction false} ApplyAllSnoc(o: LoggerOptions, init: seq<LoggerOption>, last: LoggerOption)
    ensures ApplyAll(o, init + [last]) == ApplyOption(ApplyAll(o, init), last)
    decreases |init|
  {
    if |init| == 0 {
      assert init + [last] == [last];
    } else {
      assert (init + [last])[0] == init[0];
      assert (init + [last])[1..] == init[1..] + [last];
      ApplyAllSnoc(ApplyOption(o, init[0]), init[1..], last);
    }
  }

  /** zapcore's level vocabulary: a name, in any ASCII case, or the empty
      text for the info level. */
  function ParseLevel(text: string): (r: Option<Level>)
    ensures r.Some? ==> text == "" || Text.Lower(text) == LevelName(r.value)
    ensures r.None? <==> text != "" && forall l: Level :: Text.Lower(text) != LevelName(l)
    ensures text == "" ==> r == Some(Info)
  {
    var t := Text.Lower(text);
    if text == "" then Some(Info)
    else if t == "debug" then Some(Debug)
    else if t == "info" then Some(Info)
    else if t == "warn" then Some(Warn)
    else if t == "error" then Some(Error)
    else if t == "dpanic" then Some(DPanic)
    else if t == "panic" then Some(Panic)
    else if t == "fatal" then Some(Fatal)
    else None
  }

  /** Every level's own name parses back to that level. */
  lemma ParseLevelName(l: Level)
    ensures ParseLevel(LevelName(l)) == Some(l)
  {
    var n := LevelName(l);
    assert Text.Lower(n) == n;
  }

  /** How zap renders durations in log output. */
  datatype DurationEncoding = StringDurations | OtherDurations

  /** The part of a `zap.Config` the options write. */
  datatype ZapConfig = ZapConfig(development: bool, level: Level, disableStacktrace: bool, durations: DurationEncoding)

  /** The error zapcore reports for a level text it does not know. */
  datatype LevelError = UnrecognizedLevel(text: string)

  /** `applyToConfig`: the configuration after the call, and the error it returns. */
  datatype Applied = Applied(config: ZapConfig, err: Option<LevelError>)

  /** `applyToConfig`: switches development on when asked, then sets the
      parsed level. An unknown level falls back to info under
      `ignoreLevelErr` and is otherwise returned as an error before the level
      and the duration encoding are touched (the development flag has already
      been written by then). The stack-trace flag is only ever switched on. */
  function ApplyToConfig(o: LoggerOptions, lc: ZapConfig): (r: Applied)
    ensures r.config.development == (lc.development || o.isDevelopment)
    ensures r.err.Some? <==> ParseLevel(o.logLevel).None? && !o.ignoreLevelErr
    ensures r.err.Some? ==> r.err.value == UnrecognizedLevel(o.logLevel) && r.config == lc.(development := r.config.development)
    ensures r.err.None? && ParseLevel(o.logLevel).Some? ==> r.config.level == ParseLevel(o.logLevel).value
    ensures r.err.None? && ParseLevel(o.logLevel).None? ==> r.config.level == Info
    ensures r.err.None? ==> r.config.durations == StringDurations
    ensures r.err.None? ==> r.config.disableStacktrace == (lc.disableStacktrace || o.disableStackTrace)
  {
    var lc := if o.isDevelopment then lc.(development := true) else lc;
    match ParseLevel(o.logLevel)
    case None =>
      if o.ignoreLevelErr then
        ParseLevelName(Info);
        Applied(Finish(o, lc, ParseLevel(LoggerDefaults.logLevel).value), None)
      else Applied(lc, Some(UnrecognizedLevel(o.logLevel)))
    case Some(level) => Applied(Finish(o, lc, level), None)
  }

  function Finish(o: LoggerOptions, lc: ZapConfig, level: Level): ZapConfig {
    var lc := lc.(level := level, durations := StringDurations);
    if o.disableStackTrace then lc.(disableStacktrace := o.disableStackTrace) else lc
  }
}
