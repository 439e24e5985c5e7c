/** The options of the Amplitude span exporter: the span encoder, the API
    client options, the logger for API errors and the span filters. */
module AmplitudeOptions {
  import opened Prelude
  import opened Zap
  import opened AmplitudeEncoder
  import opened AmplitudeFilter

  /** A span encoder: the package's default one for some encoder options, or
      one supplied by the caller, known by name only. */
  datatype SpanEncoder = DefaultEncoder(options: EncoderOptions) | CustomEncoder(name: string)

  /** The Amplitude API client options, passed through untouched. */
  datatype ClientOptions = ClientOptions(id: nat)

  datatype ExporterOptions = ExporterOptions(
    spanEncoder: SpanEncoder,
    clientOptions: Option<ClientOptions>,
    logger: ZapLogger,
    filters: seq<Filter>)

  datatype ExporterOption =
    | WithAmplitudeClientOptions(clientOptions: Option<ClientOptions>)
    | WithSpanFilters(filters: seq<Filter>)
    | WithSpanEncoder(spanEncoder: SpanEncoder)
    | WithLogger(logger: ZapLogger)

  /** The starting point of `defaultOptions`: a no-op logger, the default
      encoder with the default encoder options, no client options and no
      filters. */
  const ExporterDefaults: ExporterOptions := ExporterOptions(DefaultEncoder(EncoderDefaults), None, Nop, [])

  function ApplyOption(o: ExporterOptions, opt: ExporterOption): ExporterOptions {
    match opt
    case WithAmplitudeClientOptions(c) => o.(clientOptions := c)
    case WithSpanFilters(fs) => o.(filters := fs)
    case WithSpanEncoder(e) => o.(spanEncoder := e)
    case WithLogger(l) => o.(logger := l)
  }

  function ApplyAll(o: ExporterOptions, opts: seq<ExporterOption>): ExporterOptions
    decreases |opts|
  {
    if |opts| == 0 then o else ApplyAll(ApplyOption(o, opts[0]), opts[1..])
  }

  /** The filters after a list of options: those of the last `WithSpanFilters`,
      or `before` when there is none. */
  function LastFilters(before: seq<Filter>, opts: seq<ExporterOption>): seq<Filter>
    decreases |opts|
  {
    if |opts| == 0 then before
    else if opts[|opts| - 1].WithSpanFilters? then opts[|opts| - 1].filters
    else LastFilters(before, opts[..|opts| - 1])
  }

  /** The encoder after a list of options: that of the last `WithSpanEncoder`,
      or `before` when there is none. */
  function LastEncoder(before: SpanEncoder, opts: seq<ExporterOption>): SpanEncoder
    decreases |opts|
  {
    if |opts| == 0 then before
    else if opts[|opts| - 1].WithSpanEncoder? then opts[|opts| - 1].spanEncoder
    else LastEncoder(before, opts[..|opts| - 1])
  }

  lemma {:induction false} ApplyAllSnoc(o: ExporterOptions, init: seq<ExporterOption>, last: ExporterOption)
    ensures ApplyAll(o, init + [last]) == ApplyOption(ApplyAll(o, init), last)
    decreases |init|
  {
    if |init| == 0 {
      assert init + [last] == [last];
    } else {
      assert (init + [last])[0] == init[0];
      assert (init + [last])[1..] == init[1..] + [last];
      ApplyAllSnoc(ApplyOption(o, init[0]), init[1..], last);
    }
  }

  /** Setters replace wholesale: the filters and the encoder in force are
      those of the last option that sets them, never an accumulation. */
  lemma {:induction false} ApplyAllLastWins(o: ExporterOptions, opts: seq<ExporterOption>)
    ensures ApplyAll(o, opts).filters == LastFilters(o.filters, opts)
    ensures ApplyAll(o, opts).spanEncoder == LastEncoder(o.spanEncoder, opts)
    decreases |opts|
  {
    if |opts| > 0 {
      var init := opts[..|opts| - 1];
      assert opts == init + [opts[|opts| - 1]];
      ApplyAllSnoc(o, init, opts[|opts| - 1]);
      ApplyAllLastWins(o, init);
    }
  }

  /** `defaultOptions`: the options applied in order to the defaults. */
  function DefaultOptions(opts: seq<ExporterOption>): (r: ExporterOptions)
    ensures |opts| == 0 ==> r == ExporterDefaults
    ensures r.filters == LastFilters([], opts)
    ensures r.spanEncoder == LastEncoder(DefaultEncoder(EncoderDefaults), opts)
    ensures (forall i | 0 <= i < |opts| :: !opts[i].WithSpanFilters?) ==> r.filters == []
  {
    ApplyAllLastWins(ExporterDefaults, opts);
    NoFilterOption([], opts);
    ApplyAll(ExporterDefaults, opts)
  }

  lemma {:induction false} NoFilterOption(before: seq<Filter>, opts: seq<ExporterOption>)
    ensures (forall i | 0 <= i < |opts| :: !opts[i].WithSpanFilters?) ==> LastFilters(before, opts) == before
    decreases |opts|
  {
    if |opts| > 0 {
      NoFilterOption(before, opts[..|opts| - 1]);
    }
  }

  /** With the default options no span is filtered out by the exporter. */
  lemma DefaultsFilterNothing(s: SpanData)
    ensures !AnyFiltered(DefaultOptions([]).filters, s)
  {
  }
}
