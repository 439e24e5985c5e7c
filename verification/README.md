# go-trace logging core, modelled in Dafny

This project models the trace-correlated logging core of `github.com/fredbi/go-trace`.

- **Logger interface.** A `Logger` has three implementations:
  - the background logger, which only forwards to zap;
  - the OpenCensus span logger;
  - the OpenTelemetry span logger.
- **Span mirroring.** Every enabled log call is written through the zap logger. A span logger also mirrors it onto its span:
  - a `level` attribute comes first;
  - then the logger's accumulated fields and the call's fields, each passed through a field adapter;
  - then an annotation (OpenCensus) or an event (OpenTelemetry) carrying the message.
- **Field adapters.** They encode each zap field kind as a span attribute:
  - integers are widened to int64, with two's-complement wrap-around;
  - OpenCensus has no float attribute, so floats become their bit pattern;
  - binary values are encoded as standard base64 (section 4 of RFC 4648);
  - byte strings are read as text, one character per byte;
  - empty strings are dropped, and so are unsupported kinds.
- **Factory.** The `Factory` builds loggers:
  - `Bg` gives the background logger;
  - `For(ctx)` gives an OpenCensus span logger when the context carries an OpenCensus span, with Datadog correlation fields when that option is on;
  - `With` and `WithZapOptions` derive child factories.
- **Tracer helpers.** Both tracer packages provide `StartSpan`/`StartNamedSpan`. They start a span named after the caller and return a logger whose entries carry the signature under a package-level prefix (`function` by default).
- **Logger options.** Options for building the root zap logger, including parsing the level text.
- **Amplitude.** The span encoder and span filters of the Amplitude exporter, and its options.

Everything is pure and immutable:
- A `World` holds the log entries written so far and the spans recorded so far, keyed by reference.
- Each operation maps a `World` to a new one.
- A reference missing from the map stands for a nil or non-recording span, on which recording does nothing.
- The zap logger is reduced to four things: its context fields, the set of levels it enables, its caller-skip count, and the names of the other zap options it was given.
- Inputs that come from the runtime are parameters. These are the stack introspection behind `Signature`, the span identifiers an SDK generates, and the globally registered OpenTelemetry tracer.

Files and modules, leaf first:

- `prelude.dfy` (`Prelude`): `Option`, bytes, `int64` wrap-around.
- `bytes.dfy` (`BigEndian`): `binary.BigEndian.Uint64` and `PutUint64`.
- `base64.dfy` (`Base64`): standard base64 with padding, and its decoder.
- `text.dfy` (`Text`): `path.Base`, `strings.Contains`, `string([]byte)`, ASCII lower-casing.
- `fields.dfy` (`Fields`): levels, zap fields, span attributes, and the encoding loop shared by both adapters.
- `zap.dfy` (`Zap`): the zap logger as the core uses it.
- `trace.dfy` (`Trace`): span contexts, spans, the context, the `World`.
- `oc_logger.dfy` (`OcLogger`), `otel_logger.dfy` (`OtelLogger`), `logger.dfy` (`Logger`): the loggers.
- `factory.dfy` (`Factory`), `logger_options.dfy` (`LoggerOptions`): the factory and the logger options.
- `itracer.dfy` (`ITracer`), `oc_tracer.dfy` (`OcTracer`), `otel_tracer.dfy` (`OtelTracer`): the tracer helpers.
- `amplitude_encoder.dfy`, `amplitude_filter.dfy`, `amplitude_options.dfy`: the Amplitude encoder, filters and options.
- `scenarios.dfy` (`Scenarios`): the behaviour the package tests set up, derived from the model.

## Where the code and its tests disagree

The model follows the code. In the cases below, the code disagrees with its tests, with its own comments, or with itself.

- **Datadog `log_msg`.**
  - The Datadog factory test (log/factory_test.go:129-203) expects a `log_msg` attribute and four span attributes.
  - `For` (log/factory.go:71-74) never sets `ddFlag`, so the span gets three attributes and no `log_msg`.
  - `Scenarios.DatadogScenario` proves the three.
- **OpenCensus signed fields.**
  - The OpenCensus tracer test (opencensus/tracer/tracer_test.go:56-63) expects seven span attributes.
  - The signed fields go to the zap child (`Factory.With`), not into the span logger's fields, so the span only gets `level` and `called`.
  - The log entry does carry `function`, `field`, `int`, `duration` and `called`.
  - `Scenarios.OcTracerScenario` proves this.
- **OpenTelemetry span.**
  - The OpenTelemetry tracer test (otel/tracer/tracer_test.go:55-69) expects six attributes and one event on the new span.
  - Its test environment asks the factory for an OpenTelemetry mode that log/factory.go does not have.
  - `For` only looks for an OpenCensus span. So the logger is a background logger, or a logger on an outer OpenCensus span, and the new OpenTelemetry span stays empty (`OtelTracer.OtelSpanStaysEmpty`, `Scenarios.OtelTracerScenario`).
  - `Scenarios.OtelLoggerScenario` shows that an OpenTelemetry span logger holding those fields would mirror the six attributes and the event.
- **Factory options.**
  - log/factory.go:25 embeds `*options`, and `defaultOptions` in log/options.go:12-20 returns that pointer. But `defaultOptions` in log/factory_options.go:14-25 returns the struct by value.
  - The model takes the options by value.
  - `With` and `WithZapOptions` (log/factory.go:79-87) build a factory without options. So in the model a derived factory always has Datadog off (`Factory.WithLosesDatadog`).
  - Under the pointer reading, the same two functions would leave the pointer nil. `For` reads `b.datadog` (log/factory.go:58) on every context that carries an OpenCensus span, so it would panic on a derived factory.
  - Every `StartSpan` of opencensus/tracer/tracer.go:25 calls `With` and then `For`, so under the pointer reading it would panic. The by-value reading turns that panic into "Datadog off".
- **Caller skip default.** The comment on `WithCallerSkip` (log/logger_options.go:91-93) says the default is 1, but `loggerDefaults` (log/logger_options.go:25) sets 0. The model uses 0.

## Model

| member | source | states |
|---|---|---|
| OcLogger.AddField | log/oc_logger.go:111-192 | one field gives no attribute exactly when it is dropped (an unsupported kind, or a string with an empty key or value), and otherwise exactly one attribute under the field's key; integers become their int64 wrap, floats and float32s become the int64 of their bit pattern, binary values become their standard base64 encoding (`Base64.Encode`), which decodes back to the bytes, byte strings become the same text; no float attribute is ever produced |
| OcLogger.AdaptKeepsOrder | log/oc_logger.go:84-93 | the adapted list has one attribute per kept field, with the kept fields' keys in their order |
| OcLogger.AdaptHasNoFloats | log/oc_logger.go:115-121 | no attribute the OpenCensus adapter produces holds a float |
| OcLogger.LogToSpan | log/oc_logger.go:84-102 | only the logger's own span changes: it gains the level attribute, the adapted accumulated and call fields, and `log_msg` exactly when the Datadog flag is on, plus one annotation with the message; logs and every other span are untouched |
| OcLogger.Log | log/oc_logger.go:26-70 | a level the zap core does not enable changes nothing at all; an enabled one mirrors the call on the span under the level's name and appends one entry whose context is the zap fields followed by the call's |
| OcLogger.With | log/oc_logger.go:75-82 | the child keeps the span, the flag and the enabled levels, and both its span fields and its zap context are extended by the given fields |
| OcLogger.WithTwice | log/oc_logger.go:75-82 | deriving with `a` then `b` equals deriving once with `a + b` |
| OcLogger.WithNothing | log/oc_logger.go:75-82 | deriving with no fields gives back the same logger |
| OcLogger.WithThenLog | log/oc_logger.go:75-101 | fields given to `With` are mirrored on the span exactly as if passed first at the call site |
| OtelLogger.AddField | log/otel_logger.go:113-194 | as for OpenCensus, except that floats keep their value as float attributes |
| OtelLogger.AdaptKeepsOrder | log/otel_logger.go:84-93 | the adapted list has one attribute per kept field, with the kept fields' keys in their order |
| OtelLogger.LogToSpan | log/otel_logger.go:84-104 | only the logger's span changes: it gains the level attribute and the adapted fields, plus one event named after the message, and never `log_msg` |
| OtelLogger.Log | log/otel_logger.go:26-70 | a disabled level changes nothing; an enabled one mirrors on the span and appends one entry with the zap fields followed by the call's |
| OtelLogger.With | log/otel_logger.go:75-82 | the child keeps span, flag and levels; fields and zap context are extended by the given fields |
| OtelLogger.WithTwice | log/otel_logger.go:75-82 | deriving twice equals deriving once with both lists, in order |
| OtelLogger.WithNothing | log/otel_logger.go:75-82 | deriving with no fields gives back the same logger |
| OtelLogger.WithThenLog | log/otel_logger.go:75-103 | fields given to `With` are mirrored as if passed first at the call site |
| OtelLogger.DatadogFlagIgnored | log/otel_logger.go:84-104 | the Datadog flag makes no difference to what the OpenTelemetry logger mirrors |
| Fields.EncodeAppend | log/oc_logger.go:87-93 | adapting the accumulated fields and then the call's fields gives the same list as adapting their concatenation |
| Fields.EncodeKeepsOrder | log/otel_logger.go:84-93 | any adapter that maps a dropped field to nothing and a kept field to one attribute under its key yields exactly the kept fields' keys, in order |
| Fields.WidenToInt64 | log/oc_logger.go:123-161 | `int64(v)` keeps every value of the signed kinds and of `uint8`/`uint16`/`uint32`; only `uint`/`uint64` values of at least 2^63 change, to the negative value 2^64 below |
| Fields.LevelNameInjective | log/oc_logger.go:26-70 | distinct levels are mirrored under distinct level names |
| Prelude.Int64Of | log/oc_logger.go:123-161 | the result is in the int64 range and congruent to the input modulo 2^64 |
| Prelude.Int64OfWrapsHighUint64 | log/oc_logger.go:147-149 | a `uint64` value of at least 2^63 becomes negative, 2^64 below itself |
| Prelude.Int64OfInjectiveOnUint64 | log/oc_logger.go:147-149 | distinct `uint64` values give distinct int64 attributes |
| Base64.Encode | log/oc_logger.go:171-173 | the encoding has 4 characters per started group of 3 bytes, all from the standard alphabet or `=`, and the bits before the padding that carry no data are zero (section 3.5 of RFC 4648) |
| Base64.CanonicalIsEncode | log/oc_logger.go:171-173 | any padded string with zero padding bits that decodes to some bytes is exactly the encoding of those bytes, so the round trip and the zero padding bits determine the encoder's output |
| Base64.DecodeIgnoresPadBits | log/oc_logger.go:171-173 | the decoder alone does not fix the encoding: `AB==` decodes to the byte 0, whose encoding is `AA==` |
| Base64.SextetValue | log/oc_logger.go:171-173 | a character has a value exactly when it is in the standard alphabet, and that value maps back to the character |
| Base64.DecodeEncode | log/oc_logger.go:171-173 | decoding the encoding of any byte sequence gives the bytes back |
| Base64.EncodeTestVectors | log/oc_logger.go:171-173 | the encoder gives the standard results of section 10 of RFC 4648: "f" is `Zg==`, "fo" is `Zm8=`, "foo" is `Zm9v`, "foobar" is `Zm9vYmFy` |
| Base64.EncodeInjective | log/otel_logger.go:173-175 | distinct byte sequences give distinct attribute strings |
| Text.OfBytes | log/oc_logger.go:175-177 | the text has one character per byte, each with the byte's code |
| Text.OfBytesInjective | log/oc_logger.go:175-177 | distinct byte strings give distinct texts |
| BigEndian.Uint64 | log/factory.go:62-63 | the value read from the first 8 bytes re-encodes big-endian to exactly those bytes |
| BigEndian.PutUint64 | log/factory.go:62-63 | writing a value gives 8 bytes that read back as the value |
| BigEndian.DecodeEncode | log/factory.go:62-63 | encoding a value that fits and decoding it gives the value back |
| BigEndian.EncodeDecode | log/factory.go:62-63 | decoding bytes and re-encoding at the same width gives the bytes back |
| Factory.DefaultOptions | log/factory_options.go:14-25 | no option gives the defaults (Datadog off); otherwise the last `WithDatadog` decides the flag |
| Factory.ApplyAllAppend | log/factory_options.go:19-22 | applying two option lists in turn equals applying their concatenation |
| Factory.ApplyAllLastWins | log/factory_options.go:29-33 | the last option sets the Datadog flag whatever came before |
| Factory.NewFactory | log/factory.go:29-35 | the factory wraps the given zap logger, and Datadog is on exactly when the last option enables it |
| Factory.Bg | log/factory.go:37-40 | a background logger over the factory's own zap logger |
| Factory.BgIgnoresOptions | log/factory.go:37-40 | the background logger does not depend on the factory's options |
| Factory.DatadogFields | log/factory.go:58-68 | three fields `dd.trace_id`, `dd.span_id`, `sampling.priority`: the first two are `uint64` values whose big-endian bytes are the low 8 bytes of the trace id and the span id, the third is the float 1.0 |
| Factory.For | log/factory.go:53-77 | no OpenCensus span in the context gives `Bg`; otherwise a span logger on that span with no fields and the flag off, over a zap child with one more caller skip and, when Datadog is on, the correlation fields after the factory's |
| Factory.ForIsNeverOtel | log/factory.go:53-77 | `For` never builds an OpenTelemetry span logger |
| Factory.ForMirrorsCallFieldsOnly | log/factory.go:71-74 | a logger from `For` mirrors the level and the call's adapted fields only, and never `log_msg` |
| Factory.With | log/factory.go:79-82 | the child factory's zap context is extended by the fields, and its options are the zero options |
| Factory.WithZapOptions | log/factory.go:84-87 | the child keeps the zap context and levels, and its options are the zero options |
| Factory.WithTwice | log/factory.go:79-82 | deriving a factory twice equals deriving once with both lists, in order |
| Factory.WithLosesDatadog | log/factory.go:53-82 | a span logger built from a derived factory carries exactly the parent's and derived fields, never Datadog fields |
| Logger.BackgroundLog | log/logger.go:28-51 | no span changes; an entry with the zap fields followed by the call's is appended exactly when zap enables the level |
| Logger.Log | log/logger.go:13-20 | for every implementation, an enabled level appends exactly one entry with the engine's fields followed by the call's, and a disabled level changes nothing; the background logger never touches a span |
| Logger.With | log/logger.go:19 | the child is of the same implementation, and its entries carry the new fields after the receiver's |
| Logger.WithTwice | log/logger.go:53-56 | deriving twice equals deriving once with both lists, in order, for every implementation |
| Logger.WithNothing | log/logger.go:53-56 | deriving with no fields gives back the same logger, for every implementation |
| LoggerOptions.DefaultLoggerOptions | log/logger_options.go:23-39 | no option gives `info`, skip 0 and every flag off; otherwise each setting holds the value of the last option that sets it, or its default; development is never set |
| LoggerOptions.ApplyOptionSetsOne | log/logger_options.go:78-118 | each option changes its own setting and no other |
| LoggerOptions.ApplyAllLastWins | log/logger_options.go:33-36 | after a list of options, each setting holds the value of the last option that names it, or its earlier value |
| LoggerOptions.ParseLevel | log/logger_options.go:46 | empty text is the info level; otherwise the text parses exactly when its ASCII lower-case form is a level name, and then to that level |
| LoggerOptions.ParseLevelName | log/logger_options.go:46 | every level's own name parses back to that level |
| LoggerOptions.ApplyToConfig | log/logger_options.go:41-62 | development is ORed in; an error is returned exactly when the level does not parse and errors are not ignored, and then nothing else changes; otherwise the level is the parsed one, or info under ignore, durations are rendered as strings, and the stack-trace flag is only ever switched on |
| ITracer.RegisterPrefix | internal/itracer/globals.go:22-26 | the prefix becomes the given text |
| ITracer.RegisterPrefixLastWins | internal/itracer/globals.go:22-26 | registering twice leaves only the last prefix, and registering the same prefix again changes nothing |
| ITracer.SignedFields | internal/itracer/signature.go:10-17 | the signature under the current prefix comes first, followed by the caller's fields unchanged; the keys are the prefix followed by the fields' keys |
| ITracer.SignatureDroppedIff | internal/itracer/signature.go:10-17 | span adapters drop the signature field exactly when the prefix or the signature is empty |
| ITracer.Signature | internal/itracer/signature.go:20-27 | no caller gives ""; otherwise a non-empty last path element of the caller's name, and a plain name is returned unchanged |
| ITracer.SignatureOfQualifiedName | internal/itracer/signature.go:23 | for an import path followed by `/name`, the signature is `name` |
| ITracer.SignatureOfTestFunction | otel/tracer/tracer_test.go:53 | the test function's qualified name gives the signature `tracer.TestSpanContent` |
| Text.PathBase | internal/itracer/signature.go:23 | the base is never empty: `.` for empty input; `/` exactly when the path is non-empty and all slashes; otherwise the last slash-free segment once trailing slashes are dropped |
| Text.PathBaseOfJoin | internal/itracer/signature.go:23 | the base of `dir/name` is `name` |
| Text.PathBaseIgnoresTrailingSlash | internal/itracer/signature.go:23 | a trailing slash does not change the base |
| OcTracer.StartNamedSpan | opencensus/tracer/tracer.go:30-36 | starts a fresh OpenCensus span named after the signature and puts it in the child context; the logger is a span logger on that span, with no span fields, the Datadog flag off, one more caller skip, and zap fields made of the factory's fields, the signature under the prefix, and the given fields |
| OcTracer.StartSpan | opencensus/tracer/tracer.go:17-28 | as `StartNamedSpan` with the caller's signature: the span is named by the caller's base name, "" when the runtime cannot report it, and the logger's first added field carries that name |
| OcTracer.RegisterPrefix | opencensus/tracer/tracer.go:48-50 | the shared prefix becomes the given text |
| OcTracer.TracedEntryCarriesSignature | opencensus/tracer/tracer.go:22-28 | an enabled entry from the traced logger holds the signature under the prefix, right after the runtime's own fields |
| OtelTracer.GetTracer | otel/tracer/tracer.go:67-73 | the runtime's own tracer when it provides one, otherwise the global one |
| OtelTracer.StartNamedSpan | otel/tracer/tracer.go:40-51 | starts a fresh OpenTelemetry span with the chosen tracer and puts it in the child context; the logger's zap fields are the factory's, the signature, then the given fields; the logger is a background logger, or a logger on the outer OpenCensus span when there is one |
| OtelTracer.StartSpan | otel/tracer/tracer.go:24-38 | as `StartNamedSpan` with the caller's signature, which names the span and heads the added fields |
| OtelTracer.RegisterPrefix | otel/tracer/tracer.go:63-65 | the shared prefix becomes the given text |
| OtelTracer.OtelSpanStaysEmpty | otel/tracer/tracer.go:31-38 | logging through the returned logger leaves the new OpenTelemetry span without attributes or events |
| Trace.StartSpanIsFresh | opencensus/tracer/tracer.go:24 | in a valid state the new span's reference names no earlier span, no earlier span changes, and the state stays valid |
| Trace.AddAttributes | log/oc_logger.go:96 | only the named span's attributes change, by appending; a missing (nil) span changes nothing |
| Trace.AddEvent | log/oc_logger.go:95 | only the named span's events change, by one appended event |
| Zap.Write | log/logger.go:29-51 | the entry reaches the sink exactly when the level is enabled, with the logger's fields followed by the call's |
| AmplitudeFilter.IsFiltered | misc/amplitude/filter.go:64-98 | the user filter skips a span with nil attributes or no user id; the info-level filter skips nil attributes or a `level` of exactly the string "debug"; the message filter skips a span without annotations or whose first annotation does not contain the message |
| AmplitudeFilter.AnyFiltered | misc/amplitude/filter.go:54-62 | a list skips a span exactly when some filter in it does |
| AmplitudeFilter.AnyFilteredAppend | misc/amplitude/filter.go:54-62 | concatenated lists skip exactly when either list does, in either order |
| AmplitudeFilter.DefaultFiltersPass | misc/amplitude/filter.go:31-37 | the default filters let a span through exactly when it has attributes, a user id, and a level other than "debug" |
| AmplitudeFilter.EmptyMessagePassesAnnotated | misc/amplitude/filter.go:88-98 | an empty message filter passes every span that has an annotation |
| AmplitudeFilter.MessageFilterReadsFirstAnnotation | misc/amplitude/filter.go:88-98 | annotations after the first never change the message filter's verdict |
| Text.Search | misc/amplitude/filter.go:93 | the search answers true exactly when the text contains the substring at some position |
| AmplitudeEncoder.GetUserId | exporters/amplitude/span_encoder.go:54-70 | the non-empty string under `user_id`, else the one under `userID`, else ""; "" exactly when neither holds a non-empty string |
| AmplitudeEncoder.Message | exporters/amplitude/span_encoder.go:25-28 | the first annotation's message, or "" without annotations |
| AmplitudeEncoder.EncodeSpan | exporters/amplitude/span_encoder.go:18-51 | no event exactly when the attributes are nil; otherwise the user id, event type and version come from the span and options, the property keys are the attribute keys plus the four reserved ones, other attributes are copied, and the reserved ones hold the app name, span name, first message and status |
| AmplitudeEncoder.ReservedKeysWin | exporters/amplitude/span_encoder.go:30-38 | whatever a span holds under a reserved key, the event is the same |
| AmplitudeEncoder.DefaultSpanEncoder | exporters/amplitude/span_encoder.go:15-16 | the encoder built encodes every span with the options folded over the defaults |
| AmplitudeEncoder.DefaultEncoderOptions | log/exporters/amplitude/options.go:41-53 | no option gives `demo-amplitude`, `v0.0.1`, `backend-event`; otherwise the last option is applied to the result of the ones before |
| AmplitudeEncoder.ApplyEncoderOptionsAppend | log/exporters/amplitude/options.go:48-50 | applying two option lists in turn equals applying their concatenation |
| AmplitudeOptions.DefaultOptions | log/exporters/amplitude/options.go:28-39 | no option gives the no-op logger, the default encoder, no client options and no filters; the filters and encoder are those of the last option setting them; without a filter option there is no filter |
| AmplitudeOptions.ApplyAllLastWins | log/exporters/amplitude/options.go:55-76 | setters replace wholesale: the filters and encoder are those of the last option that sets them |
| AmplitudeOptions.DefaultsFilterNothing | log/exporters/amplitude/options.go:62-69 | with no options the exporter skips no span |
| Scenarios.BackgroundScenario | log/factory_test.go:45-60 | a derived background logger writes one warn entry with keys `tescase`, `entries` and touches no span |
| Scenarios.NoSpanScenario | log/factory_test.go:62-79 | a context without a span gives the background logger |
| Scenarios.SpanScenario | log/factory_test.go:81-126 | on a span logger, one info entry with two keys, and on the span three attributes `level`, `tescase`, `entries` and one annotation with the message |
| Scenarios.DatadogScenario | log/factory_test.go:129-203 | with Datadog on, the entry has the three correlation keys then `tescase`, `entries`; the span gets three attributes and no `log_msg` |
| Scenarios.OcTracerScenario | opencensus/tracer/tracer_test.go:28-71 | the span is named `tracer.TestSpanContent` and gets the attributes `level` and `called` and one annotation; the entry has keys `function`, `field`, `int`, `duration`, `called` |
| Scenarios.OcTestSignature | opencensus/tracer/tracer_test.go:54 | the OpenCensus test function's qualified name gives the signature `tracer.TestSpanContent` |
| Scenarios.OtelTracerScenario | otel/tracer/tracer_test.go:30-74 | the new span is named `tracer.TestSpanContent` and records nothing; the entry has keys `function`, `field`, `int`, `duration`, `called` |
| Scenarios.OtelLoggerScenario | log/otel_logger.go:26-104 | on a fresh span, an OpenTelemetry span logger holding the signed fields mirrors six attributes, `level` then the five fields, and one event named after the message |

## Left out

- The zap engine's internals: encoders, sinks, sampling, hooks and the process exit after `Fatal`. A zap logger is its fields, its enabled levels, its caller skip and the names of its other options.
- The trace SDKs' internals:
  - id generation (ids are a parameter);
  - sampling, export, span end and timing;
  - OpenCensus attribute limits;
  - the no-op global OpenTelemetry provider. The global tracer is a parameter.
- `runtime.Caller` and `runtime.FuncForPC`: the caller's qualified name, or its absence, is the parameter of `ITracer.Signature`.
- Text encoding: a Go string is modelled as its byte sequence, one `char` per byte, each with a code below 256 (`Text.OfBytes`). A model string is not a sequence of Unicode code points, so a literal such as `"é"` is not the model of Go's `"é"` (which is the two bytes 0xC3 0xA9). Every string in the scenarios is ASCII, where the two readings agree.
- zap fields that make more or fewer than one encoder call: a field is modelled as the single `ObjectEncoder` call it makes (`Fields.FieldValue`). An error field whose error implements `fmt.Formatter` (two calls, `key` and `keyVerbose`), `zap.Inline` (any number of calls under any keys) and `zap.Skip` (no call) are not modelled, and for them `OcLogger.AdaptKeepsOrder` and `OtelLogger.AdaptKeepsOrder` do not apply.
- How `time.Duration` and `time.Time` render as text: a duration or time field holds the text its `String` method gives.
- How float values relate to their bit patterns: a float is its IEEE 754 bit pattern, and a float32 is held as the float64 it widens to.
- How the SDKs store attributes: both keep one value per key, so a later attribute under the same key replaces an earlier one. The model keeps a span's attributes as the list of everything added, in order; every scenario looks only at a freshly started span with distinct keys, where the two views agree (`Scenarios.OtelLoggerScenario` requires its span to be fresh).
- Fields given to a span logger's `With` can alias the parent's slice (Go's `append`); the model uses immutable sequences.
- The mutex around the signature prefix: `RegisterPrefix` and the unlocked read in `SignedFields` are modelled sequentially.
- `applyToLogger` (log/logger_options.go:64-72): replacing zap's globals and redirecting the standard library logger are process-wide side effects.
- log/constructors.go and the test logger configuration: they read the environment and build zap loggers.
- The middlewares (log/middleware.go, middleware/, otel/middleware/, tracer/middleware.go): HTTP plumbing.
- The older `tracer/` package and log/options.go: they duplicate the helpers modelled here.
- The `Zap()` accessors: they only return the wrapped logger.
- exporters/amplitude/span_exporter.go: it sends events over the network.
- The event id and time that `DefaultSpanEncoder` computes from the trace id and start time.
- User-defined `Filter` implementations and custom span encoders: a custom encoder is known by name only.
- LoggerOptions.ParseLevel: lower-cases ASCII letters only, where zap's fallback uses `bytes.ToLower`, which follows Unicode case mapping. zap therefore also accepts level names written with non-ASCII capitals that lower-case to ASCII letters, such as U+0130 in "İNFO" or "PANİC"; the model rejects them.
- Factory.WithZapOptions: the other zap options are kept as opaque names. Only the caller-skip option has an effect in the model.
