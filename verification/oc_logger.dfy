/** The OpenCensus span logger (`spanLogger`) and its field adapter
    (`fieldAdapter`): every enabled log call is written through zap and
    mirrored on an OpenCensus span as attributes plus one annotation. */
module OcLogger {
  import opened Prelude
  import opened Fields
  import opened Zap
  import opened Trace
  import Base64
  import Text

  /** A span logger: the zap logger it writes through, the span it mirrors
      to, the fields accumulated by `With`, and the Datadog flag. */
  datatype SpanLogger = SpanLogger(zap: ZapLogger, span: SpanRef, fields: seq<Field>, ddFlag: bool)

  /** The attributes `fieldAdapter` appends for one field. OpenCensus has no
      float attribute, so a float is stored as its float64 bit pattern in an
      int64 attribute. */
  function AddField(f: Field): (r: seq<Attribute>)
    ensures Dropped(f) <==> r == []
    ensures !Dropped(f) ==> |r| == 1 && r[0].key == f.key
    ensures forall a | a in r :: !a.value.Float64Attr?
    ensures f.value.BoolValue? ==> r == [Attribute(f.key, BoolAttr(f.value.b))]
    ensures f.value.IntValue? ==> r == [Attribute(f.key, Int64Attr(Int64Of(f.value.i)))]
    ensures f.value.Float64Value? ==> r == [Attribute(f.key, Int64Attr(Int64Of(f.value.f.bits as int)))]
    ensures f.value.Float32Value? ==> r == [Attribute(f.key, Int64Attr(Int64Of(f.value.widened.bits as int)))]
    ensures f.value.StringValue? && !Dropped(f) ==> r == [Attribute(f.key, StringAttr(f.value.s))]
    ensures f.value.BinaryValue? ==> r[0].value.StringAttr? && Base64.Decode(r[0].value.s) == Some(f.value.bytes)
    ensures f.value.BinaryValue? ==> r == [Attribute(f.key, StringAttr(Base64.Encode(f.value.bytes)))]
    ensures f.value.ByteStringValue? ==> r[0].value.StringAttr? && r[0].value.s == Text.OfBytes(f.value.bytes)
    ensures f.value.DurationValue? ==> r == [Attribute(f.key, StringAttr(f.value.text))]
    ensures f.value.TimeValue? ==> r == [Attribute(f.key, StringAttr(f.value.text))]
  {
    match f.value
    case BoolValue(b) => [Attribute(f.key, BoolAttr(b))]
    case Float64Value(x) => [Attribute(f.key, Int64Attr(Int64Of(x.bits as int)))]
    case Float32Value(x) => [Attribute(f.key, Int64Attr(Int64Of(x.bits as int)))]
    case IntValue(_, i) => [Attribute(f.key, Int64Attr(Int64Of(i)))]
    case DurationValue(_, text) => [Attribute(f.key, StringAttr(text))]
    case TimeValue(text) => [Attribute(f.key, StringAttr(text))]
    case BinaryValue(bytes) =>
      Base64.DecodeEncode(bytes);
      [Attribute(f.key, StringAttr(Base64.Encode(bytes)))]
    case ByteStringValue(bytes) => [Attribute(f.key, StringAttr(Text.OfBytes(bytes)))]
    case StringValue(s) => if f.key != "" && s != "" then [Attribute(f.key, StringAttr(s))] else []
    case UintptrValue(_) => []
    case ArrayValue => []
    case Complex128Value => []
    case Complex64Value => []
    case ObjectValue => []
    case ReflectedValue => []
    case NamespaceValue => []
  }

  /** The attribute list `fieldAdapter` builds from a sequence of fields. */
  function Adapt(fs: seq<Field>): seq<Attribute> {
    Encode(AddField, fs)
  }

  /** The adapter drops exactly the dropped fields and keeps the order and
      keys of the others. */
  lemma AdaptKeepsOrder(fs: seq<Field>)
    ensures |Adapt(fs)| == |Kept(fs)|
    ensures AttributeKeys(Adapt(fs)) == FieldKeys(Kept(fs))
  {
    EncodeKeepsOrder(AddField, fs);
  }

  /** The OpenCensus adapter never produces a float attribute. */
  lemma {:induction false} AdaptHasNoFloats(fs: seq<Field>)
    ensures forall a | a in Adapt(fs) :: !a.value.Float64Attr?
    decreases |fs|
  {
    if |fs| > 0 {
      AdaptHasNoFloats(fs[1..]);
    }
  }

  /** The attributes mirrored for one call: the level, the accumulated and
      call-site fields through the adapter, then `log_msg` when the Datadog
      flag is on (Datadog drops annotations, so the message travels as an
      attribute). */
  function Mirrored(l: SpanLogger, level: string, msg: string, fs: seq<Field>): seq<Attribute> {
    [LevelAttribute(level)] + Adapt(l.fields + fs)
      + (if l.ddFlag then [Attribute("log_msg", StringAttr(msg))] else [])
  }

  /** `logToSpan`: annotates the span with the message and adds the level,
      accumulated and call-site attributes, plus `log_msg` under the Datadog flag. */
  function LogToSpan(l: SpanLogger, level: string, msg: string, fs: seq<Field>, w: World): (r: World)
    ensures r.logs == w.logs && r.nextRef == w.nextRef && r.spans.Keys == w.spans.Keys
    ensures forall other | other in w.spans && other != l.span :: r.spans[other] == w.spans[other]
    ensures l.span in w.spans ==>
      r.spans[l.span] == w.spans[l.span].(attributes := w.spans[l.span].attributes + Mirrored(l, level, msg, fs),
                                          events := w.spans[l.span].events + [Annotation(msg)])
  {
    var attrs := [LevelAttribute(level)] + Adapt(l.fields) + Adapt(fs);
    var logMsg := if l.ddFlag then [Attribute("log_msg", StringAttr(msg))] else [];
    EncodeAppend(AddField, l.fields, fs);
    assert attrs + logMsg == Mirrored(l, level, msg, fs);
    var w1 := AddEvent(w, l.span, Annotation(msg));
    var w2 := AddAttributes(w1, l.span, attrs);
    var w3 := if l.ddFlag then AddAttributes(w2, l.span, logMsg) else w2;
    assert l.span in w.spans ==> w3.spans[l.span].attributes == w.spans[l.span].attributes + attrs + logMsg;
    w3
  }

  /** The level methods `Debug`, `Info`, `Warn`, `Error` and `Fatal`: a
      disabled level changes nothing at all; an enabled one mirrors the call
      on the span under the level's name, then writes it at that level. */
  function Log(l: SpanLogger, level: MethodLevel, msg: string, fs: seq<Field>, w: World): (r: World)
    ensures level !in l.zap.enabled ==> r == w
    ensures level in l.zap.enabled ==>
      && r.spans == LogToSpan(l, LevelName(level), msg, fs, w).spans
      && r.logs == w.logs + [Entry(level, msg, l.zap.context + fs)]
      && r.nextRef == w.nextRef
  {
    if level !in l.zap.enabled then w
    else
      var w' := LogToSpan(l, LevelName(level), msg, fs, w);
      w'.(logs := Write(l.zap, level, msg, fs, w'.logs))
  }

  /** `With`: a child logger on the same span and flag, whose fields and zap
      context are extended by `fs`. */
  function With(l: SpanLogger, fs: seq<Field>): (r: SpanLogger)
    ensures r.fields == l.fields + fs && r.zap.context == l.zap.context + fs
    ensures r.span == l.span && r.ddFlag == l.ddFlag && r.zap.enabled == l.zap.enabled
  {
    SpanLogger(Zap.With(l.zap, fs), l.span, l.fields + fs, l.ddFlag)
  }

  /** Deriving twice is deriving once with both field lists, in order. */
  lemma WithTwice(l: SpanLogger, a: seq<Field>, b: seq<Field>)
    ensures With(With(l, a), b) == With(l, a + b)
  {
    assert l.fields + a + b == l.fields + (a + b);
    assert l.zap.context + a + b == l.zap.context + (a + b);
  }

  /** Deriving with no fields gives back the same logger. */
  lemma WithNothing(l: SpanLogger)
    ensures With(l, []) == l
  {
    assert l.fields + [] == l.fields;
  }

  /** Fields given to `With` are mirrored exactly as if they had been passed
      first at the call site. */
  lemma WithThenLog(l: SpanLogger, a: seq<Field>, level: string, msg: string, b: seq<Field>, w: World)
    ensures LogToSpan(With(l, a), level, msg, b, w) == LogToSpan(l, level, msg, a + b, w)
  {
    assert l.fields + a + b == l.fields + (a + b);
  }
}
