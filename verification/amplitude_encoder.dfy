/** The Amplitude span encoder: turns the data of a finished OpenCensus span
    (its name, attribute map, annotations and status) into an Amplitude
    event, with the user id read from the span's attributes. */
module AmplitudeEncoder {
  import opened Prelude
  import opened Fields

  /** The exported data of a span. `attributes` is `None` for a nil map,
      which the SDK hands out for a span that recorded no attribute. */
  datatype SpanData = SpanData(
    name: string,
    attributes: Option<map<string, AttrValue>>,
    annotations: seq<string>,
    statusMessage: string)

  /** `encoderOptions`: the application name, its version and the event type. */
  datatype EncoderOptions = EncoderOptions(app: string, version: string, eventType: string)

  const EncoderDefaults: EncoderOptions := EncoderOptions("demo-amplitude", "v0.0.1", "backend-event")

  /** An `EncoderOption` is any function on the options; the package defines
      none of its own. */
  type EncoderOption = EncoderOptions -> EncoderOptions

  /** Applies the options to the options in order. */
  function ApplyEncoderOptions(o: EncoderOptions, opts: seq<EncoderOption>): EncoderOptions
    decreases |opts|
  {
    if |opts| == 0 then o else ApplyEncoderOptions(opts[0](o), opts[1..])
  }

  /** `defaultEncoderOptions`: the defaults with the options applied in order;
      with no option, the defaults themselves. */
  function DefaultEncoderOptions(opts: seq<EncoderOption>): (r: EncoderOptions)
    ensures |opts| == 0 ==> r == EncoderDefaults
    ensures |opts| > 0 ==> r == opts[|opts| - 1](DefaultEncoderOptions(opts[..|opts| - 1]))
  {
    if |opts| > 0 then
      var init := opts[..|opts| - 1];
      assert opts == init + [opts[|opts| - 1]];
      ApplyEncoderOptionsAppend(EncoderDefaults, init, [opts[|opts| - 1]]);
      ApplyEncoderOptions(EncoderDefaults, opts)
    else
      ApplyEncoderOptions(EncoderDefaults, opts)
  }

  /** Options apply left to right: a list split in two applies its first
      part, then its second, so a later option sees (and may overwrite) what
      an earlier one set. */
  lemma {:induction false} ApplyEncoderOptionsAppend(o: EncoderOptions, a: seq<EncoderOption>, b: seq<EncoderOption>)
    ensures ApplyEncoderOptions(o, a + b) == ApplyEncoderOptions(ApplyEncoderOptions(o, a), b)
    decreases |a|
  {
    if |a| == 0 {
      assert a + b == b;
    } else {
      assert (a + b)[0] == a[0];
      assert (a + b)[1..] == a[1..] + b;
      ApplyEncoderOptionsAppend(a[0](o), a[1..], b);
    }
  }

  /** The attribute map, a nil map reading as empty. */
  function Attrs(s: SpanData): map<string, AttrValue> {
    match s.attributes
    case None => map[]
    case Some(m) => m
  }

  /** Whether `key` holds a non-empty string attribute. */
  predicate HasUserId(s: SpanData, key: string) {
    key in Attrs(s) && Attrs(s)[key].StringAttr? && Attrs(s)[key].s != ""
  }

  /** `getUserID`: the non-empty string under "user_id", else the non-empty
      string under "userID", else "". Values of other types are ignored. */
  function GetUserId(s: SpanData): (r: string)
    ensures r == "" <==> !HasUserId(s, "user_id") && !HasUserId(s, "userID")
    ensures r != "" ==> exists key | key in Attrs(s) :: Attrs(s)[key] == StringAttr(r) && key in ["user_id", "userID"]
    ensures HasUserId(s, "user_id") ==> Attrs(s)["user_id"] == StringAttr(r)
    ensures !HasUserId(s, "user_id") && HasUserId(s, "userID") ==> Attrs(s)["userID"] == StringAttr(r)
  {
    if HasUserId(s, "user_id") then Attrs(s)["user_id"].s
    else if HasUserId(s, "userID") then Attrs(s)["userID"].s
    else ""
  }

  /** `data.Event`, restricted to what the encoder sets from the span. */
  datatype Event = Event(eventType: string, appVersion: string, userId: string, properties: map<string, AttrValue>)

  /** The first annotation's message, or "" when there is none. */
  function Message(s: SpanData): (r: string)
    ensures |s.annotations| == 0 ==> r == ""
    ensures |s.annotations| > 0 ==> r == s.annotations[0]
  {
    if |s.annotations| > 0 then s.annotations[0] else ""
  }

  /** The four keys the encoder always writes into the event properties. */
  const ReservedKeys: set<string> := {"service", "eventName", "message", "status"}

  /** The function built by `DefaultSpanEncoder` with options `o`: no event
      for a span with nil attributes; otherwise an event whose properties are
      the span's attributes with the four reserved keys overwritten by the
      application name, span name, first message and status message, and
      whose user id, event type and version come from the span and options. */
  function EncodeSpan(o: EncoderOptions, s: SpanData): (r: Option<Event>)
    ensures r.None? <==> s.attributes.None?
    ensures r.Some? ==> r.value.userId == GetUserId(s) && r.value.eventType == o.eventType && r.value.appVersion == o.version
    ensures r.Some? ==> r.value.properties.Keys == Attrs(s).Keys + ReservedKeys
    ensures r.Some? ==> forall k | k in Attrs(s) && k !in ReservedKeys :: r.value.properties[k] == Attrs(s)[k]
    ensures r.Some? ==>
      && r.value.properties["service"] == StringAttr(o.app)
      && r.value.properties["eventName"] == StringAttr(s.name)
      && r.value.properties["message"] == StringAttr(Message(s))
      && r.value.properties["status"] == StringAttr(s.statusMessage)
  {
    match s.attributes
    case None => None
    case Some(attrs) =>
      var properties := attrs["service" := StringAttr(o.app)]["eventName" := StringAttr(s.name)]
                             ["message" := StringAttr(Message(s))]["status" := StringAttr(s.statusMessage)];
      Some(Event(o.eventType, o.version, GetUserId(s), properties))
  }

  /** `DefaultSpanEncoder(opts...)`: the encoder for the options folded over
      the defaults. */
  function DefaultSpanEncoder(opts: seq<EncoderOption>): (r: SpanData -> Option<Event>)
    ensures forall s :: r(s) == EncodeSpan(DefaultEncoderOptions(opts), s)
  {
    s => EncodeSpan(DefaultEncoderOptions(opts), s)
  }

  /** A span's own attributes under the reserved keys never reach the
      event: whatever the span holds there, the event is the same. */
  lemma ReservedKeysWin(o: EncoderOptions, s: SpanData, k: string, v: AttrValue)
    requires s.attributes.Some? && k in ReservedKeys
    ensures EncodeSpan(o, s.(attributes := Some(s.attributes.value[k := v]))) == EncodeSpan(o, s)
  {
    var s' := s.(attributes := Some(s.attributes.value[k := v]));
    assert Attrs(s') == Attrs(s)[k := v];
    assert HasUserId(s', "user_id") == HasUserId(s, "user_id");
    assert HasUserId(s', "userID") == HasUserId(s, "userID");
    assert GetUserId(s') == GetUserId(s);
    var p := EncodeSpan(o, s).value.properties;
    var p' := EncodeSpan(o, s').value.properties;
    assert p.Keys == p'.Keys;
    forall key | key in p
      ensures p[key] == p'[key]
    {
      if key !in ReservedKeys {
        assert key != k;
      }
    }
    assert p == p';
  }
}
