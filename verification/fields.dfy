/** Structured log fields (zap's `zapcore.Field`), logging levels, and the
    attributes a trace span stores. */
module Fields {
  import opened Prelude

  /** zap's levels, least severe first. */
  datatype Level = Debug | Info | Warn | Error | DPanic | Panic | Fatal

  /** The levels the Logger interface has a method for. */
  type MethodLevel = l: Level | l != DPanic && l != Panic witness Info

  /** zap's lower-case level names. */
  function LevelName(l: Level): (r: string)
    ensures |r| > 0
  {
    match l
    case Debug => "debug"
    case Info => "info"
    case Warn => "warn"
    case Error => "error"
    case DPanic => "dpanic"
    case Panic => "panic"
    case Fatal => "fatal"
  }

  /** Distinct levels have distinct names. */
  lemma LevelNameInjective(a: Level, b: Level)
    requires LevelName(a) == LevelName(b)
    ensures a == b
  {
  }

  datatype IntKind = Int | Int8 | Int16 | Int32 | Int64 | Uint | Uint8 | Uint16 | Uint32 | Uint64

  /** An IEEE 754 binary64 number, given by its bit pattern (`math.Float64bits`). */
  datatype Float64 = Float64(bits: uint64)

  /** The payload of a field, one alternative per method of zap's
      `ObjectEncoder` that the field dispatches to when it is encoded. A
      float32 is held as the float64 it widens to (the widening is exact);
      durations and times hold the text their `String` method renders. An
      `IntValue` built by zap holds a value in the range of its kind
      (`InKindRange`); the datatype admits any integer, so a contract that
      speaks of every `IntValue` also covers values no Go field can hold. */
  datatype FieldValue =
    | BoolValue(b: bool)
    | IntValue(kind: IntKind, i: int)
    | Float64Value(f: Float64)
    | Float32Value(widened: Float64)
    | StringValue(s: string)
    | BinaryValue(bytes: seq<byte>)
    | ByteStringValue(bytes: seq<byte>)
    | DurationValue(nanos: int, text: string)
    | TimeValue(text: string)
    | UintptrValue(u: int)
    | ArrayValue
    | Complex128Value
    | Complex64Value
    | ObjectValue
    | ReflectedValue
    | NamespaceValue

  datatype Field = Field(key: string, value: FieldValue)

  /** Shorthands for zap's field constructors. */
  function String(key: string, s: string): Field { Field(key, StringValue(s)) }
  function Uint64Field(key: string, v: uint64): Field { Field(key, IntValue(Uint64, v as int)) }
  function Float64Field(key: string, f: Float64): Field { Field(key, Float64Value(f)) }

  /** The value of a span attribute (a trace SDK's typed attribute value). */
  datatype AttrValue = BoolAttr(b: bool) | Int64Attr(i: int) | Float64Attr(f: Float64) | StringAttr(s: string)

  datatype Attribute = Attribute(key: string, value: AttrValue)

  /** The kinds both adapters ignore. */
  predicate Unsupported(v: FieldValue) {
    v.UintptrValue? || v.ArrayValue? || v.Complex128Value? || v.Complex64Value?
    || v.ObjectValue? || v.ReflectedValue? || v.NamespaceValue?
  }

  /** Whether an adapter drops a field: an unsupported kind, or a string with
      an empty key or an empty value. */
  predicate Dropped(f: Field) {
    Unsupported(f.value) || (f.value.StringValue? && (f.key == "" || f.value.s == ""))
  }

  /** What an adapter must do with one field: nothing for a dropped field,
      exactly one attribute under the field's own key otherwise. */
  ghost predicate MapsOneToOne(add: Field -> seq<Attribute>) {
    forall f :: (Dropped(f) ==> add(f) == []) && (!Dropped(f) ==> |add(f)| == 1 && add(f)[0].key == f.key)
  }

  /** Feeding fields one by one to an encoder that appends to one attribute list. */
  function Encode(add: Field -> seq<Attribute>, fs: seq<Field>): seq<Attribute>
    decreases |fs|
  {
    if |fs| == 0 then [] else add(fs[0]) + Encode(add, fs[1..])
  }

  /** Encoding two field lists one after the other is encoding their concatenation. */
  lemma {:induction false} EncodeAppend(add: Field -> seq<Attribute>, a: seq<Field>, b: seq<Field>)
    ensures Encode(add, a + b) == Encode(add, a) + Encode(add, b)
    decreases |a|
  {
    if |a| == 0 {
      assert a + b == b;
    } else {
      assert (a + b)[0] == a[0];
      assert (a + b)[1..] == a[1..] + b;
      EncodeAppend(add, a[1..], b);
      assert Encode(add, a + b) == add(a[0]) + (Encode(add, a[1..]) + Encode(add, b));
    }
  }

  /** The fields an adapter keeps, in their order. */
  function Kept(fs: seq<Field>): (r: seq<Field>)
    ensures |r| <= |fs|
    ensures forall f | f in r :: f in fs && !Dropped(f)
  {
    if |fs| == 0 then []
    else if Dropped(fs[0]) then Kept(fs[1..])
    else [fs[0]] + Kept(fs[1..])
  }

  function FieldKeys(fs: seq<Field>): (r: seq<string>)
    ensures |r| == |fs|
  {
    seq(|fs|, i requires 0 <= i < |fs| => fs[i].key)
  }

  function AttributeKeys(attrs: seq<Attribute>): (r: seq<string>)
    ensures |r| == |attrs|
  {
    seq(|attrs|, i requires 0 <= i < |attrs| => attrs[i].key)
  }

  /** An adapter that maps fields one to one drops exactly the dropped fields
      and keeps the others' keys in their order. */
  lemma {:induction false} EncodeKeepsOrder(add: Field -> seq<Attribute>, fs: seq<Field>)
    requires MapsOneToOne(add)
    ensures AttributeKeys(Encode(add, fs)) == FieldKeys(Kept(fs))
    ensures |Encode(add, fs)| == |Kept(fs)|
    decreases |fs|
  {
    if |fs| > 0 {
      EncodeKeepsOrder(add, fs[1..]);
      var rest := Encode(add, fs[1..]);
      if !Dropped(fs[0]) {
        assert AttributeKeys(add(fs[0]) + rest) == [fs[0].key] + AttributeKeys(rest);
        assert FieldKeys([fs[0]] + Kept(fs[1..])) == [fs[0].key] + FieldKeys(Kept(fs[1..]));
      } else {
        assert add(fs[0]) + rest == rest;
      }
    }
  }

  /** The attribute a span logger puts first on every mirrored call. */
  function LevelAttribute(name: string): Attribute {
    Attribute("level", StringAttr(name))
  }

  /** The values Go can hold in a variable of each integer kind (`int` and
      `uint` are 64 bits wide on the platforms the source targets). */
  predicate InKindRange(kind: IntKind, v: int) {
    match kind
    case Int8 => -0x80 <= v < 0x80
    case Int16 => -0x8000 <= v < 0x8000
    case Int32 => -0x8000_0000 <= v < 0x8000_0000
    case Int | Int64 => -TwoTo63 <= v < TwoTo63
    case Uint8 => 0 <= v < 0x100
    case Uint16 => 0 <= v < 0x1_0000
    case Uint32 => 0 <= v < 0x1_0000_0000
    case Uint | Uint64 => 0 <= v < TwoTo64
  }

  predicate Signed(kind: IntKind) {
    kind == Int || kind == Int8 || kind == Int16 || kind == Int32 || kind == Int64
  }

  /** `int64(v)` keeps every value of a signed kind and of the narrow unsigned
      kinds; only `uint` and `uint64` values at or above 2^63 change, and they
      wrap to the negative number 2^64 below them. */
  lemma WidenToInt64(kind: IntKind, v: int)
    requires InKindRange(kind, v)
    ensures Signed(kind) || kind in {Uint8, Uint16, Uint32} ==> Int64Of(v) == v
    ensures v < TwoTo63 ==> Int64Of(v) == v
    ensures v >= TwoTo63 ==> (kind == Uint || kind == Uint64) && Int64Of(v) == v - TwoTo64 < 0
  {
    if v < TwoTo63 {
      Int64OfInRange(v);
    } else {
      Int64OfWrapsHighUint64(v);
    }
  }
}
