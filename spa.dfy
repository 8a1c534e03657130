/**
 * The SPA parameter-object vocabulary PipeWire negotiates with, as a value
 * tree rather than as serialised bytes. The numeric ids are those of libspa's
 * headers (enum spa_type, spa_param_type, spa_format, spa_media_type,
 * spa_media_subtype, spa_param_buffers, spa_data_type, spa_video_format and
 * the SPA_POD_PROP_FLAG_* bits).
 */
module Spa {
  import opened Wrappers

  /** Rust's fixed-width integers. */
  type u32 = x: int | 0 <= x < 0x1_0000_0000
  type u64 = x: int | 0 <= x < 0x1_0000_0000_0000_0000
  type i32 = x: int | -0x8000_0000 <= x < 0x8000_0000

  const TWO_32: nat := 0x1_0000_0000

  // Object types
  const TYPE_OBJECT_Format: u32 := 0x40003
  const TYPE_OBJECT_ParamBuffers: u32 := 0x40004

  // Parameter ids
  const PARAM_EnumFormat: u32 := 3
  const PARAM_Format: u32 := 4
  const PARAM_Buffers: u32 := 5

  // Keys of a Format object
  const FORMAT_mediaType: u32 := 1
  const FORMAT_mediaSubtype: u32 := 2
  const FORMAT_VIDEO_format: u32 := 0x20001
  const FORMAT_VIDEO_modifier: u32 := 0x20002
  const FORMAT_VIDEO_size: u32 := 0x20003
  const FORMAT_VIDEO_framerate: u32 := 0x20004

  const MEDIA_TYPE_video: u32 := 2
  const MEDIA_SUBTYPE_raw: u32 := 1

  // Keys and values of a ParamBuffers object
  const PARAM_BUFFERS_dataType: u32 := 6
  const DATA_DmaBuf: u32 := 3

  // Video formats
  const VIDEO_FORMAT_RGBx: u32 := 7
  const VIDEO_FORMAT_BGRx: u32 := 8
  const VIDEO_FORMAT_RGBA: u32 := 11
  const VIDEO_FORMAT_BGRA: u32 := 12

  // PropertyFlags bits
  const PROPERTY_FLAGS_EMPTY: bv32 := 0
  const PROPERTY_FLAG_MANDATORY: bv32 := 0x8
  const PROPERTY_FLAG_DONT_FIXATE: bv32 := 0x10

  datatype Rectangle = Rectangle(width: u32, height: u32)
  datatype Fraction = Fraction(num: u32, denom: u32)

  /** The only kind of choice this program builds: a range with a default. */
  datatype ChoiceEnum<T> = Range(default: T, min: T, max: T)
  datatype Choice<T> = Choice(flags: u32, choice: ChoiceEnum<T>)

  /** A property value: an id, or a choice over rectangles or fractions. */
  datatype Value =
    | Id(id: u32)
    | RectangleChoice(rectangles: Choice<Rectangle>)
    | FractionChoice(fractions: Choice<Fraction>)

  datatype Property = Property(key: u32, flags: bv32, value: Value)

  /** An SPA object: its object type, its parameter id and its ordered properties. */
  datatype SpaObject = SpaObject(objectType: u32, id: u32, properties: seq<Property>)

  /** The first property with the given key, as a reader of the object finds it. */
  function Lookup(props: seq<Property>, key: u32): (r: Option<Property>)
    ensures r.Some? ==> r.value in props && r.value.key == key
    ensures r.None? <==> forall p <- props :: p.key != key
    ensures r.Some? ==> exists i :: 0 <= i < |props| && props[i] == r.value && forall j :: 0 <= j < i ==> props[j].key != key
  {
    if props == [] then None
    else if props[0].key == key then Some(props[0])
    else Lookup(props[1..], key)
  }

  /** No two properties share a key. */
  predicate DistinctKeys(props: seq<Property>)
  {
    forall i, j :: 0 <= i < j < |props| ==> props[i].key != props[j].key
  }

  /** With distinct keys, looking a property's key up finds that very property. */
  lemma LookupDistinct(props: seq<Property>, i: nat)
    requires DistinctKeys(props) && i < |props|
    ensures Lookup(props, props[i].key) == Some(props[i])
  {
  }

  /** The value stored under `key` in `o`, if any. */
  function ValueOf(o: SpaObject, key: u32): Option<Value>
  {
    match Lookup(o.properties, key)
    case None => None
    case Some(p) => Some(p.value)
  }

  /** The keys of a property list, in order. */
  function Keys(props: seq<Property>): (ks: seq<u32>)
    ensures |ks| == |props|
    ensures forall i :: 0 <= i < |props| ==> ks[i] == props[i].key
  {
    if props == [] then [] else [props[0].key] + Keys(props[1..])
  }

  predicate RectangleLe(a: Rectangle, b: Rectangle)
  {
    a.width <= b.width && a.height <= b.height
  }

  /** a <= b for fractions with positive denominators, by cross-multiplication. */
  predicate FractionLe(a: Fraction, b: Fraction)
  {
    a.num * b.denom <= b.num * a.denom
  }

  /** A range choice is well formed when min <= default <= max; ids are always well formed. */
  predicate RangeOrdered(v: Value)
  {
    match v
    case Id(_) => true
    case RectangleChoice(c) =>
      RectangleLe(c.choice.min, c.choice.default) && RectangleLe(c.choice.default, c.choice.max)
    case FractionChoice(c) =>
      FractionLe(c.choice.min, c.choice.default) && FractionLe(c.choice.default, c.choice.max)
  }
}
