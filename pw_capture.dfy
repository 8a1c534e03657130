/**
 * The PipeWire side of the capture (src/pw_capture.rs): the DRM-to-SPA
 * format table, the EnumFormat offers and the Buffers request the stream
 * sends, the reaction to a negotiated Format, and the per-process drain of
 * the buffer queue into plane records.
 */
module PwCapture {
  import opened Wrappers
  import opened Spa

  /** The format the stream currently believes it negotiated. */
  datatype PipewireFrameFormat = PipewireFrameFormat(width: u32, height: u32, format: u32, modifier: u64)
  {
    /** `modifier >> 32`: for an unsigned 64-bit value this is division by 2^32. */
    function ModifierHi(): (r: u32)
      ensures r * TWO_32 <= modifier < (r + 1) * TWO_32
    {
      modifier / TWO_32
    }

    /** `modifier & 0xFFFFFFFF`: the remainder of the same division. */
    function ModifierLo(): (r: u32)
      ensures ModifierHi() * TWO_32 + r == modifier
    {
      modifier % TWO_32
    }
  }

  /** The all-zero format the stream starts from and falls back to. */
  const ZERO_FORMAT := PipewireFrameFormat(0, 0, 0, 0)

  /** One plane handed to the frame callback. */
  datatype PipewireDmabufPlane = PipewireDmabufPlane(fd: i32, offset: u32, stride: i32)

  /** A (fourcc code, layout modifier) pair the caller can accept. */
  datatype DrmFormat = DrmFormat(code: u32, modifier: u64)

  /** A DRM fourcc: four characters packed little-endian into 32 bits. */
  function FourccCode(a: char, b: char, c: char, d: char): u32
    requires a < 256 as char && b < 256 as char && c < 256 as char && d < 256 as char
  {
    a as int + b as int * 0x100 + c as int * 0x1_0000 + d as int * 0x100_0000
  }

  const DRM_FORMAT_ARGB8888: u32 := FourccCode('A', 'R', '2', '4')
  const DRM_FORMAT_ABGR8888: u32 := FourccCode('A', 'B', '2', '4')
  const DRM_FORMAT_XRGB8888: u32 := FourccCode('X', 'R', '2', '4')
  const DRM_FORMAT_XBGR8888: u32 := FourccCode('X', 'B', '2', '4')

  /** The SPA video formats the table can produce. */
  const SupportedSpaFormats: set<u32> := {VIDEO_FORMAT_BGRA, VIDEO_FORMAT_RGBA, VIDEO_FORMAT_BGRx, VIDEO_FORMAT_RGBx}

  /**
   * DRM fourcc to SPA video format. DRM names the channels from the most
   * significant byte down, SPA in memory order, hence ARGB8888 -> BGRA.
   */
  function FourccToSpaVideoFormat(fourcc: u32): (r: Option<u32>)
    ensures r == Some(VIDEO_FORMAT_BGRA) <==> fourcc == DRM_FORMAT_ARGB8888
    ensures r == Some(VIDEO_FORMAT_RGBA) <==> fourcc == DRM_FORMAT_ABGR8888
    ensures r == Some(VIDEO_FORMAT_BGRx) <==> fourcc == DRM_FORMAT_XRGB8888
    ensures r == Some(VIDEO_FORMAT_RGBx) <==> fourcc == DRM_FORMAT_XBGR8888
    ensures r.Some? ==> r.value in SupportedSpaFormats
  {
    match fourcc
    case 0x34325241 => Some(VIDEO_FORMAT_BGRA)
    case 0x34324241 => Some(VIDEO_FORMAT_RGBA)
    case 0x34325258 => Some(VIDEO_FORMAT_BGRx)
    case 0x34324258 => Some(VIDEO_FORMAT_RGBx)
    case _ => None
  }

  /** Two codes the table maps to the same format are the same code. */
  lemma FourccToSpaVideoFormatInjective(a: u32, b: u32)
    requires FourccToSpaVideoFormat(a).Some?
    requires FourccToSpaVideoFormat(a) == FourccToSpaVideoFormat(b)
    ensures a == b
  {
  }

  /** The Buffers parameter asking the producer for DmaBuf memory. */
  function FormatDmabufParams(): (o: SpaObject)
    ensures o.objectType == TYPE_OBJECT_ParamBuffers && o.id == PARAM_Buffers
    ensures |o.properties| == 1
    ensures Lookup(o.properties, PARAM_BUFFERS_dataType) == Some(Property(PARAM_BUFFERS_dataType, PROPERTY_FLAGS_EMPTY, Id(DATA_DmaBuf)))
  {
    SpaObject(TYPE_OBJECT_ParamBuffers, PARAM_Buffers, [
      Property(PARAM_BUFFERS_dataType, PROPERTY_FLAGS_EMPTY, Id(DATA_DmaBuf))
    ])
  }

  /** The six keys of an offer, in the order they are written. */
  const OfferKeys: seq<u32> := [FORMAT_mediaType, FORMAT_mediaSubtype, FORMAT_VIDEO_format,
                               FORMAT_VIDEO_modifier, FORMAT_VIDEO_size, FORMAT_VIDEO_framerate]

  const DEFAULT_SIZE := Rectangle(256, 256)
  const MIN_SIZE := Rectangle(1, 1)
  const MAX_SIZE := Rectangle(8192, 8192)
  const MAX_FPS: u32 := 1000
  /** MANDATORY | DONT_FIXATE: the peer must honour the modifier, but may still choose it. */
  const MODIFIER_FLAGS: bv32 := PROPERTY_FLAG_MANDATORY | PROPERTY_FLAG_DONT_FIXATE

  /**
   * One EnumFormat offer: video/raw in `format`, the modifier as a mandatory
   * not-yet-fixated property, and size and framerate ranges. The modifier is
   * stored in an Id, a 32-bit value, so only its low half survives.
   */
  function FormatGetParams(format: u32, modifier: u64, fps: u32): (o: SpaObject)
    ensures o.objectType == TYPE_OBJECT_Format && o.id == PARAM_EnumFormat
    ensures Keys(o.properties) == OfferKeys
  {
    SpaObject(TYPE_OBJECT_Format, PARAM_EnumFormat, [
      Property(FORMAT_mediaType, PROPERTY_FLAGS_EMPTY, Id(MEDIA_TYPE_video)),
      Property(FORMAT_mediaSubtype, PROPERTY_FLAGS_EMPTY, Id(MEDIA_SUBTYPE_raw)),
      Property(FORMAT_VIDEO_format, PROPERTY_FLAGS_EMPTY, Id(format)),
      Property(FORMAT_VIDEO_modifier, PROPERTY_FLAG_MANDATORY | PROPERTY_FLAG_DONT_FIXATE, Id(modifier % TWO_32)),
      Property(FORMAT_VIDEO_size, PROPERTY_FLAGS_EMPTY,
               RectangleChoice(Choice(0, Range(Rectangle(256, 256), Rectangle(1, 1), Rectangle(8192, 8192))))),
      Property(FORMAT_VIDEO_framerate, PROPERTY_FLAGS_EMPTY,
               FractionChoice(Choice(0, Range(Fraction(fps, 1), Fraction(0, 1), Fraction(1000, 1)))))
    ])
  }

  /** What a reader of the offer finds under each of its six keys. */
  lemma OfferValues(format: u32, modifier: u64, fps: u32)
    ensures var o := FormatGetParams(format, modifier, fps);
            && ValueOf(o, FORMAT_mediaType) == Some(Id(MEDIA_TYPE_video))
            && ValueOf(o, FORMAT_mediaSubtype) == Some(Id(MEDIA_SUBTYPE_raw))
            && ValueOf(o, FORMAT_VIDEO_format) == Some(Id(format))
            && ValueOf(o, FORMAT_VIDEO_modifier) == Some(Id(PipewireFrameFormat(0, 0, 0, modifier).ModifierLo()))
            && ValueOf(o, FORMAT_VIDEO_size) == Some(RectangleChoice(Choice(0, Range(DEFAULT_SIZE, MIN_SIZE, MAX_SIZE))))
            && ValueOf(o, FORMAT_VIDEO_framerate) == Some(FractionChoice(Choice(0, Range(Fraction(fps, 1), Fraction(0, 1), Fraction(MAX_FPS, 1)))))
  {
    var props := FormatGetParams(format, modifier, fps).properties;
    assert DistinctKeys(props);
    LookupDistinct(props, 0);
    LookupDistinct(props, 1);
    LookupDistinct(props, 2);
    LookupDistinct(props, 3);
    LookupDistinct(props, 4);
    LookupDistinct(props, 5);
  }

  /** Only the modifier property carries flags, and they are MANDATORY | DONT_FIXATE. */
  lemma OfferFlags(format: u32, modifier: u64, fps: u32)
    ensures var props := FormatGetParams(format, modifier, fps).properties;
            forall i :: 0 <= i < |props| ==>
              props[i].flags == if props[i].key == FORMAT_VIDEO_modifier then MODIFIER_FLAGS else PROPERTY_FLAGS_EMPTY
  {
  }

  /** Every range in the offer has min <= default <= max exactly when the requested rate is at most 1000. */
  lemma OfferRangesOrdered(format: u32, modifier: u64, fps: u32)
    ensures var props := FormatGetParams(format, modifier, fps).properties;
            (forall i :: 0 <= i < |props| ==> RangeOrdered(props[i].value)) <==> fps <= MAX_FPS
  {
    var props := FormatGetParams(format, modifier, fps).properties;
    assert RangeOrdered(props[4].value);
    assert RangeOrdered(props[5].value) <==> fps <= MAX_FPS;
  }

  /** Two offers for the same format and rate agree exactly when the modifiers agree in their low 32 bits. */
  lemma OfferKeepsOnlyLowModifierBits(format: u32, m1: u64, m2: u64, fps: u32)
    ensures FormatGetParams(format, m1, fps) == FormatGetParams(format, m2, fps) <==> m1 % TWO_32 == m2 % TWO_32
  {
  }

  /** The offer for one candidate, if the table can express its code. */
  function CandidateOffer(f: DrmFormat, fps: u32): (r: Option<SpaObject>)
    ensures r.Some? <==> FourccToSpaVideoFormat(f.code).Some?
    ensures r.Some? ==> r.value == FormatGetParams(FourccToSpaVideoFormat(f.code).value, f.modifier, fps)
  {
    match FourccToSpaVideoFormat(f.code)
    case None => None
    case Some(spa) => Some(FormatGetParams(spa, f.modifier, fps))
  }

  /** The `filter_map` over the caller's candidates: one offer per expressible candidate, in order. */
  function FormatParams(formats: seq<DrmFormat>, fps: u32): (r: seq<SpaObject>)
    ensures |r| <= |formats|
    ensures forall o <- r :: exists f <- formats :: CandidateOffer(f, fps) == Some(o)
    ensures forall f <- formats :: CandidateOffer(f, fps).Some? ==> CandidateOffer(f, fps).value in r
    ensures (exists f <- formats :: CandidateOffer(f, fps).Some?) ==> r != []
  {
    if formats == [] then []
    else
      var rest := FormatParams(formats[1..], fps);
      assert forall f <- formats[1..] :: f in formats;
      match CandidateOffer(formats[0], fps)
      case None => rest
      case Some(o) => [o] + rest
  }

  /** Every offer names one of the four supported SPA video formats. */
  lemma FormatParamsOfferSupportedFormats(formats: seq<DrmFormat>, fps: u32)
    ensures forall o <- FormatParams(formats, fps) ::
              exists spa <- SupportedSpaFormats :: ValueOf(o, FORMAT_VIDEO_format) == Some(Id(spa))
  {
    forall o <- FormatParams(formats, fps)
      ensures exists spa <- SupportedSpaFormats :: ValueOf(o, FORMAT_VIDEO_format) == Some(Id(spa))
    {
      var f :| f in formats && CandidateOffer(f, fps) == Some(o);
      var spa := FourccToSpaVideoFormat(f.code).value;
      OfferValues(spa, f.modifier, fps);
    }
  }

  /** Offering a concatenation is concatenating the offers: the input order is kept. */
  lemma {:induction false} FormatParamsAppend(a: seq<DrmFormat>, b: seq<DrmFormat>, fps: u32)
    ensures FormatParams(a + b, fps) == FormatParams(a, fps) + FormatParams(b, fps)
  {
    if a == [] {
      assert a + b == b;
    } else {
      assert (a + b)[1..] == a[1..] + b;
      FormatParamsAppend(a[1..], b, fps);
    }
  }

  /** A single candidate contributes its offer or nothing. */
  lemma FormatParamsSingle(f: DrmFormat, fps: u32)
    ensures FormatParams([f], fps) == match CandidateOffer(f, fps) case None => [] case Some(o) => [o]
  {
  }

  /** The memory chunk PipeWire describes for one data block. */
  datatype Chunk = Chunk(offset: u32, size: u32, stride: i32)
  datatype Data = Data(chunk: Chunk)
  datatype PwBuffer = PwBuffer(datas: seq<Data>)

  /** One invocation of the frame callback. */
  datatype FrameCall = FrameCall(format: PipewireFrameFormat, planes: seq<PipewireDmabufPlane>)

  /** The `map` from data blocks to planes; the fd is not read yet and stays 0. */
  function DmabufPlanes(datas: seq<Data>): (r: seq<PipewireDmabufPlane>)
    ensures |r| == |datas|
    ensures forall i :: 0 <= i < |datas| ==>
              r[i].fd == 0 && r[i].offset == datas[i].chunk.offset && r[i].stride == datas[i].chunk.stride
  {
    if datas == [] then []
    else [PipewireDmabufPlane(0, datas[0].chunk.offset, datas[0].chunk.stride)] + DmabufPlanes(datas[1..])
  }

  /**
   * The stream and the format its callbacks share: the buffers queued for
   * dequeueing, and every `update_params` call made so far.
   */
  class CaptureStream {
    var format: PipewireFrameFormat
    var queue: seq<PwBuffer>
    var paramUpdates: seq<seq<SpaObject>>

    constructor ()
      ensures format == ZERO_FORMAT && queue == [] && paramUpdates == []
    {
      format := ZERO_FORMAT;
      queue := [];
      paramUpdates := [];
    }

    /** Takes the oldest queued buffer, or reports that none is queued. */
    method DequeueBuffer() returns (b: Option<PwBuffer>)
      modifies this`queue
      ensures old(queue) == [] ==> b == None && queue == []
      ensures old(queue) != [] ==> b == Some(old(queue)[0]) && queue == old(queue)[1..]
    {
      if queue == [] {
        b := None;
      } else {
        b := Some(queue[0]);
        queue := queue[1..];
      }
    }

    /**
     * A parameter changed. Only a non-null Format parameter matters: the
     * format is reset (its parsing is not written yet) and DmaBuf buffers
     * are requested.
     */
    method ParamChanged(id: u32, param: Option<seq<bv8>>)
      modifies this`format, this`paramUpdates
      ensures param == None || id != PARAM_Format ==> format == old(format) && paramUpdates == old(paramUpdates)
      ensures param != None && id == PARAM_Format ==>
                format == ZERO_FORMAT && paramUpdates == old(paramUpdates) + [[FormatDmabufParams()]]
    {
      if param == None || id != PARAM_Format {
        return;
      }
      format := format.(width := 0);
      format := format.(height := 0);
      format := format.(format := 0);
      format := format.(modifier := 0);
      var params := FormatDmabufParams();
      paramUpdates := paramUpdates + [[params]];
    }

    /**
     * Drains the queue, keeping only the freshest buffer, and hands its
     * planes to the frame callback; nothing is called when the queue was empty.
     */
    method Process() returns (frame: Option<FrameCall>)
      modifies this`queue
      ensures queue == []
      ensures old(queue) == [] ==> frame == None
      ensures old(queue) != [] ==>
                frame == Some(FrameCall(format, DmabufPlanes(old(queue)[|old(queue)| - 1].datas)))
    {
      ghost var pending, taken := queue, 0;
      var maybeBuffer: Option<PwBuffer> := None;
      while true
        invariant taken <= |pending| && queue == pending[taken..]
        invariant maybeBuffer == if taken == 0 then None else Some(pending[taken - 1])
        decreases |queue|
      {
        var next := DequeueBuffer();
        if next == None {
          break;
        }
        maybeBuffer := next;
        taken := taken + 1;
      }
      frame := None;
      if maybeBuffer != None {
        var planes := DmabufPlanes(maybeBuffer.value.datas);
        frame := Some(FrameCall(format, planes));
      }
    }
  }

  /** Two buffers queued before one process call: only the newer reaches the frame callback. */
  method LatestBufferWins(older: PwBuffer, newer: PwBuffer) returns (frame: Option<FrameCall>)
    ensures frame == Some(FrameCall(ZERO_FORMAT, DmabufPlanes(newer.datas)))
  {
    var stream := new CaptureStream();
    stream.queue := [older, newer];
    frame := stream.Process();
  }
}
