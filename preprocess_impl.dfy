// The inference server's video preprocessing back ends
// (infer_server/src/contrib/preprocess_impl.h): the CNCV descriptor
// tables (depth sizes, pixel formats, strides), the mean/std parameter
// normalisation, the per-batch format checks and the choice between
// resize-convert, mean-std or both.
module CncvPreprocess {
  import opened Common
  import opened DataTypes

  /** The video frame pixel formats, numbered as the enum declares them. */
  datatype PixelFmt = I420 | NV12 | NV21 | RGB24 | BGR24 | RGBA | BGRA | ARGB | ABGR

  function FmtCode(f: PixelFmt): (c: nat)
    ensures c <= 8
  {
    match f
    case I420 => 0 case NV12 => 1 case NV21 => 2
    case RGB24 => 3 case BGR24 => 4 case RGBA => 5
    case BGRA => 6 case ARGB => 7 case ABGR => 8
  }

  /** Distinct formats have distinct numbers. */
  lemma FmtCodeInjective(f: PixelFmt, g: PixelFmt)
    ensures FmtCode(f) == FmtCode(g) ==> f == g
  {
  }

  /** The library's element depths. */
  datatype Depth = D8U | D8S | D16U | D16S | D16F | D32U | D32S | D32F | DInvalid

  /** The library's pixel formats. */
  datatype CncvPixFmt = CI420 | CNV12 | CNV21 | CBGR | CRGB | CBGRA | CRGBA | CABGR | CARGB | CInvalid

  /** GetCncvDepthSize: bytes per element, 0 for an unsupported depth. */
  function GetCncvDepthSize(d: Depth): (n: nat)
    ensures n in {0, 1, 2, 4}
    ensures n == 0 <==> d == DInvalid
    ensures n == 1 <==> d in {D8U, D8S}
    ensures n == 4 <==> d in {D32U, D32S, D32F}
  {
    match d
    case D8U => 1 case D8S => 1
    case D16U => 2 case D16S => 2 case D16F => 2
    case D32U => 4 case D32S => 4 case D32F => 4
    case DInvalid => 0
  }

  /** GetCncvDepth: the depth of a tensor element type. */
  function GetCncvDepth(t: DataType): (d: Depth)
    ensures d == DInvalid <==> t == INVALID
  {
    match t
    case UINT8 => D8U
    case FLOAT32 => D32F
    case FLOAT16 => D16F
    case INT16 => D16S
    case INT32 => D32S
    case INVALID => DInvalid
  }

  /** The depth chosen for a model's input type has exactly the element
      size the type has. */
  lemma DepthSizeMatchesTypeSize(t: DataType)
    ensures GetCncvDepthSize(GetCncvDepth(t)) == GetTypeSize(t)
  {
  }

  /** GetCncvPixFmt: every frame format has its own library format. */
  function GetCncvPixFmt(f: PixelFmt): (c: CncvPixFmt)
    ensures c != CInvalid
  {
    match f
    case I420 => CI420 case NV12 => CNV12 case NV21 => CNV21
    case BGR24 => CBGR case RGB24 => CRGB case BGRA => CBGRA
    case RGBA => CRGBA case ABGR => CABGR case ARGB => CARGB
  }

  /** Distinct frame formats map to distinct library formats. */
  lemma GetCncvPixFmtInjective(f: PixelFmt, g: PixelFmt)
    ensures GetCncvPixFmt(f) == GetCncvPixFmt(g) ==> f == g
  {
  }

  /** GetChannelNum: 3 for the packed RGB formats, 4 for the four-channel
      ones, 0 for YUV. */
  function GetChannelNum(f: PixelFmt): (n: nat)
    ensures n == 3 <==> f in {RGB24, BGR24}
    ensures n == 4 <==> f in {RGBA, BGRA, ARGB, ABGR}
    ensures n == 0 <==> f in {I420, NV12, NV21}
  {
    match f
    case RGB24 => 3 case BGR24 => 3
    case RGBA => 4 case BGRA => 4 case ARGB => 4 case ABGR => 4
    case _ => 0
  }

  /** An image descriptor; stride0..stride2 are the first three entries of
      its stride array (uint32_t, like the width). */
  datatype Descriptor = Descriptor(
    pixelFmt: CncvPixFmt,
    width: nat,
    height: nat,
    depth: Depth,
    stride0: nat,
    stride1: nat,
    stride2: nat)

  /** SetStride: the row pitch of each plane in bytes, in 32-bit unsigned
      arithmetic: I420 has a full-width luma row and two half-width chroma
      rows, NV12/NV21 two full-width rows, the packed formats 3 or 4
      elements per pixel. Other formats leave the strides as they were. */
  function SetStride(desc: Descriptor): (r: Descriptor)
    ensures r.(stride0 := desc.stride0, stride1 := desc.stride1, stride2 := desc.stride2) == desc
    ensures var row := U32(GetCncvDepthSize(desc.depth) * desc.width);
      match desc.pixelFmt
      case CI420 => r.stride0 == row && r.stride1 == row / 2 && r.stride2 == row / 2
      case CNV12 => r.stride0 == row && r.stride1 == row && r.stride2 == desc.stride2
      case CNV21 => r.stride0 == row && r.stride1 == row && r.stride2 == desc.stride2
      case CBGR => r.stride0 == U32(row * 3) && r.stride1 == desc.stride1 && r.stride2 == desc.stride2
      case CRGB => r.stride0 == U32(row * 3) && r.stride1 == desc.stride1 && r.stride2 == desc.stride2
      case CInvalid => r == desc
      case _ => r.stride0 == U32(row * 4) && r.stride1 == desc.stride1 && r.stride2 == desc.stride2
  {
    var row := U32(GetCncvDepthSize(desc.depth) * desc.width);
    match desc.pixelFmt
    case CI420 => desc.(stride0 := row, stride1 := row / 2, stride2 := row / 2)
    case CNV12 => desc.(stride0 := row, stride1 := row)
    case CNV21 => desc.(stride0 := row, stride1 := row)
    case CBGR => desc.(stride0 := U32(row * 3))
    case CRGB => desc.(stride0 := U32(row * 3))
    case CBGRA => desc.(stride0 := U32(row * 4))
    case CRGBA => desc.(stride0 := U32(row * 4))
    case CABGR => desc.(stride0 := U32(row * 4))
    case CARGB => desc.(stride0 := U32(row * 4))
    case CInvalid => desc
  }

  /** For a packed format whose row fits in 32 bits, the stride is the
      width times the bytes of one pixel: the element size times the
      format's channel count. */
  lemma PackedStrideIsPixelBytes(f: PixelFmt, desc: Descriptor)
    requires GetChannelNum(f) != 0 && desc.pixelFmt == GetCncvPixFmt(f)
    requires GetCncvDepthSize(desc.depth) * desc.width * 4 < U32_MOD
    ensures SetStride(desc).stride0 == GetCncvDepthSize(desc.depth) * desc.width * GetChannelNum(f)
  {
  }

  /** Recomputing the strides changes nothing. */
  lemma SetStrideIdempotent(desc: Descriptor)
    ensures SetStride(SetStride(desc)) == SetStride(desc)
  {
  }

  /** The mean and std list lengths after PreprocessCNCV's constructor:
      with `normalize` an empty list is filled with one entry per channel;
      then a missing mean or std is filled to the channel count when the
      other one is present. */
  function NormalizedLengths(normalize: bool, meanLen: nat, stdLen: nat, channels: nat): (r: (nat, nat))
    ensures r.0 == meanLen || (meanLen == 0 && r.0 == channels)
    ensures r.1 == stdLen || (stdLen == 0 && r.1 == channels)
    ensures normalize && channels > 0 ==> r.0 > 0 && r.1 > 0
    ensures (r.0 > 0) == (r.1 > 0) || channels == 0
  {
    var m := if normalize && meanLen == 0 then channels else meanLen;
    var s := if normalize && stdLen == 0 then channels else stdLen;
    var m' := if m == 0 && s != 0 then channels else m;
    var s' := if m != 0 && s == 0 then channels else s;
    (m', s')
  }

  /** Whether the constructor builds a mean-std stage: both lists are
      non-empty after normalisation. */
  function HasMeanStd(normalize: bool, meanLen: nat, stdLen: nat, channels: nat): (b: bool)
    ensures b <==> (meanLen > 0 && stdLen > 0) || (channels > 0 && (normalize || meanLen > 0 || stdLen > 0))
  {
    var (m, s) := NormalizedLengths(normalize, meanLen, stdLen, channels);
    m > 0 && s > 0
  }

  /** CncvMeanStd::CheckParam: both lists cover every channel of the
      destination format. */
  predicate CheckParam(fmt: PixelFmt, meanLen: nat, stdLen: nat)
  {
    meanLen >= GetChannelNum(fmt) && stdLen >= GetChannelNum(fmt)
  }

  /** Init's parameter check of the mean-std stage fails only when the
      user supplied a non-empty list shorter than the channel count: lists
      the constructor filled in always pass. */
  lemma CheckParamFailsOnlyOnShortUserList(normalize: bool, meanLen: nat, stdLen: nat, fmt: PixelFmt)
    requires HasMeanStd(normalize, meanLen, stdLen, GetChannelNum(fmt))
    ensures var (m, s) := NormalizedLengths(normalize, meanLen, stdLen, GetChannelNum(fmt));
      !CheckParam(fmt, m, s) <==>
        (0 < meanLen < GetChannelNum(fmt)) || (0 < stdLen < GetChannelNum(fmt))
  {
  }

  /** CncvMeanStd::Execute's per-frame test: the frame's numeric format is
      in 3..8. */
  predicate MeanStdAccepts(f: PixelFmt)
  {
    !(FmtCode(f) < 3 || FmtCode(f) > 8)
  }

  /** The numeric range test accepts exactly the formats that have a
      channel count. */
  lemma MeanStdAcceptsPackedFormats(f: PixelFmt)
    ensures MeanStdAccepts(f) <==> GetChannelNum(f) != 0
  {
  }

  /** A frame as the back ends read it. */
  datatype Frame = Frame(format: PixelFmt, width: nat, height: nat, stride0: nat, stride1: nat, stride2: nat)

  /** A batch's output pointers: entry i starts where entry i-1 ends,
      `block` bytes later. */
  predicate RunningOffsets(offsets: seq<nat>, n: nat, block: nat)
  {
    |offsets| == n && (n > 0 ==> offsets[0] == 0) &&
    forall i :: 0 <= i < n - 1 ==> offsets[i + 1] == offsets[i] + block
  }

  /** The source descriptor of a frame: 8-bit elements, the frame's own
      strides when it has them (stride0 > 1), computed ones otherwise. */
  function SourceDescriptor(frame: Frame): (d: Descriptor)
    ensures d.pixelFmt == GetCncvPixFmt(frame.format) && d.width == frame.width && d.height == frame.height
    ensures frame.stride0 > 1 ==> (d.stride0, d.stride1, d.stride2) == (frame.stride0, frame.stride1, frame.stride2)
    ensures frame.stride0 <= 1 && frame.format in {NV12, NV21} ==> d.stride0 == U32(frame.width) && d.stride1 == U32(frame.width)
  {
    var base := Descriptor(GetCncvPixFmt(frame.format), frame.width, frame.height, D8U,
                           frame.stride0, frame.stride1, frame.stride2);
    if frame.stride0 > 1 then base else SetStride(base)
  }

  /** CncvResizeConvert::Execute's set-up loop: every frame must be NV12
      or NV21; each gets a source descriptor and an output pointer one
      destination image further on. */
  method ResizeConvertSetup(frames: seq<Frame>, dst: Descriptor) returns (ok: bool, srcDescs: seq<Descriptor>, offsets: seq<nat>)
    ensures ok <==> forall i :: 0 <= i < |frames| ==> frames[i].format in {NV12, NV21}
    ensures ok ==> RunningOffsets(offsets, |frames|, dst.stride0 * dst.height)
    ensures ok ==> |srcDescs| == |frames| && forall i :: 0 <= i < |frames| ==> srcDescs[i] == SourceDescriptor(frames[i])
  {
    srcDescs := [];
    offsets := [];
    var offset := 0;
    var i := 0;
    while i < |frames|
      invariant 0 <= i <= |frames|
      invariant forall j :: 0 <= j < i ==> frames[j].format in {NV12, NV21}
      invariant RunningOffsets(offsets, i, dst.stride0 * dst.height)
      invariant i > 0 ==> offset == offsets[i - 1] + dst.stride0 * dst.height
      invariant i == 0 ==> offset == 0
      invariant |srcDescs| == i && forall j :: 0 <= j < i ==> srcDescs[j] == SourceDescriptor(frames[j])
    {
      if frames[i].format != NV12 && frames[i].format != NV21 {
        return false, srcDescs, offsets;
      }
      offsets := offsets + [offset];
      offset := offset + dst.stride0 * dst.height;
      srcDescs := srcDescs + [SourceDescriptor(frames[i])];
      i := i + 1;
    }
    ok := true;
  }

  /** CncvMeanStd::Execute's set-up loop over a package: every frame must
      pass the format range test; output pointers advance by one
      destination image. */
  method MeanStdSetup(formats: seq<PixelFmt>, dst: Descriptor) returns (ok: bool, offsets: seq<nat>)
    ensures ok <==> forall i :: 0 <= i < |formats| ==> GetChannelNum(formats[i]) != 0
    ensures ok ==> RunningOffsets(offsets, |formats|, dst.stride0 * dst.height)
  {
    offsets := [];
    var offset := 0;
    var i := 0;
    while i < |formats|
      invariant 0 <= i <= |formats|
      invariant forall j :: 0 <= j < i ==> GetChannelNum(formats[j]) != 0
      invariant RunningOffsets(offsets, i, dst.stride0 * dst.height)
      invariant i > 0 ==> offset == offsets[i - 1] + dst.stride0 * dst.height
      invariant i == 0 ==> offset == 0
    {
      MeanStdAcceptsPackedFormats(formats[i]);
      if FmtCode(formats[i]) < 3 || FmtCode(formats[i]) > 8 {
        return false, offsets;
      }
      offsets := offsets + [offset];
      offset := offset + dst.stride0 * dst.height;
      i := i + 1;
    }
    ok := true;
  }

  /** A device buffer that is only ever grown: the workspace and the
      intermediate cache of the CNCV back ends. */
  class Scratch {
    var owned: bool
    var size: nat

    constructor ()
      ensures !owned && size == 0
    {
      owned := false;
      size := 0;
    }

    /** Reallocates when nothing is held yet or the held buffer is smaller
        than `required`; a larger buffer is kept. */
    method Reserve(required: nat)
      modifies this
      ensures owned && size >= required
      ensures old(owned) && old(size) >= required ==> size == old(size)
      ensures !(old(owned) && old(size) >= required) ==> size == required
    {
      if !owned || size < required {
        size := required;
        owned := true;
      }
    }
  }

  /** Which stages PreprocessCNCV::Execute runs. */
  datatype Route = ResizeThenMeanStd | ResizeOnly | MeanStdOnly | Unsupported

  /** The route: resizing is needed unless the first frame already has the
      model's format and size; with neither a resize nor a mean-std stage
      there is nothing to do, which is an error. */
  function ChooseRoute(first: Frame, dstFmt: PixelFmt, width: nat, height: nat, hasMeanStd: bool): (r: Route)
    ensures var resize := !(first.format == dstFmt && first.width == width && first.height == height);
      (r == ResizeThenMeanStd <==> resize && hasMeanStd) &&
      (r == ResizeOnly <==> resize && !hasMeanStd) &&
      (r == MeanStdOnly <==> !resize && hasMeanStd) &&
      (r == Unsupported <==> !resize && !hasMeanStd)
  {
    var resize := !(first.format == dstFmt && first.width == width && first.height == height);
    if resize && hasMeanStd then ResizeThenMeanStd
    else if resize then ResizeOnly
    else if hasMeanStd then MeanStdOnly
    else Unsupported
  }

  /** PreprocessCNCV: a resize-convert stage and an optional mean-std
      stage sharing one queue. */
  class PreprocessCNCV {
    const dstFmt: PixelFmt
    /** The model input's height, width and channels (NHWC). */
    const height: nat
    const width: nat
    const channels: nat
    const hasMeanStd: bool
    /** The intermediate buffer between the two stages. */
    const cache: Scratch

    constructor (dstFmt: PixelFmt, height: nat, width: nat, channels: nat,
                 normalize: bool, meanLen: nat, stdLen: nat)
      ensures this.dstFmt == dstFmt && this.height == height && this.width == width && this.channels == channels
      ensures hasMeanStd == HasMeanStd(normalize, meanLen, stdLen, GetChannelNum(dstFmt))
      ensures fresh(cache) && !cache.owned
    {
      this.dstFmt := dstFmt;
      this.height := height;
      this.width := width;
      this.channels := channels;
      hasMeanStd := HasMeanStd(normalize, meanLen, stdLen, GetChannelNum(dstFmt));
      cache := new Scratch();
    }

    /** Execute: chooses the route from the first frame, runs the stages
        (the second only if the first succeeded), then synchronises the
        queue. `frames` are the package's frames; rcOk, msOk and syncOk are
        the library calls' outcomes. */
    method Execute(frames: seq<Frame>, rcOk: bool, msOk: bool, syncOk: bool) returns (ok: bool)
      requires |frames| > 0
      modifies cache
      ensures var route := ChooseRoute(frames[0], dstFmt, width, height, hasMeanStd);
        var nv := forall i :: 0 <= i < |frames| ==> frames[i].format in {NV12, NV21};
        var packed := forall i :: 0 <= i < |frames| ==> GetChannelNum(frames[i].format) != 0;
        ok <==> match route
          case ResizeThenMeanStd => nv && rcOk && msOk && syncOk
          case ResizeOnly => nv && rcOk && syncOk
          case MeanStdOnly => packed && msOk && syncOk
          case Unsupported => false
      ensures ChooseRoute(frames[0], dstFmt, width, height, hasMeanStd) == ResizeThenMeanStd ==>
        cache.owned && cache.size >= height * width * channels * |frames|
      ensures ChooseRoute(frames[0], dstFmt, width, height, hasMeanStd) != ResizeThenMeanStd ==>
        cache.owned == old(cache.owned) && cache.size == old(cache.size)
    {
      var route := ChooseRoute(frames[0], dstFmt, width, height, hasMeanStd);
      var dst := SetStride(Descriptor(GetCncvPixFmt(dstFmt), width, height, D8U, 0, 0, 0));
      var formats := seq(|frames|, i requires 0 <= i < |frames| => frames[i].format);
      assert forall i :: 0 <= i < |frames| ==> formats[i] == frames[i].format;
      var ret: bool;
      if route == ResizeThenMeanStd {
        cache.Reserve(height * width * channels * |frames|);
        var setupOk, _, _ := ResizeConvertSetup(frames, dst);
        ret := setupOk && rcOk && msOk;
      } else if route == ResizeOnly {
        var setupOk, _, _ := ResizeConvertSetup(frames, dst);
        ret := setupOk && rcOk;
      } else if route == MeanStdOnly {
        var setupOk, _ := MeanStdSetup(formats, dst);
        ret := setupOk && msOk;
      } else {
        return false;
      }
      if !syncOk {
        return false;
      }
      ok := ret;
    }
  }

  /** The resize-convert op's colour modes: a YUV source to one of the
      four-channel destinations. */
  predicate HasColorMode(src: PixelFmt, dst: PixelFmt)
  {
    src in {NV12, NV21} && dst in {RGBA, BGRA, ARGB, ABGR}
  }

  /** What one ResizeConvert::Execute call ends in; an unsupported colour
      mode is a fatal log, which ends the process. */
  datatype RcResult = RcOk | RcFailed | RcFatal

  /** ResizeConvert, the BANG resize-convert back end: it keeps the op it
      built and the source format it was built for. */
  class ResizeConvert {
    const dstFmt: PixelFmt
    var srcFmt: PixelFmt
    /** Whether an op object is held. */
    var hasOp: bool
    /** Whether the held op's Init succeeded. */
    var opReady: bool

    constructor (dstFmt: PixelFmt)
      ensures this.dstFmt == dstFmt && srcFmt == NV12 && !hasOp && !opReady
    {
      this.dstFmt := dstFmt;
      srcFmt := NV12;
      hasOp := false;
      opReady := false;
    }

    /** The batch's common format: the first frame's, or the stored one
        for an empty batch; None when two frames differ. */
    static method BatchFormat(formats: seq<PixelFmt>, stored: PixelFmt) returns (r: Option<PixelFmt>)
      ensures |formats| == 0 ==> r == Some(stored)
      ensures |formats| > 0 ==>
        (r.Some? <==> forall i :: 0 <= i < |formats| ==> formats[i] == formats[0]) &&
        (r.Some? ==> r.value == formats[0])
    {
      var fmt := stored;
      var i := 0;
      while i < |formats|
        invariant 0 <= i <= |formats|
        invariant i > 0 ==> fmt == formats[0] && forall j :: 0 <= j < i ==> formats[j] == formats[0]
        invariant i == 0 ==> fmt == stored
      {
        if i == 0 {
          fmt := formats[0];
        } else if fmt != formats[i] {
          return None;
        }
        i := i + 1;
      }
      return Some(fmt);
    }

    /** Execute as written: when the op is absent or the format changed, a
        new op replaces the old one and is initialised; if that fails the
        new op is kept anyway, so the next batch of the same format skips
        initialisation and runs on it. */
    method ExecuteAsWritten(formats: seq<PixelFmt>, initOk: bool) returns (r: RcResult)
      modifies this
      ensures var fmt := if |formats| == 0 then old(srcFmt) else formats[0];
        var mixed := exists i :: 0 <= i < |formats| && formats[i] != formats[0];
        var rebuild := !old(hasOp) || fmt != old(srcFmt);
        (mixed || fmt !in {NV12, NV21} ==> r == RcFailed && srcFmt == old(srcFmt) && hasOp == old(hasOp) && opReady == old(opReady)) &&
        (!mixed && fmt in {NV12, NV21} && !rebuild ==> r == RcOk && srcFmt == old(srcFmt) && hasOp && opReady == old(opReady)) &&
        (!mixed && fmt in {NV12, NV21} && rebuild ==>
          srcFmt == fmt && hasOp &&
          (!HasColorMode(fmt, dstFmt) ==> r == RcFatal) &&
          (HasColorMode(fmt, dstFmt) ==> r == (if initOk then RcOk else RcFailed) && opReady == initOk))
    {
      var common := BatchFormat(formats, srcFmt);
      if common.None? {
        return RcFailed;
      }
      var fmt := common.value;
      if fmt != NV12 && fmt != NV21 {
        return RcFailed;
      }
      if !hasOp || fmt != srcFmt {
        hasOp := true;
        opReady := false;
        srcFmt := fmt;
        if !HasColorMode(fmt, dstFmt) {
          return RcFatal;
        }
        if !initOk {
          return RcFailed;
        }
        opReady := true;
      }
      return RcOk;
    }

    /** Execute: as written, except that an op whose Init failed is
        dropped, so the next batch builds it again; a successful batch
        always runs on an initialised op. */
    method Execute(formats: seq<PixelFmt>, initOk: bool) returns (r: RcResult)
      requires hasOp ==> opReady
      modifies this
      ensures hasOp ==> opReady
      ensures r == RcOk ==> hasOp && opReady
      ensures var fmt := if |formats| == 0 then old(srcFmt) else formats[0];
        var mixed := exists i :: 0 <= i < |formats| && formats[i] != formats[0];
        var rebuild := !old(hasOp) || fmt != old(srcFmt);
        (mixed || fmt !in {NV12, NV21} ==> r == RcFailed && srcFmt == old(srcFmt) && hasOp == old(hasOp)) &&
        (!mixed && fmt in {NV12, NV21} && !rebuild ==> r == RcOk && srcFmt == old(srcFmt) && hasOp) &&
        (!mixed && fmt in {NV12, NV21} && rebuild ==>
          srcFmt == fmt &&
          (!HasColorMode(fmt, dstFmt) ==> r == RcFatal) &&
          (HasColorMode(fmt, dstFmt) ==> r == (if initOk then RcOk else RcFailed) && hasOp == initOk))
    {
      var common := BatchFormat(formats, srcFmt);
      if common.None? {
        return RcFailed;
      }
      var fmt := common.value;
      if fmt != NV12 && fmt != NV21 {
        return RcFailed;
      }
      if !hasOp || fmt != srcFmt {
        hasOp := false;
        opReady := false;
        srcFmt := fmt;
        if !HasColorMode(fmt, dstFmt) {
          return RcFatal;
        }
        if !initOk {
          return RcFailed;
        }
        hasOp := true;
        opReady := true;
      }
      return RcOk;
    }
  }

  /** Two NV12 batches whose first op Init fails: as written the second
      batch succeeds on the op that was never initialised; corrected, the
      second batch initialises the op again. */
  method FailedInitIsSkipped() returns (asWritten: RcResult, asWrittenReady: bool, corrected: RcResult, correctedReady: bool)
    ensures asWritten == RcOk && !asWrittenReady
    ensures corrected == RcOk && correctedReady
  {
    var written := new ResizeConvert(RGBA);
    var first := written.ExecuteAsWritten([NV12], false);
    assert first == RcFailed;
    asWritten := written.ExecuteAsWritten([NV12], true);
    asWrittenReady := written.opReady;
    var fixed := new ResizeConvert(RGBA);
    var again := fixed.Execute([NV12], false);
    corrected := fixed.Execute([NV12], true);
    correctedReady := fixed.opReady;
  }
}
