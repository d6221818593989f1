// The CNCV transform back end (src/transform_cncv/cnedk_transform_cncv.cpp):
// format predicates and maps, the crop-rectangle rules, the per-batch
// descriptor set-up, the temporary layouts of the combined stages, and
// the dispatch that picks a stage from the source and destination formats.
module CncvTransform {
  import opened Common
  import opened SurfaceUtils
  import opened Surfaces

  /** The tensor colour formats, in declaration order. */
  const TCF_ARGB: int := 0
  const TCF_ABGR: int := 1
  const TCF_BGRA: int := 2
  const TCF_RGBA: int := 3
  const TCF_RGB: int := 4
  const TCF_BGR: int := 5
  const TCF_NUM: int := 6

  /** The tensor data types that matter here. */
  datatype TensorType = T_UINT8 | T_FLOAT32 | T_FLOAT16 | T_INT16 | T_INT32

  /** IsYuv420sp: the two semi-planar YUV formats. */
  predicate IsYuv420sp(fmt: int)
  {
    fmt == FMT_NV12 || fmt == FMT_NV21
  }

  /** IsRgbx: the six packed RGB formats. */
  predicate IsRgbx(fmt: int)
  {
    fmt == FMT_RGB || fmt == FMT_BGR || fmt == FMT_RGBA || fmt == FMT_BGRA || fmt == FMT_ABGR || fmt == FMT_ARGB
  }

  /** No format is both. */
  lemma YuvAndRgbxDisjoint(fmt: int)
    ensures !(IsYuv420sp(fmt) && IsRgbx(fmt))
  {
  }

  /** GetColorFormatFromTensor: the surface format of a tensor colour
      format, LAST for anything outside the table. */
  function GetColorFormatFromTensor(tcf: int): (r: int)
    ensures r == FMT_LAST <==> !(TCF_ARGB <= tcf < TCF_NUM)
    ensures r != FMT_LAST ==> IsRgbx(r)
  {
    if tcf == TCF_BGR then FMT_BGR
    else if tcf == TCF_RGB then FMT_RGB
    else if tcf == TCF_BGRA then FMT_BGRA
    else if tcf == TCF_RGBA then FMT_RGBA
    else if tcf == TCF_ABGR then FMT_ABGR
    else if tcf == TCF_ARGB then FMT_ARGB
    else FMT_LAST
  }

  /** The map is one-to-one on the table and reaches every packed RGB
      surface format. */
  lemma TensorFormatMapIsBijective(t1: int, t2: int, fmt: int)
    ensures TCF_ARGB <= t1 < TCF_NUM && TCF_ARGB <= t2 < TCF_NUM && GetColorFormatFromTensor(t1) == GetColorFormatFromTensor(t2)
      ==> t1 == t2
    ensures IsRgbx(fmt) ==> exists t :: TCF_ARGB <= t < TCF_NUM && GetColorFormatFromTensor(t) == fmt
  {
    if IsRgbx(fmt) {
      var t := if fmt == FMT_BGR then TCF_BGR else if fmt == FMT_RGB then TCF_RGB
               else if fmt == FMT_BGRA then TCF_BGRA else if fmt == FMT_RGBA then TCF_RGBA
               else if fmt == FMT_ABGR then TCF_ABGR else TCF_ARGB;
      assert GetColorFormatFromTensor(t) == fmt;
    }
  }

  /** GetChannelNumFromColor: 3 or 4 for the packed formats, -1 otherwise. */
  function GetChannelNumFromColor(fmt: int): (c: int)
    ensures c > 0 <==> IsRgbx(fmt)
    ensures c == 3 <==> fmt == FMT_RGB || fmt == FMT_BGR
    ensures c != 3 && c != 4 ==> c == -1
  {
    if fmt == FMT_RGB || fmt == FMT_BGR then 3
    else if fmt == FMT_BGRA || fmt == FMT_RGBA || fmt == FMT_ABGR || fmt == FMT_ARGB then 4
    else -1
  }

  /** CnedkTransformRect: unsigned 32-bit coordinates. */
  datatype Rect = Rect(top: nat, left: nat, width: nat, height: nat)

  /** The library's region of interest. */
  datatype Roi = Roi(x: nat, y: nat, w: nat, h: nat)

  /** One axis of a crop, as written: a start beyond the image becomes 0,
      and a zero extent means "to the end of the image" measured from the
      requested start, in uint32_t arithmetic. */
  function CropAxisAsWritten(start: nat, extent: nat, size: nat): (r: (nat, nat))
    ensures r.0 == (if start >= size then 0 else start)
    ensures extent > 0 ==> r.1 == extent
    ensures extent == 0 && start < size && size < U32_MOD ==> r.0 + r.1 == size
  {
    (if start >= size then 0 else start, if extent <= 0 then U32(size - start) else extent)
  }

  /** One axis of a crop: a start beyond the image becomes 0, and a zero
      extent covers the image from the start actually used. */
  function CropAxis(start: nat, extent: nat, size: nat): (r: (nat, nat))
    ensures r.0 == (if start >= size then 0 else start)
    ensures extent > 0 ==> r.1 == extent
    ensures extent == 0 ==> r.0 + r.1 == size || (size == 0 && r == (0, 0))
    ensures start < size ==> r == CropAxisAsWritten(start, extent, size) || size >= U32_MOD
  {
    var pos := if start >= size then 0 else start;
    (pos, if extent <= 0 then size - pos else extent)
  }

  /** With a start beyond the image and no extent, the as-written rule
      yields a width past the image (the subtraction wraps), while the
      corrected rule yields the whole image. */
  lemma CropPastEdgeWraps()
    ensures CropAxisAsWritten(150, 0, 100) == (0, U32_MOD - 50)
    ensures CropAxisAsWritten(150, 0, 100).1 > 100
    ensures CropAxis(150, 0, 100) == (0, 100)
  {
  }

  /** The region of one image: the crop rectangle applied axis by axis
      when the crop flag is set, the whole image otherwise. */
  function CropRoi(crop: bool, rect: Rect, width: nat, height: nat): (roi: Roi)
    ensures !crop ==> roi == Roi(0, 0, width, height)
    ensures crop ==> (roi.x, roi.w) == CropAxis(rect.left, rect.width, width)
    ensures crop ==> (roi.y, roi.h) == CropAxis(rect.top, rect.height, height)
  {
    if !crop then Roi(0, 0, width, height)
    else
      var (x, w) := CropAxis(rect.left, rect.width, width);
      var (y, h) := CropAxis(rect.top, rect.height, height);
      Roi(x, y, w, h)
  }

  /** A crop with no extents never reaches past the image. */
  lemma DefaultCropInsideImage(rect: Rect, width: nat, height: nat)
    requires rect.width == 0 && rect.height == 0
    ensures var roi := CropRoi(true, rect, width, height);
      roi.x + roi.w == width && roi.y + roi.h == height
  {
  }

  /** The transform flags. */
  datatype Flags = Flags(cropSrc: bool, cropDst: bool, meanStd: bool)

  /** YuvResizeCncvCtx / Yuv2RgbxResizeCncvCtx set-up: each image of the
      batch gets its source and destination region, cropped as the flags
      say by its own rectangle. */
  method ResizeRois(src: seq<SurfaceItem>, dst: seq<SurfaceItem>, flags: Flags,
                    srcRects: seq<Rect>, dstRects: seq<Rect>) returns (srcRois: seq<Roi>, dstRois: seq<Roi>)
    requires |dst| >= |src|
    requires flags.cropSrc ==> |srcRects| >= |src|
    requires flags.cropDst ==> |dstRects| >= |src|
    ensures |srcRois| == |src| && |dstRois| == |src|
    ensures forall i :: 0 <= i < |src| ==>
      srcRois[i] == CropRoi(flags.cropSrc, if flags.cropSrc then srcRects[i] else Rect(0, 0, 0, 0), src[i].width, src[i].height)
    ensures forall i :: 0 <= i < |src| ==>
      dstRois[i] == CropRoi(flags.cropDst, if flags.cropDst then dstRects[i] else Rect(0, 0, 0, 0), dst[i].width, dst[i].height)
  {
    srcRois := [];
    dstRois := [];
    var i := 0;
    while i < |src|
      invariant 0 <= i <= |src|
      invariant |srcRois| == i && |dstRois| == i
      invariant forall j :: 0 <= j < i ==>
        srcRois[j] == CropRoi(flags.cropSrc, if flags.cropSrc then srcRects[j] else Rect(0, 0, 0, 0), src[j].width, src[j].height)
      invariant forall j :: 0 <= j < i ==>
        dstRois[j] == CropRoi(flags.cropDst, if flags.cropDst then dstRects[j] else Rect(0, 0, 0, 0), dst[j].width, dst[j].height)
    {
      var s: Roi;
      if flags.cropSrc {
        var (x, w) := CropAxis(srcRects[i].left, srcRects[i].width, src[i].width);
        var (y, h) := CropAxis(srcRects[i].top, srcRects[i].height, src[i].height);
        s := Roi(x, y, w, h);
      } else {
        s := Roi(0, 0, src[i].width, src[i].height);
      }
      var d: Roi;
      if flags.cropDst {
        var (x, w) := CropAxis(dstRects[i].left, dstRects[i].width, dst[i].width);
        var (y, h) := CropAxis(dstRects[i].top, dstRects[i].height, dst[i].height);
        d := Roi(x, y, w, h);
      } else {
        d := Roi(0, 0, dst[i].width, dst[i].height);
      }
      srcRois := srcRois + [s];
      dstRois := dstRois + [d];
      i := i + 1;
    }
  }

  /** One RGBx-to-YUV conversion: which source image's data is read, over
      which region, into which destination image. */
  datatype Job = Job(source: nat, roi: Roi, target: nat)

  /** RgbxToYuvCncvCtx::Process as written: each image's region comes from
      image i, but the data pointer is always the first image's. Converts
      one image at a time and stops at the first failing call (`okUpTo`
      says how many calls succeed). */
  method RgbxToYuvAsWritten(src: seq<SurfaceItem>, flags: Flags, srcRects: seq<Rect>, okUpTo: nat)
    returns (r: int, jobs: seq<Job>)
    requires flags.cropSrc ==> |srcRects| >= |src|
    ensures r == (if okUpTo >= |src| then 0 else -1)
    ensures |jobs| == Min(|src|, okUpTo + 1)
    ensures forall i :: 0 <= i < |jobs| ==> jobs[i].source == 0 && jobs[i].target == i
  {
    jobs := [];
    var i := 0;
    while i < |src|
      invariant 0 <= i <= |src| && i <= okUpTo
      invariant |jobs| == i
      invariant forall j :: 0 <= j < i ==> jobs[j].source == 0 && jobs[j].target == j
    {
      var roi := CropRoi(flags.cropSrc, if flags.cropSrc then srcRects[i] else Rect(0, 0, 0, 0), src[i].width, src[i].height);
      jobs := jobs + [Job(0, roi, i)];
      if i == okUpTo {
        return -1, jobs;
      }
      i := i + 1;
    }
    r := 0;
  }

  /** RgbxToYuvCncvCtx::Process: image i is converted from image i's data
      over image i's region into destination i, one call per image; the
      first failing call ends it. */
  method RgbxToYuv(src: seq<SurfaceItem>, flags: Flags, srcRects: seq<Rect>, okUpTo: nat)
    returns (r: int, jobs: seq<Job>)
    requires flags.cropSrc ==> |srcRects| >= |src|
    ensures r == (if okUpTo >= |src| then 0 else -1)
    ensures |jobs| == Min(|src|, okUpTo + 1)
    ensures forall i :: 0 <= i < |jobs| ==>
      jobs[i] == Job(i, CropRoi(flags.cropSrc, if flags.cropSrc then srcRects[i] else Rect(0, 0, 0, 0), src[i].width, src[i].height), i)
  {
    jobs := [];
    var i := 0;
    while i < |src|
      invariant 0 <= i <= |src| && i <= okUpTo
      invariant |jobs| == i
      invariant forall j :: 0 <= j < i ==>
        jobs[j] == Job(j, CropRoi(flags.cropSrc, if flags.cropSrc then srcRects[j] else Rect(0, 0, 0, 0), src[j].width, src[j].height), j)
    {
      var roi := CropRoi(flags.cropSrc, if flags.cropSrc then srcRects[i] else Rect(0, 0, 0, 0), src[i].width, src[i].height);
      jobs := jobs + [Job(i, roi, i)];
      if i == okUpTo {
        return -1, jobs;
      }
      i := i + 1;
    }
    r := 0;
  }

  /** A batch of two images: as written the second conversion reads the
      first image; corrected it reads the second. */
  method SecondImageReadsFirst(a: SurfaceItem, b: SurfaceItem) returns (asWritten: Job, corrected: Job)
    ensures asWritten.target == 1 && asWritten.source == 0
    ensures corrected.target == 1 && corrected.source == 1
  {
    var flags := Flags(false, false, false);
    var r1, jobs1 := RgbxToYuvAsWritten([a, b], flags, [], 2);
    asWritten := jobs1[1];
    var r2, jobs2 := RgbxToYuv([a, b], flags, [], 2);
    corrected := jobs2[1];
  }

  /** Byte sizes of images of `channels` 8-bit channels. */
  function ImageBytes(items: seq<SurfaceItem>, channels: nat): (s: seq<nat>)
    ensures |s| == |items| && forall i :: 0 <= i < |items| ==> s[i] == items[i].width * items[i].height * channels
  {
    seq(|items|, i requires 0 <= i < |items| => items[i].width * items[i].height * channels)
  }

  /** Yuv2RgbxResizeWithMeanStdCncv's temporary buffer: its size is the sum
      of the destination images' bytes, and image i starts after the bytes
      of the images before it. */
  method TempLayout(dst: seq<SurfaceItem>, channels: nat) returns (total: nat, offsets: seq<nat>)
    ensures total == Sum(ImageBytes(dst, channels))
    ensures |offsets| == |dst|
    ensures forall i :: 0 <= i < |dst| ==> offsets[i] == Sum(ImageBytes(dst, channels)[..i])
    ensures forall i :: 0 <= i < |dst| ==> offsets[i] + dst[i].width * dst[i].height * channels <= total
  {
    var sizes := ImageBytes(dst, channels);
    total := 0;
    var i := 0;
    while i < |dst|
      invariant 0 <= i <= |dst| && total == Sum(sizes[..i])
    {
      SumOfPrefixSnoc(sizes, i);
      total := total + dst[i].width * dst[i].height * channels;
      i := i + 1;
    }
    assert sizes[..|dst|] == sizes;
    offsets := [];
    var offset := 0;
    i := 0;
    while i < |dst|
      invariant 0 <= i <= |dst| && offset == Sum(sizes[..i]) && |offsets| == i
      invariant forall j :: 0 <= j < i ==> offsets[j] == Sum(sizes[..j])
    {
      SumOfPrefixSnoc(sizes, i);
      offsets := offsets + [offset];
      offset := offset + dst[i].width * dst[i].height * channels;
      i := i + 1;
    }
    forall i | 0 <= i < |dst|
      ensures offsets[i] + dst[i].width * dst[i].height * channels <= total
    {
      SumOfPrefixSnoc(sizes, i);
      SumPrefixMonotone(sizes, i + 1, |dst|);
    }
  }

  lemma {:induction false} SumPrefixMonotone(s: seq<nat>, i: nat, j: nat)
    requires i <= j <= |s|
    ensures Sum(s[..i]) <= Sum(s[..j])
    decreases j - i
  {
    if i < j {
      SumOfPrefixSnoc(s, j - 1);
      SumPrefixMonotone(s, i, j - 1);
    }
  }

  /** MeanStdCncvCtx::Process's checks and strides: the source must be a
      packed RGB format, the flag and the parameters must be set, and the
      destination must be FLOAT16 or FLOAT32; the source stride is
      width * channels, the destination's that times the element size. */
  function MeanStdStrides(srcFmt: int, srcWidth: nat, dstWidth: nat, flags: Flags,
                          hasParams: bool, dtype: TensorType): (r: Option<(nat, nat)>)
    ensures r.Some? <==> IsRgbx(srcFmt) && flags.meanStd && hasParams && dtype in {T_FLOAT16, T_FLOAT32}
    ensures r.Some? ==>
      var c := GetChannelNumFromColor(srcFmt);
      r.value == (srcWidth * c, dstWidth * c * (if dtype == T_FLOAT16 then 2 else 4))
  {
    var c := GetChannelNumFromColor(srcFmt);
    if c < 0 then None
    else if !flags.meanStd then None
    else if !hasParams then None
    else if dtype == T_FLOAT16 then Some((srcWidth * c, dstWidth * c * 2))
    else if dtype == T_FLOAT32 then Some((srcWidth * c, dstWidth * c * 4))
    else None
  }

  /** The tensor description of a destination. */
  datatype TensorDesc = TensorDesc(n: nat, c: nat, h: nat, w: nat, dtype: TensorType, colorFormat: int)

  /** GetBufSurfaceFromTensor: an image view of a tensor surface: every
      image takes the tensor's width, height and packed pitch and the
      mapped colour format, and keeps its data; an unknown tensor colour
      format fails. */
  function GetBufSurfaceFromTensor(src: BufSurface, desc: TensorDesc): (r: Option<BufSurface>)
    requires |src.items| == src.batchSize
    ensures r.None? <==> GetColorFormatFromTensor(desc.colorFormat) == FMT_LAST
    ensures r.Some? ==>
      r.value.batchSize == src.batchSize && r.value.numFilled == src.numFilled && r.value.pts == src.pts &&
      r.value.deviceId == src.deviceId && r.value.memType == src.memType && |r.value.items| == src.batchSize
    ensures r.Some? ==> forall i :: 0 <= i < src.batchSize ==>
      var item := r.value.items[i];
      item.width == desc.w && item.height == desc.h && item.pitch == U32(desc.w * desc.c) &&
      IsRgbx(item.colorFormat) && item.colorFormat == GetColorFormatFromTensor(desc.colorFormat) &&
      item.data == src.items[i].data && item.dataSize == src.items[i].dataSize && item.plane == src.items[i].plane
  {
    var fmt := GetColorFormatFromTensor(desc.colorFormat);
    if fmt == FMT_LAST then None
    else
      var items := seq(src.batchSize, i requires 0 <= i < src.batchSize =>
        SurfaceItem(desc.w, desc.h, U32(desc.w * desc.c), fmt, src.items[i].dataSize, src.items[i].data, false, src.items[i].plane));
      Some(src.(items := items, owner := None))
  }

  /** The stage DoCncvTransform picks. */
  datatype Stage =
    | ResizeConvertMeanStd   // YUV to RGBx with resize, then mean-std
    | MeanStd                // mean-std in place of format
    | RgbxToYuvResize        // RGBx to YUV, resizing when the sizes differ
    | YuvToRgbxResize
    | YuvResize
    | Rejected

  /** DoCncvTransform's dispatch. A tensor source is rejected. A tensor
      destination with the mean-std flag needs YUV-to-RGBx or the same
      format; without the flag the tensor is viewed as an image of its
      colour format (unknown formats fail). Images then go RGBx to YUV,
      YUV to RGBx, or YUV to the same YUV format. */
  function Dispatch(srcFmt: int, dstFmt: int, flags: Flags, tensorColor: int): (s: Stage)
    ensures srcFmt == FMT_TENSOR ==> s == Rejected
    ensures s == ResizeConvertMeanStd <==>
      srcFmt != FMT_TENSOR && dstFmt == FMT_TENSOR && flags.meanStd &&
      IsYuv420sp(srcFmt) && IsRgbx(GetColorFormatFromTensor(tensorColor))
    ensures s == MeanStd <==>
      srcFmt != FMT_TENSOR && dstFmt == FMT_TENSOR && flags.meanStd && !IsYuv420sp(srcFmt) &&
      srcFmt == GetColorFormatFromTensor(tensorColor)
    ensures dstFmt != FMT_TENSOR && srcFmt != FMT_TENSOR ==>
      (s == RgbxToYuvResize <==> IsRgbx(srcFmt) && IsYuv420sp(dstFmt)) &&
      (s == YuvToRgbxResize <==> IsYuv420sp(srcFmt) && IsRgbx(dstFmt)) &&
      (s == YuvResize <==> IsYuv420sp(srcFmt) && srcFmt == dstFmt)
    ensures dstFmt == FMT_TENSOR && !flags.meanStd ==>
      (s == YuvToRgbxResize <==> srcFmt != FMT_TENSOR && IsYuv420sp(srcFmt) && GetColorFormatFromTensor(tensorColor) != FMT_LAST) &&
      s != RgbxToYuvResize && s != YuvResize
  {
    if srcFmt == FMT_TENSOR then Rejected
    else if dstFmt == FMT_TENSOR && flags.meanStd then
      var fmt := GetColorFormatFromTensor(tensorColor);
      if IsYuv420sp(srcFmt) && IsRgbx(fmt) then ResizeConvertMeanStd
      else if srcFmt == fmt then MeanStd
      else Rejected
    else
      var target := if dstFmt == FMT_TENSOR then GetColorFormatFromTensor(tensorColor) else dstFmt;
      if target == FMT_LAST then Rejected
      else if IsRgbx(srcFmt) && IsYuv420sp(target) then RgbxToYuvResize
      else if IsYuv420sp(srcFmt) && IsRgbx(target) then YuvToRgbxResize
      else if IsYuv420sp(srcFmt) && srcFmt == target then YuvResize
      else Rejected
  }

  /** Between images, conversions go both ways: any semi-planar YUV
      format and any packed RGB format can be converted into each other,
      and a YUV image can be resized in its own format. */
  lemma ConversionsGoBothWays(yuv: int, rgbx: int, flags: Flags, tc: int)
    requires IsYuv420sp(yuv) && IsRgbx(rgbx)
    ensures Dispatch(yuv, rgbx, flags, tc) == YuvToRgbxResize
    ensures Dispatch(rgbx, yuv, flags, tc) == RgbxToYuvResize
    ensures Dispatch(yuv, yuv, flags, tc) == YuvResize
  {
  }

  /** DoCncvTransform: 0 when a stage is found and its checks and library
      calls (`callsOk`) succeed. The mean-std stages also need the
      parameters and a floating-point destination, and the mean-std-only
      stage a packed RGB source (a source in the LAST format matches an
      unknown tensor format and fails there). */
  function DoCncvTransform(srcFmt: int, dstFmt: int, flags: Flags, tensor: TensorDesc,
                           hasParams: bool, callsOk: bool): (r: int)
    ensures r == 0 || r == -1
    ensures var s := Dispatch(srcFmt, dstFmt, flags, tensor.colorFormat);
      r == 0 <==>
        s != Rejected && callsOk &&
        (s in {ResizeConvertMeanStd, MeanStd} ==> hasParams && tensor.dtype in {T_FLOAT16, T_FLOAT32}) &&
        (s == MeanStd ==> IsRgbx(srcFmt))
  {
    var s := Dispatch(srcFmt, dstFmt, flags, tensor.colorFormat);
    match s
    case Rejected => -1
    case ResizeConvertMeanStd =>
      var fmt := GetColorFormatFromTensor(tensor.colorFormat);
      if !callsOk then -1
      else if MeanStdStrides(fmt, tensor.w, tensor.w, flags, hasParams, tensor.dtype).None? then -1
      else 0
    case MeanStd =>
      if MeanStdStrides(srcFmt, tensor.w, tensor.w, flags, hasParams, tensor.dtype).None? then -1
      else if !callsOk then -1
      else 0
    case _ => if callsOk then 0 else -1
  }
}
