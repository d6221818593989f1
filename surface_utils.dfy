// Plane layout arithmetic and creation-parameter validation for buffer
// surfaces (src/cnedk_buf_surface_utils.cpp).
module SurfaceUtils {
  import opened Common

  // Colour formats, by their value in the C enumeration.
  const FMT_INVALID: int := 0
  const FMT_GRAY8: int := 1
  const FMT_YUV420: int := 2
  const FMT_NV12: int := 3
  const FMT_NV21: int := 4
  const FMT_ARGB: int := 5
  const FMT_ABGR: int := 6
  const FMT_RGB: int := 7
  const FMT_BGR: int := 8
  const FMT_BGRA: int := 9
  const FMT_RGBA: int := 10
  const FMT_ARGB1555: int := 11
  const FMT_TENSOR: int := 12
  const FMT_LAST: int := 13

  // Memory types, by their value in the C enumeration.
  const MEM_DEFAULT: int := 0
  const MEM_DEVICE: int := 1
  const MEM_PINNED: int := 2
  const MEM_UNIFIED: int := 3
  const MEM_UNIFIED_CACHED: int := 4
  const MEM_VB: int := 5
  const MEM_VB_CACHED: int := 6
  const MEM_SYSTEM: int := 7

  const MAX_PLANES: nat := 3

  /** The per-plane description of one surface; every sequence has one
      entry per possible plane, and entries past `numPlanes` stay zero. */
  datatype PlaneParams = PlaneParams(
    numPlanes: nat,
    width: seq<nat>,
    height: seq<nat>,
    pitch: seq<nat>,
    offset: seq<nat>,
    psize: seq<nat>,
    bytesPerPix: seq<nat>)
  {
    predicate WellFormed() {
      numPlanes <= MAX_PLANES &&
      |width| == MAX_PLANES && |height| == MAX_PLANES && |pitch| == MAX_PLANES &&
      |offset| == MAX_PLANES && |psize| == MAX_PLANES && |bytesPerPix| == MAX_PLANES
    }
  }

  /** What the platform query reports about a device. */
  datatype PlatformInfo = PlatformInfo(supportUnifiedAddr: bool, canMapHostMemory: bool)

  /** `v` rounded up to a multiple of `a`, computed in 32-bit unsigned
      arithmetic as `(v + a - 1) / a * a`. */
  function AlignUp(v: nat, a: nat): (r: nat)
    requires a > 0
    ensures r < U32_MOD
    ensures v + a - 1 < U32_MOD ==> r % a == 0 && v <= r < v + a
  {
    if v + a - 1 < U32_MOD then AlignUpExact(v, a); U32(U32(v + a - 1) / a * a)
    else U32(U32(v + a - 1) / a * a)
  }

  lemma AlignUpExact(v: nat, a: nat)
    requires a > 0 && v + a - 1 < U32_MOD
    ensures var r := U32(U32(v + a - 1) / a * a); r % a == 0 && v <= r < v + a
  {
    var n := v + a - 1;
    var q := n / a;
    assert n == q * a + n % a;
    assert q * a <= n;
    assert U32(n) == n;
    assert U32(q * a) == q * a;
    MultipleMod(q, a);
  }

  lemma MultipleMod(q: nat, a: nat)
    requires a > 0
    ensures (q * a) % a == 0
  {
    var x := q * a;
    var d := q - x / a;
    assert a * d == x % a by {
      assert x == a * (x / a) + x % a;
    }
    if d >= 1 {
      MulGrows(a, d);
      assert false;
    } else if d <= -1 {
      MulGrows(a, -d);
      assert false;
    }
  }

  lemma MulGrows(a: nat, d: int)
    requires d >= 1
    ensures a * d >= a
  {
  }

  /** Bytes per pixel of every plane of a format with planes (0 otherwise). */
  function BytesPerPix(fmt: int): nat
  {
    if fmt in {FMT_GRAY8, FMT_YUV420, FMT_NV12, FMT_NV21} then 1
    else if fmt in {FMT_ARGB, FMT_ABGR, FMT_BGRA, FMT_RGBA} then 4
    else if fmt in {FMT_RGB, FMT_BGR} then 3
    else if fmt == FMT_ARGB1555 then 2
    else 0
  }

  /** Number of planes of a supported format; 0 for the others. */
  function NumPlanes(fmt: int): nat
  {
    if fmt == FMT_YUV420 then 3
    else if fmt in {FMT_NV12, FMT_NV21} then 2
    else if BytesPerPix(fmt) > 0 then 1
    else 0
  }

  predicate Supported(fmt: int) { NumPlanes(fmt) > 0 }

  function PlaneWidth(fmt: int, i: nat, w: nat): nat
  {
    if fmt == FMT_YUV420 && i > 0 then w / 2 else w
  }

  function PlaneHeight(fmt: int, i: nat, h: nat): nat
  {
    if i > 0 then h / 2 else h
  }

  function PlanePitch(fmt: int, i: nat, w: nat, alignW: nat): nat
    requires alignW > 0
  {
    AlignUp(U32(PlaneWidth(fmt, i, w) * BytesPerPix(fmt)), alignW)
  }

  function PlaneSize(fmt: int, i: nat, w: nat, h: nat, alignW: nat, alignH: nat): nat
    requires alignW > 0 && alignH > 0
  {
    U32(PlanePitch(fmt, i, w, alignW) * AlignUp(PlaneHeight(fmt, i, h), alignH))
  }

  /** Offset of plane `i`: the 32-bit running sum of the sizes before it. */
  function PlaneOffset(fmt: int, i: nat, w: nat, h: nat, alignW: nat, alignH: nat): nat
    requires alignW > 0 && alignH > 0
  {
    if i == 0 then 0
    else U32(PlaneOffset(fmt, i - 1, w, h, alignW, alignH) + PlaneSize(fmt, i - 1, w, h, alignW, alignH))
  }

  /** One entry per possible plane: `f(i)` for the planes of the format, 0 past them. */
  function PerPlane(n: nat, f: nat -> nat): (s: seq<nat>)
    ensures |s| == MAX_PLANES
    ensures forall i :: 0 <= i < MAX_PLANES ==> s[i] == if i < n then f(i) else 0
  {
    seq(MAX_PLANES, i requires 0 <= i => if i < n then f(i) else 0)
  }

  /** The layout a supported format is given. */
  function Layout(fmt: int, w: nat, h: nat, alignW: nat, alignH: nat): (p: PlaneParams)
    requires alignW > 0 && alignH > 0
    ensures p.WellFormed()
  {
    var n := NumPlanes(fmt);
    PlaneParams(n,
      PerPlane(n, i => PlaneWidth(fmt, i, w)),
      PerPlane(n, i => PlaneHeight(fmt, i, h)),
      PerPlane(n, i => PlanePitch(fmt, i, w, alignW)),
      PerPlane(n, i => PlaneOffset(fmt, i, w, h, alignW, alignH)),
      PerPlane(n, i => PlaneSize(fmt, i, w, h, alignW, alignH)),
      PerPlane(n, i => BytesPerPix(fmt)))
  }

  function ZeroParams(): (p: PlaneParams)
    ensures p.WellFormed()
  {
    PlaneParams(0, [0, 0, 0], [0, 0, 0], [0, 0, 0], [0, 0, 0], [0, 0, 0], [0, 0, 0])
  }

  /** GetColorFormatInfo: clears the parameters, then fills one entry per
      plane in a loop and sets the offsets. Returns -1 for INVALID, TENSOR
      and any value outside the enumeration. Widths and heights are
      32-bit values; the alignments must not be zero (division). */
  method GetColorFormatInfo(fmt: int, w: nat, h: nat, alignW: nat, alignH: nat)
    returns (ret: int, params: PlaneParams)
    requires alignW > 0 && alignH > 0
    ensures ret == 0 || ret == -1
    ensures ret == 0 <==> Supported(fmt)
    ensures ret == 0 ==> params == Layout(fmt, w, h, alignW, alignH)
    ensures ret == -1 ==> params == ZeroParams()
  {
    params := ZeroParams();
    var n := NumPlanes(fmt);
    if n == 0 {
      return -1, params;
    }
    var widths, heights, pitches, sizes, bpps := [0, 0, 0], [0, 0, 0], [0, 0, 0], [0, 0, 0], [0, 0, 0];
    var i := 0;
    while i < n
      invariant 0 <= i <= n <= MAX_PLANES
      invariant |widths| == |heights| == |pitches| == |sizes| == |bpps| == MAX_PLANES
      invariant forall k :: 0 <= k < MAX_PLANES ==> widths[k] == (if k < i then PlaneWidth(fmt, k, w) else 0)
      invariant forall k :: 0 <= k < MAX_PLANES ==> heights[k] == (if k < i then PlaneHeight(fmt, k, h) else 0)
      invariant forall k :: 0 <= k < MAX_PLANES ==> pitches[k] == (if k < i then PlanePitch(fmt, k, w, alignW) else 0)
      invariant forall k :: 0 <= k < MAX_PLANES ==>
        sizes[k] == (if k < i then PlaneSize(fmt, k, w, h, alignW, alignH) else 0)
      invariant forall k :: 0 <= k < MAX_PLANES ==> bpps[k] == (if k < i then BytesPerPix(fmt) else 0)
    {
      var pw, ph, pitch, size, bpp := PlaneEntry(fmt, i, w, h, alignW, alignH);
      widths := widths[i := pw];
      heights := heights[i := ph];
      bpps := bpps[i := bpp];
      pitches := pitches[i := pitch];
      sizes := sizes[i := size];
      i := i + 1;
    }
    var offsets := PlaneOffsets(fmt, n, w, h, alignW, alignH, sizes);
    params := PlaneParams(n, widths, heights, pitches, offsets, sizes, bpps);
    ret := 0;
  }

  /** The offsets GetColorFormatInfo sets after its loop: plane 1 starts
      after plane 0, plane 2 after planes 0 and 1 (32-bit sums). */
  method PlaneOffsets(fmt: int, n: nat, w: nat, h: nat, alignW: nat, alignH: nat, sizes: seq<nat>)
    returns (offsets: seq<nat>)
    requires alignW > 0 && alignH > 0 && n <= MAX_PLANES && |sizes| == MAX_PLANES
    requires forall k :: 0 <= k < MAX_PLANES ==>
      sizes[k] == (if k < n then PlaneSize(fmt, k, w, h, alignW, alignH) else 0)
    ensures |offsets| == MAX_PLANES
    ensures forall k :: 0 <= k < MAX_PLANES ==>
      offsets[k] == (if k < n then PlaneOffset(fmt, k, w, h, alignW, alignH) else 0)
  {
    offsets := [0, 0, 0];
    if n >= 2 {
      offsets := offsets[1 := sizes[0]];
    }
    if n == 3 {
      offsets := offsets[2 := U32(sizes[0] + sizes[1])];
    }
    var s0 := PlaneSize(fmt, 0, w, h, alignW, alignH);
    assert PlaneOffset(fmt, 1, w, h, alignW, alignH) == U32(0 + s0) == s0;
    assert PlaneOffset(fmt, 2, w, h, alignW, alignH) ==
      U32(s0 + PlaneSize(fmt, 1, w, h, alignW, alignH));
  }

  /** The body of GetColorFormatInfo's plane loop: width, height and bytes
      per pixel, then the aligned pitch and the plane size. */
  method PlaneEntry(fmt: int, i: nat, w: nat, h: nat, alignW: nat, alignH: nat)
    returns (pw: nat, ph: nat, pitch: nat, size: nat, bpp: nat)
    requires alignW > 0 && alignH > 0
    ensures pw == PlaneWidth(fmt, i, w) && ph == PlaneHeight(fmt, i, h) && bpp == BytesPerPix(fmt)
    ensures pitch == PlanePitch(fmt, i, w, alignW) && size == PlaneSize(fmt, i, w, h, alignW, alignH)
  {
    pw := PlaneWidth(fmt, i, w);
    ph := PlaneHeight(fmt, i, h);
    bpp := BytesPerPix(fmt);
    pitch := AlignUp(U32(pw * bpp), alignW);
    size := U32(pitch * AlignUp(ph, alignH));
  }

  /** The pitch of a plane is the row length rounded up to the width
      alignment: a multiple of it, at least the row, less than one alignment
      step past it (when the arithmetic does not wrap). */
  lemma PitchCoversRow(fmt: int, i: nat, w: nat, alignW: nat)
    requires alignW > 0
    requires PlaneWidth(fmt, i, w) * BytesPerPix(fmt) + alignW - 1 < U32_MOD
    ensures var p := PlanePitch(fmt, i, w, alignW);
      var row := PlaneWidth(fmt, i, w) * BytesPerPix(fmt);
      p % alignW == 0 && row <= p < row + alignW
  {
  }

  /** NV12 and NV21 have a full luma plane and a half-height chroma plane of
      the same width, stored right after the luma plane. */
  lemma SemiPlanarLayout(fmt: int, w: nat, h: nat, alignW: nat, alignH: nat)
    requires alignW > 0 && alignH > 0
    requires fmt == FMT_NV12 || fmt == FMT_NV21
    ensures var p := Layout(fmt, w, h, alignW, alignH);
      p.numPlanes == 2 &&
      p.width[0] == w && p.width[1] == w &&
      p.height[0] == h && p.height[1] == h / 2 &&
      p.bytesPerPix[0] == 1 && p.bytesPerPix[1] == 1 &&
      p.offset[0] == 0 && p.offset[1] == p.psize[0] &&
      p.width[2] == 0 && p.psize[2] == 0 && p.offset[2] == 0
  {
    var p := Layout(fmt, w, h, alignW, alignH);
    assert p.offset[1] == PlaneOffset(fmt, 1, w, h, alignW, alignH);
  }

  /** YUV420 has three planes; the chroma planes have half the width and
      height and the offsets are the running sums of the plane sizes. */
  lemma PlanarLayout(w: nat, h: nat, alignW: nat, alignH: nat)
    requires alignW > 0 && alignH > 0
    ensures var p := Layout(FMT_YUV420, w, h, alignW, alignH);
      p.numPlanes == 3 &&
      p.width == [w, w / 2, w / 2] && p.height == [h, h / 2, h / 2] &&
      p.bytesPerPix == [1, 1, 1] &&
      p.offset == [0, p.psize[0], U32(p.psize[0] + p.psize[1])] &&
      p.psize[1] == p.psize[2]
  {
    var p := Layout(FMT_YUV420, w, h, alignW, alignH);
    assert p.offset[1] == PlaneOffset(FMT_YUV420, 1, w, h, alignW, alignH);
    assert p.offset[2] == PlaneOffset(FMT_YUV420, 2, w, h, alignW, alignH);
  }

  /** The packed formats have a single plane whose pixel size is 4 for the
      four-channel family, 3 for RGB/BGR, 2 for ARGB1555 and 1 for GRAY8. */
  lemma PackedLayout(fmt: int, w: nat, h: nat, alignW: nat, alignH: nat)
    requires alignW > 0 && alignH > 0
    requires fmt in {FMT_GRAY8, FMT_ARGB, FMT_ABGR, FMT_BGRA, FMT_RGBA, FMT_RGB, FMT_BGR, FMT_ARGB1555}
    ensures var p := Layout(fmt, w, h, alignW, alignH);
      p.numPlanes == 1 && p.width[0] == w && p.height[0] == h && p.offset[0] == 0 &&
      p.bytesPerPix[0] == (if fmt == FMT_GRAY8 then 1
                           else if fmt in {FMT_RGB, FMT_BGR} then 3
                           else if fmt == FMT_ARGB1555 then 2
                           else 4) &&
      p.psize[1] == 0 && p.psize[2] == 0
  {
  }

  /** CheckParams: validates surface creation parameters; `platform` is the
      result of the platform query (None when it fails). Returns 0 or -1. */
  function CheckParams(batchSize: nat, memType: int, colorFormat: int, width: nat, height: nat,
                       size: nat, platform: Option<PlatformInfo>): (r: int)
    ensures r == 0 || r == -1
    ensures batchSize == 0 ==> r == -1
  {
    if batchSize == 0 then -1
    else if memType != MEM_SYSTEM then
      if memType < MEM_DEFAULT || memType > MEM_SYSTEM then -1
      else if platform.None? then -1
      else if platform.value.supportUnifiedAddr then
        if memType != MEM_DEFAULT && memType != MEM_DEVICE && memType != MEM_UNIFIED &&
           memType != MEM_UNIFIED_CACHED && memType != MEM_VB && memType != MEM_VB_CACHED then -1
        else 0
      else
        if memType != MEM_DEFAULT && memType != MEM_DEVICE && memType != MEM_PINNED then -1
        else if memType == MEM_PINNED && !platform.value.canMapHostMemory then -1
        else 0
    else if colorFormat < FMT_INVALID || colorFormat >= FMT_LAST then -1
    else if U32(width * height) == 0 && size == 0 then -1
    else 0
  }

  /** The memory types each kind of platform accepts. */
  function AcceptedMemTypes(info: PlatformInfo): set<int>
  {
    if info.supportUnifiedAddr then {MEM_DEFAULT, MEM_DEVICE, MEM_UNIFIED, MEM_UNIFIED_CACHED, MEM_VB, MEM_VB_CACHED}
    else if info.canMapHostMemory then {MEM_DEFAULT, MEM_DEVICE, MEM_PINNED}
    else {MEM_DEFAULT, MEM_DEVICE}
  }

  /** CheckParams accepts exactly: a non-zero batch, and either a device-side
      memory type the platform accepts, or system memory with a format inside
      the enumeration and a non-empty image or an explicit size. */
  lemma CheckParamsAccepts(batchSize: nat, memType: int, colorFormat: int, width: nat, height: nat,
                           size: nat, platform: Option<PlatformInfo>)
    ensures CheckParams(batchSize, memType, colorFormat, width, height, size, platform) == 0 <==>
      batchSize > 0 &&
      (if memType == MEM_SYSTEM then
         FMT_INVALID <= colorFormat < FMT_LAST && (U32(width * height) != 0 || size > 0)
       else
         platform.Some? && memType in AcceptedMemTypes(platform.value))
  {
  }

  /** The product check is done in 32 bits: 65536 x 65536 system memory with
      no explicit size is rejected as an empty image. */
  lemma CheckParamsProductWraps()
    ensures CheckParams(1, MEM_SYSTEM, FMT_RGB, 65536, 65536, 0, None) == -1
    ensures CheckParams(1, MEM_SYSTEM, FMT_RGB, 65536, 65535, 0, None) == 0
  {
  }
}
