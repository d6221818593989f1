// The CE3226 video encoder service (src/ce3226/mps_service/src/
// mps_service_impl_venc.cpp): the GOP table, how a channel's attributes
// follow from the caller's parameters, the pool of encoder ids, and the
// flag checks in front of sending frames.
module MpsVenc {
  import opened Common
  import SurfaceUtils

  /** cnvencEnGopMode_t. */
  datatype GopMode = NormalP | SmartP | DualP | BipredB | OtherGopMode

  /** cnvencGopAttr_t: the fields the table fills for each mode. */
  datatype GopAttr =
    | NormalPAttr(ipQpDelta: int)
    | SmartPAttr(bgQpDelta: int, viQpDelta: int, bgInterval: nat)
    | DualPAttr(spInterval: nat, spQpDelta: int, ipQpDelta: int)
    | BipredBAttr(bQpDelta: int, ipQpDelta: int, bFrameNum: nat)

  /** cnsampleCommVencGetGopAttr: fixed settings per mode; an unknown mode
      is a failure. */
  function GetGopAttr(mode: GopMode): (r: Option<GopAttr>)
    ensures r.None? <==> mode == OtherGopMode
    ensures mode == NormalP ==> r == Some(NormalPAttr(3))
    ensures mode == SmartP ==> r == Some(SmartPAttr(7, 2, 1200))
    ensures mode == DualP ==> r == Some(DualPAttr(4, 2, 3))
    ensures mode == BipredB ==> r == Some(BipredBAttr(-2, 3, 2))
  {
    match mode
    case NormalP => Some(NormalPAttr(3))
    case SmartP => Some(SmartPAttr(7, 2, 1200))
    case DualP => Some(DualPAttr(4, 2, 3))
    case BipredB => Some(BipredBAttr(-2, 3, 2))
    case OtherGopMode => None
  }

  /** The table never confuses modes: each known mode gets the attribute
      of its own kind. */
  lemma GopAttrMatchesMode(mode: GopMode)
    requires mode != OtherGopMode
    ensures GetGopAttr(mode).Some?
    ensures GetGopAttr(mode).value.NormalPAttr? <==> mode == NormalP
    ensures GetGopAttr(mode).value.SmartPAttr? <==> mode == SmartP
    ensures GetGopAttr(mode).value.DualPAttr? <==> mode == DualP
    ensures GetGopAttr(mode).value.BipredBAttr? <==> mode == BipredB
  {
  }

  /** The payload types the service encodes. */
  datatype PayloadType = PtH264 | PtH265 | PtJpeg | PtOther

  /** The caller's VencCreateParam, with the frame rate already converted
      to an integer. */
  datatype VencCreateParams = VencCreateParams(codec: PayloadType, width: nat, height: nat,
                                               frameRate: nat, bitrate: nat)

  /** The rate-control and picture attributes of a channel. */
  datatype ChnAttr = ChnAttr(
    codec: PayloadType,
    maxPicWidth: nat,
    maxPicHeight: nat,
    picWidth: nat,
    picHeight: nat,
    bufSize: nat,
    gop: GopAttr,
    srcFrameRate: nat,
    dstFrameRate: nat,
    maxBitrate: nat,
    profile: nat)

  /** The frame rate a video channel runs at: 0 or 1 becomes 30, anything
      above 120 is capped. */
  function ChannelFrameRate(fr: nat): (r: nat)
    ensures 2 <= r <= 120
    ensures 2 <= fr <= 120 ==> r == fr
    ensures fr <= 1 ==> r == 30
  {
    var r0 := if fr > 1 then fr else 30;
    if r0 < 120 then r0 else 120
  }

  /** The bit rate used when the caller gives none: 2048 plus 2048 per 30
      frames per second, rounded down. */
  function DefaultMaxBitrate(fr: nat): (r: nat)
    requires fr <= 120
    ensures 2048 <= r <= 2048 + 2048 * 4
    ensures fr == 30 ==> r == 4096
  {
    1024 * 2 + 2048 * fr / 30
  }

  /** The attributes of a new channel; None for a payload type other than
      H264, H265 or JPEG. Picture bounds are aligned up to 16, the stream
      buffer to `defaultAlign` (4096 for JPEG); a video channel gets the GOP
      of 30 at the normalised frame rate, with the destination rate in the
      low byte above bit 16, and the caller's bit rate or the default. */
  function ChannelAttr(p: VencCreateParams, defaultAlign: nat): (r: Option<ChnAttr>)
    requires defaultAlign > 0
    ensures r.None? <==> p.codec == PtOther
    ensures r.Some? ==> r.value.codec == p.codec && r.value.picWidth == p.width && r.value.picHeight == p.height
    ensures r.Some? && p.width + 15 < U32_MOD ==>
      r.value.maxPicWidth % 16 == 0 && p.width <= r.value.maxPicWidth < p.width + 16
    ensures r.Some? && p.height + 15 < U32_MOD ==>
      r.value.maxPicHeight % 16 == 0 && p.height <= r.value.maxPicHeight < p.height + 16
    ensures r.Some? ==> r.value.gop == NormalPAttr(3)
    ensures r.Some? && p.codec != PtJpeg ==>
      r.value.srcFrameRate == ChannelFrameRate(p.frameRate) &&
      r.value.dstFrameRate == 0x10000 + ChannelFrameRate(p.frameRate) &&
      r.value.maxBitrate == (if p.bitrate > 0 then p.bitrate else DefaultMaxBitrate(ChannelFrameRate(p.frameRate)))
    ensures r.Some? ==> r.value.profile == (if p.codec == PtH264 then 1 else 0)
  {
    if p.codec == PtOther then None
    else
      var aw := SurfaceUtils.AlignUp(p.width, 16);
      var ah := SurfaceUtils.AlignUp(p.height, 16);
      var fr := ChannelFrameRate(p.frameRate);
      var gop := GetGopAttr(NormalP).value;
      if p.codec == PtJpeg then
        Some(ChnAttr(p.codec, aw, ah, p.width, p.height, SurfaceUtils.AlignUp(U32(aw * ah), 4096),
                     gop, 0, 0, 0, 0))
      else
        var bitrate := if p.bitrate > 0 then p.bitrate else DefaultMaxBitrate(fr);
        Some(ChnAttr(p.codec, aw, ah, p.width, p.height, SurfaceUtils.AlignUp(U32(aw * ah), defaultAlign),
                     gop, fr, 0x10000 + fr, bitrate, if p.codec == PtH264 then 1 else 0))
  }

  /** The state of one encoder slot (VEncCtx). */
  datatype VencCtx = VencCtx(created: bool, eosSent: bool, errorFlag: bool, attr: Option<ChnAttr>)

  /** The outcomes of the driver calls Create makes, in order. */
  datatype CreateCalls = CreateCalls(getModOk: bool, setModOk: bool, createChnOk: bool,
                                     getJpegOk: bool, setJpegOk: bool, startRecvOk: bool)

  /** How draining the channel's bit stream ends after a frame or EOS was
      handed over: done, or failed (possibly setting the error flag). */
  datatype Drain = Drained | DrainFailed(setsError: bool)

  /** The largest number of failed cncodec sends before the channel is
      declared broken. */
  const MAX_SEND_FAILURES: nat := 5

  function SendOkAt(sends: seq<bool>, i: nat): bool
  {
    i < |sends| && sends[i]
  }

  /** The first attempt among the first five that succeeds, if any. */
  function FirstSend(sends: seq<bool>, i: nat): (r: Option<nat>)
    requires i <= MAX_SEND_FAILURES
    ensures r.Some? ==> i <= r.value < MAX_SEND_FAILURES && SendOkAt(sends, r.value)
    ensures r.Some? ==> forall j :: i <= j < r.value ==> !SendOkAt(sends, j)
    ensures r.None? <==> forall j :: i <= j < MAX_SEND_FAILURES ==> !SendOkAt(sends, j)
    decreases MAX_SEND_FAILURES - i
  {
    if i == MAX_SEND_FAILURES then None
    else if SendOkAt(sends, i) then Some(i)
    else FirstSend(sends, i + 1)
  }

  /** The drain that follows attempt i; an outcome not given is a drain
      that completes. */
  function DrainAt(drains: seq<Drain>, i: nat): Drain
  {
    if i < |drains| then drains[i] else Drained
  }

  /** The attempt at which the send loop stops, from attempt i on: the
      first whose send succeeds, or whose send fails with a retry left and
      whose drain then fails; none when five sends fail with every drain
      between them completed. */
  function SendStop(sends: seq<bool>, drains: seq<Drain>, i: nat): (r: Option<nat>)
    requires i <= MAX_SEND_FAILURES
    ensures r.Some? ==> i <= r.value < MAX_SEND_FAILURES
    ensures r.Some? ==>
      SendOkAt(sends, r.value) || (r.value < MAX_SEND_FAILURES - 1 && DrainAt(drains, r.value).DrainFailed?)
    ensures r.Some? ==> forall j :: i <= j < r.value ==> !SendOkAt(sends, j) && DrainAt(drains, j) == Drained
    ensures r.None? <==> forall j :: i <= j < MAX_SEND_FAILURES ==>
      !SendOkAt(sends, j) && (j < MAX_SEND_FAILURES - 1 ==> DrainAt(drains, j) == Drained)
    decreases MAX_SEND_FAILURES - i
  {
    if i == MAX_SEND_FAILURES then None
    else if SendOkAt(sends, i) then Some(i)
    else if i < MAX_SEND_FAILURES - 1 && DrainAt(drains, i).DrainFailed? then Some(i)
    else SendStop(sends, drains, i + 1)
  }

  /** When every drain between attempts completes, the loop stops exactly
      at the first successful send. */
  lemma {:induction false} SendStopWithoutDrainFailures(sends: seq<bool>, drains: seq<Drain>, i: nat)
    requires i <= MAX_SEND_FAILURES
    requires forall j :: 0 <= j < |drains| ==> drains[j] == Drained
    ensures SendStop(sends, drains, i) == FirstSend(sends, i)
    decreases MAX_SEND_FAILURES - i
  {
    if i < MAX_SEND_FAILURES && !SendOkAt(sends, i) {
      SendStopWithoutDrainFailures(sends, drains, i + 1);
    }
  }

  /** Whether Create gets through: a supported payload type, JPEG's
      module and quality-factor parameter calls, the channel creation and
      the start of reception all succeed. */
  predicate CreateSucceeds(p: VencCreateParams, calls: CreateCalls)
  {
    p.codec != PtOther && calls.createChnOk && calls.startRecvOk &&
    (p.codec == PtJpeg ==> calls.getModOk && calls.setModOk && calls.getJpegOk && calls.setJpegOk)
  }

  class MpsVencService {
    /** kMaxMpsVecNum: the number of encoder slots. */
    const maxNum: nat
    /** DEFAULT_ALIGN: the stream buffer alignment for video channels. */
    const defaultAlign: nat
    /** id_q_: free encoder ids. */
    var ids: seq<int>
    /** venc_ctx: slot id - 1 belongs to encoder id. */
    var ctxs: seq<VencCtx>
    /** The driver channels that exist (channel id - 1 for encoder id). */
    var channels: set<int>

    /** Free ids are distinct, lie below the slot count, and the slot of a
        positive free id is not in use and owns no channel. */
    ghost predicate Valid()
      reads this
    {
      defaultAlign > 0 && |ctxs| == maxNum &&
      (forall i, j :: 0 <= i < j < |ids| ==> ids[i] != ids[j]) &&
      (forall i :: 0 <= i < |ids| ==> ids[i] <= maxNum) &&
      (forall i :: 0 <= i < |ids| && ids[i] >= 1 ==> !ctxs[ids[i] - 1].created && ids[i] - 1 !in channels) &&
      (forall i :: 0 <= i < |ctxs| && ctxs[i].created ==> i in channels)
    }

    /** Config: ids from `start` up to the slot count, exclusive, become
        free; every slot starts unused. */
    constructor (maxNum: nat, defaultAlign: nat, start: int)
      requires defaultAlign > 0
      ensures Valid()
      ensures this.maxNum == maxNum && this.defaultAlign == defaultAlign
      ensures |ids| == (if start < maxNum then maxNum - start else 0)
      ensures forall i :: 0 <= i < |ids| ==> ids[i] == start + i
      ensures channels == {}
    {
      this.maxNum := maxNum;
      this.defaultAlign := defaultAlign;
      var n := if start < maxNum then maxNum - start else 0;
      ids := seq(n, i => start + i);
      ctxs := seq(maxNum, _ => VencCtx(false, false, false, None));
      channels := {};
    }

    /** GetId: the oldest free id, or -1 when none is left. */
    method GetId() returns (id: int)
      requires Valid()
      modifies this`ids
      ensures Valid()
      ensures |old(ids)| > 0 ==> id == old(ids)[0] && ids == old(ids)[1..]
      ensures |old(ids)| == 0 ==> id == -1 && ids == []
      ensures |old(ids)| > 0 ==> Returnable(id)
    {
      if |ids| == 0 {
        return -1;
      }
      id := ids[0];
      ids := ids[1..];
    }

    /** An id that may go back on the free list without breaking Valid. */
    ghost predicate Returnable(id: int)
      reads this
    {
      id !in ids && id <= maxNum && (id >= 1 ==> |ctxs| == maxNum && !ctxs[id - 1].created && id - 1 !in channels)
    }

    /** `id_q_.push(id)`: the id goes to the back of the free list. */
    method Release(id: int)
      requires Valid() && Returnable(id)
      modifies this`ids
      ensures Valid() && ids == old(ids) + [id]
    {
      ids := ids + [id];
    }

    /** The slot of a taken id gets its channel and is marked in use with
        clear EOS and error flags. */
    method Open(id: int, attr: Option<ChnAttr>)
      requires Valid() && 1 <= id <= maxNum && id !in ids
      modifies this`ctxs, this`channels
      ensures Valid()
      ensures channels == old(channels) + {id - 1}
      ensures ctxs == old(ctxs)[id - 1 := VencCtx(true, false, false, attr)]
    {
      channels := channels + {id - 1};
      ctxs := ctxs[id - 1 := VencCtx(true, false, false, attr)];
    }

    /** Create as written. After the channel exists, a failing
        cnvencGetJpegParam returns the id without destroying the channel,
        and the result of cnvencSetJpegParam is never looked at (the check
        after it tests the earlier call's result). */
    method CreateAsWritten(resultSet: bool, p: VencCreateParams, calls: CreateCalls) returns (handle: Option<int>)
      requires Valid()
      modifies this`ids, this`ctxs, this`channels
      ensures !resultSet ==> handle.None? && unchanged(this)
      ensures resultSet && |old(ids)| > 0 && old(ids)[0] >= 1 && p.codec == PtJpeg &&
              calls.getModOk && calls.setModOk && calls.createChnOk && !calls.getJpegOk ==>
        handle.None? && old(ids)[0] - 1 in channels && ids == old(ids)[1..] + [old(ids)[0]]
      ensures resultSet && |old(ids)| > 0 && old(ids)[0] >= 1 && p.codec == PtJpeg &&
              calls.getModOk && calls.setModOk && calls.createChnOk && calls.getJpegOk && calls.startRecvOk ==>
        handle == Some(old(ids)[0])
    {
      if !resultSet {
        return None;
      }
      var id := GetId();
      if id <= 0 {
        return None;
      }
      var attr := ChannelAttr(p, defaultAlign);
      if attr.None? {
        ids := ids + [id];
        return None;
      }
      if p.codec == PtJpeg && (!calls.getModOk || !calls.setModOk) {
        ids := ids + [id];
        return None;
      }
      if !calls.createChnOk {
        ids := ids + [id];
        return None;
      }
      channels := channels + {id - 1};
      if p.codec == PtJpeg && !calls.getJpegOk {
        ids := ids + [id];
        return None;
      }
      if !calls.startRecvOk {
        channels := channels - {id - 1};
        ids := ids + [id];
        return None;
      }
      ctxs := ctxs[id - 1 := VencCtx(true, false, false, attr)];
      return Some(id);
    }

    /** Create: no result handler gives no handle; the next free id (a
        non-positive one fails) selects the slot; the channel attributes
        must exist (H264, H265 or JPEG); JPEG needs its module parameter
        calls; the driver channel is created, JPEG's quality factor set (a
        failure of either JPEG parameter call destroys the channel again),
        and the channel must start receiving. Every failure after the id
        was taken gives the id back; success marks the slot created with
        clear EOS and error flags and returns the id. */
    method Create(resultSet: bool, p: VencCreateParams, calls: CreateCalls) returns (handle: Option<int>)
      requires Valid()
      modifies this`ids, this`ctxs, this`channels
      ensures Valid()
      ensures !resultSet ==> handle.None? && unchanged(this)
      ensures resultSet && |old(ids)| == 0 ==> handle.None? && unchanged(this)
      ensures resultSet && |old(ids)| > 0 && old(ids)[0] < 1 ==>
        handle.None? && ids == old(ids)[1..] && ctxs == old(ctxs) && channels == old(channels)
      ensures resultSet && |old(ids)| > 0 && old(ids)[0] >= 1 && CreateSucceeds(p, calls) ==>
        handle == Some(old(ids)[0]) && ids == old(ids)[1..] && channels == old(channels) + {old(ids)[0] - 1} &&
        ctxs == old(ctxs)[old(ids)[0] - 1 := VencCtx(true, false, false, ChannelAttr(p, defaultAlign))]
      ensures resultSet && |old(ids)| > 0 && old(ids)[0] >= 1 && !CreateSucceeds(p, calls) ==>
        handle.None? && ids == old(ids)[1..] + [old(ids)[0]] && ctxs == old(ctxs) && channels == old(channels)
    {
      if !resultSet {
        return None;
      }
      var id := GetId();
      if id <= 0 {
        return None;
      }
      if !CreateSucceeds(p, calls) {
        Release(id);
        return None;
      }
      Open(id, ChannelAttr(p, defaultAlign));
      return Some(id);
    }

    /** Destroy: a handle outside 1..kMaxMpsVecNum gives -1; a slot not in
        use gives 0 untouched; otherwise EOS is sent first unless an error
        occurred or it was sent already (`sentEos`), the channel is stopped
        and destroyed, the slot cleared and the id freed. */
    method Destroy(handle: int, drain: Drain) returns (r: int, sentEos: bool)
      requires Valid()
      modifies this`ids, this`ctxs, this`channels
      ensures Valid()
      ensures handle <= 0 || handle > maxNum ==> r == -1 && !sentEos && unchanged(this)
      ensures 0 < handle <= maxNum && !old(ctxs)[handle - 1].created ==> r == 0 && !sentEos && unchanged(this)
      ensures 0 < handle <= maxNum && old(ctxs)[handle - 1].created ==>
        r == 0 && (sentEos <==> !old(ctxs)[handle - 1].errorFlag && !old(ctxs)[handle - 1].eosSent) &&
        !ctxs[handle - 1].created && !ctxs[handle - 1].eosSent && !ctxs[handle - 1].errorFlag &&
        (forall i :: 0 <= i < |ctxs| && i != handle - 1 ==> ctxs[i] == old(ctxs)[i]) &&
        ids == old(ids) + [handle] && channels == old(channels) - {handle - 1}
    {
      if handle <= 0 || handle > maxNum {
        return -1, false;
      }
      var ctx := ctxs[handle - 1];
      if !ctx.created {
        return 0, false;
      }
      sentEos := !ctx.errorFlag && !ctx.eosSent;
      channels := channels - {handle - 1};
      ctxs := ctxs[handle - 1 := VencCtx(false, false, false, ctx.attr)];
      ids := ids + [handle];
      r := 0;
    }

    /** SendFrame: a handle outside 1..kMaxMpsVecNum or a slot not in use
        gives -1. EOS (no frame) sets the EOS flag and, unless an error
        occurred, drains the stream (`drains[0]`). A frame after EOS or
        after an error gives -1; otherwise it is sent with up to five
        attempts (`sends`), the stream being drained after each
        (`drains[i]`): a failed send with a retry left is followed by its
        drain, a failure of which ends the call; the fifth failed send sets
        the error flag and gives -1. */
    method SendFrame(handle: int, isEos: bool, sends: seq<bool>, drains: seq<Drain>) returns (r: int)
      requires Valid()
      modifies this`ctxs
      ensures Valid()
      ensures handle <= 0 || handle > maxNum ==> r == -1 && unchanged(this)
      ensures 0 < handle <= maxNum
        ==> |ctxs| == |old(ctxs)| && forall i :: 0 <= i < |ctxs| && i != handle - 1 ==> ctxs[i] == old(ctxs)[i]
      ensures 0 < handle <= maxNum && !old(ctxs)[handle - 1].created ==> r == -1 && unchanged(this)
      ensures 0 < handle <= maxNum && old(ctxs)[handle - 1].created ==>
        var c := old(ctxs)[handle - 1];
        ctxs[handle - 1].created && ctxs[handle - 1].attr == c.attr &&
        (isEos && c.errorFlag ==> r == 0 && ctxs[handle - 1] == c.(eosSent := true)) &&
        (isEos && !c.errorFlag ==>
          var d := DrainAt(drains, 0);
          (r == 0 <==> d == Drained) && ctxs[handle - 1] == c.(eosSent := true, errorFlag := d == DrainFailed(true))) &&
        (!isEos && (c.eosSent || c.errorFlag) ==> r == -1 && ctxs[handle - 1] == c) &&
        (!isEos && !c.eosSent && !c.errorFlag && SendStop(sends, drains, 0).None? ==>
          r == -1 && ctxs[handle - 1] == c.(errorFlag := true)) &&
        (!isEos && !c.eosSent && !c.errorFlag && SendStop(sends, drains, 0).Some? ==>
          var d := DrainAt(drains, SendStop(sends, drains, 0).value);
          (r == 0 <==> d == Drained) && ctxs[handle - 1] == c.(errorFlag := d == DrainFailed(true)))
    {
      if handle <= 0 || handle > maxNum {
        return -1;
      }
      var ctx := ctxs[handle - 1];
      if !ctx.created {
        return -1;
      }
      var drain := DrainAt(drains, 0);
      if isEos {
        ctx := ctx.(eosSent := true);
      } else {
        if ctx.eosSent || ctx.errorFlag {
          return -1;
        }
        var i := 0;
        while i < MAX_SEND_FAILURES && !SendOkAt(sends, i)
              && !(i < MAX_SEND_FAILURES - 1 && DrainAt(drains, i).DrainFailed?)
          invariant i <= MAX_SEND_FAILURES
          invariant SendStop(sends, drains, i) == SendStop(sends, drains, 0)
          decreases MAX_SEND_FAILURES - i
        {
          i := i + 1;
        }
        if i == MAX_SEND_FAILURES {
          ctxs := ctxs[handle - 1 := ctx.(errorFlag := true)];
          return -1;
        }
        drain := DrainAt(drains, i);
      }
      if ctx.errorFlag {
        ctxs := ctxs[handle - 1 := ctx];
        return 0;
      }
      match drain {
        case Drained => r := 0;
        case DrainFailed(setsError) =>
          r := -1;
          if setsError {
            ctx := ctx.(errorFlag := true);
          }
      }
      ctxs := ctxs[handle - 1 := ctx];
    }
  }

  /** A JPEG channel whose quality factor is refused: Create as written
      hands out the encoder anyway, while the corrected Create fails and
      leaves no channel behind. */
  method JpegQualityRefused() returns (asWritten: Option<int>, corrected: Option<int>, leftover: bool)
    ensures asWritten == Some(1) && corrected.None? && !leftover
  {
    var p := VencCreateParams(PtJpeg, 1920, 1080, 25, 0);
    var calls := CreateCalls(true, true, true, true, false, true);
    var s := new MpsVencService(4, 64, 1);
    asWritten := s.CreateAsWritten(true, p, calls);
    var t := new MpsVencService(4, 64, 1);
    corrected := t.Create(true, p, calls);
    leftover := 0 in t.channels;
  }

  /** A JPEG channel whose parameters cannot be read: Create as written
      frees the id but keeps the driver channel, so the next Create on that
      id meets an existing channel; the corrected Create removes it. */
  method JpegParamsUnreadable() returns (asWrittenLeft: bool, correctedLeft: bool)
    ensures asWrittenLeft && !correctedLeft
  {
    var p := VencCreateParams(PtJpeg, 640, 480, 25, 0);
    var calls := CreateCalls(true, true, true, false, true, true);
    var s := new MpsVencService(4, 64, 1);
    var h := s.CreateAsWritten(true, p, calls);
    asWrittenLeft := 0 in s.channels;
    var t := new MpsVencService(4, 64, 1);
    var k := t.Create(true, p, calls);
    correctedLeft := 0 in t.channels;
  }
}
