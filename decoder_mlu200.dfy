// The MLU200 hardware decoder front end (src/easycodec/decoder_mlu200.cpp):
// the flags that gate feeding data and end-of-stream, the handling of
// codec events, and the table that carries 64-bit presentation timestamps
// through the video codec, which only keeps 32-bit ones.
module Mlu200Decode {
  import opened Common

  /** EasyDecode::Status, as far as this decoder moves it. */
  datatype DecodeStatus = RUNNING | STOP | EOS | ERROR

  /** The answer of one cncodec feed call. */
  datatype CallCode = CallOk | CallTimeout | CallFailed

  /** How a feed ends: accepted, refused by a flag check (false), or with
      the TIMEOUT or INTERNAL exception. */
  datatype FeedReply = Accepted | Refused | ThrownTimeout | ThrownInternal

  /** Events the codec reports through the callback, apart from new frames
      and sequence headers. */
  datatype CodecEvent = EventEos | SwReset | HwReset | OutOfMemory | AbortError | StreamCorrupt | UnknownEvent

  datatype CodecType = H264 | H265 | VP8 | VP9 | JPEG | MJPEG | OtherCodec
  datatype PixelFmt = NV12 | NV21 | I420 | P010 | YUYV | UYVY | OtherPixelFmt

  /** The codec's answer to attempt `i`; the feed loop never asks past its
      third attempt, and an answer missing from `codes` is a success. */
  function CodeAt(codes: seq<CallCode>, i: nat): CallCode
  {
    if i < |codes| then codes[i] else CallOk
  }

  /** The retry rule of FeedVideoData and FeedJpegData: a timeout is
      retried, the third timeout throws TIMEOUT, any other error throws
      INTERNAL at once. */
  function FeedAttempts(codes: seq<CallCode>, i: nat): (r: FeedReply)
    requires i < 3
    ensures r != Refused
    decreases 3 - i
  {
    match CodeAt(codes, i)
    case CallOk => Accepted
    case CallFailed => ThrownInternal
    case CallTimeout => if i == 2 then ThrownTimeout else FeedAttempts(codes, i + 1)
  }

  /** The retry rule stated without the loop: TIMEOUT exactly when all
      three attempts time out, acceptance exactly when some attempt among
      the three succeeds after nothing but timeouts. */
  lemma {:induction false} FeedAttemptsIff(codes: seq<CallCode>)
    ensures FeedAttempts(codes, 0) == ThrownTimeout <==>
      forall i :: 0 <= i < 3 ==> CodeAt(codes, i) == CallTimeout
    ensures FeedAttempts(codes, 0) == Accepted <==>
      exists i :: 0 <= i < 3 && CodeAt(codes, i) == CallOk &&
        forall j :: 0 <= j < i ==> CodeAt(codes, j) == CallTimeout
  {
    if CodeAt(codes, 0) == CallTimeout {
      if CodeAt(codes, 1) == CallTimeout {
        assert FeedAttempts(codes, 0) == FeedAttempts(codes, 2);
        if CodeAt(codes, 2) == CallOk {
          assert forall j :: 0 <= j < 2 ==> CodeAt(codes, j) == CallTimeout;
        }
      } else {
        assert FeedAttempts(codes, 0) == FeedAttempts(codes, 1);
        if CodeAt(codes, 1) == CallOk {
          assert forall j :: 0 <= j < 1 ==> CodeAt(codes, j) == CallTimeout;
        }
      }
    }
  }

  /** The constructor's format tables: video codecs take NV12, NV21, I420
      or P010, JPEG and MJPEG take NV12, NV21, YUYV or UYVY; anything else
      throws INIT_FAILED. */
  function Supported(codec: CodecType, fmt: PixelFmt): (ok: bool)
    ensures ok && (codec == JPEG || codec == MJPEG) ==> fmt in {NV12, NV21, YUYV, UYVY}
    ensures ok && codec != JPEG && codec != MJPEG ==> codec in {H264, H265, VP8, VP9} && fmt in {NV12, NV21, I420, P010}
    ensures fmt in {NV12, NV21} && codec != OtherCodec ==> ok
  {
    match codec
    case JPEG | MJPEG => fmt in {NV12, NV21, YUYV, UYVY}
    case H264 | H265 | VP8 | VP9 => fmt in {NV12, NV21, I420, P010}
    case OtherCodec => false
  }

  class Mlu200Decoder {
    /** jpeg_decode_. */
    const jpeg: bool
    /** Whether handle_ is non-null. */
    var handle: bool
    var status: DecodeStatus
    /** send_eos_ and got_eos_. */
    var sendEos: bool
    var gotEos: bool
    /** pts_key_, a uint32_t counter. */
    var ptsKey: nat
    /** vpu_pts_map_: codec key to the caller's timestamp. */
    var ptsMap: map<nat, nat>
    /** packets_count_. */
    var packets: nat

    /** The key counter and every key fit 32 bits, and the JPEG codec,
        which carries the caller's timestamp itself, leaves the table
        empty. */
    ghost predicate Valid()
      reads this
    {
      ptsKey < U32_MOD && (forall k :: k in ptsMap ==> k < U32_MOD) &&
      (jpeg ==> ptsMap == map[])
    }

    /** A decoder whose codec channel was created; construction throws
        INIT_FAILED otherwise (Supported, and the create calls). */
    constructor (codec: CodecType, fmt: PixelFmt)
      requires Supported(codec, fmt)
      ensures Valid()
      ensures jpeg == (codec == JPEG || codec == MJPEG)
      ensures handle && status == RUNNING && !sendEos && !gotEos
      ensures ptsKey == 0 && ptsMap == map[] && packets == 0
    {
      jpeg := codec == JPEG || codec == MJPEG;
      handle := true;
      status := RUNNING;
      sendEos := false;
      gotEos := false;
      ptsKey := 0;
      ptsMap := map[];
      packets := 0;
    }

    /** SetVpuTimestamp: hand out the next key (wrapping at 2^32) and
        remember `pts` under it. */
    method SetVpuTimestamp(pts: nat) returns (key: nat)
      requires ptsKey < U32_MOD && forall k :: k in ptsMap ==> k < U32_MOD
      modifies this`ptsKey, this`ptsMap
      ensures key == old(ptsKey) && key < U32_MOD
      ensures ptsKey == U32(old(ptsKey) + 1)
      ensures ptsMap == old(ptsMap)[key := pts]
      ensures forall k :: k in ptsMap ==> k < U32_MOD
    {
      key := ptsKey;
      ptsKey := U32(ptsKey + 1);
      ptsMap := ptsMap[key := pts];
    }

    /** GetVpuTimestamp: a known key is always erased; the timestamp comes
        back, with true, only when the caller asked for it (`wantPts`, the
        out pointer being non-null). */
    method GetVpuTimestamp(key: nat, wantPts: bool) returns (found: bool, pts: Option<nat>)
      modifies this`ptsMap
      ensures found <==> key in old(ptsMap) && wantPts
      ensures found ==> pts == Some(old(ptsMap)[key])
      ensures !found ==> pts.None?
      ensures ptsMap == old(ptsMap) - {key}
    {
      if key in ptsMap {
        if wantPts {
          pts := Some(ptsMap[key]);
          ptsMap := ptsMap - {key};
          return true, pts;
        }
        ptsMap := ptsMap - {key};
        return false, None;
      }
      return false, None;
    }

    /** FeedData: refused without a codec handle or once EOS was sent;
        otherwise the packet goes to the codec with up to three attempts.
        A video packet's timestamp is stored under a fresh key first and
        erased again if the feed fails; a failed feed sets ERROR. */
    method FeedData(pts: nat, codes: seq<CallCode>) returns (r: FeedReply)
      requires Valid()
      modifies this`ptsKey, this`ptsMap, this`status, this`packets
      ensures Valid()
      ensures !old(handle) || old(sendEos) ==> r == Refused && unchanged(this)
      ensures old(handle) && !old(sendEos) ==> r == FeedAttempts(codes, 0)
      ensures r == Accepted && !jpeg ==>
        ptsMap == old(ptsMap)[old(ptsKey) := pts] && ptsKey == U32(old(ptsKey) + 1) &&
        packets == old(packets) + 1 && status == old(status)
      ensures r == Accepted && jpeg ==>
        ptsMap == old(ptsMap) && ptsKey == old(ptsKey) && packets == old(packets) && status == old(status)
      ensures r in {ThrownTimeout, ThrownInternal} ==> status == ERROR && packets == old(packets)
      ensures r in {ThrownTimeout, ThrownInternal} && !jpeg ==>
        ptsMap == old(ptsMap) - {old(ptsKey)} && ptsKey == U32(old(ptsKey) + 1)
    {
      if !handle || sendEos {
        return Refused;
      }
      var key := pts % U32_MOD;
      if !jpeg {
        key := SetVpuTimestamp(pts);
      }
      var i := 0;
      while true
        invariant 0 <= i < 3
        invariant FeedAttempts(codes, i) == FeedAttempts(codes, 0)
        invariant forall j :: 0 <= j < i ==> CodeAt(codes, j) == CallTimeout
        invariant unchanged(this`status) && unchanged(this`packets)
        decreases 3 - i
      {
        var code := CodeAt(codes, i);
        if code == CallTimeout {
          if i == 2 {
            var _, _ := GetVpuTimestamp(key, false);
            status := ERROR;
            return ThrownTimeout;
          }
          i := i + 1;
        } else if code == CallFailed {
          var _, _ := GetVpuTimestamp(key, false);
          status := ERROR;
          return ThrownInternal;
        } else {
          break;
        }
      }
      if !jpeg {
        packets := packets + 1;
      }
      return Accepted;
    }

    /** FeedEos: refused after an error or once EOS was sent; a timeout or
        failure of the EOS call sets ERROR and throws; success sets
        send_eos_. */
    method FeedEos(code: CallCode) returns (r: FeedReply)
      modifies this`status, this`sendEos
      ensures old(status) == ERROR || old(sendEos) ==> r == Refused && unchanged(this)
      ensures old(status) != ERROR && !old(sendEos) ==>
        (r == Accepted <==> code == CallOk) &&
        (r == ThrownTimeout <==> code == CallTimeout) &&
        (r == ThrownInternal <==> code == CallFailed)
      ensures r == Accepted ==> sendEos && status == old(status)
      ensures r in {ThrownTimeout, ThrownInternal} ==> status == ERROR && sendEos == old(sendEos)
    {
      if status == ERROR {
        return Refused;
      }
      if sendEos {
        return Refused;
      }
      if code == CallTimeout {
        status := ERROR;
        return ThrownTimeout;
      } else if code == CallFailed {
        status := ERROR;
        return ThrownInternal;
      }
      sendEos := true;
      return Accepted;
    }

    /** AbortDecoder: with a codec handle, drop it, stop, and mark EOS as
        both sent and received so nobody waits for it; without one, do
        nothing. */
    method AbortDecoder()
      modifies this`handle, this`status, this`sendEos, this`gotEos
      ensures old(handle) ==> !handle && status == STOP && sendEos && gotEos
      ensures !old(handle) ==> unchanged(this)
    {
      if handle {
        handle := false;
        status := STOP;
        sendEos := true;
        gotEos := true;
      }
    }

    /** ReceiveEvent: end of stream moves to EOS and marks it received, a
        corrupt stream is only logged, every other event (resets, out of
        memory, abort errors, unknown events) sets ERROR. */
    method ReceiveEvent(event: CodecEvent)
      modifies this`status, this`gotEos
      ensures event == EventEos ==> status == EOS && gotEos
      ensures event == StreamCorrupt ==> unchanged(this)
      ensures event != EventEos && event != StreamCorrupt ==> status == ERROR && gotEos == old(gotEos)
    {
      match event
      case EventEos =>
        status := EOS;
        gotEos := true;
      case StreamCorrupt =>
      case _ =>
        status := ERROR;
    }

    /** ReceiveFrame's timestamp lookup for a video frame: the key the
        codec returns is looked up and erased; a missing key leaves the
        frame without the caller's timestamp. */
    method FrameTimestamp(key: nat) returns (pts: Option<nat>)
      modifies this`ptsMap
      ensures pts.Some? <==> key in old(ptsMap)
      ensures pts.Some? ==> pts.value == old(ptsMap)[key]
      ensures ptsMap == old(ptsMap) - {key}
    {
      var _, p := GetVpuTimestamp(key, true);
      pts := p;
    }

    /** The destructor's end-of-stream handshake: an errored decoder with a
        handle is aborted, the status becomes STOP, a decoder without a
        handle counts EOS as sent and received, and otherwise EOS is fed.
        The result says whether the destructor then waits for the codec's
        EOS event; an exception from feeding EOS is caught and skips the
        wait, leaving the status at ERROR. */
    method Close(eosCode: CallCode) returns (waits: bool)
      modifies this`handle, this`status, this`sendEos, this`gotEos
      ensures var feeds := old(handle) && old(status) != ERROR && !old(gotEos) && !old(sendEos);
        status == (if feeds && eosCode != CallOk then ERROR else STOP) &&
        (waits <==> old(handle) && old(status) != ERROR && !old(gotEos) && (!feeds || eosCode == CallOk))
      ensures !old(handle) || old(status) == ERROR ==> !handle && sendEos && gotEos
      ensures handle == (old(handle) && old(status) != ERROR)
    {
      if status == ERROR && handle {
        AbortDecoder();
      }
      status := STOP;
      if !handle {
        sendEos := true;
        gotEos := true;
      }
      if !gotEos && !sendEos {
        var r := FeedEos(eosCode);
        if r != Accepted {
          return false;
        }
      }
      waits := !gotEos;
    }
  }

  /** A timestamp stored by SetVpuTimestamp comes back once from
      GetVpuTimestamp under the returned key, and a second lookup finds
      nothing. */
  method TimestampRoundTrip(d: Mlu200Decoder, pts: nat) returns (first: Option<nat>, second: Option<nat>)
    requires d.Valid()
    modifies d
    ensures first == Some(pts) && second.None?
    ensures d.ptsMap == old(d.ptsMap) - {old(d.ptsKey)}
  {
    var key := d.SetVpuTimestamp(pts);
    var _, p := d.GetVpuTimestamp(key, true);
    first := p;
    var _, q := d.GetVpuTimestamp(key, true);
    second := q;
  }

  /** After EOS was fed no more data is accepted, and a second EOS is
      refused as well. */
  method NoDataAfterEos(codec: CodecType, fmt: PixelFmt) returns (eos: FeedReply, data: FeedReply, again: FeedReply)
    requires Supported(codec, fmt)
    ensures eos == Accepted && data == Refused && again == Refused
  {
    var d := new Mlu200Decoder(codec, fmt);
    eos := d.FeedEos(CallOk);
    data := d.FeedData(0, []);
    again := d.FeedEos(CallOk);
  }
}
