// The MLU370 encoder (src/mlu370/cnedk_encode_impl_mlu370.cpp): parameter
// normalisation at creation, the queue of codec input frames that failed
// to go out and are reused, end of stream, and the rule that holds the
// SPS/PPS header packet back until the first picture is delivered.
module Mlu370Encode {
  import opened Common
  import SurfaceUtils

  /** CnedkVencType. */
  const VENC_H264: int := 1
  const VENC_H265: int := 2
  const VENC_JPEG: int := 3

  /** The frame rate used when none is given and the largest accepted,
      both in hundredths of a frame per second. */
  const DEFAULT_FRAME_RATE: nat := 3000
  const MAX_FRAME_RATE: nat := 12000
  /** The fewest codec input buffers the encoder asks for. */
  const MIN_INPUT_BUFFERS: int := 3

  /** CnedkVencCreateParams, with the frame rate already in hundredths
      (the source multiplies a double by 100). */
  datatype VencParams = VencParams(
    deviceId: int,
    inputBufNum: int,
    frameRate100: nat,
    colorFormat: int,
    codecType: int,
    width: nat,
    height: nat,
    jpegQuality: nat)

  /** The answer of cncodecEncSendFrame. */
  datatype SendCode = Sent | SendTimeout | SendFailed

  /** The codec's NAL type for an encoded packet. */
  datatype StreamType = SpsPpsNalu | IdrNalu | INalu | EosNalu | OtherNalu

  /** CnedkVencPakageType as this encoder assigns it. */
  datatype PacketKind = HeaderPacket | KeyFramePacket | FramePacket

  /** A packet handed to the OnFrameBits callback. */
  datatype Packet = Packet(kind: PacketKind, bits: seq<Byte>, pts: nat)

  /** The frame rate the encoder runs at: 0 becomes the default, anything
      above the maximum is capped. */
  function NormalizeFrameRate(fr: nat): (r: nat)
    ensures 0 < r <= MAX_FRAME_RATE
    ensures fr == 0 ==> r == DEFAULT_FRAME_RATE
    ensures 0 < fr <= MAX_FRAME_RATE ==> r == fr
    ensures fr > MAX_FRAME_RATE ==> r == MAX_FRAME_RATE
  {
    var r0 := if fr > 0 then fr else DEFAULT_FRAME_RATE;
    if r0 < MAX_FRAME_RATE then r0 else MAX_FRAME_RATE
  }

  /** The packet kind for a stream type; EOS packets have none and are
      dropped. */
  function KindOf(t: StreamType): (k: Option<PacketKind>)
    ensures k.None? <==> t == EosNalu
    ensures k == Some(HeaderPacket) <==> t == SpsPpsNalu
    ensures k == Some(KeyFramePacket) <==> t == IdrNalu || t == INalu
  {
    match t
    case SpsPpsNalu => Some(HeaderPacket)
    case IdrNalu => Some(KeyFramePacket)
    case INalu => Some(KeyFramePacket)
    case EosNalu => None
    case OtherNalu => Some(FramePacket)
  }

  /** The answer to flush attempt `i`; a missing answer is a success. */
  function FlushCodeAt(codes: seq<SendCode>, i: nat): SendCode
  {
    if i < |codes| then codes[i] else Sent
  }

  /** How many of the first `n` flush attempts succeed. */
  function SentCount(codes: seq<SendCode>, n: nat): (c: nat)
    ensures c <= n
  {
    if n == 0 then 0
    else SentCount(codes, n - 1) + (if FlushCodeAt(codes, n - 1) == Sent then 1 else 0)
  }

  class EncoderMlu370 {
    var created: bool
    var eosSent: bool
    /** first_frame_: no picture packet has been delivered yet. */
    var firstFrame: bool
    var inputBufferCount: int
    var width: nat
    var height: nat
    var frameRate: nat
    var codecType: int
    var colorFormat: int
    var jpegQuality: nat
    /** cnframe_queue_: codec input frames (by id) waiting to be reused. */
    var queue: seq<nat>
    /** frame_count_. */
    var frameCount: nat
    /** head_pkg_: the header packet held back until the first picture. */
    var head: Option<Packet>
    /** The packets delivered to the OnFrameBits callback, in order. */
    var delivered: seq<Packet>

    /** Nothing is delivered before the first picture, and what is held
        back is a header. */
    ghost predicate Valid()
      reads this
    {
      (firstFrame ==> delivered == []) &&
      (head.Some? ==> head.value.kind == HeaderPacket)
    }

    /** A fresh encoder; `jpegQuality` is the quality used when the caller
        gives none. */
    constructor (jpegQuality: nat)
      ensures Valid()
      ensures !created && !eosSent && firstFrame && queue == [] && frameCount == 0
      ensures head.None? && delivered == [] && this.jpegQuality == jpegQuality
    {
      created := false;
      eosSent := false;
      firstFrame := true;
      inputBufferCount := 0;
      width := 0;
      height := 0;
      frameRate := 0;
      codecType := 0;
      colorFormat := 0;
      this.jpegQuality := jpegQuality;
      queue := [];
      frameCount := 0;
      head := None;
      delivered := [];
    }

    /** Create: at least three input buffers, even picture sizes and a
        bounded frame rate are recorded first; then the codec must be H264,
        H265 or JPEG and the colour format NV12 or NV21, else -1; a JPEG
        quality above 100 is capped (0 keeps the default); the codec
        instance must be created (`createOk`). */
    method Create(p: VencParams, createOk: bool) returns (r: int)
      modifies this`created, this`inputBufferCount, this`width, this`height, this`frameRate,
               this`codecType, this`colorFormat, this`jpegQuality
      ensures inputBufferCount == Max(p.inputBufNum, MIN_INPUT_BUFFERS)
      ensures width == EvenDown(p.width) && height == EvenDown(p.height)
      ensures frameRate == NormalizeFrameRate(p.frameRate100)
      ensures r == 0 || r == -1
      ensures r == 0 <==>
        (p.codecType == VENC_H264 || p.codecType == VENC_H265 || p.codecType == VENC_JPEG) &&
        (p.colorFormat == SurfaceUtils.FMT_NV12 || p.colorFormat == SurfaceUtils.FMT_NV21) && createOk
      ensures created == (r == 0 || old(created))
      ensures r == 0 ==> codecType == p.codecType && colorFormat == p.colorFormat
      ensures r == 0 ==>
        jpegQuality == (if p.codecType == VENC_JPEG && p.jpegQuality != 0 then Min(p.jpegQuality, 100)
                        else old(jpegQuality))
    {
      inputBufferCount := if p.inputBufNum < MIN_INPUT_BUFFERS then MIN_INPUT_BUFFERS else p.inputBufNum;
      width := EvenDown(p.width);
      height := EvenDown(p.height);
      frameRate := NormalizeFrameRate(p.frameRate100);
      if p.codecType == VENC_H264 || p.codecType == VENC_H265 || p.codecType == VENC_JPEG {
        codecType := p.codecType;
      } else {
        return -1;
      }
      if p.colorFormat != SurfaceUtils.FMT_NV12 && p.colorFormat != SurfaceUtils.FMT_NV21 {
        return -1;
      }
      colorFormat := p.colorFormat;
      if p.codecType == VENC_JPEG && p.jpegQuality != 0 {
        jpegQuality := if p.jpegQuality > 100 then 100 else p.jpegQuality;
      }
      if !createOk {
        return -1;
      }
      created := true;
      return 0;
    }

    /** RequestFrame: a queued frame is reused first; otherwise the codec
        is asked for a free input buffer (`available`, None when the wait
        times out or fails, giving -1). */
    method RequestFrame(available: Option<nat>) returns (r: int, frame: Option<nat>)
      modifies this`queue
      ensures |old(queue)| > 0 ==> r == 0 && frame == Some(old(queue)[0]) && queue == old(queue)[1..]
      ensures |old(queue)| == 0 ==> queue == [] && frame == available && (r == 0 <==> available.Some?)
      ensures r == 0 || r == -1
    {
      if |queue| > 0 {
        frame := Some(queue[0]);
        queue := queue[1..];
        return 0, frame;
      }
      if available.None? {
        return -1, None;
      }
      return 0, available;
    }

    /** SendFrame: -1 before Create. End of stream (no surface or no data)
        is sent once, a repeat gives 0; before it every queued frame goes to
        the codec (`flush` holds the answers) and the queue empties; the
        result is the codec's EOS answer `eosCode`. A picture takes a frame
        from RequestFrame (its failure is returned), converts into it
        (`transformOk`; on failure the frame is queued again and -1
        returned) and sends it (`send`; a failed send queues the frame again
        and still returns 0). */
    method SendFrame(isEos: bool, flush: seq<SendCode>, eosCode: int,
                     available: Option<nat>, transformOk: bool, send: SendCode) returns (r: int)
      modifies this`queue, this`frameCount, this`eosSent
      ensures !created ==> r == -1 && unchanged(this)
      ensures created && isEos && old(eosSent) ==> r == 0 && unchanged(this)
      ensures created && isEos && !old(eosSent) ==>
        r == eosCode && eosSent && queue == [] &&
        frameCount == old(frameCount) + SentCount(flush, |old(queue)|)
      ensures created && !isEos ==> eosSent == old(eosSent)
      ensures created && !isEos && |old(queue)| == 0 && available.None? ==>
        r == -1 && queue == [] && frameCount == old(frameCount)
      ensures created && !isEos && (|old(queue)| > 0 || available.Some?) ==>
        var frame := if |old(queue)| > 0 then old(queue)[0] else available.value;
        var rest := if |old(queue)| > 0 then old(queue)[1..] else [];
        (!transformOk ==> r == -1 && queue == rest + [frame] && frameCount == old(frameCount)) &&
        (transformOk && send == Sent ==> r == 0 && queue == rest && frameCount == old(frameCount) + 1) &&
        (transformOk && send != Sent ==> r == 0 && queue == rest + [frame] && frameCount == old(frameCount))
    {
      if !created {
        return -1;
      }
      if isEos {
        if eosSent {
          return 0;
        }
        var i := 0;
        ghost var n := |queue|;
        while |queue| > 0
          invariant i + |queue| == n
          invariant frameCount == old(frameCount) + SentCount(flush, i)
          decreases |queue|
        {
          queue := queue[1..];
          if FlushCodeAt(flush, i) == Sent {
            frameCount := frameCount + 1;
          }
          i := i + 1;
        }
        eosSent := true;
        return eosCode;
      }
      var got, frame := RequestFrame(available);
      if got < 0 {
        return got;
      }
      if !transformOk {
        queue := queue + [frame.value];
        return -1;
      }
      if send == Sent {
        frameCount := frameCount + 1;
      } else {
        queue := queue + [frame.value];
      }
      return 0;
    }

    /** Destroy: nothing to do before Create; otherwise EOS is sent unless
        it was already, and the encoder is no longer created. */
    method Destroy(flush: seq<SendCode>, eosCode: int) returns (r: int)
      modifies this`queue, this`frameCount, this`eosSent, this`created
      ensures r == 0
      ensures !old(created) ==> unchanged(this)
      ensures old(created) ==> !created && eosSent
      ensures old(created) && !old(eosSent) ==> queue == [] && frameCount == old(frameCount) + SentCount(flush, |old(queue)|)
    {
      if !created {
        return 0;
      }
      if !eosSent {
        var _ := SendFrame(true, flush, eosCode, None, false, Sent);
      }
      created := false;
      return 0;
    }

    /** OnFrameBits: with a callback set, the packet is classified; EOS
        packets and packets whose copy to the host fails (`copyOk`) are
        dropped; before the first picture a header packet is held back
        (replacing an earlier one); the first picture is preceded by the
        held header; every other packet is delivered as it comes. */
    method OnFrameBits(hasCallback: bool, t: StreamType, bits: seq<Byte>, pts: nat, copyOk: bool)
      requires Valid()
      modifies this`head, this`firstFrame, this`delivered
      ensures Valid()
      ensures !hasCallback || t == EosNalu || !copyOk ==> unchanged(this)
      ensures hasCallback && t != EosNalu && copyOk ==>
        var pkt := Packet(KindOf(t).value, bits, pts);
        (old(firstFrame) && t == SpsPpsNalu ==>
          head == Some(pkt) && firstFrame && delivered == []) &&
        (old(firstFrame) && t != SpsPpsNalu ==>
          !firstFrame && head == old(head) &&
          delivered == (if old(head).Some? then [old(head).value] else []) + [pkt]) &&
        (!old(firstFrame) ==> !firstFrame && head == old(head) && delivered == old(delivered) + [pkt])
    {
      if !hasCallback {
        return;
      }
      var kind := KindOf(t);
      if kind.None? || !copyOk {
        return;
      }
      var pkt := Packet(kind.value, bits, pts);
      if firstFrame && pkt.kind == HeaderPacket {
        head := Some(pkt);
        return;
      }
      if firstFrame {
        firstFrame := false;
        if head.Some? {
          delivered := delivered + [head.value];
        }
      }
      delivered := delivered + [pkt];
    }
  }

  /** The header packet that arrives before the first picture is delivered
      right before it, and later headers go out as they come. */
  method HeaderPrecedesFirstPicture(sps: seq<Byte>, idr: seq<Byte>, p: seq<Byte>)
    returns (out: seq<Packet>)
    ensures out == [Packet(HeaderPacket, sps, 0), Packet(KeyFramePacket, idr, 1),
                    Packet(HeaderPacket, sps, 2), Packet(FramePacket, p, 3)]
  {
    var e := new EncoderMlu370(50);
    e.OnFrameBits(true, SpsPpsNalu, sps, 0, true);
    e.OnFrameBits(true, EosNalu, [], 9, true);
    e.OnFrameBits(true, IdrNalu, idr, 1, true);
    e.OnFrameBits(true, SpsPpsNalu, sps, 2, true);
    e.OnFrameBits(true, OtherNalu, p, 3, true);
    out := e.delivered;
  }

  /** A frame whose send fails is queued and is the next one reused, so
      the following picture does not wait on the codec. */
  method FailedSendIsReused() returns (first: int, second: int, queued: seq<nat>, sent: nat)
    ensures first == 0 && second == 0 && queued == [] && sent == 1
  {
    var e := new EncoderMlu370(50);
    var p := VencParams(0, 4, 2500, SurfaceUtils.FMT_NV12, VENC_H264, 1920, 1080, 0);
    var c := e.Create(p, true);
    first := e.SendFrame(false, [], 0, Some(7), true, SendTimeout);
    assert e.queue == [7];
    second := e.SendFrame(false, [], 0, None, true, Sent);
    queued, sent := e.queue, e.frameCount;
  }
}
