// The MLU590 decoder (src/mlu590/cnedk_decode_impl_mlu590.cpp): creation
// checks and codec parameters, the send state machine with its EOS and
// error flags, and the rules applied to sequence headers and frames the
// codec reports back.
module Mlu590Decode {
  import opened Common
  import opened VdecApi
  import SurfaceUtils

  /** DECODE_MAX_TRY_SEND_TIME. */
  const MAX_TRY_SEND: nat := 3
  /** JPEG frame bounds used when the caller gives none. */
  const JPEG_MAX_WIDTH: nat := 7680
  const JPEG_MAX_HEIGHT: nat := 4320

  /** The answer of cncodecDecSendStream. */
  datatype SendCode = SendOk | BadStream | NotSupported | SendTimeout | SendOther

  /** Events reported through the codec callback, apart from frames and
      sequence headers. */
  datatype DecodeEvent = StreamCorrupt | StreamNotSupported | UnknownEvent

  predicate SupportedCodec(codecType: int)
  {
    codecType == VDEC_H264 || codecType == VDEC_H265 || codecType == VDEC_JPEG
  }

  predicate SupportedColor(colorFormat: int)
  {
    colorFormat == SurfaceUtils.FMT_NV12 || colorFormat == SurfaceUtils.FMT_NV21
  }

  /** Create's result as written: -1 for an unsupported codec or colour
      format or a failed cncodecDecCreate; for JPEG the bool from
      SetDecParams converted to int (1 when the parameters are taken, 0
      when they are not); 0 otherwise. */
  function CreateCodeAsWritten(p: VdecParams, createOk: bool, setParamsOk: bool): (r: int)
    ensures r == -1 <==> !SupportedCodec(p.codecType) || !SupportedColor(p.colorFormat) || !createOk
    ensures r == 1 <==> SupportedCodec(p.codecType) && SupportedColor(p.colorFormat) && createOk &&
                        p.codecType == VDEC_JPEG && setParamsOk
  {
    if !SupportedCodec(p.codecType) || !SupportedColor(p.colorFormat) || !createOk then -1
    else if p.codecType == VDEC_JPEG then (if setParamsOk then 1 else 0)
    else 0
  }

  /** Create's result as intended: 0 exactly when the codec and colour
      format are supported, the codec instance is created and, for JPEG,
      the codec takes the parameters; -1 otherwise. */
  function CreateCode(p: VdecParams, createOk: bool, setParamsOk: bool): (r: int)
    ensures r == 0 || r == -1
    ensures r == 0 <==> SupportedCodec(p.codecType) && SupportedColor(p.colorFormat) && createOk &&
                        (p.codecType == VDEC_JPEG ==> setParamsOk)
  {
    if !SupportedCodec(p.codecType) || !SupportedColor(p.colorFormat) || !createOk then -1
    else if p.codecType == VDEC_JPEG && !setParamsOk then -1
    else 0
  }

  /** The two differ only on a JPEG decoder whose parameters the codec
      refuses, where the code as written reports success (0, since callers
      test for a negative result) and on a fully successful JPEG creation,
      which it reports as 1. */
  lemma CreateCodesDiffer(p: VdecParams, createOk: bool, setParamsOk: bool)
    ensures CreateCodeAsWritten(p, createOk, setParamsOk) != CreateCode(p, createOk, setParamsOk) <==>
      SupportedCodec(p.codecType) && SupportedColor(p.colorFormat) && createOk && p.codecType == VDEC_JPEG
    ensures CreateCodeAsWritten(p, createOk, setParamsOk) >= 0 && CreateCode(p, createOk, setParamsOk) < 0 <==>
      SupportedCodec(p.codecType) && SupportedColor(p.colorFormat) && createOk &&
      p.codecType == VDEC_JPEG && !setParamsOk
  {
  }

  /** The send loop: a timeout is retried, three timeouts give -2, a bad
      or unsupported stream gives -3, any other error -1, success 0. An
      answer missing from `codes` counts as a success. */
  function SendAttempts(codes: seq<SendCode>, i: nat): (r: int)
    requires i <= MAX_TRY_SEND
    ensures r in {0, -1, -2, -3}
    decreases MAX_TRY_SEND - i
  {
    if i == MAX_TRY_SEND then -2
    else
      match (if i < |codes| then codes[i] else SendOk)
      case SendOk => 0
      case BadStream => -3
      case NotSupported => -3
      case SendOther => -1
      case SendTimeout => SendAttempts(codes, i + 1)
  }

  function SendCodeAt(codes: seq<SendCode>, i: nat): SendCode
  {
    if i < |codes| then codes[i] else SendOk
  }

  /** -2 exactly when all three attempts time out; otherwise the answer of
      the first attempt that does not time out decides. */
  lemma {:induction false} SendAttemptsIff(codes: seq<SendCode>, i: nat)
    requires i <= MAX_TRY_SEND
    ensures SendAttempts(codes, i) == -2 <==>
      forall j :: i <= j < MAX_TRY_SEND ==> SendCodeAt(codes, j) == SendTimeout
    ensures SendAttempts(codes, i) == 0 <==>
      exists j :: i <= j < MAX_TRY_SEND && SendCodeAt(codes, j) == SendOk &&
        forall k :: i <= k < j ==> SendCodeAt(codes, k) == SendTimeout
    decreases MAX_TRY_SEND - i
  {
    if i < MAX_TRY_SEND {
      SendAttemptsIff(codes, i + 1);
      if SendCodeAt(codes, i) == SendTimeout {
        if SendAttempts(codes, i) == 0 {
          var j :| i + 1 <= j < MAX_TRY_SEND && SendCodeAt(codes, j) == SendOk &&
            forall k :: i + 1 <= k < j ==> SendCodeAt(codes, k) == SendTimeout;
          assert forall k :: i <= k < j ==> SendCodeAt(codes, k) == SendTimeout;
        }
        if exists j :: i <= j < MAX_TRY_SEND && SendCodeAt(codes, j) == SendOk &&
             forall k :: i <= k < j ==> SendCodeAt(codes, k) == SendTimeout {
          var j :| i <= j < MAX_TRY_SEND && SendCodeAt(codes, j) == SendOk &&
            forall k :: i <= k < j ==> SendCodeAt(codes, k) == SendTimeout;
          assert j != i;
        }
      }
    }
  }

  /** OnFrame's geometry fix-up on the codec's uint32 fields: the width is
      rounded up and the height down to an even number. */
  function EvenFrameDims(width: nat, height: nat): (d: (nat, nat))
    requires width < U32_MOD && height < U32_MOD
    ensures d.1 % 2 == 0 && d.1 <= height < d.1 + 2
    ensures width + 1 < U32_MOD ==> d.0 % 2 == 0 && width <= d.0 <= width + 1
    ensures width + 1 == U32_MOD ==> d.0 == 0
  {
    (U32(width + width % 2), height - height % 2)
  }

  /** What OnFrame does with a decoded frame. */
  datatype FrameRoute = ReportError | Dropped | Transform | Copy | AsIs

  /** OnFrame: a failed GetBufSurf reports an error; a surface outside
      device memory is dropped; an NV12/NV21 frame is transformed when the
      surface's size differs from the (even-rounded) frame and copied
      plane by plane when it matches; other formats are passed on as they
      are. Every route but the first two ends in the OnFrame callback,
      including a transform that fails. */
  function RouteFrame(gotSurface: bool, deviceMemory: bool, nv12or21: bool, sameSize: bool): (r: FrameRoute)
    ensures r == ReportError <==> !gotSurface
    ensures r == Dropped <==> gotSurface && !deviceMemory
    ensures r == Transform <==> gotSurface && deviceMemory && nv12or21 && !sameSize
    ensures r == Copy <==> gotSurface && deviceMemory && nv12or21 && sameSize
  {
    if !gotSurface then ReportError
    else if !deviceMemory then Dropped
    else if !nv12or21 then AsIs
    else if sameSize then Copy
    else Transform
  }

  class DecoderMlu590 {
    /** created_, eos_sent_, error_flag_. */
    var created: bool
    var eosSent: bool
    var errorFlag: bool
    /** The parts of codec_params_ the model follows. */
    var maxWidth: nat
    var maxHeight: nat
    var outputBufNum: nat
    var strideAlign: nat
    /** receive_seq_time_. */
    var seqCount: nat
    /** How many times the OnError callback was called. */
    var errorsReported: nat

    constructor ()
      ensures !created && !eosSent && !errorFlag
      ensures maxWidth == 0 && maxHeight == 0 && outputBufNum == 0 && seqCount == 0 && errorsReported == 0
    {
      created := false;
      eosSent := false;
      errorFlag := false;
      maxWidth := 0;
      maxHeight := 0;
      outputBufNum := 0;
      strideAlign := 0;
      seqCount := 0;
      errorsReported := 0;
    }

    /** The part of Create before the JPEG decoder hands its parameters to
        the codec: parameters cleared, codec and format checked, flags
        reset, the codec instance created (`createOk`), and the frame
        bounds set (JPEG defaults when zero; for video only when both are
        given). */
    method Setup(p: VdecParams, createOk: bool) returns (r: int)
      modifies this`created, this`eosSent, this`errorFlag, this`maxWidth, this`maxHeight,
               this`outputBufNum, this`strideAlign
      ensures r == 0 <==> SupportedCodec(p.codecType) && SupportedColor(p.colorFormat) && createOk
      ensures r == 0 || r == -1
      ensures !SupportedCodec(p.codecType) || !SupportedColor(p.colorFormat) ==>
        created == old(created) && eosSent == old(eosSent) && errorFlag == old(errorFlag)
      ensures SupportedCodec(p.codecType) && SupportedColor(p.colorFormat) ==>
        created == createOk && !eosSent && !errorFlag
      ensures r == 0 && p.codecType == VDEC_JPEG ==>
        maxWidth == (if p.maxWidth != 0 then p.maxWidth else JPEG_MAX_WIDTH) &&
        maxHeight == (if p.maxHeight != 0 then p.maxHeight else JPEG_MAX_HEIGHT) &&
        outputBufNum == 2 && strideAlign == 64
      ensures r == 0 && p.codecType != VDEC_JPEG ==>
        maxWidth == (if p.maxWidth != 0 && p.maxHeight != 0 then p.maxWidth else 0) &&
        maxHeight == (if p.maxWidth != 0 && p.maxHeight != 0 then p.maxHeight else 0) &&
        outputBufNum == 0 && strideAlign == 1
    {
      maxWidth, maxHeight, outputBufNum, strideAlign := 0, 0, 0, 0;
      if !SupportedCodec(p.codecType) || !SupportedColor(p.colorFormat) {
        return -1;
      }
      eosSent, errorFlag, created := false, false, false;
      if !createOk {
        return -1;
      }
      created := true;
      if p.codecType == VDEC_JPEG {
        outputBufNum := 2;
        maxWidth := if p.maxWidth != 0 then p.maxWidth else JPEG_MAX_WIDTH;
        maxHeight := if p.maxHeight != 0 then p.maxHeight else JPEG_MAX_HEIGHT;
        strideAlign := 64;
      } else {
        if p.maxWidth != 0 && p.maxHeight != 0 {
          maxWidth, maxHeight := p.maxWidth, p.maxHeight;
        }
        strideAlign := 1;
      }
      return 0;
    }

    /** Create as written: a JPEG decoder returns SetDecParams' bool. */
    method CreateAsWritten(p: VdecParams, createOk: bool, setParamsOk: bool) returns (r: int)
      modifies this`created, this`eosSent, this`errorFlag, this`maxWidth, this`maxHeight,
               this`outputBufNum, this`strideAlign
      ensures r == CreateCodeAsWritten(p, createOk, setParamsOk)
      ensures SupportedCodec(p.codecType) && SupportedColor(p.colorFormat) ==> (created <==> r >= 0)
    {
      r := Setup(p, createOk);
      if r == 0 && p.codecType == VDEC_JPEG {
        r := if setParamsOk then 1 else 0;
      }
    }

    /** Create: 0 on success, -1 when a check or a codec call fails,
        including the JPEG decoder's parameter call. The instance stays
        created in that last case, as in the source, so Destroy releases
        it. */
    method Create(p: VdecParams, createOk: bool, setParamsOk: bool) returns (r: int)
      modifies this`created, this`eosSent, this`errorFlag, this`maxWidth, this`maxHeight,
               this`outputBufNum, this`strideAlign
      ensures r == CreateCode(p, createOk, setParamsOk)
      ensures !SupportedCodec(p.codecType) || !SupportedColor(p.colorFormat) ==> created == old(created)
      ensures SupportedCodec(p.codecType) && SupportedColor(p.colorFormat) ==>
        created == createOk && !eosSent && !errorFlag
      ensures p.codecType == VDEC_JPEG && SupportedColor(p.colorFormat) && createOk ==>
        maxWidth == (if p.maxWidth != 0 then p.maxWidth else JPEG_MAX_WIDTH) &&
        maxHeight == (if p.maxHeight != 0 then p.maxHeight else JPEG_MAX_HEIGHT) &&
        outputBufNum == 2 && strideAlign == 64
      ensures r == 0 && p.codecType != VDEC_JPEG ==>
        maxWidth == (if p.maxWidth != 0 && p.maxHeight != 0 then p.maxWidth else 0) &&
        maxHeight == (if p.maxWidth != 0 && p.maxHeight != 0 then p.maxHeight else 0) &&
        outputBufNum == 0 && strideAlign == 1
    {
      r := Setup(p, createOk);
      if r == 0 && p.codecType == VDEC_JPEG && !setParamsOk {
        r := -1;
      }
    }

    /** SendStream: -1 before Create. A missing stream or missing data is
        end of stream: sent once (a failing codec call is only logged) and
        a repeat gives 0. Data after EOS or after an error gives -1;
        otherwise the send loop decides (SendAttempts). */
    method SendStream(isEos: bool, codes: seq<SendCode>) returns (r: int)
      modifies this`eosSent
      ensures !created ==> r == -1 && eosSent == old(eosSent)
      ensures created && isEos ==> r == 0 && eosSent
      ensures created && !isEos && (old(eosSent) || errorFlag) ==> r == -1
      ensures created && !isEos && !old(eosSent) && !errorFlag ==> r == SendAttempts(codes, 0)
      ensures !isEos ==> eosSent == old(eosSent)
    {
      if !created {
        return -1;
      }
      if isEos {
        if eosSent {
          return 0;
        }
        eosSent := true;
        return 0;
      }
      if eosSent || errorFlag {
        return -1;
      }
      var tries := 0;
      while tries < MAX_TRY_SEND
        invariant tries <= MAX_TRY_SEND
        invariant SendAttempts(codes, tries) == SendAttempts(codes, 0)
        decreases MAX_TRY_SEND - tries
      {
        var code := SendCodeAt(codes, tries);
        match code {
          case SendOk => return 0;
          case BadStream => return -3;
          case NotSupported => return -3;
          case SendOther => return -1;
          case SendTimeout =>
        }
        tries := tries + 1;
      }
      return -2;
    }

    /** Destroy: nothing to do before Create. Otherwise EOS is sent unless
        an error occurred or it was sent already (the result `sentEos`),
        the instance is destroyed and the flags reset. */
    method Destroy() returns (r: int, sentEos: bool)
      modifies this`created, this`eosSent, this`errorFlag
      ensures r == 0
      ensures sentEos <==> old(created) && !old(errorFlag) && !old(eosSent)
      ensures !old(created) ==> unchanged(this)
      ensures old(created) ==> !created && !eosSent && !errorFlag
    {
      if !created {
        return 0, false;
      }
      sentEos := false;
      if !errorFlag && !eosSent {
        var _ := SendStream(true, []);
        sentEos := true;
      }
      created, eosSent, errorFlag := false, false, false;
      r := 0;
    }

    /** ReceiveSequence: the first sequence header sizes the output buffers
        (one more than the codec's minimum), fills in missing frame bounds
        from the coded size and hands the parameters to the codec; a later
        header that needs more buffers or larger frames than that sets the
        error flag and reports an error. */
    method ReceiveSequence(minOutput: nat, codedWidth: nat, codedHeight: nat, setParamsOk: bool)
      requires minOutput < U32_MOD
      modifies this`seqCount, this`maxWidth, this`maxHeight, this`outputBufNum, this`errorFlag, this`errorsReported
      ensures seqCount == old(seqCount) + 1
      ensures old(seqCount) >= 1 ==>
        var tooBig := old(outputBufNum) < U32(minOutput + 1) || old(maxWidth) < codedWidth || old(maxHeight) < codedHeight;
        maxWidth == old(maxWidth) && maxHeight == old(maxHeight) && outputBufNum == old(outputBufNum) &&
        errorFlag == (old(errorFlag) || tooBig) &&
        errorsReported == old(errorsReported) + (if tooBig then 1 else 0)
      ensures old(seqCount) == 0 ==>
        outputBufNum == U32(minOutput + 1) &&
        (old(maxWidth) != 0 && old(maxHeight) != 0 ==> maxWidth == old(maxWidth) && maxHeight == old(maxHeight)) &&
        (old(maxWidth) == 0 || old(maxHeight) == 0 ==> maxWidth == codedWidth && maxHeight == codedHeight) &&
        errorFlag == (old(errorFlag) || !setParamsOk) &&
        errorsReported == old(errorsReported) + (if setParamsOk then 0 else 1)
    {
      seqCount := seqCount + 1;
      if seqCount > 1 {
        if outputBufNum < U32(minOutput + 1) || maxWidth < codedWidth || maxHeight < codedHeight {
          errorFlag := true;
          errorsReported := errorsReported + 1;
        }
      } else {
        if maxWidth == 0 || maxHeight == 0 {
          maxWidth, maxHeight := codedWidth, codedHeight;
        }
        outputBufNum := U32(minOutput + 1);
        if !setParamsOk {
          errorFlag := true;
          errorsReported := errorsReported + 1;
        }
      }
    }

    /** The other codec events: an unsupported stream sets the error flag
        and reports an error; a corrupt stream and unknown events are only
        logged. */
    method ReceiveEvent(event: DecodeEvent)
      modifies this`errorFlag, this`errorsReported
      ensures event == StreamNotSupported ==> errorFlag && errorsReported == old(errorsReported) + 1
      ensures event != StreamNotSupported ==> unchanged(this)
    {
      if event == StreamNotSupported {
        errorFlag := true;
        errorsReported := errorsReported + 1;
      }
    }
  }

  /** A stream whose later sequence headers repeat the first one's
      requirements keeps decoding: the buffers and bounds sized by the
      first header cover them. */
  method RepeatedSequenceIsAccepted(minOutput: nat, width: nat, height: nat)
    returns (errorAfter: bool, reported: nat)
    requires minOutput + 1 < U32_MOD
    ensures !errorAfter && reported == 0
  {
    var d := new DecoderMlu590();
    var p := VdecParams(0, VDEC_H264, 0, 0, SurfaceUtils.FMT_NV12, true, true, true, true);
    var r := d.Create(p, true, true);
    d.ReceiveSequence(minOutput, width, height, true);
    d.ReceiveSequence(minOutput, width, height, true);
    errorAfter, reported := d.errorFlag, d.errorsReported;
  }

  /** Once EOS is sent, data is refused and a repeated EOS is accepted
      without effect. */
  method NoDataAfterEos() returns (eos: int, data: int, again: int)
    ensures eos == 0 && data == -1 && again == 0
  {
    var d := new DecoderMlu590();
    var p := VdecParams(0, VDEC_H265, 0, 0, SurfaceUtils.FMT_NV21, true, true, true, true);
    var r := d.Create(p, true, true);
    eos := d.SendStream(true, []);
    data := d.SendStream(false, []);
    again := d.SendStream(true, []);
  }

  /** A JPEG decoder whose codec refuses its parameters: Create as written
      answers 0, which its callers take for success, while the corrected
      Create answers -1. */
  method JpegParamsRefused() returns (asWritten: int, corrected: int)
    ensures asWritten == 0 && corrected == -1
  {
    var p := VdecParams(0, VDEC_JPEG, 0, 0, SurfaceUtils.FMT_NV12, true, true, true, true);
    var d := new DecoderMlu590();
    asWritten := d.CreateAsWritten(p, true, false);
    var e := new DecoderMlu590();
    corrected := e.Create(p, true, false);
  }
}
