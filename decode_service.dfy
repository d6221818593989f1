// The decoder's public parameter block (include/cnedk_decode.h).
module VdecApi {
  /** CnedkVdecType. */
  const VDEC_INVALID: int := 0
  const VDEC_H264: int := 1
  const VDEC_H265: int := 2
  const VDEC_JPEG: int := 3
  const VDEC_NUM: int := 4

  /** CnedkVdecCreateParams; a callback is recorded only as set or null. */
  datatype VdecParams = VdecParams(
    deviceId: int,
    codecType: int,
    maxWidth: nat,
    maxHeight: nat,
    colorFormat: int,
    hasOnFrame: bool,
    hasOnEos: bool,
    hasOnError: bool,
    hasGetBufSurf: bool)
}

// The C entry points CnedkVdecCreate/Destroy/SendStream
// (src/cnedk_decode.cpp): pointer checks and parameter validation in front
// of the platform decoder, whose own answers are parameters here.
module DecodeService {
  import opened Common
  import opened VdecApi
  import SurfaceUtils
  import Mlu590Decode

  /** CheckParams: the codec type lies strictly between INVALID and NUM,
      the colour format is NV12 or NV21, all four callbacks are set, and
      the device matches the calling thread's current device
      (`currentDevice`, None when cnrtGetDevice fails). */
  function CheckParams(p: VdecParams, currentDevice: Option<int>): (r: int)
    ensures r == 0 || r == -1
    ensures r == 0 <==>
      VDEC_INVALID < p.codecType < VDEC_NUM &&
      (p.colorFormat == SurfaceUtils.FMT_NV12 || p.colorFormat == SurfaceUtils.FMT_NV21) &&
      p.hasOnFrame && p.hasOnEos && p.hasOnError && p.hasGetBufSurf &&
      currentDevice == Some(p.deviceId)
  {
    if p.codecType <= VDEC_INVALID || p.codecType >= VDEC_NUM then -1
    else if p.colorFormat != SurfaceUtils.FMT_NV12 && p.colorFormat != SurfaceUtils.FMT_NV21 then -1
    else if !p.hasOnEos || !p.hasOnFrame || !p.hasOnError || !p.hasGetBufSurf then -1
    else if currentDevice.None? then -1
    else if p.deviceId != currentDevice.value then -1
    else 0
  }

  /** DecodeService::Create: null pointers and invalid parameters give -1
      before any decoder exists; so does a platform without a decoder
      (`platformDecoder` false) and a decoder whose Create reports a
      negative code (`implCreate`). */
  function Create(vdecSet: bool, params: Option<VdecParams>, currentDevice: Option<int>,
                  platformDecoder: bool, implCreate: int): (r: int)
    ensures r == 0 || r == -1
    ensures r == 0 <==>
      vdecSet && params.Some? && CheckParams(params.value, currentDevice) == 0 &&
      platformDecoder && implCreate >= 0
  {
    if !vdecSet || params.None? then -1
    else if CheckParams(params.value, currentDevice) < 0 then -1
    else if !platformDecoder then -1
    else if implCreate < 0 then -1
    else 0
  }

  /** DecodeService::Destroy: a null handle gives -1; otherwise the decoder
      is destroyed, whatever it reports, and 0 is returned. */
  function Destroy(vdecSet: bool): (r: int)
    ensures r == 0 <==> vdecSet
    ensures r == -1 <==> !vdecSet
  {
    if !vdecSet then -1 else 0
  }

  /** DecodeService::SendStream: a null handle or stream gives -1, all
      else is the decoder's own answer. */
  function SendStream(vdecSet: bool, streamSet: bool, implSend: int): (r: int)
    ensures !vdecSet || !streamSet ==> r == -1
    ensures vdecSet && streamSet ==> r == implSend
  {
    if !vdecSet || !streamSet then -1 else implSend
  }

  /** A JPEG decoder whose codec refuses its parameters is reported as
      created by the service when the MLU590 decoder answers as written,
      and as failed with the corrected answer. */
  lemma ServiceAcceptsJpegWithoutParams(p: VdecParams, device: int)
    requires p.codecType == VDEC_JPEG && p.colorFormat == SurfaceUtils.FMT_NV12 && p.deviceId == device
    requires p.hasOnFrame && p.hasOnEos && p.hasOnError && p.hasGetBufSurf
    ensures Create(true, Some(p), Some(device), true,
                   Mlu590Decode.CreateCodeAsWritten(p, true, false)) == 0
    ensures Create(true, Some(p), Some(device), true,
                   Mlu590Decode.CreateCode(p, true, false)) == -1
  {
  }

  /** With the corrected decoder, the service reports success exactly when
      the parameters pass its checks and the decoder's own checks and
      calls succeed. */
  lemma ServiceCreateIff(p: VdecParams, device: Option<int>, createOk: bool, setParamsOk: bool)
    ensures Create(true, Some(p), device, true, Mlu590Decode.CreateCode(p, createOk, setParamsOk)) == 0 <==>
      CheckParams(p, device) == 0 && createOk && (p.codecType == VDEC_JPEG ==> setParamsOk)
  {
  }
}
