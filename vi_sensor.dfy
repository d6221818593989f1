// The CE3226 video-input sample layer (src/ce3226/mps_service/src/
// mps_internal/cnsample_comm_vi.cpp): the per-sensor attribute tables and
// the creation of the working VI devices, with the undo of a partial
// creation.
module ViSensor {
  import opened Common

  /** cnEnSampleSnsType_t. Codes 0..13 name the supported sensors; any
      other code (SAMPLE_SNS_TYPE_BUTT = 14 among them) is `Unlisted`. */
  datatype SensorType =
    | Imx305Lvds3584x2172
    | Imx305Lvds8M
    | Imx327Mipi2M
    | Imx327Mipi2MWdr
    | Imx327Slave2M
    | Imx334Mipi8M
    | Ov08a20Mipi8M30
    | Ov08a20Mipi8M60
    | Ov08a20Mipi8MWdr
    | Ov08a20Mipi4M
    | Ov08a20Mipi2688x1520
    | Ov08a20Mipi2688x1520Wdr
    | Ov04a10Slave2560x1440
    | Ov04a10Slave2688x1520
    | Unlisted(code: int)

  /** SAMPLE_SNS_TYPE_BUTT: one past the last supported sensor. */
  const SNS_TYPE_BUTT: int := 14

  /** A sensor type is well formed when an `Unlisted` one does not carry
      the code of a supported sensor. */
  predicate WellFormed(t: SensorType)
  {
    t.Unlisted? ==> !(0 <= t.code < SNS_TYPE_BUTT)
  }

  /** The enumerator's integer value. */
  function CodeOf(t: SensorType): int
  {
    match t
    case Imx305Lvds3584x2172 => 0
    case Imx305Lvds8M => 1
    case Imx327Mipi2M => 2
    case Imx327Mipi2MWdr => 3
    case Imx327Slave2M => 4
    case Imx334Mipi8M => 5
    case Ov08a20Mipi8M30 => 6
    case Ov08a20Mipi8M60 => 7
    case Ov08a20Mipi8MWdr => 8
    case Ov08a20Mipi4M => 9
    case Ov08a20Mipi2688x1520 => 10
    case Ov08a20Mipi2688x1520Wdr => 11
    case Ov04a10Slave2560x1440 => 12
    case Ov04a10Slave2688x1520 => 13
    case Unlisted(c) => c
  }

  /** The sensor type an integer (read from the configuration file) names.
      Reading back its code gives the integer again; decoding a well-formed
      type's code gives the type again. */
  function SensorOfCode(code: int): (t: SensorType)
    ensures WellFormed(t) && CodeOf(t) == code
    ensures t.Unlisted? <==> !(0 <= code < SNS_TYPE_BUTT)
  {
    if code == 0 then Imx305Lvds3584x2172
    else if code == 1 then Imx305Lvds8M
    else if code == 2 then Imx327Mipi2M
    else if code == 3 then Imx327Mipi2MWdr
    else if code == 4 then Imx327Slave2M
    else if code == 5 then Imx334Mipi8M
    else if code == 6 then Ov08a20Mipi8M30
    else if code == 7 then Ov08a20Mipi8M60
    else if code == 8 then Ov08a20Mipi8MWdr
    else if code == 9 then Ov08a20Mipi4M
    else if code == 10 then Ov08a20Mipi2688x1520
    else if code == 11 then Ov08a20Mipi2688x1520Wdr
    else if code == 12 then Ov04a10Slave2560x1440
    else if code == 13 then Ov04a10Slave2688x1520
    else Unlisted(code)
  }

  lemma SensorCodeRoundTrip(t: SensorType)
    requires WellFormed(t)
    ensures SensorOfCode(CodeOf(t)) == t
  {
  }

  // ---------------------------------------------------------------------
  // What each enumerator's name promises: the interface, the frame rate,
  // the bit width and whether it is a WDR mode. The tables below are
  // checked against it.

  datatype Interface = Mipi | MipiSlave | Lvds

  datatype Descriptor = Descriptor(iface: Interface, fps: nat, bits: nat, wdr: bool)

  /** The descriptor spelled out by the enumerator's name
      (e.g. OV_08A20_MIPI_8M_60FPS_10BIT: MIPI, 60 fps, 10 bits, no WDR). */
  function NameOf(t: SensorType): Option<Descriptor>
  {
    match t
    case Imx305Lvds3584x2172 => Some(Descriptor(Lvds, 40, 12, false))
    case Imx305Lvds8M => Some(Descriptor(Lvds, 40, 12, false))
    case Imx327Mipi2M => Some(Descriptor(Mipi, 30, 12, false))
    case Imx327Mipi2MWdr => Some(Descriptor(Mipi, 30, 12, true))
    case Imx327Slave2M => Some(Descriptor(MipiSlave, 30, 12, false))
    case Imx334Mipi8M => Some(Descriptor(Mipi, 30, 12, false))
    case Ov08a20Mipi8M30 => Some(Descriptor(Mipi, 30, 12, false))
    case Ov08a20Mipi8M60 => Some(Descriptor(Mipi, 60, 10, false))
    case Ov08a20Mipi8MWdr => Some(Descriptor(Mipi, 30, 10, true))
    case Ov08a20Mipi4M => Some(Descriptor(Mipi, 30, 12, false))
    case Ov08a20Mipi2688x1520 => Some(Descriptor(Mipi, 30, 12, false))
    case Ov08a20Mipi2688x1520Wdr => Some(Descriptor(Mipi, 30, 10, true))
    case Ov04a10Slave2560x1440 => Some(Descriptor(MipiSlave, 25, 10, false))
    case Ov04a10Slave2688x1520 => Some(Descriptor(MipiSlave, 25, 10, false))
    case Unlisted(_) => None
  }

  // ---------------------------------------------------------------------
  // The tables.

  /** cnsampleCommViIsSlaveModeBySensor: true exactly for the sensors
      driven in slave mode. */
  function IsSlaveMode(t: SensorType): (r: bool)
    ensures r <==> NameOf(t).Some? && NameOf(t).value.iface == MipiSlave
  {
    t == Ov04a10Slave2560x1440 || t == Ov04a10Slave2688x1520 || t == Imx327Slave2M
  }

  /** A width and a height (cnSize_t). */
  datatype Size = Size(w: nat, h: nat)

  /** The pixel formats of a VI pipe: RAW10/RAW12 in one frame, or RAW10
      with two frames (the WDR line-overlap input). */
  datatype RawFormat = Raw10OneFrame | Raw12OneFrame | Raw10TwoFrames

  /** The fields of cnviPipeAttr_t that differ between sensors. */
  datatype PipeAttr = PipeAttr(maxSize: Size, pixFmt: RawFormat, bitWidth: nat)

  /** The bit width a raw format carries. */
  function RawBits(f: RawFormat): nat
  {
    match f
    case Raw10OneFrame => 10
    case Raw12OneFrame => 12
    case Raw10TwoFrames => 10
  }

  /** cnsampleCommViGetPipeAttrBySns: None where the switch has no case
      and the caller's attribute is left as it was. A pipe's bit width is
      the one in the sensor's name and its pixel format carries it; only
      the two OV08A20 WDR modes get the two-frame RAW10 format. */
  function PipeAttrBySns(t: SensorType): (r: Option<PipeAttr>)
    ensures r.Some? <==> NameOf(t).Some?
    ensures r.Some? ==> r.value.bitWidth == NameOf(t).value.bits == RawBits(r.value.pixFmt)
    ensures r.Some? ==> (r.value.pixFmt == Raw10TwoFrames <==> t == Ov08a20Mipi8MWdr || t == Ov08a20Mipi2688x1520Wdr)
  {
    match t
    case Ov04a10Slave2560x1440 => Some(PipeAttr(Size(2560, 1440), Raw10OneFrame, 10))
    case Ov04a10Slave2688x1520 => Some(PipeAttr(Size(2688, 1520), Raw10OneFrame, 10))
    case Ov08a20Mipi2688x1520 => Some(PipeAttr(Size(2688, 1520), Raw12OneFrame, 12))
    case Ov08a20Mipi2688x1520Wdr => Some(PipeAttr(Size(2688, 1520), Raw10TwoFrames, 10))
    case Ov08a20Mipi4M => Some(PipeAttr(Size(2688, 1592), Raw12OneFrame, 12))
    case Ov08a20Mipi8M60 => Some(PipeAttr(Size(3840, 2160), Raw10OneFrame, 10))
    case Imx334Mipi8M => Some(PipeAttr(Size(3840, 2160), Raw12OneFrame, 12))
    case Imx305Lvds8M => Some(PipeAttr(Size(3840, 2160), Raw12OneFrame, 12))
    case Ov08a20Mipi8M30 => Some(PipeAttr(Size(3840, 2160), Raw12OneFrame, 12))
    case Imx305Lvds3584x2172 => Some(PipeAttr(Size(3584, 2160), Raw12OneFrame, 12))
    case Ov08a20Mipi8MWdr => Some(PipeAttr(Size(3840, 2160), Raw10TwoFrames, 10))
    case Imx327Mipi2M => Some(PipeAttr(Size(1920, 1080), Raw12OneFrame, 12))
    case Imx327Mipi2MWdr => Some(PipeAttr(Size(1920, 1080), Raw12OneFrame, 12))
    case Imx327Slave2M => Some(PipeAttr(Size(1920, 1080), Raw12OneFrame, 12))
    case Unlisted(_) => None
  }

  /** cnsampleCommViGetChnAttrBySns: the channel size. Every listed sensor's
      channel has its pipe's size; the IMX327 modes and unlisted sensors
      fall to 1920x1080. */
  function ChnSizeBySns(t: SensorType): (r: Size)
    ensures PipeAttrBySns(t).Some? ==> r == PipeAttrBySns(t).value.maxSize
    ensures t.Unlisted? ==> r == Size(1920, 1080)
  {
    match t
    case Ov04a10Slave2560x1440 => Size(2560, 1440)
    case Ov04a10Slave2688x1520 => Size(2688, 1520)
    case Ov08a20Mipi2688x1520 => Size(2688, 1520)
    case Ov08a20Mipi2688x1520Wdr => Size(2688, 1520)
    case Ov08a20Mipi4M => Size(2688, 1592)
    case Imx334Mipi8M => Size(3840, 2160)
    case Imx305Lvds8M => Size(3840, 2160)
    case Ov08a20Mipi8M30 => Size(3840, 2160)
    case Ov08a20Mipi8MWdr => Size(3840, 2160)
    case Ov08a20Mipi8M60 => Size(3840, 2160)
    case Imx305Lvds3584x2172 => Size(3584, 2160)
    case _ => Size(1920, 1080)
  }

  /** VI_MODE_MIPI or VI_MODE_LVDS. */
  datatype ViMode = ModeMipi | ModeLvds

  /** The fields of cnviDevAttr_t that differ between sensors: the
      interface, the raw input bit width and the input size. */
  datatype DevAttr = DevAttr(mode: ViMode, inputBits: nat, size: Size)

  /** cnsampleCommViGetDevAttrBySns: an unlisted sensor is a failure. The
      interface is LVDS exactly for the LVDS sensors, the input bit width
      is the one in the name, and the input is at least as large as the
      pipe. */
  function DevAttrBySns(t: SensorType): (r: Option<DevAttr>)
    ensures r.Some? <==> NameOf(t).Some?
    ensures r.Some? ==> (r.value.mode == ModeLvds <==> NameOf(t).value.iface == Lvds)
    ensures r.Some? ==> r.value.inputBits == NameOf(t).value.bits
    ensures r.Some? ==> var p := PipeAttrBySns(t).value.maxSize;
      p.w <= r.value.size.w && p.h <= r.value.size.h
  {
    match t
    case Ov08a20Mipi2688x1520 => Some(DevAttr(ModeMipi, 12, Size(2688, 1520)))
    case Ov04a10Slave2560x1440 => Some(DevAttr(ModeMipi, 10, Size(2560, 1440)))
    case Ov04a10Slave2688x1520 => Some(DevAttr(ModeMipi, 10, Size(2688, 1520)))
    case Ov08a20Mipi2688x1520Wdr => Some(DevAttr(ModeMipi, 10, Size(2688, 1520)))
    case Ov08a20Mipi4M => Some(DevAttr(ModeMipi, 12, Size(2688, 1592)))
    case Ov08a20Mipi8M60 => Some(DevAttr(ModeMipi, 10, Size(3840, 2160)))
    case Ov08a20Mipi8M30 => Some(DevAttr(ModeMipi, 12, Size(3840, 2160)))
    case Ov08a20Mipi8MWdr => Some(DevAttr(ModeMipi, 10, Size(3840, 2160)))
    case Imx334Mipi8M => Some(DevAttr(ModeMipi, 12, Size(3840, 2160)))
    case Imx305Lvds8M => Some(DevAttr(ModeLvds, 12, Size(3840, 2173)))
    case Imx305Lvds3584x2172 => Some(DevAttr(ModeLvds, 12, Size(3584, 2172)))
    case Imx327Mipi2M => Some(DevAttr(ModeMipi, 12, Size(1920, 1080)))
    case Imx327Slave2M => Some(DevAttr(ModeMipi, 12, Size(1920, 1080)))
    case Imx327Mipi2MWdr => Some(DevAttr(ModeMipi, 12, Size(1920, 1080)))
    case Unlisted(_) => None
  }

  /** cnsampleCommViGetFrameRateBySensor: a null output pointer (`present`
      false) is a failure; otherwise the frame rate in the sensor's name,
      and 30 for an unlisted sensor. */
  function FrameRateBySensor(t: SensorType, present: bool): (r: Option<nat>)
    ensures r.None? <==> !present
    ensures present && NameOf(t).Some? ==> r == Some(NameOf(t).value.fps)
    ensures present && t.Unlisted? ==> r == Some(30)
  {
    if !present then None
    else
      match t
      case Ov08a20Mipi8M60 => Some(60)
      case Ov04a10Slave2560x1440 => Some(25)
      case Ov04a10Slave2688x1520 => Some(25)
      case Imx305Lvds8M => Some(40)
      case Imx305Lvds3584x2172 => Some(40)
      case _ => Some(30)
  }

  /** cnEnPicSize_t; `PicOther` is any value past the last. */
  datatype PicSize =
    | PicCif | PicD1Pal | PicD1Ntsc | Pic720P | Pic1080P | Pic2560x1440
    | Pic2592x1520 | Pic2592x1944 | Pic2688x1592 | Pic2688x1520 | Pic3840x2160
    | Pic3584x2160 | Pic3584x2172 | Pic3840x2173 | Pic4096x2160 | Pic3000x3000
    | Pic4000x3000 | Pic7680x4320 | Pic3840x8640 | PicOther

  /** cnsampleCommSysGetPicSize: the width and height of a picture size;
      an unknown one is a failure. */
  function PicDims(p: PicSize): (r: Option<Size>)
    ensures r.None? <==> p == PicOther
  {
    match p
    case PicCif => Some(Size(352, 288))
    case PicD1Pal => Some(Size(720, 576))
    case PicD1Ntsc => Some(Size(720, 480))
    case Pic720P => Some(Size(1280, 720))
    case Pic1080P => Some(Size(1920, 1080))
    case Pic2560x1440 => Some(Size(2560, 1440))
    case Pic2592x1520 => Some(Size(2592, 1520))
    case Pic2592x1944 => Some(Size(2592, 1944))
    case Pic2688x1592 => Some(Size(2688, 1592))
    case Pic2688x1520 => Some(Size(2688, 1520))
    case Pic3840x2160 => Some(Size(3840, 2160))
    case Pic3584x2160 => Some(Size(3584, 2160))
    case Pic3584x2172 => Some(Size(3584, 2172))
    case Pic3840x2173 => Some(Size(3840, 2173))
    case Pic4096x2160 => Some(Size(4096, 2160))
    case Pic3000x3000 => Some(Size(3000, 3000))
    case Pic4000x3000 => Some(Size(4000, 3000))
    case Pic7680x4320 => Some(Size(7680, 4320))
    case Pic3840x8640 => Some(Size(3840, 8640))
    case PicOther => None
  }

  /** cnsampleCommViGetSizeBySensor: a null output pointer is a failure;
      a listed sensor's picture size is its device input size, an unlisted
      sensor gets 720P. */
  function SizeBySensor(t: SensorType, present: bool): (r: Option<PicSize>)
    ensures r.None? <==> !present
    ensures present && NameOf(t).Some? ==> PicDims(r.value) == Some(DevAttrBySns(t).value.size)
    ensures present && t.Unlisted? ==> r == Some(Pic720P)
  {
    if !present then None
    else
      match t
      case Ov04a10Slave2560x1440 => Some(Pic2560x1440)
      case Ov04a10Slave2688x1520 => Some(Pic2688x1520)
      case Ov08a20Mipi2688x1520 => Some(Pic2688x1520)
      case Ov08a20Mipi2688x1520Wdr => Some(Pic2688x1520)
      case Ov08a20Mipi4M => Some(Pic2688x1592)
      case Imx334Mipi8M => Some(Pic3840x2160)
      case Ov08a20Mipi8M30 => Some(Pic3840x2160)
      case Ov08a20Mipi8M60 => Some(Pic3840x2160)
      case Ov08a20Mipi8MWdr => Some(Pic3840x2160)
      case Imx305Lvds8M => Some(Pic3840x2173)
      case Imx305Lvds3584x2172 => Some(Pic3584x2172)
      case Imx327Mipi2M => Some(Pic1080P)
      case Imx327Mipi2MWdr => Some(Pic1080P)
      case Imx327Slave2M => Some(Pic1080P)
      case Unlisted(_) => Some(Pic720P)
  }

  /** cnEnWdrMode_t, the three values the sensor table uses. */
  datatype WdrMode = WdrNone | Wdr2To1Line | Wdr2To1LineOverlap

  /** cnsampleCommViGetWdrModeBySensor: a null output pointer is a
      failure; a sensor gets a WDR mode exactly when its name says WDR,
      line-overlap exactly when its pipe takes two RAW10 frames. */
  function WdrModeBySensor(t: SensorType, present: bool): (r: Option<WdrMode>)
    ensures r.None? <==> !present
    ensures present ==> (r.value != WdrNone <==> NameOf(t).Some? && NameOf(t).value.wdr)
    ensures present ==>
      (r.value == Wdr2To1LineOverlap <==> PipeAttrBySns(t).Some? && PipeAttrBySns(t).value.pixFmt == Raw10TwoFrames)
  {
    if !present then None
    else
      match t
      case Imx327Mipi2MWdr => Some(Wdr2To1Line)
      case Ov08a20Mipi8MWdr => Some(Wdr2To1LineOverlap)
      case Ov08a20Mipi2688x1520Wdr => Some(Wdr2To1LineOverlap)
      case _ => Some(WdrNone)
  }

  /** The crop rectangle cnsampleCommViDevCrop sets, anchored at (0, 0);
      None where it refuses the sensor. Only the LVDS sensors are cropped,
      and they are cropped to their pipe's size. */
  function CropBySns(t: SensorType): (r: Option<Size>)
    ensures r.Some? <==> DevAttrBySns(t).Some? && DevAttrBySns(t).value.mode == ModeLvds
    ensures r.Some? ==> r == Some(PipeAttrBySns(t).value.maxSize)
  {
    match t
    case Imx305Lvds8M => Some(Size(3840, 2160))
    case Imx305Lvds3584x2172 => Some(Size(3584, 2160))
    case _ => None
  }

  // ---------------------------------------------------------------------
  // Creating the working VIs.

  /** One VI of the configuration (cnsampleViInfo_t): its sensor, device,
      pipe and channel, and whether the master pipe mode is one of the two
      with an offline VPPS (only then is the channel enabled). */
  datatype ViInfo = ViInfo(sns: SensorType, dev: int, pipe: int, chn: int, offline: bool)

  /** The outcomes of the driver calls made while creating one VI. `crop`
      stands for cnviGetDevCrop and cnviSetDevCrop together. */
  datatype ViCalls = ViCalls(
    setDevAttr: bool, crop: bool, enableDev: bool, bind: bool,
    createPipe: bool, startPipe: bool, setChnAttr: bool, enableChn: bool)

  const ALL_CALLS_OK: ViCalls := ViCalls(true, true, true, true, true, true, true, true)

  /** The outcomes for the i-th VI; missing entries are successes. */
  function CallsAt(calls: seq<ViCalls>, i: nat): ViCalls
  {
    if i < |calls| then calls[i] else ALL_CALLS_OK
  }

  /** What is running in the driver: enabled devices, started pipes and
      enabled (pipe, channel) pairs. */
  datatype Held = Held(devs: set<int>, pipes: set<int>, chns: set<(int, int)>)

  /** cnsampleCommViStartDev succeeds: the attribute is set, the IMX305
      sensors are cropped, the device is enabled. */
  predicate DevStarts(info: ViInfo, c: ViCalls)
  {
    c.setDevAttr && (info.sns == Imx305Lvds8M || info.sns == Imx305Lvds3584x2172 ==> c.crop) && c.enableDev
  }

  /** cnsampleCommViCreateSingleVi succeeds: the device starts, it is
      bound to the pipe, the pipe id is below VI_MAX_PIPE_NUM (`maxPipes`)
      and is created and started, and the channel is set (and enabled in
      the offline modes). */
  predicate CreatesOk(info: ViInfo, c: ViCalls, maxPipes: nat)
  {
    DevStarts(info, c) && c.bind && 0 <= info.pipe < maxPipes
    && c.createPipe && c.startPipe && c.setChnAttr && (info.offline ==> c.enableChn)
  }

  /** The resources a fully created VI holds, added to `h`. */
  function Started(h: Held, info: ViInfo): Held
  {
    Held(h.devs + {info.dev}, h.pipes + {info.pipe},
         if info.offline then h.chns + {(info.pipe, info.chn)} else h.chns)
  }

  /** What a failed cnsampleCommViCreateSingleVi leaves: a device that was
      started is disabled again, and a pipe it got to is stopped. */
  function AfterFailedCreate(h: Held, info: ViInfo, c: ViCalls, maxPipes: nat): Held
  {
    if !DevStarts(info, c) then h
    else if !c.bind || !(0 <= info.pipe < maxPipes) then h.(devs := h.devs - {info.dev})
    else Held(h.devs - {info.dev}, h.pipes - {info.pipe}, h.chns)
  }

  /** cnsampleCommViDestroySingleVi: the channel is disabled (offline
      modes) and the pipe stopped when the pipe id is in range, and the
      device is disabled unless the sensor type is SAMPLE_SNS_TYPE_BUTT. */
  function Stopped(h: Held, info: ViInfo, maxPipes: nat): Held
  {
    var inRange := 0 <= info.pipe < maxPipes;
    Held(if CodeOf(info.sns) != SNS_TYPE_BUTT then h.devs - {info.dev} else h.devs,
         if inRange then h.pipes - {info.pipe} else h.pipes,
         if inRange && info.offline then h.chns - {(info.pipe, info.chn)} else h.chns)
  }

  /** Creating `vis` in order, each fully. */
  function StartAll(h: Held, vis: seq<ViInfo>): Held
  {
    if |vis| == 0 then h else Started(StartAll(h, vis[..|vis| - 1]), vis[|vis| - 1])
  }

  /** Destroying `vis` in order. */
  function StopAll(h: Held, vis: seq<ViInfo>, maxPipes: nat): Held
  {
    if |vis| == 0 then h else Stopped(StopAll(h, vis[..|vis| - 1], maxPipes), vis[|vis| - 1], maxPipes)
  }

  /** The index of the first VI whose creation fails, or |vis| when none
      does. */
  function FirstFailure(vis: seq<ViInfo>, calls: seq<ViCalls>, maxPipes: nat, from: nat): (k: nat)
    requires from <= |vis|
    ensures from <= k <= |vis|
    ensures forall j :: from <= j < k ==> CreatesOk(vis[j], CallsAt(calls, j), maxPipes)
    ensures k < |vis| ==> !CreatesOk(vis[k], CallsAt(calls, k), maxPipes)
    decreases |vis| - from
  {
    if from == |vis| || !CreatesOk(vis[from], CallsAt(calls, from), maxPipes) then from
    else FirstFailure(vis, calls, maxPipes, from + 1)
  }

  /** The VIs as_s32WorkingViId selects, in order. */
  function Working(infos: seq<ViInfo>, ids: seq<nat>): (vis: seq<ViInfo>)
    requires forall i :: 0 <= i < |ids| ==> ids[i] < |infos|
    ensures |vis| == |ids| && forall i :: 0 <= i < |ids| ==> vis[i] == infos[ids[i]]
  {
    seq(|ids|, i requires 0 <= i < |ids| => infos[ids[i]])
  }

  // The resources a sequence of VIs names.

  function DevsOf(vis: seq<ViInfo>): set<int>
  {
    if |vis| == 0 then {} else DevsOf(vis[..|vis| - 1]) + {vis[|vis| - 1].dev}
  }

  function PipesOf(vis: seq<ViInfo>): set<int>
  {
    if |vis| == 0 then {} else PipesOf(vis[..|vis| - 1]) + {vis[|vis| - 1].pipe}
  }

  function ChnsOf(vis: seq<ViInfo>): set<(int, int)>
  {
    if |vis| == 0 then {}
    else
      var last := vis[|vis| - 1];
      ChnsOf(vis[..|vis| - 1]) + if last.offline then {(last.pipe, last.chn)} else {}
  }

  /** Creating VIs adds exactly their devices, pipes and offline channels. */
  lemma {:induction false} StartAllAdds(h: Held, vis: seq<ViInfo>)
    ensures StartAll(h, vis) == Held(h.devs + DevsOf(vis), h.pipes + PipesOf(vis), h.chns + ChnsOf(vis))
    decreases |vis|
  {
    if |vis| > 0 {
      StartAllAdds(h, vis[..|vis| - 1]);
    }
  }

  /** Destroying VIs that were created (pipe ids in range) and whose sensor
      type is not SAMPLE_SNS_TYPE_BUTT removes exactly their devices, pipes
      and offline channels. */
  lemma {:induction false} StopAllRemoves(h: Held, vis: seq<ViInfo>, maxPipes: nat)
    requires forall j :: 0 <= j < |vis| ==> 0 <= vis[j].pipe < maxPipes && CodeOf(vis[j].sns) != SNS_TYPE_BUTT
    ensures StopAll(h, vis, maxPipes) == Held(h.devs - DevsOf(vis), h.pipes - PipesOf(vis), h.chns - ChnsOf(vis))
    decreases |vis|
  {
    if |vis| > 0 {
      StopAllRemoves(h, vis[..|vis| - 1], maxPipes);
    }
  }

  /** The undo of cnsampleCommViCreateVi is complete: when the k-th VI
      fails, the first k were created, none of them has the BUTT sensor
      type, and nothing the first k+1 VIs use was running before, then
      after the failed VI's own cleanup and the destruction of VIs
      0..k-1 exactly what ran before is running. */
  lemma RollbackRestores(h: Held, vis: seq<ViInfo>, k: nat, c: ViCalls, maxPipes: nat)
    requires k < |vis|
    requires forall j :: 0 <= j < k ==> 0 <= vis[j].pipe < maxPipes && CodeOf(vis[j].sns) != SNS_TYPE_BUTT
    requires h.devs !! DevsOf(vis[..k + 1]) && h.pipes !! PipesOf(vis[..k + 1]) && h.chns !! ChnsOf(vis[..k])
    ensures StopAll(AfterFailedCreate(StartAll(h, vis[..k]), vis[k], c, maxPipes), vis[..k], maxPipes) == h
  {
    var p := vis[..k];
    assert vis[..k + 1][..k] == p;
    assert vis[..k + 1][k] == vis[k];
    StartAllAdds(h, p);
    var mid := AfterFailedCreate(StartAll(h, p), vis[k], c, maxPipes);
    assert mid.devs <= h.devs + DevsOf(p) && h.devs <= mid.devs + DevsOf(p);
    assert mid.pipes <= h.pipes + PipesOf(p) && h.pipes <= mid.pipes + PipesOf(p);
    assert mid.chns == h.chns + ChnsOf(p);
    StopAllRemoves(mid, p, maxPipes);
  }

  /** The driver state the VI calls act on. `maxPipes` is VI_MAX_PIPE_NUM. */
  class ViSystem {
    const maxPipes: nat
    var devs: set<int>
    var pipes: set<int>
    var chns: set<(int, int)>

    function State(): Held
      reads this
    {
      Held(devs, pipes, chns)
    }

    constructor (maxPipes: nat)
      ensures this.maxPipes == maxPipes && State() == Held({}, {}, {})
    {
      this.maxPipes := maxPipes;
      devs, pipes, chns := {}, {}, {};
    }

    /** cnsampleCommViCreateSingleVi: device, bind, pipe, channel; a
        failure undoes the pipe and the device already started. */
    method CreateSingleVi(info: ViInfo, c: ViCalls) returns (ok: bool)
      modifies this
      ensures ok <==> CreatesOk(info, c, maxPipes)
      ensures State() == if ok then Started(old(State()), info) else AfterFailedCreate(old(State()), info, c, maxPipes)
    {
      // cnsampleCommViStartDev
      if !c.setDevAttr {
        return false;
      }
      if (info.sns == Imx305Lvds8M || info.sns == Imx305Lvds3584x2172) && !c.crop {
        return false;
      }
      if !c.enableDev {
        return false;
      }
      devs := devs + {info.dev};
      // cnsampleCommViBindPipeDev, then the range check of StartViPipe
      if !c.bind || !(0 <= info.pipe < maxPipes) {
        devs := devs - {info.dev};
        return false;
      }
      if !c.createPipe || !c.startPipe {
        // StartSingleViPipe fails; StartViPipe stops the pipe, then the device
        pipes := pipes - {info.pipe};
        devs := devs - {info.dev};
        return false;
      }
      pipes := pipes + {info.pipe};
      // cnsampleCommViStartViChn
      if !c.setChnAttr || (info.offline && !c.enableChn) {
        pipes := pipes - {info.pipe};
        devs := devs - {info.dev};
        return false;
      }
      if info.offline {
        chns := chns + {(info.pipe, info.chn)};
      }
      ok := true;
    }

    /** cnsampleCommViDestroySingleVi. */
    method DestroySingleVi(info: ViInfo)
      modifies this
      ensures State() == Stopped(old(State()), info, maxPipes)
    {
      if 0 <= info.pipe < maxPipes {
        if info.offline {
          chns := chns - {(info.pipe, info.chn)};
        }
        pipes := pipes - {info.pipe};
      }
      if CodeOf(info.sns) != SNS_TYPE_BUTT {
        devs := devs - {info.dev};
      }
    }

    /** cnsampleCommViCreateVi: creates the working VIs in order; when the
        k-th fails, VIs 0..k-1 are destroyed, in order, and the call fails. */
    method CreateVi(infos: seq<ViInfo>, ids: seq<nat>, calls: seq<ViCalls>) returns (ok: bool)
      requires forall i :: 0 <= i < |ids| ==> ids[i] < |infos|
      modifies this
      ensures var vis := Working(infos, ids);
        var k := FirstFailure(vis, calls, maxPipes, 0);
        (ok <==> k == |vis|) &&
        State() == if ok then StartAll(old(State()), vis)
                   else StopAll(AfterFailedCreate(StartAll(old(State()), vis[..k]), vis[k], CallsAt(calls, k), maxPipes), vis[..k], maxPipes)
    {
      var vis := Working(infos, ids);
      var i := 0;
      while i < |vis|
        invariant 0 <= i <= |vis|
        invariant forall j :: 0 <= j < i ==> CreatesOk(vis[j], CallsAt(calls, j), maxPipes)
        invariant State() == StartAll(old(State()), vis[..i])
      {
        var one := CreateSingleVi(vis[i], CallsAt(calls, i));
        if !one {
          break;
        }
        assert vis[..i + 1][..i] == vis[..i];
        i := i + 1;
      }
      ghost var k := FirstFailure(vis, calls, maxPipes, 0);
      if i == |vis| {
        assert vis[..i] == vis;
        return true;
      }
      assert k == i;
      ghost var failed := State();
      var j := 0;
      while j < i
        invariant 0 <= j <= i
        invariant State() == StopAll(failed, vis[..j], maxPipes)
      {
        DestroySingleVi(vis[j]);
        assert vis[..j + 1][..j] == vis[..j];
        j := j + 1;
      }
      assert vis[..i][..j] == vis[..i];
      ok := false;
    }
  }
}
