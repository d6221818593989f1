// The CE3226 video-output sample layer (src/ce3226/mps_service/src/
// mps_internal/cnsample_comm_vo.cpp): the output timing table, the window
// grid of the multi-window modes, and starting and stopping a device, its
// video layer and its channels.
module VoLayout {
  import opened Common
  import SurfaceUtils

  /** cnvoEnIntfSync_t: the five timings the sample layer knows, and any
      other. */
  datatype IntfSync = Sync1080P30 | Sync720P50 | Sync720P60 | Sync1080P60 | SyncUser | SyncOther

  /** An output timing: picture width and height and the frame rate. */
  datatype Timing = Timing(w: nat, h: nat, frameRate: nat)

  /** The line count and frame rate a progressive timing's name states
      (VO_OUTPUT_720P50: 720 lines at 50 frames). */
  function NamedTiming(s: IntfSync): Option<(nat, nat)>
  {
    match s
    case Sync1080P30 => Some((1080, 30))
    case Sync720P50 => Some((720, 50))
    case Sync720P60 => Some((720, 60))
    case Sync1080P60 => Some((1080, 60))
    case _ => None
  }

  /** cnsampleCommVoGetWH: the named timings are 16:9 with the height and
      rate of their name; the user timing is 720x576 at 25; any other is a
      failure. */
  function GetWH(s: IntfSync): (r: Option<Timing>)
    ensures r.None? <==> s == SyncOther
    ensures NamedTiming(s).Some? ==>
      r.Some? && r.value.w * 9 == r.value.h * 16 &&
      (r.value.h, r.value.frameRate) == NamedTiming(s).value
    ensures s == SyncUser ==> r == Some(Timing(720, 576, 25))
  {
    match s
    case Sync1080P30 => Some(Timing(1920, 1080, 30))
    case Sync720P50 => Some(Timing(1280, 720, 50))
    case Sync720P60 => Some(Timing(1280, 720, 60))
    case Sync1080P60 => Some(Timing(1920, 1080, 60))
    case SyncUser => Some(Timing(720, 576, 25))
    case SyncOther => None
  }

  /** cnsampleVoMode_t: the five multi-window modes the sample layer
      supports; the others (16, 25, 36, 49, 64 windows, 2X4, BUTT) are
      `OtherMode`. */
  datatype VoMode = Mux1 | Mux2 | Mux4 | Mux8 | Mux9 | OtherMode

  /** The window count in a mode's name. */
  function MuxCount(m: VoMode): nat
  {
    match m
    case Mux1 => 1
    case Mux2 => 2
    case Mux4 => 4
    case Mux8 => 8
    case Mux9 => 9
    case OtherMode => 0
  }

  /** A window count and the side of the square grid it is laid out on. */
  datatype Grid = Grid(windows: nat, square: nat)

  /** The mode table of cnsampleCommVoStartChn: each supported mode gets
      its named window count on the smallest square grid that holds it;
      an unsupported mode is a failure. */
  function Layout(m: VoMode): (r: Option<Grid>)
    ensures r.None? <==> m == OtherMode
    ensures r.Some? ==>
      var g := r.value;
      g.windows == MuxCount(m) && 0 < g.square &&
      g.windows <= g.square * g.square && (g.square - 1) * (g.square - 1) < g.windows
  {
    match m
    case Mux1 => Some(Grid(1, 1))
    case Mux2 => Some(Grid(2, 2))
    case Mux4 => Some(Grid(4, 2))
    case Mux8 => Some(Grid(8, 3))
    case Mux9 => Some(Grid(9, 3))
    case OtherMode => None
  }

  /** The mode table of cnsampleCommVoStopChn: it disables as many windows
      as cnsampleCommVoStartChn enables, and fails on the same modes. */
  function StopWindowCount(m: VoMode): (r: Option<nat>)
    ensures r.None? <==> Layout(m).None?
    ensures r.Some? ==> r.value == Layout(m).value.windows
  {
    match m
    case Mux1 => Some(1)
    case Mux2 => Some(2)
    case Mux4 => Some(4)
    case Mux8 => Some(8)
    case Mux9 => Some(9)
    case OtherMode => None
  }

  /** A window rectangle (cnRect_t). */
  datatype Rect = Rect(x: nat, y: nat, w: nat, h: nat)

  /** Window i of a square grid over a width x height image: column i % sq
      and row i / sq of cells width/sq by height/sq, every field rounded
      down to even. */
  function Window(i: nat, width: nat, height: nat, square: nat): Rect
    requires square > 0
  {
    var cw := width / square;
    var ch := height / square;
    Rect(CellStart(cw, i % square), CellStart(ch, i / square), EvenDown(cw), EvenDown(ch))
  }

  /** Where cell k of cells `size` long starts, rounded down to even. */
  function CellStart(size: nat, k: nat): nat
  {
    EvenDown(size * k)
  }

  lemma MulMono(a: nat, b: nat, c: nat)
    requires b <= c
    ensures a * b <= a * c
  {
    var d := c - b;
    assert a * c == a * b + a * d;
  }

  lemma EvenDownMono(a: nat, b: nat)
    requires a <= b
    ensures EvenDown(a) <= EvenDown(b)
  {
  }

  /** Two rounded-down parts never reach past the rounded-down whole. */
  lemma EvenDownAdd(a: nat, b: nat)
    ensures EvenDown(a) + EvenDown(b) <= EvenDown(a + b)
  {
  }

  /** The end of cell `c` (rounded down to even) does not pass the start
      of any later cell. */
  lemma {:induction false} CellEnd(cw: nat, c: nat, d: nat)
    requires c < d
    ensures EvenDown(cw * c) + EvenDown(cw) <= EvenDown(cw * d)
  {
    EvenDownAdd(cw * c, cw);
    assert cw * c + cw == cw * (c + 1);
    MulMono(cw, c + 1, d);
    EvenDownMono(cw * (c + 1), cw * d);
  }

  /** Cell c of `side` split into `square` cells ends inside `side`. */
  lemma {:induction false} CellInside(side: nat, square: nat, c: nat)
    requires 0 < square && c < square
    ensures EvenDown(side / square * c) + EvenDown(side / square) <= side
  {
    var cw := side / square;
    EvenDownAdd(cw * c, cw);
    assert cw * c + cw == cw * (c + 1);
    MulMono(cw, c + 1, square);
    assert cw * square <= side by {
      assert side == cw * square + side % square;
    }
  }

  lemma RowBound(i: nat, square: nat)
    requires 0 < square && i < square * square
    ensures i / square < square
  {
    assert i == square * (i / square) + i % square;
    if i / square >= square {
      MulMono(square, square, i / square);
    }
  }

  /** Every window of a grid that holds it lies inside the image, with
      even position and size. */
  lemma WindowInside(i: nat, width: nat, height: nat, square: nat)
    requires 0 < square && i < square * square
    ensures var r := Window(i, width, height, square);
      r.x + r.w <= width && r.y + r.h <= height &&
      r.x % 2 == 0 && r.y % 2 == 0 && r.w % 2 == 0 && r.h % 2 == 0
  {
    RowBound(i, square);
    CellInside(width, square, i % square);
    CellInside(height, square, i / square);
  }

  /** Two different windows of a grid never overlap. */
  lemma WindowsDisjoint(i: nat, j: nat, width: nat, height: nat, square: nat)
    requires 0 < square && i != j
    ensures var a := Window(i, width, height, square);
      var b := Window(j, width, height, square);
      a.x + a.w <= b.x || b.x + b.w <= a.x || a.y + a.h <= b.y || b.y + b.h <= a.y
  {
    var cw := width / square;
    var ch := height / square;
    assert i == square * (i / square) + i % square;
    assert j == square * (j / square) + j % square;
    if i % square < j % square {
      CellEnd(cw, i % square, j % square);
    } else if j % square < i % square {
      CellEnd(cw, j % square, i % square);
    } else if i / square < j / square {
      CellEnd(ch, i / square, j / square);
    } else {
      CellEnd(ch, j / square, i / square);
    }
  }

  /** Windows 0..n-1 of `layer` as a map from (layer, window) to their
      rectangles. */
  function Windows(layer: int, n: nat, width: nat, height: nat, square: nat): map<(int, int), Rect>
    requires square > 0
  {
    map i: int | 0 <= i < n :: (layer, i) := Window(i, width, height, square)
  }

  /** The windows map holds exactly windows 0..n-1 of the layer, each at
      its grid rectangle. */
  lemma WindowsContents(layer: int, n: nat, width: nat, height: nat, square: nat)
    requires square > 0
    ensures var r := Windows(layer, n, width, height, square);
      r.Keys == WindowKeys(layer, n) &&
      forall i :: 0 <= i < n ==> r[(layer, i)] == Window(i, width, height, square)
  {
  }

  /** The keys of windows 0..n-1 of `layer`. */
  function WindowKeys(layer: int, n: nat): (r: set<(int, int)>)
    ensures forall k :: k in r <==> k.0 == layer && 0 <= k.1 < n
  {
    set i: int | 0 <= i < n :: (layer, i)
  }

  lemma WindowsSnoc(layer: int, n: nat, width: nat, height: nat, square: nat)
    requires square > 0
    ensures Windows(layer, n + 1, width, height, square)
         == Windows(layer, n, width, height, square)[(layer, n) := Window(n, width, height, square)]
  {
  }

  /** Enabling window n after windows 0..n-1 gives windows 0..n. */
  lemma ExtendWindows(base: map<(int, int), Rect>, layer: int, n: nat, width: nat, height: nat, square: nat)
    requires square > 0
    ensures (base + Windows(layer, n, width, height, square))[(layer, n) := Window(n, width, height, square)]
         == base + Windows(layer, n + 1, width, height, square)
  {
    WindowsSnoc(layer, n, width, height, square);
  }

  lemma WindowKeysSnoc(layer: int, n: nat)
    ensures WindowKeys(layer, n + 1) == WindowKeys(layer, n) + {(layer, n)}
  {
  }

  /** The outcome of the i-th call of a loop; missing entries are
      successes. */
  function OkAt(oks: seq<bool>, i: nat): bool
  {
    i >= |oks| || oks[i]
  }

  /** The index of the first failing call among the first n, or n. */
  function FirstFailed(oks: seq<bool>, n: nat, from: nat): (k: nat)
    requires from <= n
    ensures from <= k <= n
    ensures forall j :: from <= j < k ==> OkAt(oks, j)
    ensures k < n ==> !OkAt(oks, k)
    decreases n - from
  {
    if from == n || !OkAt(oks, from) then from else FirstFailed(oks, n, from + 1)
  }

  /** The attribute of a video layer: where it is shown, the size of its
      image and its frame rate. */
  datatype LayerAttr = LayerAttr(disp: Rect, image: (nat, nat), frameRate: nat)

  /** cnsampleVoConfig_t, the fields the start uses. */
  datatype VoConfig = VoConfig(dev: int, sync: IntfSync, disp: Rect, disBufLen: nat, mode: VoMode)

  /** cnsampleCommVoLayerConfig_t. */
  datatype LayerConfig = LayerConfig(layer: int, sync: IntfSync, disp: Rect, image: (nat, nat), disBufLen: nat, mode: VoMode)

  /** The outcomes of the driver calls made while starting a device, its
      layer and its channels; `chnOks` holds one outcome per window
      (cnvoSetChnAttr and cnvoEnableChn together); `undoLayer` and `undoDev`
      are the outcomes of the cnvoDisableVideoLayer and cnvoDisable a failed
      start makes to roll back, whose results the start ignores. */
  datatype VoCalls = VoCalls(
    setPubAttr: bool, enableDev: bool, setBufLen: bool, setLayerAttr: bool,
    enableLayer: bool, getLayerAttr: bool, chnOks: seq<bool>,
    undoLayer: bool, undoDev: bool)

  /** The attribute cnsampleCommVoStartVo gives the layer: the configured
      display rectangle, an image of the same size (its width aligned up
      to DEFAULT_ALIGN when a display buffer length is set) and the frame
      rate of the timing. */
  function StartVoLayerAttr(cfg: VoConfig, t: Timing, defaultAlign: nat): (r: LayerAttr)
    requires defaultAlign > 0
    ensures r.disp == cfg.disp && r.frameRate == t.frameRate && r.image.1 == cfg.disp.h
    ensures cfg.disBufLen == 0 ==> r.image.0 == cfg.disp.w
    ensures cfg.disBufLen != 0 && cfg.disp.w + defaultAlign - 1 < U32_MOD ==>
      r.image.0 % defaultAlign == 0 && cfg.disp.w <= r.image.0 < cfg.disp.w + defaultAlign
  {
    var w := if cfg.disBufLen != 0 then SurfaceUtils.AlignUp(cfg.disp.w, defaultAlign) else cfg.disp.w;
    LayerAttr(cfg.disp, (w, cfg.disp.h), t.frameRate)
  }

  /** cnsampleCommVoStartDev succeeds. */
  predicate DevUp(calls: VoCalls)
  {
    calls.setPubAttr && calls.enableDev
  }

  /** cnsampleCommVoStartVo gets as far as setting the layer attribute. */
  predicate LayerAttrSet(cfg: VoConfig, calls: VoCalls)
  {
    DevUp(calls) && GetWH(cfg.sync).Some? && (cfg.disBufLen != 0 ==> calls.setBufLen) && calls.setLayerAttr
  }

  /** cnsampleCommVoStartVo gets the layer enabled. */
  predicate LayerUp(cfg: VoConfig, calls: VoCalls)
  {
    LayerAttrSet(cfg, calls) && calls.enableLayer
  }

  /** cnsampleCommVoStartChn succeeds once the layer is up. */
  predicate ChnsUp(cfg: VoConfig, calls: VoCalls)
  {
    Layout(cfg.mode).Some? && calls.getLayerAttr
    && FirstFailed(calls.chnOks, Layout(cfg.mode).value.windows, 0) == Layout(cfg.mode).value.windows
  }

  /** The driver state: enabled devices, layer attributes set, enabled
      layers, and enabled channels with their rectangles. `defaultAlign` is
      DEFAULT_ALIGN. */
  class VoSystem {
    const defaultAlign: nat
    var devs: set<int>
    var attrs: map<int, LayerAttr>
    var layers: set<int>
    var chns: map<(int, int), Rect>

    constructor (defaultAlign: nat)
      requires defaultAlign > 0
      ensures this.defaultAlign == defaultAlign
      ensures devs == {} && attrs == map[] && layers == {} && chns == map[]
    {
      this.defaultAlign := defaultAlign;
      devs, attrs, layers, chns := {}, map[], {}, map[];
    }

    /** cnsampleCommVoStartChn: lays the mode's windows over the layer's
        image and enables them in order; the first failing window stops
        it, leaving the earlier ones enabled. */
    method StartChn(layer: int, mode: VoMode, getAttrOk: bool, chnOks: seq<bool>) returns (ok: bool)
      modifies this`chns
      ensures Layout(mode).None? || !getAttrOk || layer !in attrs ==> !ok && chns == old(chns)
      ensures Layout(mode).Some? && getAttrOk && layer in attrs ==>
        var g := Layout(mode).value;
        var img := attrs[layer].image;
        var k := FirstFailed(chnOks, g.windows, 0);
        (ok <==> k == g.windows) && chns == old(chns) + Windows(layer, k, img.0, img.1, g.square)
    {
      var grid := Layout(mode);
      if grid.None? {
        return false;
      }
      if !getAttrOk || layer !in attrs {
        return false;
      }
      var g := grid.value;
      var w, h := attrs[layer].image.0, attrs[layer].image.1;
      ok := EnableWindows(layer, g.windows, w, h, g.square, chnOks);
    }

    /** The loop of cnsampleCommVoStartChn: windows 0..n-1 are given their
        rectangles and enabled in order until one fails. */
    method EnableWindows(layer: int, n: nat, w: nat, h: nat, square: nat, chnOks: seq<bool>) returns (ok: bool)
      requires square > 0
      modifies this`chns
      ensures var k := FirstFailed(chnOks, n, 0);
        (ok <==> k == n) && chns == old(chns) + Windows(layer, k, w, h, square)
    {
      var i := 0;
      while i < n
        invariant 0 <= i <= n
        invariant forall j :: 0 <= j < i ==> OkAt(chnOks, j)
        invariant chns == old(chns) + Windows(layer, i, w, h, square)
      {
        if !OkAt(chnOks, i) {
          assert FirstFailed(chnOks, n, 0) == i;
          return false;
        }
        ExtendWindows(old(chns), layer, i, w, h, square);
        chns := chns[(layer, i) := Window(i, w, h, square)];
        i := i + 1;
      }
      ok := true;
    }

    /** cnsampleCommVoStopChn: disables the mode's windows in order; the
        first failure stops it. */
    method StopChn(layer: int, mode: VoMode, disableOks: seq<bool>) returns (ok: bool)
      modifies this`chns
      ensures StopWindowCount(mode).None? ==> !ok && chns == old(chns)
      ensures StopWindowCount(mode).Some? ==>
        var k := FirstFailed(disableOks, StopWindowCount(mode).value, 0);
        (ok <==> k == StopWindowCount(mode).value) && chns == old(chns) - WindowKeys(layer, k)
    {
      var count := StopWindowCount(mode);
      if count.None? {
        return false;
      }
      var n := count.value;
      var i := 0;
      while i < n
        invariant 0 <= i <= n
        invariant forall j :: 0 <= j < i ==> OkAt(disableOks, j)
        invariant chns == old(chns) - WindowKeys(layer, i)
      {
        if !OkAt(disableOks, i) {
          assert FirstFailed(disableOks, n, 0) == i;
          return false;
        }
        WindowKeysSnoc(layer, i);
        chns := chns - {(layer, i)};
        i := i + 1;
      }
      ok := true;
    }

    /** cnsampleCommVoStartVo: device, timing, display buffer, layer (whose
        id is the device id), channels. A failure after the device is up
        disables the device again, and one in the channels also disables
        the layer, each undo taking effect only when its call succeeds;
        windows a failed channel start had enabled stay. */
    method StartVo(cfg: VoConfig, calls: VoCalls) returns (ok: bool)
      requires defaultAlign > 0
      modifies this
      ensures ok <==> LayerUp(cfg, calls) && ChnsUp(cfg, calls)
      ensures devs == if !DevUp(calls) then old(devs)
                      else if !ok && calls.undoDev then old(devs) - {cfg.dev}
                      else old(devs) + {cfg.dev}
      ensures attrs == if LayerAttrSet(cfg, calls) then old(attrs)[cfg.dev := StartVoLayerAttr(cfg, GetWH(cfg.sync).value, defaultAlign)] else old(attrs)
      ensures layers == if !LayerUp(cfg, calls) then old(layers)
                        else if !ok && calls.undoLayer then old(layers) - {cfg.dev}
                        else old(layers) + {cfg.dev}
      ensures !LayerUp(cfg, calls) || Layout(cfg.mode).None? || !calls.getLayerAttr ==> chns == old(chns)
      ensures LayerUp(cfg, calls) && Layout(cfg.mode).Some? && calls.getLayerAttr ==>
        var attr := StartVoLayerAttr(cfg, GetWH(cfg.sync).value, defaultAlign);
        var g := Layout(cfg.mode).value;
        chns == old(chns) + Windows(cfg.dev, FirstFailed(calls.chnOks, g.windows, 0), attr.image.0, attr.image.1, g.square)
      ensures ok ==>
        var attr := StartVoLayerAttr(cfg, GetWH(cfg.sync).value, defaultAlign);
        var g := Layout(cfg.mode).value;
        chns == old(chns) + Windows(cfg.dev, g.windows, attr.image.0, attr.image.1, g.square)
    {
      // cnsampleCommVoStartDev
      if !calls.setPubAttr || !calls.enableDev {
        return false;
      }
      devs := devs + {cfg.dev};
      var timing := GetWH(cfg.sync);
      if timing.None? {
        if calls.undoDev { devs := devs - {cfg.dev}; }
        return false;
      }
      var attr := StartVoLayerAttr(cfg, timing.value, defaultAlign);
      if cfg.disBufLen != 0 && !calls.setBufLen {
        if calls.undoDev { devs := devs - {cfg.dev}; }
        return false;
      }
      // cnsampleCommVoStartLayer
      if !calls.setLayerAttr {
        if calls.undoDev { devs := devs - {cfg.dev}; }
        return false;
      }
      attrs := attrs[cfg.dev := attr];
      if !calls.enableLayer {
        if calls.undoDev { devs := devs - {cfg.dev}; }
        return false;
      }
      layers := layers + {cfg.dev};
      ok := StartChn(cfg.dev, cfg.mode, calls.getLayerAttr, calls.chnOks);
      if !ok {
        // The windows StartChn enabled before failing are not disabled.
        if calls.undoLayer { layers := layers - {cfg.dev}; }
        if calls.undoDev { devs := devs - {cfg.dev}; }
      }
    }

    /** cnsampleCommVoStopVo: channels, layer, device, each attempted; the
        result is a failure when any of the three fails. */
    method StopVo(dev: int, mode: VoMode, disableOks: seq<bool>, disableLayerOk: bool, disableDevOk: bool) returns (ok: bool)
      modifies this`chns, this`layers, this`devs
      ensures var n := StopWindowCount(mode);
        var chnsOk := n.Some? && FirstFailed(disableOks, n.value, 0) == n.value;
        ok <==> chnsOk && disableLayerOk && disableDevOk
      ensures StopWindowCount(mode).None? ==> chns == old(chns)
      ensures StopWindowCount(mode).Some? ==>
        chns == old(chns) - WindowKeys(dev, FirstFailed(disableOks, StopWindowCount(mode).value, 0))
      ensures layers == if disableLayerOk then old(layers) - {dev} else old(layers)
      ensures devs == if disableDevOk then old(devs) - {dev} else old(devs)
    {
      var chnsOk := StopChn(dev, mode, disableOks);
      if disableLayerOk {
        layers := layers - {dev};
      }
      if disableDevOk {
        devs := devs - {dev};
      }
      ok := chnsOk && disableLayerOk && disableDevOk;
    }

    /** cnsampleCommVoStartLayerChn: the timing must be known (its frame
        rate is kept), the layer is shown at the configured rectangle with
        the configured image size, then the channels are started; a failure
        there disables the layer again when that call succeeds, leaving
        the windows enabled so far. */
    method StartLayerChn(cfg: LayerConfig, calls: VoCalls) returns (ok: bool)
      modifies this`attrs, this`layers, this`chns
      ensures var reached := GetWH(cfg.sync).Some? && (cfg.disBufLen != 0 ==> calls.setBufLen) && calls.setLayerAttr;
        var up := reached && calls.enableLayer;
        (ok <==> up && ChnsUp(VoConfig(cfg.layer, cfg.sync, cfg.disp, cfg.disBufLen, cfg.mode), calls)) &&
        attrs == (if reached then old(attrs)[cfg.layer := LayerAttr(cfg.disp, cfg.image, GetWH(cfg.sync).value.frameRate)] else old(attrs)) &&
        layers == (if !up then old(layers)
                   else if !ok && calls.undoLayer then old(layers) - {cfg.layer}
                   else old(layers) + {cfg.layer}) &&
        (!up || Layout(cfg.mode).None? || !calls.getLayerAttr ==> chns == old(chns)) &&
        (up && Layout(cfg.mode).Some? && calls.getLayerAttr ==>
          var g := Layout(cfg.mode).value;
          chns == old(chns) + Windows(cfg.layer, FirstFailed(calls.chnOks, g.windows, 0), cfg.image.0, cfg.image.1, g.square))
      ensures ok ==>
        var g := Layout(cfg.mode).value;
        chns == old(chns) + Windows(cfg.layer, g.windows, cfg.image.0, cfg.image.1, g.square)
    {
      var timing := GetWH(cfg.sync);
      if timing.None? {
        return false;
      }
      if cfg.disBufLen != 0 && !calls.setBufLen {
        return false;
      }
      if !calls.setLayerAttr {
        return false;
      }
      attrs := attrs[cfg.layer := LayerAttr(cfg.disp, cfg.image, timing.value.frameRate)];
      if !calls.enableLayer {
        return false;
      }
      layers := layers + {cfg.layer};
      ok := StartChn(cfg.layer, cfg.mode, calls.getLayerAttr, calls.chnOks);
      if !ok && calls.undoLayer {
        layers := layers - {cfg.layer};
      }
    }

    /** cnsampleCommVoStopLayerChn: stops the channels and the layer and
        reports success whatever they return. */
    method StopLayerChn(layer: int, mode: VoMode, disableOks: seq<bool>, disableLayerOk: bool) returns (ok: bool)
      modifies this`chns, this`layers
      ensures ok
      ensures StopWindowCount(mode).None? ==> chns == old(chns)
      ensures StopWindowCount(mode).Some? ==>
        chns == old(chns) - WindowKeys(layer, FirstFailed(disableOks, StopWindowCount(mode).value, 0))
      ensures layers == if disableLayerOk then old(layers) - {layer} else old(layers)
    {
      var _ := StopChn(layer, mode, disableOks);
      if disableLayerOk {
        layers := layers - {layer};
      }
      ok := true;
    }
  }

  /** After a successful start, the enabled windows of the new layer tile
      its image without overlapping. */
  lemma StartedWindowsTile(layer: int, mode: VoMode, width: nat, height: nat, a: int, b: int)
    requires Layout(mode).Some?
    requires var g := Layout(mode).value;
      0 <= a < g.windows && 0 <= b < g.windows && a != b
    ensures var g := Layout(mode).value;
      var m := Windows(layer, g.windows, width, height, g.square);
      var ra := m[(layer, a)];
      var rb := m[(layer, b)];
      ra.x + ra.w <= width && ra.y + ra.h <= height &&
      (ra.x + ra.w <= rb.x || rb.x + rb.w <= ra.x || ra.y + ra.h <= rb.y || rb.y + rb.h <= ra.y)
  {
    var g := Layout(mode).value;
    WindowsContents(layer, g.windows, width, height, g.square);
    WindowInside(a, width, height, g.square);
    WindowsDisjoint(a, b, width, height, g.square);
  }
}
