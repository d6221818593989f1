// The inference server's preprocessing stage
// (src/infer_server/processor/preprocessor.cpp): a registry of user
// preprocessing handlers keyed by model, the once-per-model tensor
// parameter callback, and the sizing of the output surface pool from the
// model's input tensor.
module Preprocessing {
  import opened Common
  import opened SurfaceUtils
  import opened Surfaces
  import opened DataTypes

  datatype NetworkInputFormat = RGB | BGR | RGBA | BGRA | ARGB | ABGR | GRAY | TENSOR | INVALID_FORMAT

  /** The inference server's Status codes that preprocessing returns. */
  datatype Status = SUCCESS | INVALID_PARAM | ERROR_BACKEND

  /** CnPreprocTensorParams: the model's first input as the handler sees
      it. */
  datatype TensorParams = TensorParams(
    order: DimOrder,
    shape: seq<int>,
    format: NetworkInputFormat,
    dtype: DataType,
    batchNum: nat)

  /** The global handler map and the set of keys whose OnTensorParams has
      run. Handlers are named by number. */
  class Registry {
    var handlers: map<string, nat>
    var onParams: set<string>

    constructor ()
      ensures handlers == map[] && onParams == {}
    {
      handlers := map[];
      onParams := {};
    }

    /** SetPreprocHandler: registers or replaces the handler for `key`. */
    method SetPreprocHandler(key: string, handler: nat)
      modifies this`handlers
      ensures handlers == old(handlers)[key := handler]
    {
      handlers := handlers[key := handler];
    }

    /** GetPreprocHandler: the handler registered for `key`, or none. */
    function GetPreprocHandler(key: string): (h: Option<nat>)
      reads this
      ensures h.Some? <==> key in handlers
      ensures h.Some? ==> h.value == handlers[key]
    {
      if key in handlers then Some(handlers[key]) else None
    }

    /** RemovePreprocHandler: forgets both the handler and the mark that
      its tensor parameters were delivered. */
    method RemovePreprocHandler(key: string)
      modifies this
      ensures handlers == old(handlers) - {key}
      ensures onParams == old(onParams) - {key}
    {
      if key in handlers {
        handlers := handlers - {key};
      }
      if key in onParams {
        onParams := onParams - {key};
      }
    }

    /** EnableOnTensorParams: true only on the first call for a key (until
        the key is removed again). */
    method EnableOnTensorParams(key: string) returns (res: bool)
      modifies this`onParams
      ensures res <==> key !in old(onParams)
      ensures onParams == old(onParams) + {key}
    {
      res := key !in onParams;
      if res {
        onParams := onParams + {key};
      }
    }
  }

  /** Registering a handler makes it the one returned, and removing the
      key makes the lookup fail and re-arms the tensor-parameter callback. */
  method RegistryRoundTrip(key: string, handler: nat) returns (got: Option<nat>, gone: Option<nat>, first: bool)
    ensures got == Some(handler) && gone.None? && first
  {
    var registry := new Registry();
    registry.SetPreprocHandler(key, handler);
    got := registry.GetPreprocHandler(key);
    var once := registry.EnableOnTensorParams(key);
    registry.RemovePreprocHandler(key);
    gone := registry.GetPreprocHandler(key);
    first := registry.EnableOnTensorParams(key);
  }

  /** The model input's width, height and channels (as uint32_t) read from
      the shape by its dimension order; other orders are unsupported. */
  function InputWhc(order: DimOrder, shape: seq<int>): (r: Option<(nat, nat, nat)>)
    requires order == NHWC || order == NCHW ==> |shape| >= 4
    ensures r.Some? <==> order == NHWC || order == NCHW
    ensures r.Some? ==> r.value.0 < U32_MOD && r.value.1 < U32_MOD && r.value.2 < U32_MOD
  {
    if order == NHWC then Some((U32(shape[2]), U32(shape[1]), U32(shape[3])))
    else if order == NCHW then Some((U32(shape[3]), U32(shape[2]), U32(shape[1])))
    else None
  }

  /** The two index maps agree: reading an NCHW shape gives what reading
      the same tensor transposed to NHWC gives. */
  lemma InputWhcFollowsTranspose(dims: seq<int>)
    requires |dims| == 4
    ensures InputWhc(NCHW, dims) == InputWhc(NHWC, Permute(dims, NchwToNhwcAxis(4)))
  {
    FourDimAxes(dims[0], dims[1], dims[2], dims[3]);
    assert dims == [dims[0], dims[1], dims[2], dims[3]];
  }

  /** Solver::CreatePool's surface parameters: the size comes from the
      input shape; RGB and BGR need 3 channels; the memory is VB on edge
      platforms (unified when the input is under 64 pixels in width or
      height) and device memory elsewhere; BGR, RGB and GRAY give image
      surfaces and TENSOR one of w*h*c elements of the input type (in
      32-bit arithmetic); other formats and an unknown type fail. `edge`
      is the platform query's answer, None when it fails. */
  function PoolCreateParams(tp: TensorParams, format: NetworkInputFormat, deviceId: nat,
                            edge: Option<bool>): (r: Option<CreateParams>)
    requires tp.order == NHWC || tp.order == NCHW ==> |tp.shape| >= 4
    ensures r.Some? ==>
      InputWhc(tp.order, tp.shape).Some? && edge.Some? &&
      r.value.deviceId == deviceId && r.value.batchSize == U32(tp.batchNum)
    ensures r.Some? ==>
      var (w, h, c) := InputWhc(tp.order, tp.shape).value;
      r.value.width == w && r.value.height == h &&
      r.value.memType == (if !edge.value then MEM_DEVICE else if w < 64 || h < 64 then MEM_UNIFIED else MEM_VB)
    ensures (format == RGB || format == BGR) && InputWhc(tp.order, tp.shape).Some? && InputWhc(tp.order, tp.shape).value.2 != 3
      ==> r.None?
    ensures format !in {RGB, BGR, GRAY, TENSOR} ==> r.None?
    ensures format == TENSOR && InputWhc(tp.order, tp.shape).Some? && edge.Some? ==>
      (r.Some? <==> GetTypeSize(tp.dtype) != 0)
    ensures format == TENSOR && r.Some? ==>
      var (w, h, c) := InputWhc(tp.order, tp.shape).value;
      r.value.colorFormat == FMT_TENSOR && r.value.size == U32(U32(w * h * c) * GetTypeSize(tp.dtype))
    ensures format in {RGB, BGR, GRAY} && r.Some? ==>
      r.value.size == 0 &&
      r.value.colorFormat == (if format == RGB then FMT_RGB else if format == BGR then FMT_BGR else FMT_GRAY8)
  {
    var whc := InputWhc(tp.order, tp.shape);
    if whc.None? then None
    else
      var (w, h, c) := whc.value;
      if (format == BGR || format == RGB) && c != 3 then None
      else if edge.None? then None
      else
        var memType := if !edge.value then MEM_DEVICE else if w < 64 || h < 64 then MEM_UNIFIED else MEM_VB;
        var base := CreateParams(memType, deviceId, w, h, FMT_INVALID, 0, U32(tp.batchNum));
        match format
        case BGR => Some(base.(colorFormat := FMT_BGR))
        case RGB => Some(base.(colorFormat := FMT_RGB))
        case GRAY => Some(base.(colorFormat := FMT_GRAY8))
        case TENSOR =>
          var size := U32(w * h * c);
          if tp.dtype == UINT8 then Some(base.(colorFormat := FMT_TENSOR, size := size))
          else if tp.dtype == INT16 then Some(base.(colorFormat := FMT_TENSOR, size := U32(size * 2)))
          else if tp.dtype == INT32 then Some(base.(colorFormat := FMT_TENSOR, size := U32(size * 4)))
          else if tp.dtype == FLOAT16 then Some(base.(colorFormat := FMT_TENSOR, size := U32(size * 2)))
          else if tp.dtype == FLOAT32 then Some(base.(colorFormat := FMT_TENSOR, size := U32(size * 4)))
          else None
        case _ => None
  }

  /** A 224x224x3 UINT8 NHWC input on an edge platform gets a VB tensor
      pool of 150528 bytes per surface. */
  lemma TensorPoolExample()
    ensures PoolCreateParams(TensorParams(NHWC, [4, 224, 224, 3], TENSOR, UINT8, 4), TENSOR, 0, Some(true)) ==
            Some(CreateParams(MEM_VB, 0, 224, 224, FMT_TENSOR, 150528, 4))
  {
  }

  /** The per-model preprocessing executor. */
  class Solver {
    const handler: Option<nat>
    const deviceId: nat
    const key: string
    const format: NetworkInputFormat
    var err: int
    var tensorParams: TensorParams
    var initialized: bool
    /** The parameters of the output pool, once it was created. */
    var pool: Option<CreateParams>

    /** Initialisation succeeds once, after which the error is 0. */
    predicate Valid()
      reads this
    {
      initialized ==> err == 0 && pool.Some?
    }

    constructor (handler: Option<nat>, deviceId: nat, key: string, format: NetworkInputFormat,
                 tensorParams: TensorParams)
      ensures Valid() && !initialized && err == -1 && pool.None?
      ensures this.handler == handler && this.key == key && this.format == format && this.deviceId == deviceId
    {
      this.handler := handler;
      this.deviceId := deviceId;
      this.key := key;
      this.format := format;
      err := -1;
      this.tensorParams := tensorParams;
      initialized := false;
      pool := None;
    }

    /** CheckAllocResource: once initialised it only reports the stored
        error; without a handler it fails; otherwise the handler sees the
        tensor parameters the first time its key is used (`adjusted` is
        what its OnTensorParams leaves, None when it fails), then the
        output pool of 3 surfaces is created (`poolOk` says whether the
        pool accepts the parameters). */
    method CheckAllocResource(tp: TensorParams, registry: Registry, adjusted: Option<TensorParams>,
                              edge: Option<bool>, poolOk: bool) returns (r: int)
      requires Valid()
      requires tp.order == NHWC || tp.order == NCHW ==> |tp.shape| >= 4
      requires adjusted.Some? && (adjusted.value.order == NHWC || adjusted.value.order == NCHW) ==>
        |adjusted.value.shape| >= 4
      modifies this, registry`onParams
      ensures Valid()
      ensures r == 0 || r == -1
      ensures old(initialized) ==> r == 0 && initialized && pool == old(pool) && registry.onParams == old(registry.onParams)
      ensures !old(initialized) && handler.None? ==> r == -1 && !initialized
      ensures !old(initialized) && handler.Some? ==> registry.onParams == old(registry.onParams) + {key}
      ensures !old(initialized) && handler.Some? ==>
        var first := key !in old(registry.onParams);
        var params := if first && adjusted.Some? then adjusted.value else tp;
        (r == 0 <==> !(first && adjusted.None?) &&
                     PoolCreateParams(params, format, deviceId, edge).Some? && poolOk) &&
        (r == 0 ==> initialized && pool == PoolCreateParams(params, format, deviceId, edge)) &&
        (r == -1 ==> !initialized && err == -1)
    {
      if initialized {
        return err;
      }
      if handler.None? {
        return -1;
      }
      err := 0;
      tensorParams := tp;
      var first := registry.EnableOnTensorParams(key);
      if first {
        if adjusted.None? {
          err := -1;
          return -1;
        }
        tensorParams := adjusted.value;
      }
      var created := PoolCreateParams(tensorParams, format, deviceId, edge);
      if created.None? || !poolOk {
        err := -1;
        return -1;
      }
      pool := created;
      initialized := true;
      return 0;
    }

    /** Execute: a stored error or a missing handler fails, an empty
        package succeeds at once, and otherwise both an output surface
        from the pool (within 2000 ms) and the handler's OnPreproc are
        needed. */
    function Execute(packSize: nat, gotOutput: bool, preprocOk: bool): (r: int)
      reads this
      ensures r == 0 || r == -1
      ensures r == 0 <==> err >= 0 && handler.Some? && (packSize == 0 || (gotOutput && preprocOk))
    {
      if err < 0 then -1
      else if handler.None? then -1
      else if packSize == 0 then 0
      else if !gotOutput then -1
      else if !preprocOk then -1
      else 0
    }
  }

  /** Preprocessor::Process: an empty package is an invalid parameter;
      failing to set up the solver or to preprocess is a backend error. */
  method Process(solver: Solver, packSize: nat, tp: TensorParams, registry: Registry,
                 adjusted: Option<TensorParams>, edge: Option<bool>, poolOk: bool,
                 gotOutput: bool, preprocOk: bool) returns (s: Status)
    requires solver.Valid()
    requires tp.order == NHWC || tp.order == NCHW ==> |tp.shape| >= 4
    requires adjusted.Some? && (adjusted.value.order == NHWC || adjusted.value.order == NCHW) ==>
      |adjusted.value.shape| >= 4
    modifies solver, registry`onParams
    ensures solver.Valid()
    ensures packSize == 0 ==> s == INVALID_PARAM && solver.initialized == old(solver.initialized)
    ensures packSize > 0 ==> s == SUCCESS || s == ERROR_BACKEND
    ensures packSize > 0 ==>
      (s == SUCCESS <==> solver.initialized && solver.Execute(packSize, gotOutput, preprocOk) == 0)
    ensures packSize > 0 && !solver.initialized ==> s == ERROR_BACKEND
    ensures packSize > 0 && old(solver.initialized) ==>
      (s == SUCCESS <==> solver.handler.Some? && gotOutput && preprocOk)
    ensures s == SUCCESS ==> packSize > 0 && solver.initialized
  {
    if packSize == 0 {
      return INVALID_PARAM;
    }
    var ready := solver.CheckAllocResource(tp, registry, adjusted, edge, poolOk);
    if ready < 0 {
      return ERROR_BACKEND;
    }
    var ret := solver.Execute(packSize, gotOutput, preprocOk);
    if ret < 0 {
      return ERROR_BACKEND;
    }
    return SUCCESS;
  }
}
