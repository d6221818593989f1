// The buffer-surface records shared by the memory pool, the surface
// service and the surface wrapper (include/cnedk_buf_surface.h).
module Surfaces {
  import opened Common
  import opened SurfaceUtils

  /** CnedkBufSurfaceCreateParams. */
  datatype CreateParams = CreateParams(
    memType: int,
    deviceId: nat,
    width: nat,
    height: nat,
    colorFormat: int,
    size: nat,
    batchSize: nat)

  /** CnedkBufSurfaceParams: one image of a batch. `data` stands for the
      bytes behind data_ptr; `mapped` says whether mapped_data_ptr is set. */
  datatype SurfaceItem = SurfaceItem(
    width: nat,
    height: nat,
    pitch: nat,
    colorFormat: int,
    dataSize: nat,
    data: seq<Byte>,
    mapped: bool,
    plane: PlaneParams)

  /** CnedkBufSurface: `owner` (the opaque field) names the pool a surface came from (the
      pool's address), None when it was created on its own. */
  datatype BufSurface = BufSurface(
    memType: int,
    deviceId: nat,
    batchSize: nat,
    numFilled: nat,
    items: seq<SurfaceItem>,
    owner: Option<nat>,
    pts: int)
  {
    /** surface_list holds batch_size entries, each with well-formed plane
        parameters. */
    predicate Wf()
    {
      |items| == batchSize &&
      forall i :: 0 <= i < |items| ==> items[i].plane.WellFormed()
    }
  }

  /** Host memory: the surface service copies and sets it with memcpy and
      memset rather than with device calls. */
  predicate IsHostMemory(memType: int)
  {
    memType == MEM_SYSTEM || memType == MEM_PINNED
  }

  /** Memory with a CPU cache that needs explicit flushes. */
  predicate IsCachedMemory(memType: int)
  {
    memType == MEM_UNIFIED_CACHED || memType == MEM_VB_CACHED
  }
}
