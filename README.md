# EasyDK core, modelled in Dafny

EasyDK is a C++ SDK for Cambricon accelerators. Most of its logic is
sequential bookkeeping around calls into the accelerator runtime, the codecs,
the vision library and the CE3226 media processing system. This project
models that bookkeeping and proves what it promises. Almost every call into
the hardware or a driver is an outcome parameter that either succeeds or
fails; the few exceptions are listed under "Left out".

One Dafny module models one source file:

| module | file | what it models |
|---|---|---|
| `Common` | (shared) | `Option`/`Result`, 32-bit unsigned arithmetic, alignment and small sequence facts |
| `SurfaceUtils` | `src/cnedk_buf_surface_utils.cpp` | per-plane pitch, size and offset of each colour format; `CheckParams` |
| `TensorShape` | `infer_server/include/shape.h` | `Shape` counts, accessors and equality |
| `DataTypes` | `infer_server/src/core/data_type.cpp` | dim-order permutation axes, the `TransLayout` dispatch, type sizes |
| `InferCache` | `infer_server/src/core/cache.h` | the package FIFO with static chunking and dynamic rebatching of discarded work |
| `InferBuffer` | `infer_server/src/core/buffer.cpp` | the offset buffer over shared memory, its copy checks, and the bounded MLU memory pool |
| `BufSurfaceMemPool` | `src/cnedk_buf_surface_impl.cpp` | the block pool: create, alloc, free, destroy |
| `Surfaces` | `include/cnedk_buf_surface.h` | the surface records shared by the pool, the service and the wrapper |
| `BufSurfaceService` | `src/cnedk_buf_surface.cpp` | the service's validation, memset and copy rules, and the slot allocator |
| `BufSurfaceUtil` | `src/cnedk_buf_surface_util.cpp` | the surface wrapper and `BufPool` with its retry loops |
| `ModelCache` | `infer_server/src/model/model_manager.cpp` | the model cache: keys, load, unload, eviction |
| `Preprocessing` | `src/infer_server/processor/preprocessor.cpp` | the handler registry and the pool sizing |
| `CncvPreprocess` | `infer_server/src/contrib/preprocess_impl.h` | the depth and stride tables, parameter checks, the resize-convert op and the CNCV route |
| `CncvTransform` | `src/transform_cncv/cnedk_transform_cncv.cpp` | ROI clamping, format predicates and maps, the transform dispatch |
| `ProgressiveJpeg` | `src/easycodec/progressive_jpeg.cpp` | the progressive-JPEG marker scan (ITU-T T.81 Annex B, Table B.1) and the output buffer id pool |
| `Mlu200Decode` | `src/easycodec/decoder_mlu200.cpp` | the decoder's EOS and status flags and the pts key map |
| `Mlu590Decode` | `src/mlu590/cnedk_decode_impl_mlu590.cpp` | decoder creation, the send state machine with its retry loop, and sequence handling |
| `VdecApi`, `DecodeService` | `src/cnedk_decode.cpp` | the decode front end and its parameter checks |
| `Mlu370Encode` | `src/mlu370/cnedk_encode_impl_mlu370.cpp` | encoder parameter normalisation, the frame queue, EOS and the held SPS/PPS packet |
| `MpsVenc` | `src/ce3226/mps_service/src/mps_service_impl_venc.cpp` | GOP tables, channel creation rules, destroy and send checks |
| `MpsOsd` | `src/ce3226/mps_service/src/mps_service.cpp` | OSD box rectification, colour grouping and job chunking |
| `IniConfig` | `src/ce3226/mps_service/src/mps_internal/cnsample_comm_config.cpp` | the INI reader: in-place trim and upper-case, section and key matching, the sensor configuration |
| `ViSensor` | `src/ce3226/mps_service/src/mps_internal/cnsample_comm_vi.cpp` | the sensor lookup tables and `CreateVi` with its rollback |
| `VoLayout` | `src/ce3226/mps_service/src/mps_internal/cnsample_comm_vo.cpp` | output timings, the window grid, and starting and stopping the output |
| `EasyPipeline` | `samples/easy_pipeline/framework/easy_pipeline.cpp` | graph building, frame routing by stream, the per-node stream map |

Code that changes state in place is modelled as classes: caches, pools,
decoders, encoders, the surface service and the pipeline. Their fields are
the source's fields, and their methods carry `modifies` clauses. Code that
only computes is modelled as functions with lemmas. Where the source loops
over a buffer or a list, the model keeps the loop and proves it against a
specification function.

## Model

| member | source | states |
|---|---|---|
| SurfaceUtils.AlignUpExact | src/cnedk_buf_surface_utils.cpp:43 | the 32-bit round-up `(v + a - 1) / a * a` is a multiple of `a` and lies in `[v, v + a)` whenever the sum does not wrap |
| SurfaceUtils.GetColorFormatInfo | src/cnedk_buf_surface_utils.cpp:34-113 | returns 0 exactly for the supported formats and then fills the layout of the format; an invalid or unknown format returns -1 with every field cleared |
| SurfaceUtils.PlaneOffsets | src/cnedk_buf_surface_utils.cpp:57-59 | plane offsets are the 32-bit running sums of the sizes of the planes before, 0 past the last plane |
| SurfaceUtils.PlaneEntry | src/cnedk_buf_surface_utils.cpp:49-56 | the loop body sets a plane's width, height, bytes per pixel, aligned pitch and aligned size |
| SurfaceUtils.PitchCoversRow | src/cnedk_buf_surface_utils.cpp:43 | a plane's pitch is its row length rounded up to a multiple of align_size_w, less than one alignment above the row |
| SurfaceUtils.SemiPlanarLayout | src/cnedk_buf_surface_utils.cpp:63-76 | NV12/NV21 have two full-width planes, the second of half height, one byte per pixel, offset[1] == psize[0] |
| SurfaceUtils.PlanarLayout | src/cnedk_buf_surface_utils.cpp:49-62 | YUV420 has three planes, the chroma planes of half width and height and equal size, offsets the running sums of the sizes |
| SurfaceUtils.PackedLayout | src/cnedk_buf_surface_utils.cpp:37-107 | the single-plane formats have one plane at offset 0 with 1 (gray), 3 (RGB/BGR), 2 (ARGB1555) or 4 bytes per pixel |
| SurfaceUtils.CheckParamsAccepts | src/cnedk_buf_surface_utils.cpp:116-168 | CheckParams accepts exactly a non-zero batch and either a known format with a non-zero 32-bit w*h or a size (system memory), or a memory type the platform supports (device side) |
| SurfaceUtils.CheckParamsProductWraps | src/cnedk_buf_surface_utils.cpp:160 | the w*h test is done in 32 bits: 65536 x 65536 with size 0 is refused as empty, 65536 x 65535 is accepted |
| TensorShape.Shape.BatchSize | infer_server/include/shape.h:98 | the batch size of a non-empty shape is its first dimension |
| TensorShape.Shape.Get4 | infer_server/include/shape.h:106-150 | GetN/GetH/GetW/GetC read their dimension of a 4-dimensional shape and give 0 for any other size |
| TensorShape.DataCount | infer_server/include/shape.h:157-163 | the loop computes the product of every dimension after the first, and 1 for shapes of size 0 or 1 |
| TensorShape.BatchDataCount | infer_server/include/shape.h:170-176 | the loop computes the product of all dimensions, 1 for the empty shape |
| TensorShape.BatchCountSplits | infer_server/include/shape.h:157-176 | the batch data count is the first dimension times the data count |
| TensorShape.Equal | infer_server/include/shape.h:202-215 | two shapes compare equal exactly when their sizes agree and every dimension agrees, which is value equality |
| TensorShape.NotEqual | infer_server/include/shape.h:217 | `!=` is the negation of `==` |
| DataTypes.GetTypeSize | infer_server/src/core/data_type.cpp:130-146 | UINT8 has size 1, FLOAT16 and INT16 size 2, FLOAT32 and INT32 size 4, and only an unsupported type has size 0 |
| DataTypes.GetTransOrderAxis | infer_server/src/core/data_type.cpp:39-63 | the loops build the axis TransOrderAxis describes: [0, 2, ..., n-1, 1] from NCHW to NHWC, [0, n-1, 1, ..., n-2] back, empty for equal orders, an error for other pairs |
| DataTypes.OrderPairs | infer_server/src/core/data_type.cpp:39-63 | an axis exists exactly for equal orders and for the two NCHW/NHWC directions; equal orders give the empty axis, the others an axis of n entries |
| DataTypes.AxesAreInversePermutations | infer_server/src/core/data_type.cpp:41-54 | both axes are permutations of 0..n-1 and each undoes the other |
| DataTypes.FourDimAxes | infer_server/tests/unit/test_data_type.cpp:134-135 | for four dimensions the axes are {0,2,3,1} and {0,3,1,2}, and they turn [n,c,h,w] into [n,h,w,c] and back |
| DataTypes.Permute | infer_server/src/core/data_type.cpp:110-111 | transposing by an axis puts dimension axis[i] at position i |
| DataTypes.TransposeRoundTrip | infer_server/src/core/data_type.cpp:41-54 | transposing NCHW to NHWC and back, or the other way round, gives the original dimensions |
| DataTypes.TransLayout | infer_server/src/core/data_type.cpp:76-126 | orders other than NHWC/NCHW are refused; an unsupported order pair fails; otherwise a type change alone casts BatchDataCount elements, an order change alone transposes, both do both, and neither copies BatchDataCount times the type size bytes |
| DataTypes.AsWrittenNchwLoopBound | infer_server/src/core/data_type.cpp:44 | the loop bound `n_dims - 1` in size_t is n - 1, and 2^64 - 1 when n is 0 |
| DataTypes.AsWrittenEmptyShapeWritesPastEnd | infer_server/src/core/data_type.cpp:42-45 | with n = 0 the as-written loop runs its first step and writes axis[1] in a vector of size 0 |
| InferCache.Survivors | infer_server/src/core/cache.h:142-148 | every item kept by the dynamic clear has a live control block, and no more items come out than went in |
| InferCache.Dropped | infer_server/src/core/cache.h:142-148 | every item the dynamic clear reports as failed belongs to a discarded control block |
| InferCache.FilterSplits | infer_server/src/core/cache.h:140-151 | the dynamic clear partitions the queued items: each item is either kept or reported failed, and the two counts add up to the total |
| InferCache.FilterAppend | infer_server/src/core/cache.h:140-151 | filtering the items of two batches equals filtering each batch and concatenating, so batch boundaries do not affect what survives |
| InferCache.PackFilterSnoc | infer_server/src/core/cache.h:183-193 | the static clear decides each package by its first item alone: a package with a discarded lead is dropped whole, any other is kept |
| InferCache.PackFilterStep | infer_server/src/core/cache.h:183-193 | one loop step of the static clear: a dropped package adds all its items to the failed list, a kept one is queued unchanged |
| InferCache.KeptPacksFromInput | infer_server/src/core/cache.h:181-198 | the static clear requeues only packages that were already queued |
| InferCache.PackFilterSplits | infer_server/src/core/cache.h:181-198 | the static clear sorts every package into exactly one of kept (live lead) and dropped (discarded lead) |
| InferCache.ChunksPartition | infer_server/src/core/cache.h:215-227 | cutting items into batches loses and invents nothing: the batches concatenate back to the input, and each holds between 1 and batch-size items |
| InferCache.ChunkSizes | infer_server/tests/unit/test_cache.cpp:164-198 | batch i of a cut holds exactly min(batch size, items left) items, namely the items from position i*batch size onwards |
| InferCache.AppendChunks | infer_server/src/core/cache.h:215-227 | appending the batches of a cut to the queue appends exactly the cut's items, each new batch non-empty, within the batch size and not continuous |
| InferCache.AllItemsOfPackages | infer_server/src/core/cache.h:215-227 | the items of the packages built from a cut are the concatenation of the cut's batches |
| InferCache.DynamicClearKeepsExactlyLive | infer_server/tests/unit/test_cache.cpp:202-252 | after the dynamic clear the queue holds exactly the live items in their order, in non-empty batches within the batch size, none of them discarded |
| InferCache.ChunkItemsFrom | infer_server/src/core/cache.h:152-160 | every item of a rebatched cut comes from the items being cut |
| InferCache.Cache.ChunkLimit | infer_server/src/core/cache.h:221 | the static cut's batch length is at least 1 and equals the batch size whenever that is a non-zero 32-bit value (a zero batch size wraps `BatchSize() - 1` and never cuts) |
| InferCache.Cache.constructor | infer_server/src/core/cache.h:41-42 | a new cache is stopped and empty, with the given mode and batch size |
| InferCache.Cache.Start | infer_server/src/core/cache.h:51 | starting sets the running flag and leaves the queue alone |
| InferCache.Cache.Stop | infer_server/src/core/cache.h:129-133 | stopping clears the running flag, and the dynamic cache then emits its half-filled batch, so no queued item is lost |
| InferCache.Cache.Emit | infer_server/src/core/cache.h:129-133 | emitting moves the half-filled batch, if any, to the queue as one package, keeping all items in order |
| InferCache.Cache.Push | infer_server/src/core/cache.h:58-63 | a push succeeds exactly when the cache is running; a refused push changes nothing, an accepted one appends the package's items to the queued contents |
| InferCache.Cache.EnqueueStatic | infer_server/src/core/cache.h:207-228 | the static cache queues a continuous package whole and cuts any other into batches of the batch size; the queued contents grow by exactly the package's items |
| InferCache.Cache.CutIntoBatches | infer_server/src/core/cache.h:215-227 | the cutting loop queues exactly the batches of the reference cut of the items |
| InferCache.Cache.EnqueueDynamic | infer_server/src/core/cache.h:163-168 | the dynamic cache hands each item to the batcher; the queued contents grow by exactly the package's items |
| InferCache.Cache.AddItem | infer_server/src/core/cache.h:109-122 | one item joins the half-filled batch; when the batch reaches the batch size it is queued as one package and the half-filled batch is emptied |
| InferCache.Cache.Pop | infer_server/src/core/cache.h:65-90 | an empty queue gives nothing (blocked while running, null once stopped); a head without discarded items is popped as is; otherwise the queue is cleared first, the discarded items are reported failed and the head of what is left is popped; a dynamic cache never pops a discarded item |
| InferCache.Cache.ClearDiscardStatic | infer_server/src/core/cache.h:181-198 | the static clear keeps exactly the packages whose first item is live, in order, and reports every item of the other packages as failed |
| InferCache.Cache.DrainStatic | infer_server/src/core/cache.h:183-193 | the static clear's loop empties the queue and returns exactly the kept packages while reporting the dropped ones' items |
| InferCache.Cache.ReportFailed | infer_server/src/core/cache.h:188-190 | reporting appends the items to the failed list |
| InferCache.Cache.Requeue | infer_server/src/core/cache.h:194-197 | requeueing appends the kept packages to the queue in order |
| InferCache.Cache.ClearDiscardDynamic | infer_server/src/core/cache.h:137-161 | the dynamic clear rebatches exactly the live items, in order, into batches of the batch size, and reports every discarded item as failed |
| InferCache.Cache.DrainDynamic | infer_server/src/core/cache.h:140-151 | the dynamic clear's drain empties the queue, returns the live items and reports the discarded ones |
| InferCache.Cache.SplitDiscarded | infer_server/src/core/cache.h:142-148 | one package's items are split: live ones are collected, discarded ones reported failed |
| InferCache.Cache.Rebatch | infer_server/src/core/cache.h:152-160 | the rebatching loop queues exactly the batches of the reference cut of the live items |
| InferBuffer.Buffer.Make | infer_server/src/core/buffer.cpp:163-172 | a buffer shares its block, memory type and total size with the block it views and starts at the given offset |
| InferBuffer.Buffer.MemorySize | infer_server/include/buffer.h:147 | the usable size plus the offset is the block size |
| InferBuffer.Buffer.View | infer_server/src/core/buffer.cpp:163-172 | `buf(offset)` is a new view on the same block and device whose offset grows by the argument and whose usable size shrinks by it |
| InferBuffer.Buffer.LazyMalloc | infer_server/src/core/buffer.cpp:133-161 | an allocated block is left alone; an unallocated one is allocated when the allocation succeeds and the call fails with MEMORY when it does not |
| InferBuffer.Buffer.MutableData | infer_server/src/core/buffer.cpp:174-185 | MutableData succeeds exactly when the block is or becomes allocated and then points at the buffer's offset in it; otherwise it fails with MEMORY and changes nothing |
| InferBuffer.Buffer.DataAsWritten | infer_server/src/core/buffer.cpp:187-197 | the null test joined with `&&` never fires for an existing memory record, so Data hands out the offset even when no block is allocated |
| InferBuffer.Buffer.Data | infer_server/src/core/buffer.cpp:187-197 | Data succeeds exactly when the buffer owns memory and then gives its offset; otherwise it fails with MEMORY |
| InferBuffer.DataOfUnallocatedBuffer | infer_server/src/core/buffer.cpp:189 | for a buffer without memory the code as written returns an address, while the intended check fails with MEMORY |
| InferBuffer.Buffer.CopyFromHost | infer_server/src/core/buffer.cpp:210-225 | a copy longer than the usable size or from a null source fails with INVALID_ARG and changes nothing; a failed allocation fails with MEMORY; otherwise the source bytes land at the buffer's offset and nothing else in the block changes |
| InferBuffer.Buffer.CopyToHost | infer_server/src/core/buffer.cpp:227-246 | a copy longer than the usable size or to a null target fails with INVALID_ARG, one from an unallocated block with MEMORY; otherwise the caller gets exactly the bytes at the buffer's offset |
| InferBuffer.Buffer.CopyFromBuffer | infer_server/src/core/buffer.cpp:248-269 | a copy longer than either usable size fails with INVALID_ARG; the target is allocated first; (with the corrected data check) a source without memory fails with MEMORY; otherwise the source's bytes land at the target's offset, also when both views share one block |
| InferBuffer.NewMluBuffer | infer_server/src/core/buffer.cpp:92-103 | an empty MLU buffer is refused with INVALID_ARG and an unknown device with UNAVAILABLE; otherwise a new, not yet allocated MLU buffer of the size |
| InferBuffer.NewCpuBuffer | infer_server/src/core/buffer.cpp:105-108 | a CPU buffer is created unallocated with the given size and offset 0 |
| InferBuffer.CopyRoundTrip | infer_server/src/core/buffer.cpp:210-225 | reading back the bytes just copied in gives the source, and the bytes before and after the copied range are unchanged |
| InferBuffer.MluMemoryPool.Make | infer_server/src/core/buffer.cpp:276-288 | a new pool is running, has handed out nothing and remembers its block size and limit |
| InferBuffer.MluMemoryPool.Request | infer_server/src/core/buffer.cpp:318-366 | a stopped pool refuses with UNAVAILABLE; an idle block is handed out first-in first-out; with none idle a new block is allocated while under the limit (MEMORY if that fails) and TIMEOUT is reported at the limit |
| InferBuffer.MluMemoryPool.Release | infer_server/src/core/buffer.cpp:356-362 | a released block goes back to the end of the idle queue and is no longer lent |
| InferBuffer.NewMluMemoryPool | infer_server/src/core/buffer.cpp:276-288 | a zero block size or limit is refused with INVALID_ARG and an unknown device with UNAVAILABLE; otherwise a running, empty pool |
| InferBuffer.PoolAccounting | infer_server/src/core/buffer.cpp:318-366 | every block the pool ever allocated is either idle or lent, never both, so idle plus lent equals the allocated count, which never exceeds the limit |
| BufSurfaceMemPool.AllocatorFor | src/cnedk_buf_surface_impl.cpp:184-206 | system and device memory get their allocators everywhere, VB and unified memory only on CE3226, and every other memory type gets none |
| BufSurfaceMemPool.ResolveMemType | src/cnedk_buf_surface_impl.cpp:60-65 | an explicit memory type is kept; the default becomes unified memory exactly when the platform supports unified addressing and device memory otherwise |
| BufSurfaceMemPool.FirstFailure | src/cnedk_buf_surface_impl.cpp:81-90 | the pre-allocation loop stops at the first block the allocator refuses: every earlier block was allocated and the block at the stop was refused |
| BufSurfaceMemPool.Tagged | src/cnedk_buf_surface_impl.cpp:87-88 | each cached block is the allocated surface with the pool recorded as its owner |
| BufSurfaceMemPool.Unmapped | src/cnedk_buf_surface_impl.cpp:173-176 | a block returned to a fake-mapped pool has every mapped pointer cleared and is otherwise unchanged |
| BufSurfaceMemPool.MemPool.constructor | src/cnedk_buf_surface_impl.cpp:39 | a new pool is not created, holds no blocks and has lent none |
| BufSurfaceMemPool.MemPool.Create | src/cnedk_buf_surface_impl.cpp:39-96 | Create returns 0 exactly when the pool was not yet created, the parameters check out, the platform is known, an allocator exists for the resolved memory type and initialises, and (outside VB memory) every block is allocated; a created pool is refused with -1 and keeps its blocks |
| BufSurfaceMemPool.MemPool.FillCache | src/cnedk_buf_surface_impl.cpp:81-90 | the pre-allocation loop caches the blocks before the first refusal, tagged with the pool, and reports success exactly when none was refused |
| BufSurfaceMemPool.MemPool.Alloc | src/cnedk_buf_surface_impl.cpp:132-159 | an uncreated pool refuses; a VB pool asks the allocator each time and tags the result; any other pool hands out its oldest cached block and counts it as lent, or refuses when none is cached |
| BufSurfaceMemPool.MemPool.Free | src/cnedk_buf_surface_impl.cpp:161-181 | an uncreated pool refuses; a VB pool hands the block back to the allocator; any other pool queues the block (with mappings cleared when fake-mapped) and counts one fewer lent |
| BufSurfaceMemPool.MemPool.Destroy | src/cnedk_buf_surface_impl.cpp:98-130 | an uncreated pool refuses; a pool with blocks still lent waits; otherwise the cache is emptied and the pool is uncreated exactly when the allocator tears down |
| BufSurfaceMemPool.CreateSurface | src/cnedk_buf_surface_impl.cpp:209-283 | a pool-less surface is created exactly when the parameters check out, the memory type is not VB, the platform is known and an allocator for the resolved type initialises and allocates; the surface has no owner pool |
| BufSurfaceMemPool.DestroySurface | src/cnedk_buf_surface_impl.cpp:286-331 | a pool-less surface is destroyed exactly when its memory type has a non-VB allocator, the free succeeds and, for system memory, the allocator teardown too |
| BufSurfaceMemPool.CreatedSurfaceIsDestroyable | src/cnedk_buf_surface_impl.cpp:209-331 | every surface CreateSurface makes is accepted by DestroySurface when the allocator calls succeed |
| BufSurfaceMemPool.FirstFailureAt | src/cnedk_buf_surface_impl.cpp:81-90 | the stop position of the pre-allocation loop is determined by the first refusal alone |
| BufSurfaceMemPool.OneBlockPool | unitest/src/test_bufsurface.cpp:84-104 | a device pool of one block hands it out once, refuses a second request and hands a block out again after it is freed |
| BufSurfaceService.Fill | src/cnedk_buf_surface.cpp:207-209 | filling sets exactly the bytes of the range to the value and leaves every other byte alone |
| BufSurfaceService.CopyRowsOutside | src/cnedk_buf_surface.cpp:274-290 | copying rows of a plane leaves every target byte before the plane's first row or after its last row unchanged |
| BufSurfaceService.CopyRowsPlaces | src/cnedk_buf_surface.cpp:274-290 | after copying rows with the source and target pitches, each target row holds exactly the matching source row |
| BufSurfaceService.CopyRowsLoop | src/cnedk_buf_surface.cpp:274-290 | the row loop computes exactly the reference row copy |
| BufSurfaceService.MemsetPlanesBytes | src/cnedk_buf_surface.cpp:202-226 | within one item, memset sets exactly the bytes of the selected planes (all planes for -1) and leaves the rest unchanged |
| BufSurfaceService.MemsetTouchesOnlySelection | src/cnedk_buf_surface.cpp:202-226 | memset changes only the selected items (all for index -1), and in those exactly the bytes of the selected planes |
| BufSurfaceService.Memset | src/cnedk_buf_surface.cpp:189-227 | a null surface, an index outside -1..batch-1 or a plane outside -1..planes-1 is refused with -1 and changes nothing; otherwise the selected planes of the selected items are filled and 0 returned |
| BufSurfaceService.MemsetItem | src/cnedk_buf_surface.cpp:203-211 | the plane loop over one item computes exactly the reference fill of the selected planes |
| BufSurfaceService.PlanFor | src/cnedk_buf_surface.cpp:256-290 | the intended plan copies plane j from its own offsets for its own height |
| BufSurfaceService.CopyPlanesPlaces | src/cnedk_buf_surface.cpp:256-290 | when the planes lie apart and every plane passes its checks, after the copy each plane's rows in the target hold the source plane's rows |
| BufSurfaceService.EarlierPlanesKept | src/cnedk_buf_surface.cpp:256-290 | copying a later plane does not disturb the rows of planes copied before it |
| BufSurfaceService.PlanesApartChain | src/cnedk_buf_surface.cpp:256-259 | with planes laid out one after another, every earlier plane ends before any later plane starts |
| BufSurfaceService.SameSizeItemCopy | src/cnedk_buf_surface.cpp:294-313 | items of equal data size are copied whole: the target's data bytes become the source's and bytes past the data size are unchanged |
| BufSurfaceService.Copy | src/cnedk_buf_surface.cpp:229-321 | a null surface or different batch sizes are refused and leave the target alone; two device surfaces on different devices are refused after the timestamp is copied; otherwise each item is copied in turn, the first failing plane check stops the copy with -1, and success gives 0 |
| BufSurfaceService.CopyOneItem | src/cnedk_buf_surface.cpp:251-313 | copying one item computes exactly the reference item copy |
| BufSurfaceService.CopyItemsStopped | src/cnedk_buf_surface.cpp:260-272 | once a plane check fails, no later item changes the result |
| BufSurfaceService.CopyPlanesStopped | src/cnedk_buf_surface.cpp:260-272 | once a plane check fails, no later plane changes the result |
| BufSurfaceService.CopyItemsStep | src/cnedk_buf_surface.cpp:250-313 | one loop step of the item copy replaces only item i with its copy |
| BufSurfaceService.CopyPlanesStep | src/cnedk_buf_surface.cpp:257-290 | one loop step of the plane copy either stops on a failed offset, width or pitch check or copies that plane's rows |
| BufSurfaceService.AsWrittenCopyItem | src/cnedk_buf_surface.cpp:274 | the plane copy as written takes the row count from the item index instead of the plane index and starts each plane at the previous plane's offset |
| BufSurfaceService.AsWrittenCopyMissesSecondPlane | src/cnedk_buf_surface.cpp:257-290 | for a 2x2 NV12 item of 6 bytes copied into an 8-byte item, the code as written leaves the chroma plane uncopied while the intended copy places it |
| BufSurfaceService.Sync | src/cnedk_buf_surface.cpp:149-187 | a sync succeeds exactly for cached unified or VB memory with index -1 or a valid index; every other call gives -1 |
| BufSurfaceService.Slots | src/cnedk_buf_surface.cpp:347 | the descriptor pool starts with slots 0 to n-1 in order |
| BufSurfaceService.SurfaceService.SlotAccounting | src/cnedk_buf_surface.cpp:339-368 | once the descriptor pool exists, every one of its slots is either idle or lent out |
| BufSurfaceService.SurfaceService.constructor | src/cnedk_buf_surface.cpp:329-336 | the service starts with no descriptor pool and no surfaces |
| BufSurfaceService.SurfaceService.CreateSurfsPool | src/cnedk_buf_surface.cpp:339-349 | the descriptor pool is built once: if already built nothing changes, otherwise all slots become idle when the block allocation succeeds and none when it fails |
| BufSurfaceService.SurfaceService.AllocSurface | src/cnedk_buf_surface.cpp:351-360 | a descriptor comes from the front of the slot queue (building it on first use) and is marked lent; with no idle slot it comes from the heap, which may fail |
| BufSurfaceService.SurfaceService.FreeSurface | src/cnedk_buf_surface.cpp:362-369 | a descriptor from the slot block goes back to the end of the queue; any other is released to the heap and the queue is unchanged |
| BufSurfaceService.SurfaceService.BufPoolCreate | src/cnedk_buf_surface.cpp:47-63 | pool creation succeeds exactly when the handle and parameters are given, the block count is non-zero and the pool's Create succeeds; a created pool holds one cached block per requested block outside VB memory |
| BufSurfaceService.SurfaceService.BufPoolDestroy | src/cnedk_buf_surface.cpp:64-79 | a null pool is refused; otherwise the result is the pool's own Destroy result, and success leaves the pool uncreated |
| BufSurfaceService.SurfaceService.CreateFromPool | src/cnedk_buf_surface.cpp:80-99 | taking a surface from a pool records a new handle owned by the pool when the pool hands out a block and a descriptor is available; on any failure no surface is recorded and the pool's lent count is unchanged |
| BufSurfaceService.SurfaceService.Create | src/cnedk_buf_surface.cpp:100-122 | a pool-less surface is recorded under a new handle exactly when the arguments are given, the surface can be created and a descriptor is available |
| BufSurfaceService.SurfaceService.Destroy | src/cnedk_buf_surface.cpp:124-147 | a null surface is refused; otherwise the record is removed and its descriptor returned, a pooled surface goes back to its pool (0 when the pool is created) and any other is destroyed through its allocator |
| BufSurfaceUtil.Retries | src/cnedk_buf_surface_util.cpp:280-306 | a retry loop that starts with a budget of timeout_ms + 1 and a step of 1, doubling up to 10, always makes at least one call |
| BufSurfaceUtil.RetriesWithinBudget | src/cnedk_buf_surface_util.cpp:280-306 | the retry loop never makes more calls than timeout_ms + 1 (and at least one) |
| BufSurfaceUtil.BufSurfaceWrapper.constructor | include/cnedk_buf_surface_util.hpp:66 | a wrapper holds the surface and the ownership flag it is given, and its own pts starts at ~0 |
| BufSurfaceUtil.BufSurfaceWrapper.Record | src/cnedk_buf_surface_util.cpp:36-39 | the wrapped surface is one of the surfaces the service has recorded |
| BufSurfaceUtil.BufSurfaceWrapper.FirstPlanes | src/cnedk_buf_surface_util.cpp:73-97 | the plane queries read the plane parameters of the first batch item |
| BufSurfaceUtil.BufSurfaceWrapper.GetStride | src/cnedk_buf_surface_util.cpp:73-81 | the stride of plane i is that plane's pitch, and 0 for a plane index past the plane count |
| BufSurfaceUtil.BufSurfaceWrapper.GetPlaneBytes | src/cnedk_buf_surface_util.cpp:89-97 | the byte size of plane i is that plane's size, and 0 for a plane index past the plane count |
| BufSurfaceUtil.BufSurfaceWrapper.GetData | src/cnedk_buf_surface_util.cpp:110-115 | the data of a plane of a batch item is found at that item's plane offset |
| BufSurfaceUtil.BufSurfaceWrapper.GetPts | src/cnedk_buf_surface_util.cpp:124-131 | the pts is the wrapped surface's pts, or the wrapper's own when it wraps nothing |
| BufSurfaceUtil.BufSurfaceWrapper.SetPts | src/cnedk_buf_surface_util.cpp:133-140 | setting the pts writes it into the wrapped surface (leaving every other recorded surface alone) or, without a surface, into the wrapper; GetPts then returns it |
| BufSurfaceUtil.BufSurfaceWrapper.BufSurfaceChown | src/cnedk_buf_surface_util.cpp:41-46 | giving up ownership returns the wrapped surface and leaves the wrapper empty |
| BufSurfaceUtil.BufSurfaceWrapper.Dispose | include/cnedk_buf_surface_util.hpp:72-79 | destroying an owning wrapper destroys its surface, removing exactly that record; a non-owning or empty wrapper destroys nothing |
| BufSurfaceUtil.BufPool.constructor | include/cnedk_buf_surface_util.hpp:283 | a new BufPool holds no pool and is not stopped |
| BufSurfaceUtil.BufPool.CreatePoolAsWritten | src/cnedk_buf_surface_util.cpp:229-241 | as written the handle BufPoolCreate wrote is kept even when creation fails, so the BufPool then names a pool that was already deleted; with missing parameters or a block count of 0 nothing is written and the BufPool keeps its old handle |
| BufSurfaceUtil.BufPool.CreatePool | src/cnedk_buf_surface_util.cpp:229-241 | CreatePool succeeds exactly when the service creates the pool, which is then stored, running and empty; a failure leaves the BufPool as it was |
| BufSurfaceUtil.FailedCreateLeavesDanglingPool | src/cnedk_buf_surface_util.cpp:232-236 | with a batch size of 0 the code as written keeps a deleted pool, while the corrected CreatePool stores nothing |
| BufSurfaceUtil.BufPool.DestroyPool | src/cnedk_buf_surface_util.cpp:243-272 | DestroyPool stops the BufPool; on a created pool with nothing lent it destroys the pool on the first attempt whose teardown succeeds, and gives up only after every attempt in the timeout_ms + 1 budget has failed |
| BufSurfaceUtil.BufPool.DestroyPoolAsWritten | src/cnedk_buf_surface_util.cpp:252-271 | as written the loop returns after the first attempt whether it failed or not, so the pool is destroyed at most once |
| BufSurfaceUtil.FailedTeardownIsNotRetried | src/cnedk_buf_surface_util.cpp:252-271 | when the first teardown fails and the second would succeed, the code as written leaves the pool alive while the retrying DestroyPool destroys it |
| BufSurfaceUtil.BufPool.GetBufSurfaceWrapper | src/cnedk_buf_surface_util.cpp:274-307 | without a pool or once stopped nothing is handed out; otherwise the pool is asked until it hands out a surface or the timeout budget is spent, and a success wraps a newly recorded surface owned by the pool, the wrapper owning it |
| ModelCache.Model.constructor | infer_server/src/model/model.h:187-220 | a model remembers the path and function name it was initialised with |
| ModelCache.IsNetFileIff | infer_server/src/model/model_manager.cpp:57-60 | a URL is a network file exactly when it is `http://`, `https://` or `ftp://` followed by the rest of the address |
| ModelCache.LoadKey | infer_server/src/model/model_manager.cpp:68-70 | the load key is the path immediately followed by the function name |
| ModelCache.ModelKey | infer_server/src/model/model.h:187 | a model's own key is its path, an underscore and its function name |
| ModelCache.FirstEvictable | infer_server/src/model/model_manager.cpp:78-87 | the eviction scan picks the first cached model, in iteration order, that nobody else holds, and finds none exactly when every cached model is held |
| ModelCache.ModelManager.constructor | infer_server/src/model/model_manager.cpp:36 | the model cache starts empty |
| ModelCache.ModelManager.GetModel | infer_server/src/model/model_manager.cpp:147-153 | GetModel finds a model exactly when its name is a key of the cache, and then returns the cached model |
| ModelCache.ModelManager.CacheSize | infer_server/src/model/model_manager.cpp:155 | the cache size is the number of cached keys |
| ModelCache.ModelManager.CheckAndCleanCache | infer_server/src/model/model_manager.cpp:78-87 | when the cache has reached the limit, exactly the first model nobody else holds is evicted; otherwise the cache is unchanged |
| ModelCache.ModelManager.LoadKeyed | infer_server/src/model/model_manager.cpp:103-120 | a cache hit returns the cached model and changes nothing; a miss whose initialisation fails returns nothing and changes nothing; otherwise a new model is cached under the key, at most one other entry is evicted and no other entry changes |
| ModelCache.ModelManager.Load | infer_server/src/model/model_manager.cpp:89-121 | a network URL whose download fails or a local file that does not exist gives nothing and leaves the cache alone; otherwise the model is looked up or loaded under path + function name as LoadKeyed states |
| ModelCache.ModelManager.LoadFromMemory | infer_server/src/model/model_manager.cpp:123-145 | a null memory pointer gives nothing; otherwise the model is looked up or loaded under the pointer's text + function name, with the same hit, failure and insertion behaviour |
| ModelCache.ModelManager.UnloadAsWritten | infer_server/src/model/model_manager.cpp:157-168 | as written Unload looks the model up under path + "_" + function name, a key Load never uses, so it removes nothing Load inserted |
| ModelCache.ModelManager.Unload | infer_server/src/model/model_manager.cpp:157-168 | a null model is refused; otherwise Unload reports whether the model's load key was cached and removes exactly that key |
| ModelCache.ModelManager.ClearCache | infer_server/src/model/model_manager.cpp:170-173 | ClearCache empties the cache |
| ModelCache.LoadOne | infer_server/src/model/model_manager.cpp:89-121 | loading one local model into a fresh manager caches exactly that model under its load key |
| ModelCache.LoadThenUnload | infer_server/src/model/model_manager.cpp:159-166 | after loading one model, the code as written fails to unload it and the cache still holds one entry, while the corrected Unload succeeds and empties the cache |
| Preprocessing.Registry.constructor | src/infer_server/processor/preprocessor.cpp:41-52 | the handler map and the set of keys whose tensor parameters were adjusted start empty |
| Preprocessing.Registry.SetPreprocHandler | src/infer_server/processor/preprocessor.cpp:54-57 | registering a handler maps the key to it, replacing any earlier one, and leaves every other key alone |
| Preprocessing.Registry.GetPreprocHandler | src/infer_server/processor/preprocessor.cpp:59-65 | a lookup finds a handler exactly when the key is registered, and then the registered one; otherwise null |
| Preprocessing.Registry.RemovePreprocHandler | src/infer_server/processor/preprocessor.cpp:67-80 | removing a key drops both its handler and its adjusted-parameters mark, and nothing else |
| Preprocessing.Registry.EnableOnTensorParams | src/infer_server/processor/preprocessor.cpp:44-49 | the first call for a key answers true and later calls false; afterwards the key is marked |
| Preprocessing.RegistryRoundTrip | src/infer_server/processor/preprocessor.cpp:44-80 | a handler that was set is found, is gone after removal, and removal makes the key's next tensor-parameter adjustment a first one again |
| Preprocessing.InputWhc | src/infer_server/processor/preprocessor.cpp:172-184 | width, height and channels are read for NHWC and NCHW layouts only, each as a 32-bit value |
| Preprocessing.InputWhcFollowsTranspose | src/infer_server/processor/preprocessor.cpp:172-184 | an NCHW shape and its NHWC transpose give the same width, height and channels |
| Preprocessing.PoolCreateParams | src/infer_server/processor/preprocessor.cpp:171-258 | the pool parameters exist only for a known layout and platform; RGB and BGR need 3 channels; only RGB, BGR, GRAY and TENSOR are accepted; a tensor input needs a known data type and its size is width*height*channels*element size; the memory type is device memory off the edge, and VB on an edge platform unless width or height is under 64, then unified memory |
| Preprocessing.TensorPoolExample | src/infer_server/processor/preprocessor.cpp:225-244 | a 224x224x3 UINT8 tensor input on an edge platform gets a VB pool of 150528-byte blocks with the batch size of the tensor parameters |
| Preprocessing.Solver.constructor | src/infer_server/processor/preprocessor.cpp:84-85 | a new solver keeps its handler, device, key and input format, is not initialised and carries error -1 |
| Preprocessing.Solver.CheckAllocResource | src/infer_server/processor/preprocessor.cpp:88-105 | an initialised solver answers 0 and changes nothing; without a handler it answers -1; otherwise the key is marked, the handler adjusts the tensor parameters on the key's first use only (failure answers -1), and the solver is initialised exactly when the pool is created from the resulting parameters |
| Preprocessing.Solver.Execute | src/infer_server/processor/preprocessor.cpp:124-169 | Execute answers 0 exactly when the solver has no error and a handler, and the package is empty or an output surface was obtained and the handler's preprocessing succeeded |
| Preprocessing.Process | src/infer_server/processor/preprocessor.cpp:378-410 | an empty package is INVALID_PARAM; a failed resource check or a failed execution is ERROR_BACKEND; SUCCESS only for a non-empty package on an initialised solver whose handler produced the output |
| CncvPreprocess.FmtCode | infer_server/src/contrib/preprocess_impl.h:854 | each pixel format has its own numeric code, at most 8 |
| CncvPreprocess.FmtCodeInjective | infer_server/src/contrib/preprocess_impl.h:854 | distinct pixel formats have distinct codes, so the code range test singles out formats |
| CncvPreprocess.GetCncvDepthSize | infer_server/src/contrib/preprocess_impl.h:501-518 | a depth is 1, 2 or 4 bytes wide; 8-bit depths are 1, 32-bit depths 4, and only the invalid depth gives 0 |
| CncvPreprocess.GetCncvDepth | infer_server/src/contrib/preprocess_impl.h:597-614 | every data type except INVALID maps to a valid CNCV depth |
| CncvPreprocess.DepthSizeMatchesTypeSize | infer_server/src/contrib/preprocess_impl.h:597-614 | the byte width of the depth chosen for a data type equals that data type's size |
| CncvPreprocess.GetCncvPixFmt | infer_server/src/contrib/preprocess_impl.h:520-544 | every pixel format maps to a valid CNCV pixel format |
| CncvPreprocess.GetCncvPixFmtInjective | infer_server/src/contrib/preprocess_impl.h:520-544 | distinct pixel formats map to distinct CNCV formats |
| CncvPreprocess.GetChannelNum | infer_server/src/contrib/preprocess_impl.h:767-781 | RGB and BGR have 3 channels, the four 32-bit packed formats 4, and the YUV formats 0 |
| CncvPreprocess.SetStride | infer_server/src/contrib/preprocess_impl.h:546-574 | I420 gets a full-width luma stride and half-width chroma strides, NV12/NV21 full-width luma and chroma strides, packed formats width*bytes*channels; each as a 32-bit value, and strides the format does not use are kept |
| CncvPreprocess.PackedStrideIsPixelBytes | infer_server/src/contrib/preprocess_impl.h:546-574 | for a packed format the row stride is depth size times width times channel count |
| CncvPreprocess.SetStrideIdempotent | infer_server/src/contrib/preprocess_impl.h:546-574 | setting the strides twice gives the same descriptor as setting them once |
| CncvPreprocess.NormalizedLengths | infer_server/src/contrib/preprocess_impl.h:938-954 | a missing mean or std list is filled to the channel count when normalising or when the other list is given, and a given list keeps its length |
| CncvPreprocess.HasMeanStd | infer_server/src/contrib/preprocess_impl.h:938-957 | the mean/std stage exists exactly when both lists are given, or the format has channels and normalisation is on or either list is given |
| CncvPreprocess.CheckParamFailsOnlyOnShortUserList | infer_server/src/contrib/preprocess_impl.h:815-822 | once the lists are filled, the parameter check fails exactly when a list the user gave is shorter than the channel count |
| CncvPreprocess.MeanStdAcceptsPackedFormats | infer_server/src/contrib/preprocess_impl.h:854-857 | the mean/std stage's code range test accepts exactly the packed formats with 3 or 4 channels |
| CncvPreprocess.SourceDescriptor | infer_server/src/contrib/preprocess_impl.h:701-713 | a source descriptor takes the frame's format, width and height, and its strides from the frame when given (stride above 1) or computed otherwise |
| CncvPreprocess.ResizeConvertSetup | infer_server/src/contrib/preprocess_impl.h:684-733 | the resize-convert set-up succeeds exactly when every frame is NV12 or NV21, and then gives one descriptor per frame and output offsets advancing by one destination image each |
| CncvPreprocess.MeanStdSetup | infer_server/src/contrib/preprocess_impl.h:852-862 | the mean/std set-up succeeds exactly when every frame is a packed 3- or 4-channel format, with output offsets advancing by one destination image each |
| CncvPreprocess.Scratch.constructor | infer_server/src/contrib/preprocess_impl.h:1003-1004 | the intermediate buffer starts unallocated and of size 0 |
| CncvPreprocess.Scratch.Reserve | infer_server/src/contrib/preprocess_impl.h:1020-1023 | reserving keeps an allocated buffer that is large enough and otherwise allocates exactly the required size |
| CncvPreprocess.ChooseRoute | infer_server/src/contrib/preprocess_impl.h:1017-1032 | resize-convert is needed exactly when the first frame differs from the model input in format, width or height; the route runs resize and/or mean-std accordingly, and neither is unsupported |
| CncvPreprocess.PreprocessCNCV.constructor | infer_server/src/contrib/preprocess_impl.h:926-958 | the preprocessor keeps the destination format and input shape, and has a mean/std stage exactly as HasMeanStd says |
| CncvPreprocess.PreprocessCNCV.Execute | infer_server/src/contrib/preprocess_impl.h:1007-1035 | Execute succeeds exactly when the chosen route's stages accept the frames and succeed and the queue synchronises; resize followed by mean/std first makes the intermediate buffer hold height*width*channels*batch bytes, other routes leave it alone |
| CncvPreprocess.ResizeConvert.constructor | infer_server/src/contrib/preprocess_impl.h:69-78 | a new resize-convert stage has no operator yet and remembers NV12 as its source format |
| CncvPreprocess.ResizeConvert.ExecuteAsWritten | infer_server/src/contrib/preprocess_impl.h:142-182 | as written a failed operator initialisation still records the new source format and keeps the operator, so the next batch of that format skips initialisation and runs an uninitialised operator |
| CncvPreprocess.ResizeConvert.Execute | infer_server/src/contrib/preprocess_impl.h:142-182 | mixed formats or a non-YUV source fail; a known format reuses the ready operator; otherwise the operator is rebuilt, an unsupported colour conversion is fatal, and the operator counts as ready exactly when its initialisation succeeded |
| CncvPreprocess.FailedInitIsSkipped | infer_server/src/contrib/preprocess_impl.h:155-161 | after one failed initialisation, the next NV12 batch succeeds as written with no ready operator, while the corrected stage reinitialises it |
| CncvPreprocess.ResizeConvert.BatchFormat | infer_server/src/contrib/preprocess_impl.h:143-152 | the batch format is the first frame's when all frames agree and none when two differ; an empty batch keeps the stored format |
| CncvTransform.YuvAndRgbxDisjoint | src/transform_cncv/cnedk_transform_cncv.cpp:588-601 | no colour format is both a semi-planar YUV 4:2:0 format and a packed RGB-family format, so the dispatch branches never overlap |
| CncvTransform.GetColorFormatFromTensor | src/transform_cncv/cnedk_transform_cncv.cpp:36-47 | a tensor colour format maps to the end-of-list marker exactly when it is outside the six packed formats; every other result is a packed RGB-family surface format |
| CncvTransform.TensorFormatMapIsBijective | src/transform_cncv/cnedk_transform_cncv.cpp:36-47 | the tensor-to-surface colour map is one-to-one on the six packed formats and reaches every packed surface format |
| CncvTransform.GetChannelNumFromColor | src/transform_cncv/cnedk_transform_cncv.cpp:49-57 | the channel count is positive exactly for the packed formats, 3 exactly for RGB and BGR, and otherwise -1 |
| CncvTransform.CropAxisAsWritten | src/transform_cncv/cnedk_transform_cncv.cpp:96-99 | a crop start at or past the edge becomes 0; an explicit extent is kept; a zero extent with an in-range start reaches exactly the image edge |
| CncvTransform.CropAxis | src/transform_cncv/cnedk_transform_cncv.cpp:96-99 | the same clamping of the start; a zero extent always reaches the image edge, and it agrees with the code whenever the start is inside the image |
| CncvTransform.CropPastEdgeWraps | src/transform_cncv/cnedk_transform_cncv.cpp:98 | left 150, width 0 on a 100-pixel image gives the code an unsigned width of 2^32-50, past the image; the corrected crop is the whole row |
| CncvTransform.CropRoi | src/transform_cncv/cnedk_transform_cncv.cpp:94-104 | without the crop flag the region is the whole image; with it each axis is cropped as the corrected CropAxis states |
| CncvTransform.DefaultCropInsideImage | src/transform_cncv/cnedk_transform_cncv.cpp:96-99 | a crop rectangle of zero width and height selects a region that ends exactly at the right and bottom edges |
| CncvTransform.ResizeRois | src/transform_cncv/cnedk_transform_cncv.cpp:79-134 | one source and one destination region per batch item, each the crop region of that item's rectangle and size, cropped as the corrected CropAxis states |
| CncvTransform.RgbxToYuvAsWritten | src/transform_cncv/cnedk_transform_cncv.cpp:293-336 | the conversion stops at the first failing item and returns -1, else 0; every job it issues reads batch item 0; its crop regions are those of the corrected CropAxis |
| CncvTransform.RgbxToYuv | src/transform_cncv/cnedk_transform_cncv.cpp:293-336 | the same return code and job count, but job i reads item i through its own crop region and writes item i |
| CncvTransform.SecondImageReadsFirst | src/transform_cncv/cnedk_transform_cncv.cpp:326 | for a two-image batch the code converts image 0 into slot 1, where image 1 is evidently meant |
| CncvTransform.ImageBytes | src/transform_cncv/cnedk_transform_cncv.cpp:458-461 | each destination image occupies width times height times channels bytes of the temporary buffer |
| CncvTransform.TempLayout | src/transform_cncv/cnedk_transform_cncv.cpp:458-483 | the temporary buffer holds the sum of the image sizes, each image starts at the sum of the sizes before it, and every image lies inside the buffer |
| CncvTransform.SumPrefixMonotone | src/transform_cncv/cnedk_transform_cncv.cpp:472-483 | running offsets never decrease, so later images start no earlier than earlier ones |
| CncvTransform.MeanStdStrides | src/transform_cncv/cnedk_transform_cncv.cpp:338-390 | the mean-std step runs exactly for a packed source, the flag set, parameters present and a 16- or 32-bit float destination; its strides are width times channels, and for the destination also times 2 or 4 bytes |
| CncvTransform.GetBufSurfaceFromTensor | src/transform_cncv/cnedk_transform_cncv.cpp:567-586 | refused exactly when the tensor colour is unknown; otherwise the batch header is copied and every item takes the tensor's width, height, pitch and packed colour while keeping its own memory |
| CncvTransform.Dispatch | src/transform_cncv/cnedk_transform_cncv.cpp:604-702 | a tensor source is refused; the mean-std paths, RGB-to-YUV, YUV-to-RGB and YUV resize are chosen exactly under the format conditions the code tests |
| CncvTransform.ConversionsGoBothWays | src/transform_cncv/cnedk_transform_cncv.cpp:657-692 | for any YUV and packed format, YUV-to-packed, packed-to-YUV and YUV-to-same-YUV each reach their own converter |
| CncvTransform.DoCncvTransform | src/transform_cncv/cnedk_transform_cncv.cpp:604-702 | the transform returns 0 exactly when a converter is chosen, the device calls succeed and, on a mean-std path, parameters and a float destination type are present |
| ProgressiveJpeg.ProgressiveMode | src/easycodec/progressive_jpeg.cpp:50-68 | the mode is -1 exactly when the data is shorter than two bytes or does not start with the JPEG start-of-image marker |
| ProgressiveJpeg.Walk | src/easycodec/progressive_jpeg.cpp:57-66 | every segment header the scan visits lies after its start and has both marker bytes inside the data |
| ProgressiveJpeg.ScanFindsProgressiveMarker | src/easycodec/progressive_jpeg.cpp:57-67 | the scan answers 1 exactly when one of the segment headers it steps through is a progressive (0xFFC2 or 0xFFCA) marker |
| ProgressiveJpeg.ScanHitIsOnWalk | src/easycodec/progressive_jpeg.cpp:57-64 | a scan answer of 1 comes from a progressive marker on the segment walk |
| ProgressiveJpeg.WalkHitIsFound | src/easycodec/progressive_jpeg.cpp:57-64 | a progressive marker anywhere on the segment walk makes the scan answer 1 |
| ProgressiveJpeg.CheckProgressiveMode | src/easycodec/progressive_jpeg.cpp:50-68 | the loop that hops from segment to segment by the stored segment length returns exactly ProgressiveMode |
| ProgressiveJpeg.ScanFromAsWritten | src/easycodec/progressive_jpeg.cpp:57-66 | the code's scan, which reads the two marker bytes and two length bytes without checking the length, either gives a mode or reads past the end at an index at or beyond the data length |
| ProgressiveJpeg.AsWrittenAgreesInBounds | src/easycodec/progressive_jpeg.cpp:57-66 | where the code's scan stays inside the data it gives the same mode as the bounded scan, and where it reads past the end the bounded scan answers 0 |
| ProgressiveJpeg.TruncatedMarkerReadsPastEnd | src/easycodec/progressive_jpeg.cpp:58-59 | the three bytes FF D8 FF make the code read byte 3 of a 3-byte packet; the bounded scan answers 0 |
| ProgressiveJpeg.ScanExamples | src/easycodec/progressive_jpeg.cpp:50-68 | a JFIF segment gives 0, a progressive start-of-frame segment gives 1, and data without the start marker gives -1 |
| ProgressiveJpeg.RouteFeed | src/easycodec/easy_decode.cpp:95-114 | a packet is refused exactly when the decoder is not running or the packet is missing or empty; it goes to the software JPEG decoder exactly when it is progressive and that decoder exists |
| ProgressiveJpeg.OutputBuffers.constructor | src/easycodec/progressive_jpeg.cpp:154-159 | the pool holds the n buffer ids n..2n-1, all of them free in that order |
| ProgressiveJpeg.OutputBuffers.ReleaseBuffer | src/easycodec/progressive_jpeg.cpp:238-244 | a release succeeds exactly for an id of the pool and then puts it back at the end of the free queue; any other id changes nothing |
| ProgressiveJpeg.OutputBuffers.AcquireAsWritten | src/easycodec/progressive_jpeg.cpp:203-205 | with a free buffer the first one is taken; with none the uninitialised id is used and the map lookup adds it to the pool without memory |
| ProgressiveJpeg.OutputBuffers.Acquire | src/easycodec/progressive_jpeg.cpp:203-205 | with a free buffer the first one is taken and it belongs to the pool; with none nothing is taken and the frame is not decoded |
| ProgressiveJpeg.SecondFrameWithoutBuffer | src/easycodec/progressive_jpeg.cpp:203-205 | with one output buffer and two frames, the code hands the second frame an id without device memory and a later release of that id is accepted; the corrected acquire reports no buffer |
| Mlu200Decode.FeedAttempts | src/easycodec/decoder_mlu200.cpp:436-455 | each feed call is retried on timeout at most three times in all and never ends in a refusal |
| Mlu200Decode.FeedAttemptsIff | src/easycodec/decoder_mlu200.cpp:436-455 | a feed ends in a timeout exactly when all three calls time out, and is accepted exactly when some call succeeds after only timeouts before it |
| Mlu200Decode.Supported | src/easycodec/decoder_mlu200.cpp:326-360 | JPEG decoding accepts only NV12, NV21, YUYV and UYVY; video decoding only H.264, H.265, VP8 and VP9 with NV12, NV21, I420 or P010; NV12 and NV21 are accepted for every known codec |
| Mlu200Decode.Mlu200Decoder.constructor | src/easycodec/decoder_mlu200.cpp:142-162 | a decoder for a supported codec and format starts running with an open handle, no end-of-stream sent or received, an empty timestamp map, key 0 and no packets |
| Mlu200Decode.Mlu200Decoder.SetVpuTimestamp | src/easycodec/decoder_mlu200.cpp:613-618 | the returned key is the old 32-bit counter, the counter advances with wrap-around, and the map records the timestamp under that key |
| Mlu200Decode.Mlu200Decoder.GetVpuTimestamp | src/easycodec/decoder_mlu200.cpp:620-633 | the record is found exactly when the key is present and the caller asks for it; the key is erased in every case |
| Mlu200Decode.Mlu200Decoder.FeedData | src/easycodec/decoder_mlu200.cpp:220-236 | without a handle or after end-of-stream nothing changes and the packet is refused; otherwise the outcome is the retry outcome; an accepted video packet records its timestamp and counts one packet, a failed one erases the record and sets the error state |
| Mlu200Decode.Mlu200Decoder.FeedEos | src/easycodec/decoder_mlu200.cpp:238-276 | after an error or a previous end-of-stream the call is refused and nothing changes; otherwise success, timeout and failure are reported as the device call returns them, success marks end-of-stream sent and failure sets the error state |
| Mlu200Decode.Mlu200Decoder.AbortDecoder | src/easycodec/decoder_mlu200.cpp:278-296 | with a handle, the handle is dropped, the status becomes STOP and end-of-stream counts as sent and received; without one nothing changes |
| Mlu200Decode.Mlu200Decoder.ReceiveEvent | src/easycodec/decoder_mlu200.cpp:583-611 | an end-of-stream event sets EOS and marks it received; a stream-corrupt event changes nothing; every other event sets the error state |
| Mlu200Decode.Mlu200Decoder.FrameTimestamp | src/easycodec/decoder_mlu200.cpp:498-508 | a decoded video frame gets back the user timestamp recorded under its key exactly when the key is present, and the key is erased |
| Mlu200Decode.Mlu200Decoder.Close | src/easycodec/decoder_mlu200.cpp:164-218 | the destructor sends end-of-stream only to a live decoder that has neither sent nor received it, ends in STOP unless that send fails, waits for end-of-stream unless one is already in, and keeps the handle only for a live decoder outside the error state until it is destroyed |
| Mlu200Decode.TimestampRoundTrip | src/easycodec/decoder_mlu200.cpp:613-633 | a timestamp recorded for a packet is returned once for its frame and is gone on a second lookup |
| Mlu200Decode.NoDataAfterEos | src/easycodec/decoder_mlu200.cpp:220-276 | once end-of-stream is accepted, later packets and a second end-of-stream are refused |
| Mlu590Decode.CreateCodeAsWritten | src/mlu590/cnedk_decode_impl_mlu590.cpp:62-132 | an unsupported codec or colour format or a failed device create gives -1; a JPEG decoder whose parameter call returns false gets 0 and one whose call returns true gets 1, because the code returns the boolean as an int |
| Mlu590Decode.CreateCode | src/mlu590/cnedk_decode_impl_mlu590.cpp:62-132 | the corrected return is 0 or -1, and 0 exactly for a supported codec and colour, a successful create and, for JPEG, parameters that were accepted |
| Mlu590Decode.CreateCodesDiffer | src/mlu590/cnedk_decode_impl_mlu590.cpp:117-122 | the code and the corrected return differ exactly on successfully created JPEG decoders, and the code reports success although the parameters were refused exactly when those parameters were refused |
| Mlu590Decode.SendAttempts | src/mlu590/cnedk_decode_impl_mlu590.cpp:199-220 | the send loop ends with 0, -1, -2 or -3 |
| Mlu590Decode.SendAttemptsIff | src/mlu590/cnedk_decode_impl_mlu590.cpp:199-220 | the send ends in -2 exactly when every remaining attempt times out, and in 0 exactly when some attempt succeeds after only timeouts |
| Mlu590Decode.EvenFrameDims | src/mlu590/cnedk_decode_impl_mlu590.cpp:236-237 | the frame width is rounded up to even, wrapping to 0 at the 32-bit limit, and the height is rounded down to even |
| Mlu590Decode.RouteFrame | src/mlu590/cnedk_decode_impl_mlu590.cpp:239-322 | no surface reports an error; host memory drops the frame; NV12 or NV21 frames are transformed when the sizes differ and copied when they match |
| Mlu590Decode.DecoderMlu590.constructor | src/mlu590/cnedk_decode_impl_mlu590.cpp:386-390 | a fresh decoder is not created, has sent no end-of-stream, has no error and no sequences |
| Mlu590Decode.DecoderMlu590.Setup | src/mlu590/cnedk_decode_impl_mlu590.cpp:62-132 | setup succeeds exactly for a supported codec and colour and a successful create; it resets the flags first, and fixes the JPEG maximum size, two output buffers and 64-byte alignment, or the video maximum size when both dimensions are given |
| Mlu590Decode.DecoderMlu590.CreateAsWritten | src/mlu590/cnedk_decode_impl_mlu590.cpp:62-132 | returns CreateCodeAsWritten, and the decoder is created exactly when that code is not negative |
| Mlu590Decode.DecoderMlu590.Create | src/mlu590/cnedk_decode_impl_mlu590.cpp:62-132 | returns CreateCode, and for supported inputs the decoder is created exactly when the device create succeeded, with the same parameters as Setup |
| Mlu590Decode.DecoderMlu590.SendStream | src/mlu590/cnedk_decode_impl_mlu590.cpp:165-222 | an uncreated decoder refuses; an end-of-stream packet always succeeds and marks end-of-stream sent; data after end-of-stream or an error is refused; otherwise the result is the send-loop outcome |
| Mlu590Decode.DecoderMlu590.Destroy | src/mlu590/cnedk_decode_impl_mlu590.cpp:135-162 | destroy always returns 0, sends end-of-stream exactly when a created decoder without error has not sent one, and leaves an uncreated decoder untouched |
| Mlu590Decode.DecoderMlu590.ReceiveSequence | src/mlu590/cnedk_decode_impl_mlu590.cpp:335-369 | the first sequence sets the output-buffer count and the maximum size when none was preset; a later one only checks them and raises the error flag once when the stream needs more |
| Mlu590Decode.DecoderMlu590.ReceiveEvent | src/mlu590/cnedk_decode_impl_mlu590.cpp:36-58 | an unsupported-stream event raises the error flag and reports once; other non-frame events change nothing here |
| Mlu590Decode.RepeatedSequenceIsAccepted | src/mlu590/cnedk_decode_impl_mlu590.cpp:335-369 | a second sequence of the same geometry raises no error |
| Mlu590Decode.NoDataAfterEos | src/mlu590/cnedk_decode_impl_mlu590.cpp:165-222 | after end-of-stream a data packet is refused while another end-of-stream packet still succeeds |
| Mlu590Decode.JpegParamsRefused | src/mlu590/cnedk_decode_impl_mlu590.cpp:117-122 | a JPEG decoder whose parameters are refused is reported created by the code and refused by the corrected create |
| DecodeService.CheckParams | src/cnedk_decode.cpp:130-158 | parameters pass exactly when the codec lies strictly between INVALID and NUM, the colour is NV12 or NV21, all four callbacks are set and the device matches the current device |
| DecodeService.Create | src/cnedk_decode.cpp:86-107 | creation returns 0 exactly when both pointers are given, the parameters pass, a platform decoder exists and its own create does not return a negative code; otherwise -1 |
| DecodeService.Destroy | src/cnedk_decode.cpp:109-118 | destroy returns 0 for a decoder pointer and -1 for none |
| DecodeService.SendStream | src/cnedk_decode.cpp:120-127 | a missing decoder or stream gives -1; otherwise the decoder's own send result is passed through |
| DecodeService.ServiceAcceptsJpegWithoutParams | src/cnedk_decode.cpp:100 | because the MLU590 JPEG create, as written, answers 0 (success) when its parameters are refused, the service reports success for that decoder, while with the corrected create it reports -1 |
| DecodeService.ServiceCreateIff | src/cnedk_decode.cpp:86-107 | with the corrected MLU590 create, the service succeeds exactly when the parameters pass, the device create succeeds and, for JPEG, the decoder parameters are accepted |
| Mlu370Encode.NormalizeFrameRate | src/mlu370/cnedk_encode_impl_mlu370.cpp:123-125 | the frame rate in hundredths is always positive and at most 12000: 0 becomes 3000 and larger values are capped at 12000 |
| Mlu370Encode.KindOf | src/mlu370/cnedk_encode_impl_mlu370.cpp:580-588 | end-of-stream units give no packet; parameter-set units become header packets, IDR and I units key-frame packets, and all others frame packets |
| Mlu370Encode.SentCount | src/mlu370/cnedk_encode_impl_mlu370.cpp:292-313 | flushing counts at most the frames that were queued |
| Mlu370Encode.EncoderMlu370.constructor | src/mlu370/cnedk_encode_impl_mlu370.cpp:110-212 | a fresh encoder is not created, has sent no end-of-stream, waits for its first frame with no queued buffers, no header and nothing delivered |
| Mlu370Encode.EncoderMlu370.Create | src/mlu370/cnedk_encode_impl_mlu370.cpp:110-212 | input buffers are at least 3, width and height are rounded down to even, the frame rate is normalised; creation returns 0 exactly for H.264, H.265 or JPEG with NV12 or NV21 and a successful device create; JPEG quality is taken, capped at 100, only when it is non-zero |
| Mlu370Encode.EncoderMlu370.RequestFrame | src/mlu370/cnedk_encode_impl_mlu370.cpp:252-276 | a queued codec buffer is reused first in queue order; otherwise the device's free buffer is taken, or -1 when none comes |
| Mlu370Encode.EncoderMlu370.SendFrame | src/mlu370/cnedk_encode_impl_mlu370.cpp:278-403 | an uncreated encoder refuses with nothing changed; end-of-stream flushes the queue, counts the frames it sends and returns the device's end-of-stream code, or 0 when already sent; a frame whose transform fails returns its buffer to the queue with -1; a send that fails returns its buffer to the queue but still answers 0 |
| Mlu370Encode.EncoderMlu370.Destroy | src/mlu370/cnedk_encode_impl_mlu370.cpp:215-250 | destroy always returns 0; an uncreated encoder is untouched; otherwise end-of-stream is sent first if needed, flushing the queue, and the encoder is no longer created |
| Mlu370Encode.EncoderMlu370.OnFrameBits | src/mlu370/cnedk_encode_impl_mlu370.cpp:570-632 | without a callback, for end-of-stream units or a failed copy nothing is delivered; before the first picture a parameter set is held back; the first picture delivers the held header before itself; after that every packet goes straight out |
| Mlu370Encode.HeaderPrecedesFirstPicture | src/mlu370/cnedk_encode_impl_mlu370.cpp:613-629 | a parameter set, a dropped end-of-stream unit, an IDR picture, a second parameter set and a P picture come out as the header, the IDR picture, the second header and the P picture, in that order |
| Mlu370Encode.FailedSendIsReused | src/mlu370/cnedk_encode_impl_mlu370.cpp:387-399 | a frame whose send fails still gets 0, its codec buffer goes back to the queue and is reused by the next frame, which is counted once sent |
| MpsVenc.GetGopAttr | src/ce3226/mps_service/src/mps_service_impl_venc.cpp:34-68 | each of the four GOP modes gets its fixed quantiser deltas and intervals, and any other mode is refused |
| MpsVenc.GopAttrMatchesMode | src/ce3226/mps_service/src/mps_service_impl_venc.cpp:34-68 | for every supported mode the attribute block returned is the one of that mode and no other |
| MpsVenc.ChannelFrameRate | src/ce3226/mps_service/src/mps_service_impl_venc.cpp:114-116 | the channel frame rate lies in 2..120: rates of 1 or less become 30, rates above 120 become 120, others are kept |
| MpsVenc.DefaultMaxBitrate | src/ce3226/mps_service/src/mps_service_impl_venc.cpp:125-127 | without a caller bitrate the maximum is 2048 plus 2048 per 30 frames per second, 4096 at 30 fps |
| MpsVenc.ChannelAttr | src/ce3226/mps_service/src/mps_service_impl_venc.cpp:99-157 | only H.264, H.265 and JPEG get a channel; the picture size is the caller's, the maximum size is it rounded up to 16, the GOP is normal-P, video channels carry the clamped source rate, the destination rate word and the bitrate, and the profile is 1 for H.264 and 0 otherwise |
| MpsVenc.FirstSend | src/ce3226/mps_service/src/mps_service_impl_venc.cpp:342-362 | the first successful send among the five allowed tries, with every earlier try failed, or none exactly when all five fail |
| MpsVenc.SendStop | src/ce3226/mps_service/src/mps_service_impl_venc.cpp:341-450 | the send loop stops at the first attempt whose send succeeds or whose failed send, with a retry left, is followed by a failed drain, every earlier send having failed and drained; it runs out exactly when all five sends fail with the four drains between them completed |
| MpsVenc.SendStopWithoutDrainFailures | src/ce3226/mps_service/src/mps_service_impl_venc.cpp:341-362 | when no drain fails, the send loop stops at the first successful send |
| MpsVenc.MpsVencService.constructor | src/ce3226/mps_service/src/mps_service_impl_venc.cpp:70-77 | the free ids are start, start+1, ... up to the slot count, in that order, and no channel exists |
| MpsVenc.MpsVencService.GetId | src/ce3226/mps_service/src/mps_service_impl_venc.cpp:86-90 | the oldest free id is taken off the front of the queue, or -1 when the queue is empty |
| MpsVenc.MpsVencService.Release | src/ce3226/mps_service/src/mps_service_impl_venc.cpp:154 | a returned id goes to the back of the free queue |
| MpsVenc.MpsVencService.Open | src/ce3226/mps_service/src/mps_service_impl_venc.cpp:91-212 | a taken id's slot gets its driver channel and is marked created with the flags cleared and the channel attributes stored |
| MpsVenc.MpsVencService.CreateAsWritten | src/ce3226/mps_service/src/mps_service_impl_venc.cpp:79-220 | with a JPEG channel whose parameters cannot be read the id goes back but the driver channel stays; with a JPEG channel whose quality factor is refused the encoder is still handed out |
| MpsVenc.MpsVencService.Create | src/ce3226/mps_service/src/mps_service_impl_venc.cpp:79-220 | no result handler or no free id changes nothing; an id below 1 is consumed with no encoder; when every call succeeds the oldest id is returned and its slot opened; when any call fails, its quality setting included, the id goes back to the queue and no channel is left |
| MpsVenc.MpsVencService.Destroy | src/ce3226/mps_service/src/mps_service_impl_venc.cpp:222-256 | a handle outside 1..slot count gives -1; an unused slot gives 0 with nothing changed; a used slot sends end-of-stream first unless it has an error or already sent one, is cleared, loses its channel, and its id goes back |
| MpsVenc.MpsVencService.SendFrame | src/ce3226/mps_service/src/mps_service_impl_venc.cpp:308-455 | an invalid handle or an unused slot gives -1 with nothing changed; end-of-stream marks the slot and gives 0 after an error, otherwise its drain decides; data after end-of-stream or an error is refused unchanged; five failed sends with the drains between them completed raise the error flag and give -1; otherwise the drain where the loop stops decides the result, and only a failed stream read raises the error flag; other slots stay the same |
| MpsVenc.JpegQualityRefused | src/ce3226/mps_service/src/mps_service_impl_venc.cpp:192-197 | a JPEG channel whose quality factor is refused is handed out by the code as encoder 1, while the corrected create fails and leaves no channel |
| MpsVenc.JpegParamsUnreadable | src/ce3226/mps_service/src/mps_service_impl_venc.cpp:183-190 | when the JPEG parameters cannot be read the code frees the id but leaves the driver channel; the corrected create removes it |
| MpsOsd.SurfaceFormat | src/ce3226/mps_service/src/mps_service.cpp:203-213 | semi-planar UV frames are drawn as NV12, VU frames as NV21, and every other pixel format is refused |
| MpsOsd.WrapArithmetic | src/ce3226/mps_service/src/mps_service.cpp:233-239 | the 32-bit unsigned additions and subtractions on box coordinates are the mathematical ones taken modulo 2^32 |
| MpsOsd.ShrinkToFit | src/ce3226/mps_service/src/mps_service.cpp:238-239 | the loop that takes 2 off the extent while the box reaches the frame edge computes ShrunkAsWritten, with 32-bit wrap-around |
| MpsOsd.FitLength | src/ce3226/mps_service/src/mps_service.cpp:238-241 | the corrected fit is even, no longer than the request, non-zero only when it ends inside the frame, and for an even start inside the frame it is the request or the largest even extent that fits |
| MpsOsd.ShrinkAgreesInsideFrame | src/ce3226/mps_service/src/mps_service.cpp:238-239 | for an even box that starts inside the frame the code's loop and the corrected fit give the same extent |
| MpsOsd.BoxAtEdgeWraps | src/ce3226/mps_service/src/mps_service.cpp:238-239 | a box of width 0 starting at the frame's right edge makes the code's loop wrap to a width of 2^32-2, where the corrected fit gives 0 and skips the box |
| MpsOsd.RectifyBox | src/ce3226/mps_service/src/mps_service.cpp:228-241 | a drawn rectangle has even position and size, both extents positive, lies strictly inside the frame and is no larger than the box; the box is skipped exactly when either fitted extent is 0 |
| MpsOsd.RectifyIdempotent | src/ce3226/mps_service/src/mps_service.cpp:228-241 | fitting a rectangle that was already fitted gives the same rectangle |
| MpsOsd.AddRectOrdered | src/ce3226/mps_service/src/mps_service.cpp:252-258 | adding a rectangle to the colour map keeps one non-empty entry per colour in ascending colour order |
| MpsOsd.AddRectContents | src/ce3226/mps_service/src/mps_service.cpp:252-258 | adding a rectangle of colour c appends it to c's list and leaves every other colour's list unchanged |
| MpsOsd.GroupedMeaning | src/ce3226/mps_service/src/mps_service.cpp:224-260 | the colour map built from the boxes holds under each colour exactly that colour's drawable rectangles, in input order |
| MpsOsd.ChunksSpec | src/ce3226/mps_service/src/mps_service.cpp:262-302 | each batch holds between 1 and 32 rectangles, and the batches concatenated give back the whole list |
| MpsOsd.SubmitInChunks | src/ce3226/mps_service/src/mps_service.cpp:264-300 | batches are submitted in order, each one that was sent succeeded, the call fails at the first refused batch and succeeds exactly when all batches are sent |
| MpsOsd.Batches | src/ce3226/mps_service/src/mps_service.cpp:272-291 | every batch of one colour is drawn with that colour and the common line width |
| MpsOsd.ColorBatchesOfBatches | src/ce3226/mps_service/src/mps_service.cpp:264-300 | the batches drawn for one colour hold that colour's chunks and no other colour's |
| MpsOsd.PlanBatchSizes | src/ce3226/mps_service/src/mps_service.cpp:262-302 | no draw call gets fewer than 1 or more than 32 rectangles |
| MpsOsd.PlanByColor | src/ce3226/mps_service/src/mps_service.cpp:264-300 | across the whole plan, the rectangles drawn in a colour are exactly the colour map's list for it, in order |
| MpsOsd.SubmitGroups | src/ce3226/mps_service/src/mps_service.cpp:264-312 | the submitted batches are a prefix of the plan, all accepted; a refusal stops the drawing; the result is 0 exactly when every batch is sent and the final wait succeeds |
| MpsOsd.OsdDrawBboxes | src/ce3226/mps_service/src/mps_service.cpp:197-315 | an unsupported format gives -1 and draws nothing; otherwise a prefix of the plan built from the boxes fitted as the corrected RectifyBox states, grouped by colour, is drawn, and 0 is returned exactly when all of it is drawn and the wait succeeds |
| MpsOsd.DrawnByColor | src/ce3226/mps_service/src/mps_service.cpp:224-300 | the rectangles the plan draws in each colour are exactly the input boxes of that colour that survive fitting, in input order |
| MpsOsd.FillRefusesEveryFormat | src/ce3226/mps_service/src/mps_service.cpp:319-323 | the code's format test refuses every pixel format, since no format equals both NV12 and NV21; the corrected test refuses exactly the unsupported formats |
| MpsOsd.OsdFillBboxes | src/ce3226/mps_service/src/mps_service.cpp:317-410 | (corrected format test) a format other than NV12 or NV21 gives -1 and fills nothing; otherwise fill jobs go out in batches of at most 32 in input order, the call stops at the first refused batch, and 0 means all were sent |
| MpsOsd.TextRect | src/ce3226/mps_service/src/mps_service.cpp:436-450 | (corrected fit) a text box keeps its x and width, has its y rounded down to even and its height fitted inside the frame without wrap-around; it is skipped exactly when its width or fitted height is 0 |
| MpsOsd.OsdPutText | src/ce3226/mps_service/src/mps_service.cpp:412-517 | (corrected format test) a format other than NV12 or NV21 gives -1 and draws no text; otherwise text jobs go out in batches of at most 32 in input order, the call stops at the first refused batch, and 0 means all were sent |
| IniConfig.NulAt | src/ce3226/mps_service/src/mps_internal/cnsample_comm_config.cpp:76 | the terminator position is the first NUL of the buffer |
| IniConfig.StrLen | src/ce3226/mps_service/src/mps_internal/cnsample_comm_config.cpp:76 | the scan for the terminator stops at the first NUL, and the characters before it are the C string |
| IniConfig.DropLeadingAt | src/ce3226/mps_service/src/mps_internal/cnsample_comm_config.cpp:97-100 | skipping spaces and tabs from the left stops at the first non-blank character |
| IniConfig.DropTrailingAt | src/ce3226/mps_service/src/mps_internal/cnsample_comm_config.cpp:107-110 | skipping spaces and tabs from the right stops after the last non-blank character |
| IniConfig.TrimmedShape | src/ce3226/mps_service/src/mps_internal/cnsample_comm_config.cpp:87-123 | a trimmed string neither starts nor ends with a space or tab and is the original with only blanks removed around it |
| IniConfig.TrimIdempotent | src/ce3226/mps_service/src/mps_internal/cnsample_comm_config.cpp:87-123 | trimming a trimmed string changes nothing |
| IniConfig.TrimBounds | src/ce3226/mps_service/src/mps_internal/cnsample_comm_config.cpp:97-118 | the two index loops of the code select exactly the trimmed string, and an all-blank string trims to the empty string |
| IniConfig.StringTrim | src/ce3226/mps_service/src/mps_internal/cnsample_comm_config.cpp:87-123 | a null pointer or an empty string fails and leaves the buffer as it was; otherwise the C string in the buffer becomes its trimmed form |
| IniConfig.SkipLeading | src/ce3226/mps_service/src/mps_internal/cnsample_comm_config.cpp:97-100 | the left index stops at the first non-blank character or at the terminator |
| IniConfig.SkipTrailing | src/ce3226/mps_service/src/mps_internal/cnsample_comm_config.cpp:107-110 | the right index stops at the last non-blank character or at index 0 |
| IniConfig.MoveDown | src/ce3226/mps_service/src/mps_internal/cnsample_comm_config.cpp:112-118 | the kept characters move to the front and are terminated, and the rest of the buffer is untouched |
| IniConfig.ToUpper | src/ce3226/mps_service/src/mps_internal/cnsample_comm_config.cpp:78-81 | lower-case ASCII letters move up by 32 to upper case, and every other character is kept |
| IniConfig.UpperAt | src/ce3226/mps_service/src/mps_internal/cnsample_comm_config.cpp:76-82 | each character of the upper-cased string is its own character upper-cased |
| IniConfig.UpperSpec | src/ce3226/mps_service/src/mps_internal/cnsample_comm_config.cpp:65-85 | an upper-cased string has no lower-case letters, keeps its NUL positions, and upper-casing it again changes nothing |
| IniConfig.StringUpper | src/ce3226/mps_service/src/mps_internal/cnsample_comm_config.cpp:65-85 | a null pointer fails; otherwise the C string becomes upper case and the bytes after it are untouched |
| IniConfig.IndexFrom | src/ce3226/mps_service/src/mps_internal/cnsample_comm_config.cpp:245-256 | a match found by the substring search lies inside the string, at or after the start |
| IniConfig.IndexFromFirst | src/ce3226/mps_service/src/mps_internal/cnsample_comm_config.cpp:245-256 | the search returns the first position where the pattern occurs, or nothing exactly when it occurs nowhere after the start |
| IniConfig.FindHeader | src/ce3226/mps_service/src/mps_internal/cnsample_comm_config.cpp:149-191 | a section match lies after the starting row and within the file |
| IniConfig.FindHeaderFirst | src/ce3226/mps_service/src/mps_internal/cnsample_comm_config.cpp:149-191 | the section search stops at the first row whose bracketed, trimmed and upper-cased name equals the name sought, and fails exactly when no such row exists |
| IniConfig.FindSection | src/ce3226/mps_service/src/mps_internal/cnsample_comm_config.cpp:149-191 | a section search that succeeds gives a row position inside the file |
| IniConfig.MoveToSection | src/ce3226/mps_service/src/mps_internal/cnsample_comm_config.cpp:126-195 | a section name longer than 50 characters is refused; otherwise the search runs on the trimmed, upper-cased name from the top of the file |
| IniConfig.KeyRow | src/ce3226/mps_service/src/mps_internal/cnsample_comm_config.cpp:231-287 | a key is found on a row only outside a comment block, and a row starting a comment block without closing it enters comment mode |
| IniConfig.KeySearch | src/ce3226/mps_service/src/mps_internal/cnsample_comm_config.cpp:218-290 | a value found by the key search comes from a row of the section that holds the key outside a comment |
| IniConfig.Truncate | src/ce3226/mps_service/src/mps_internal/cnsample_comm_config.cpp:285 | the value written into a buffer of a given size is a prefix of at most size-1 characters, and the whole value when it fits |
| IniConfig.ScanKey | src/ce3226/mps_service/src/mps_internal/cnsample_comm_config.cpp:218-290 | the row loop returns exactly the value and the comment state of KeySearch |
| IniConfig.KeyReader.constructor | src/ce3226/mps_service/src/mps_internal/cnsample_comm_config.cpp:206 | a fresh process starts outside any comment block |
| IniConfig.KeyReader.ReadKeyAsWritten | src/ce3226/mps_service/src/mps_internal/cnsample_comm_config.cpp:198-291 | a key over 50 characters or a value buffer holding over 255 fails; otherwise the search starts in the comment state left by the previous call and leaves its own for the next one |
| IniConfig.ReadKey | src/ce3226/mps_service/src/mps_internal/cnsample_comm_config.cpp:198-291 | the corrected read starts every search outside a comment; a value it returns fits the buffer and is the truncated value of a key row of the section |
| IniConfig.TrimmedAsIs | src/ce3226/mps_service/src/mps_internal/cnsample_comm_config.cpp:87-123 | a string without blanks at either end is left as it is by trimming |
| IniConfig.NoNewline | src/ce3226/mps_service/src/mps_internal/cnsample_comm_config.cpp:227-230 | a row without a line break is not changed by stripping the line break |
| IniConfig.SearchInAEndsInComment | src/ce3226/mps_service/src/mps_internal/cnsample_comm_config.cpp:243-260 | in the sample file, a search in section A that meets an unclosed comment and the next section header ends in comment mode |
| IniConfig.RowOfB | src/ce3226/mps_service/src/mps_internal/cnsample_comm_config.cpp:263-287 | read outside a comment, the row x = 1 of section B gives the value 1 for key X |
| IniConfig.RowOfBInComment | src/ce3226/mps_service/src/mps_internal/cnsample_comm_config.cpp:256-260 | read in comment mode, the same row is skipped and comment mode continues |
| IniConfig.StaleCommentHidesKey | src/ce3226/mps_service/src/mps_internal/cnsample_comm_config.cpp:243-261 | on the sample file, the reader as written misses the key x of section [b] after a search of [a] ended inside a comment block, while the corrected read finds its value 1 |
| IniConfig.DecimalString | src/ce3226/mps_service/src/mps_internal/cnsample_comm_config.cpp:381 | the decimal form of a sensor number is a non-empty string of digits |
| IniConfig.DigitsOfDecimal | src/ce3226/mps_service/src/mps_internal/cnsample_comm_config.cpp:381 | the digits printed for a number read back to that number |
| IniConfig.AtoiOfDecimal | src/ce3226/mps_service/src/mps_internal/cnsample_comm_config.cpp:360 | atoi of a printed number, with or without a minus sign, gives that number or its negation |
| IniConfig.GetIniKeyInt | src/ce3226/mps_service/src/mps_internal/cnsample_comm_config.cpp:346-364 | (corrected comment handling: every search starts outside a comment) the read succeeds exactly when the file exists and the key is found in its section with an integer value; the result is that value or else the default |
| IniConfig.GetSingleSensorCfg | src/ce3226/mps_service/src/mps_internal/cnsample_comm_config.cpp:377-408 | (corrected comment handling) the sensor block reads exactly when all four keys of section sensor.i are present, and then holds their values |
| IniConfig.GetSensorCfg | src/ce3226/mps_service/src/mps_internal/cnsample_comm_config.cpp:410-458 | (corrected comment handling) without a file the read fails with no sensors; otherwise it succeeds exactly when the sensor count is in 1..the device limit and every sensor block reads and passes its check; the sensors read so far are recorded in order |
| IniConfig.RecordedSnoc | src/ce3226/mps_service/src/mps_internal/cnsample_comm_config.cpp:440-456 | appending the next sensor that reads and passes its check keeps the record of sensors read in order |
| IniConfig.ReadSensors | src/ce3226/mps_service/src/mps_internal/cnsample_comm_config.cpp:440-456 | (corrected comment handling) the loop succeeds exactly when every one of the first num sensors reads and passes the MIPI device check; it then holds all of them, and never more than num |
| ViSensor.SensorOfCode | src/ce3226/mps_service/src/mps_internal/cnsample_comm.h:114-131 | every integer code names exactly one sensor type, listed or not, and only codes outside 0..BUTT-1 are unlisted |
| ViSensor.SensorCodeRoundTrip | src/ce3226/mps_service/src/mps_internal/cnsample_comm.h:114-131 | a sensor type turned into its code and back is the same type |
| ViSensor.IsSlaveMode | src/ce3226/mps_service/src/mps_internal/cnsample_comm_vi.cpp:327-341 | a sensor works in slave mode exactly when its table entry is a MIPI slave sensor |
| ViSensor.PipeAttrBySns | src/ce3226/mps_service/src/mps_internal/cnsample_comm_vi.cpp:343-401 | a pipe attribute exists exactly for listed sensors; its bit width is the sensor's and matches the raw pixel format, and the two-frame raw format is used exactly by the two OV08A20 WDR modes |
| ViSensor.ChnSizeBySns | src/ce3226/mps_service/src/mps_internal/cnsample_comm_vi.cpp:403-444 | the channel size is the pipe's maximum size for a listed sensor and 1920x1080 for any other |
| ViSensor.DevAttrBySns | src/ce3226/mps_service/src/mps_internal/cnsample_comm_vi.cpp:446-511 | a device attribute exists exactly for listed sensors; LVDS mode is used exactly for LVDS sensors, the input width in bits is the sensor's, and the device size covers the pipe size |
| ViSensor.FrameRateBySensor | src/ce3226/mps_service/src/mps_internal/cnsample_comm_vi.cpp:513-558 | without an output pointer the call fails; otherwise a listed sensor gives its own frame rate and any other sensor 30 |
| ViSensor.PicDims | src/ce3226/mps_service/src/mps_internal/cnsample_comm.h:89-112 | every listed picture size has fixed dimensions, and only the catch-all size has none |
| ViSensor.SizeBySensor | src/ce3226/mps_service/src/mps_internal/cnsample_comm_vi.cpp:560-612 | without an output pointer the call fails; otherwise a listed sensor gives the picture size whose dimensions are its device size, and any other sensor 720P |
| ViSensor.WdrModeBySensor | src/ce3226/mps_service/src/mps_internal/cnsample_comm_vi.cpp:614-639 | without an output pointer the call fails; otherwise the mode is a WDR mode exactly for WDR sensors, and two-frame line overlap exactly when the pipe uses the two-frame raw format |
| ViSensor.CropBySns | src/ce3226/mps_service/src/mps_internal/cnsample_comm_vi.cpp:641-678 | the device is cropped exactly for LVDS sensors, to the pipe's maximum size |
| ViSensor.FirstFailure | src/ce3226/mps_service/src/mps_internal/cnsample_comm_vi.cpp:1113-1124 | the index of the first working device whose creation fails: every earlier one succeeds, and the one at that index fails |
| ViSensor.Working | src/ce3226/mps_service/src/mps_internal/cnsample_comm_vi.cpp:1113-1117 | the working devices are the configured entries picked by the working-id list, in its order |
| ViSensor.StartAllAdds | src/ce3226/mps_service/src/mps_internal/cnsample_comm_vi.cpp:1113-1124 | creating devices one by one holds exactly their devices, pipes and channels in addition to what was held before |
| ViSensor.StopAllRemoves | src/ce3226/mps_service/src/mps_internal/cnsample_comm_vi.cpp:1130-1135 | destroying the devices removes exactly their devices, pipes and channels |
| ViSensor.RollbackRestores | src/ce3226/mps_service/src/mps_internal/cnsample_comm_vi.cpp:942-983 | when a device fails to create, its own partial undo plus destroying every earlier device leaves exactly what was held before the call |
| ViSensor.ViSystem.constructor | src/ce3226/mps_service/src/mps_internal/cnsample_comm_vi.cpp:1101-1139 | a fresh system holds no devices, pipes or channels |
| ViSensor.ViSystem.CreateSingleVi | src/ce3226/mps_service/src/mps_internal/cnsample_comm_vi.cpp:942-983 | one device is created exactly when every step succeeds; a failure undoes the steps taken so far in reverse |
| ViSensor.ViSystem.DestroySingleVi | src/ce3226/mps_service/src/mps_internal/cnsample_comm_vi.cpp:1088-1099 | destroying one device stops its channel and pipe, and its device unless the sensor type is BUTT |
| ViSensor.ViSystem.CreateVi | src/ce3226/mps_service/src/mps_internal/cnsample_comm_vi.cpp:1101-1139 | creation succeeds exactly when every working device is created; otherwise the devices before the failing one are destroyed after its own undo |
| VoLayout.GetWH | src/ce3226/mps_service/src/mps_internal/cnsample_comm_vo.cpp:42-81 | every named output timing gives a 16:9 size with its own height and frame rate, the user timing gives 720x576 at 25, and any other timing is refused |
| VoLayout.Layout | src/ce3226/mps_service/src/mps_internal/cnsample_comm_vo.cpp:192-217 | each multi-window mode has its window count and the smallest square grid that holds that many windows; any other mode is refused |
| VoLayout.StopWindowCount | src/ce3226/mps_service/src/mps_internal/cnsample_comm_vo.cpp:263-293 | stopping uses the same window count as starting for every mode, and refuses the same modes |
| VoLayout.CellInside | src/ce3226/mps_service/src/mps_internal/cnsample_comm_vo.cpp:233-236 | a grid cell's even-rounded start plus its even-rounded size stays within the image side |
| VoLayout.WindowInside | src/ce3226/mps_service/src/mps_internal/cnsample_comm_vo.cpp:231-240 | every window of the grid lies inside the image and has even position and size |
| VoLayout.WindowsDisjoint | src/ce3226/mps_service/src/mps_internal/cnsample_comm_vo.cpp:231-240 | two different windows of one grid do not overlap |
| VoLayout.WindowsContents | src/ce3226/mps_service/src/mps_internal/cnsample_comm_vo.cpp:230-248 | starting n windows of a layer records exactly the keys 0..n-1 of that layer, each with its grid rectangle |
| VoLayout.WindowKeys | src/ce3226/mps_service/src/mps_internal/cnsample_comm_vo.cpp:230-248 | the keys of a layer's first n windows are exactly the pairs of that layer with an index below n |
| VoLayout.FirstFailed | src/ce3226/mps_service/src/mps_internal/cnsample_comm_vo.cpp:230-248 | the index of the first failing channel call: every earlier call succeeded and the one at that index failed |
| VoLayout.StartVoLayerAttr | src/ce3226/mps_service/src/mps_internal/cnsample_comm_vo.cpp:344-361 | the layer attribute takes the configured display rectangle, the timing's frame rate and the display height; its image width is the display width, rounded up to the alignment when a display buffer length is set |
| VoLayout.VoSystem.constructor | src/ce3226/mps_service/src/mps_internal/cnsample_comm_vo.cpp:309-389 | a fresh output system has no device, layer attribute, enabled layer or channel |
| VoLayout.VoSystem.StartChn | src/ce3226/mps_service/src/mps_internal/cnsample_comm_vo.cpp:181-255 | an unknown mode or an unreadable layer attribute enables nothing; otherwise the windows before the first failing call are enabled with their grid rectangles, and the call succeeds exactly when all are |
| VoLayout.VoSystem.EnableWindows | src/ce3226/mps_service/src/mps_internal/cnsample_comm_vo.cpp:230-253 | the channel loop enables windows in index order up to the first failing call |
| VoLayout.VoSystem.StopChn | src/ce3226/mps_service/src/mps_internal/cnsample_comm_vo.cpp:257-306 | an unknown mode disables nothing; otherwise windows are disabled in index order up to the first failing call, and the call succeeds exactly when all are |
| VoLayout.VoSystem.StartVo | src/ce3226/mps_service/src/mps_internal/cnsample_comm_vo.cpp:309-389 | start succeeds exactly when the device, the layer and every channel come up; a failure after the device is up disables it again, one after the layer is up also disables the layer, each only when that disable call succeeds; the windows enabled before a failing channel stay enabled, and on success every window of the mode is enabled |
| VoLayout.VoSystem.StopVo | src/ce3226/mps_service/src/mps_internal/cnsample_comm_vo.cpp:391-413 | stop succeeds exactly when every channel, the layer and the device are disabled; the windows before the first failing disable are removed (none for an unknown mode), and the layer and the device each when their disable succeeds |
| VoLayout.VoSystem.StartLayerChn | src/ce3226/mps_service/src/mps_internal/cnsample_comm_vo.cpp:416-488 | a layer started with its own image size succeeds exactly when the timing is known, the calls succeed and every channel comes up; on a channel failure the layer is disabled again when that call succeeds, and the windows enabled before the failing one stay |
| VoLayout.VoSystem.StopLayerChn | src/ce3226/mps_service/src/mps_internal/cnsample_comm_vo.cpp:490-508 | stopping a layer always reports success, disables its windows up to the first failing call (none for an unknown mode) and removes the layer when it is disabled |
| VoLayout.StartedWindowsTile | src/ce3226/mps_service/src/mps_internal/cnsample_comm_vo.cpp:230-248 | the windows enabled for a layer lie inside its image and no two of them overlap |
| EasyPipeline.FindFrom | samples/easy_pipeline/framework/easy_pipeline.cpp:220-225 | the first node at or after the start index that has the name, or none when no later node has it |
| EasyPipeline.FindByName | samples/easy_pipeline/framework/easy_pipeline.cpp:220-225 | the index of the first module with the name; none exactly when no module has it |
| EasyPipeline.LinkSources | samples/easy_pipeline/framework/easy_pipeline.cpp:99-104 | every source with the current name gets the next node as its successor, and every other source is unchanged |
| EasyPipeline.EmptyQueues | samples/easy_pipeline/framework/easy_pipeline.cpp:84-88 | a new module gets one empty input queue per worker |
| EasyPipeline.QueueOf | samples/easy_pipeline/framework/easy_pipeline.cpp:231 | a frame goes to a queue that exists: the index is below the next module's parallelism |
| EasyPipeline.SameQueue | samples/easy_pipeline/framework/easy_pipeline.cpp:228-239 | stream ids that differ by a multiple of the parallelism go to the same queue, so one stream's frames stay in order in one queue |
| EasyPipeline.EosUpdate | samples/easy_pipeline/framework/easy_pipeline.cpp:206-218 | an EOS frame marks a known stream finished and ignores an unknown one; any other frame adds an unknown stream as running; other streams are untouched |
| EasyPipeline.EosUpdateIdempotent | samples/easy_pipeline/framework/easy_pipeline.cpp:206-218 | processing the same frame twice has the effect of processing it once |
| EasyPipeline.FinishedStaysFinished | samples/easy_pipeline/framework/easy_pipeline.cpp:206-218 | once a stream is marked finished, no later frame marks it running again |
| EasyPipeline.KnownStaysKnown | samples/easy_pipeline/framework/easy_pipeline.cpp:206-218 | no frame removes a stream from a node's stream map |
| EasyPipeline.EosFinishesKnownStream | samples/easy_pipeline/framework/easy_pipeline.cpp:206-218 | the EOS of a stream the node already knows leaves that stream finished, whatever frames came before |
| EasyPipeline.LinkMatching | samples/easy_pipeline/framework/easy_pipeline.cpp:96-104 | the loop over the sources reports a match exactly when some source has the current name, and relinks exactly those sources |
| EasyPipeline.Pipeline.AddSource | samples/easy_pipeline/framework/easy_pipeline.cpp:63-73 | adding a source always succeeds, sets the source-added flag and appends a source whose stream 0 is running, with no successor and no queues |
| EasyPipeline.Pipeline.AddModule | samples/easy_pipeline/framework/easy_pipeline.cpp:75-93 | a module whose name is taken is refused with -1 and nothing changes; a new name with a negative parallelism ends in the length error that `reserve` throws, with nothing appended; otherwise the module is appended with one empty queue per worker and no successor |
| EasyPipeline.Pipeline.AddLink | samples/easy_pipeline/framework/easy_pipeline.cpp:95-114 | a link from a source name relinks every such source and succeeds even when the next node is missing; otherwise it links module to module when both exist and fails with nothing changed when either is missing |
| EasyPipeline.Pipeline.Start | samples/easy_pipeline/framework/easy_pipeline.cpp:116-130 | start fails with no change when no source was added; a failed build clears the running flag; a successful build leaves the pipeline running and started |
| EasyPipeline.Pipeline.ProcessFrameEos | samples/easy_pipeline/framework/easy_pipeline.cpp:206-218 | processing a frame updates only that node's stream map, as EosUpdate states, and keeps the pipeline valid |
| EasyPipeline.Pipeline.SendData | samples/easy_pipeline/framework/easy_pipeline.cpp:228-245 | a frame is appended to its stream's queue of the next module, nothing is queued when there is no next module, a source's EOS marks its stream 0 finished, and every queued frame stays in its stream's queue |

## Left out

- Concurrency: the mutexes, condition variables and worker threads are not modelled. This covers the inference session and server, the thread pool and the thread-safe queue, the batcher's timer, and the decoder and encoder event threads. Each operation is modelled as one atomic step, and a wait becomes the answer the caller gets when no other thread acts.
- InferCache.Cache.Pop: when the cache is empty and still running, the source blocks until a package arrives. The model answers `Blocked` instead.
- InferBuffer.MluMemoryPool.Request: the wait for another thread to release a block is not modelled. A request that finds no free block and no room to allocate answers `Timeout` at once.
- Hardware and driver calls (cnrt, cncodec, cncv, the MPS and ioctl calls, the VB and unified allocators) are outcome parameters of the operations that make them. The bytes they move are modelled only where the source computes the addresses.
- Floating point is left out: `KeepAspectRatio`, the bounding-box rescaling, the scaling of mean and std by 255, profiling statistics, and the letterbox scaler. The MLU370 encoder takes its frame rate as an integer in hundredths of a frame, not as `frame_rate * 100`.
- BufSurfaceMemPool.MemPool.Destroy: the busy-wait until every block is returned is not modelled. Destroy with blocks still lent is a failed attempt, and `BufSurfaceUtil.BufPool.DestroyPool` retries it.
- Device address mapping and host/device copies (`GetMappedData`, `GetHostData`, `SyncHostToDevice` of the surface wrapper) are left out: they are raw-pointer plumbing over the runtime.
- The surface wrapper's tensor-data constructor with a user deleter, and the `Buffer` constructor over caller-owned memory (infer_server/src/core/buffer.cpp:110-131), are not modelled.
- `Preprocessor::Init` and `GetTensorParams` pass opaque `any` parameters. They are not modelled, and neither is the `WRONG_TYPE` path of a failed `any` cast.
- Preprocessing.Solver.Execute: the conversion of bounding boxes to crop rectangles is floating point, so the model takes the rectangles as given.
- Mlu200Decode.Mlu200Decoder.FeedData: its contract does not state that a failed JPEG feed removes the packet's pts from the map.
- MpsVenc.MpsVencService.GetId: the id allocator's own definition is not part of this model. Its behaviour is taken from the call sites (src/ce3226/mps_service/src/mps_service_impl_venc.cpp:86-90 and 154): ids are handed out from a queue and returned to it.
- EasyPipeline.Pipeline.Start: `BuildEasyPipeline`, which walks the chain from each source and starts one thread per worker, becomes the outcome `buildOk`. `Stop`, `WaitForStop` and `Taskloop` are thread control and are not modelled, except for the routing their callbacks perform (`SendData`).
- EasyPipeline.Pipeline.SendData: it requires the next module's parallelism to be positive. With parallelism 0 the source would compute `stream_id % 0`, which C++ leaves undefined. Stream ids are taken as non-negative.
- EasyPipeline.Pipeline.constructor: easy_pipeline.hpp is not part of this model. The flags are taken to start false and the lists to start empty.
- Duplicated code is not modelled again. This covers the video variant of preprocess_impl.h, decoder_mlu300.cpp, the MLU200, MLU300 and MLU590 encoders, and the remaining CE3226 lookup tables (picture sizes, MIPI, ISP). Each follows the pattern modelled here.
- The batch-size-by-dim-order rule of model.cpp depends on the MagicMind and cnrt runtimes and is not modelled. The Python bindings, samples and demos outside the pipeline framework are glue and are not modelled either.
- ViSensor.ViSystem.CreateVi: the rollback's destroy calls are taken to succeed. The source ignores their results.
- BufSurfaceService.Memset: the device fill (`cnrtMemset`, src/cnedk_buf_surface.cpp:223) is taken to succeed. In the source a failed fill returns -1 partway through the items, after the earlier planes were filled.
- BufSurfaceService.Copy: the host and device copies (`cnrtMemcpy`, src/cnedk_buf_surface.cpp:276-309) are taken to succeed. In the source a failed copy returns -1 partway through, after the earlier planes were copied.
- InferBuffer.Buffer.CopyFromBuffer: it uses the corrected `Data()` check (see Findings), so a source whose memory is not allocated fails with MEMORY. As written, that check lets such a source through.
- CncvTransform.CropRoi: it uses the corrected CropAxis (see Findings). As written, a crop whose start is out of range and whose width is 0 gets a width that wraps around 32 bits (src/transform_cncv/cnedk_transform_cncv.cpp:98).
- CncvTransform.ResizeRois: it builds its regions with CropRoi and so with the corrected CropAxis; the wrap-around of line 98 is not reproduced.
- CncvTransform.RgbxToYuvAsWritten: it keeps the batch-item-0 defect it exhibits, but builds its regions with the corrected CropAxis.
- MpsOsd.OsdDrawBboxes: it fits boxes with RectifyBox, the corrected form of the shrink loops at src/ce3226/mps_service/src/mps_service.cpp:238-239. As written, a box starting at the frame edge wraps its extent around 32 bits (see Findings).
- MpsOsd.OsdFillBboxes: it uses the intended format test and RectifyBox. As written, the test at src/ce3226/mps_service/src/mps_service.cpp:319-320 refuses every frame, and the shrink loops at 341-342 wrap like those of OsdDrawBboxes.
- MpsOsd.TextRect: it uses FitLength, the corrected form of the shrink loop at src/ce3226/mps_service/src/mps_service.cpp:441, which wraps as written.
- MpsOsd.OsdPutText: it uses the intended format test. As written, the test at src/ce3226/mps_service/src/mps_service.cpp:414-415 refuses every frame, so the call always gives -1.
- IniConfig.GetIniKeyInt: it searches with ReadKey, which starts every search outside a comment. As written, the `static` comment flag carries over from the previous search (see Findings).
- IniConfig.GetSingleSensorCfg: it reads its keys through GetIniKeyInt and so with the corrected comment handling.
- IniConfig.GetSensorCfg: it reads through GetIniKeyInt and so with the corrected comment handling.
- IniConfig.ReadSensors: it reads through GetSingleSensorCfg and so with the corrected comment handling.
- DataTypes.TransLayout: element counts and byte sizes are unbounded integers. The `int` and `size_t` arithmetic of the source, and its overflow for very large shapes, is not modelled.
- MpsVenc.MpsVencService.SendFrame: each drain is one outcome. The polling, the stream reads and the end-of-stream checks inside it are not modelled one by one.
- VoLayout.VoSystem.StartVo: the outcomes of the rollback's disable calls are parameters (`undoLayer`, `undoDev`). The source ignores their results, and the model only records whether each took effect.

## Findings

| source | as written | input that shows it | evidently intended | confidence | as-written member | corrected member |
|---|---|---|---|---|---|---|
| infer_server/src/core/buffer.cpp:189 | `Data()` throws only when the memory is null AND its data is null, so an unallocated buffer is never reported | a buffer whose memory has not been allocated: `Data()` returns a null pointer plus the offset | throw `MEMORY` when either is null | not executed | InferBuffer.Buffer.DataAsWritten | InferBuffer.Buffer.Data |
| src/cnedk_buf_surface.cpp:274 | the row loop of plane i runs to `height[i]` of the plane table, indexed by the item number `i` rather than the plane number | a 2x2 NV12 item copied into a larger item (AsWrittenCopyMissesSecondPlane): the second plane is never copied | run each plane's loop to that plane's own height | not executed | BufSurfaceService.AsWrittenCopyItem | BufSurfaceService.CopyPlanesPlaces |
| src/cnedk_buf_surface.cpp:53-59 | `BufPoolCreate` stores the new pool in the caller's handle before creating it and deletes it on failure, so `BufPool` keeps a dangling handle | a pool with batch size 0 (FailedCreateLeavesDanglingPool) | store the handle only when creation succeeds | not executed | BufSurfaceUtil.BufPool.CreatePoolAsWritten | BufSurfaceUtil.BufPool.CreatePool |
| src/cnedk_buf_surface_util.cpp:252-271 | the retry loop of `DestroyPool` ends with a `return`, so it never retries | a pool whose first teardown fails and whose second would succeed (FailedTeardownIsNotRetried) | retry until the budget runs out | not executed | BufSurfaceUtil.BufPool.DestroyPoolAsWritten | BufSurfaceUtil.BufPool.DestroyPool |
| infer_server/src/model/model_manager.cpp:159 | `Unload` looks the model up under `GetKey()`, which is `path_ + "_" + func_name_`, while `Load` stores it under path and function name without the separator | a model loaded from a file and then unloaded (LoadThenUnload): Unload reports false and the model stays cached | look up the key the model was loaded under | not executed | ModelCache.ModelManager.UnloadAsWritten | ModelCache.ModelManager.Unload |
| infer_server/src/core/data_type.cpp:44 | the NCHW-to-NHWC loop bound `n_dims - 1` is unsigned and wraps for an empty shape | `n_dims` = 0 (AsWrittenEmptyShapeWritesPastEnd): the loop writes past the empty axis vector | no writes for an empty shape | not executed | DataTypes.AsWrittenNchwLoopBound | DataTypes.GetTransOrderAxis |
| infer_server/src/contrib/preprocess_impl.h:157-161 | the op is reset before `RefreshOp`, so after a failed init it is no longer null and the next batch in the same format skips initialisation | two NV12 batches where the first init fails (FailedInitIsSkipped): the second batch runs an op that was never initialised | initialise again after a failure | not executed | CncvPreprocess.ResizeConvert.ExecuteAsWritten | CncvPreprocess.ResizeConvert.Execute |
| src/transform_cncv/cnedk_transform_cncv.cpp:98 | with no crop width the width is `width - left` in 32 bits even when `left` was out of range and x was reset to 0 | left 150, width 0, image width 100 (CropPastEdgeWraps): the crop width wraps to 2^32 - 50 | the whole image when the start is out of range | not executed | CncvTransform.CropAxisAsWritten | CncvTransform.CropAxis |
| src/transform_cncv/cnedk_transform_cncv.cpp:326 | every item of the batch reads `surface_list[0]` | a batch of two images (SecondImageReadsFirst): the second conversion reads the first image | item i reads `surface_list[i]` | not executed | CncvTransform.RgbxToYuvAsWritten | CncvTransform.RgbxToYuv |
| src/easycodec/progressive_jpeg.cpp:58-63 | the segment walk reads the marker and length bytes at i+1..i+3 without checking the length | the bytes FF D8 FF (TruncatedMarkerReadsPastEnd): the scan reads index 3 of a 3-byte buffer | stop with 0 when a header does not fit | not executed | ProgressiveJpeg.ScanFromAsWritten | ProgressiveJpeg.CheckProgressiveMode |
| src/easycodec/progressive_jpeg.cpp:203-205 | the result of `TryPop` is ignored, so a frame with no free buffer uses an id with no memory | one output buffer and two frames before any release (SecondFrameWithoutBuffer) | fail when no buffer is free | not executed | ProgressiveJpeg.OutputBuffers.AcquireAsWritten | ProgressiveJpeg.OutputBuffers.Acquire |
| src/mlu590/cnedk_decode_impl_mlu590.cpp:122 | the JPEG path returns the `bool` of `SetDecParams`, so a refusal (false) becomes 0, the success code | a JPEG decoder whose codec refuses its parameters (JpegParamsRefused): Create answers 0 | answer -1 on a refusal | not executed | Mlu590Decode.DecoderMlu590.CreateAsWritten | Mlu590Decode.DecoderMlu590.Create |
| src/ce3226/mps_service/src/mps_service_impl_venc.cpp:183-197 | the result of `cnvencSetJpegParam` is not stored, so the check after it tests the earlier result; the failure paths also leave the channel created | a JPEG channel whose quality factor is refused (JpegQualityRefused): Create hands out the encoder | fail and destroy the channel | not executed | MpsVenc.MpsVencService.CreateAsWritten | MpsVenc.MpsVencService.Create |
| src/ce3226/mps_service/src/mps_service.cpp:238-239 | the shrink loop `while (x + w >= width) w -= 2` is 32-bit unsigned, so a box starting at the edge wraps | x 100, w 0, frame width 100 (BoxAtEdgeWraps): w wraps to 2^32 - 2 | skip a box that starts outside the frame | not executed | MpsOsd.ShrinkToFit | MpsOsd.RectifyBox |
| src/ce3226/mps_service/src/mps_service.cpp:319-323 | the format test, NV12 inequality OR-ed with NV21 inequality, holds for every format, so `OsdFillBboxes` always returns -1 | any NV12 frame (FillRefusesEveryFormat) | refuse only formats other than NV12 and NV21 | not executed | MpsOsd.FillRefusesEveryFormat | MpsOsd.OsdFillBboxes |
| src/ce3226/mps_service/src/mps_service.cpp:414-415 | the format test of `OsdPutText`, NV12 inequality OR-ed with NV21 inequality, holds for every format, so the call always returns -1 | any NV12 frame (FillRefusesEveryFormat) | refuse only formats other than NV12 and NV21 | not executed | MpsOsd.FillRefusesEveryFormat | MpsOsd.OsdPutText |
| src/ce3226/mps_service/src/mps_service.cpp:341-342 | the shrink loops of `OsdFillBboxes`, `while (x + w >= width) w -= 2`, are 32-bit unsigned, so a box starting at the edge wraps | x 100, w 0, frame width 100 (BoxAtEdgeWraps): w wraps to 2^32 - 2 | skip a box that starts outside the frame | not executed | MpsOsd.BoxAtEdgeWraps | MpsOsd.RectifyBox |
| src/ce3226/mps_service/src/mps_service.cpp:441 | the height loop of `OsdPutText`, `while (y + h >= height) h -= 2`, is 32-bit unsigned, so a text box starting at the bottom edge wraps | y 100, h 0, frame height 100 (BoxAtEdgeWraps, the same loop): h wraps to 2^32 - 2 | skip a text box that starts outside the frame | not executed | MpsOsd.BoxAtEdgeWraps | MpsOsd.TextRect |
| src/ce3226/mps_service/src/mps_internal/cnsample_comm_config.cpp:206 | the block-comment flag is `static`, so a search that ends inside `/* ...` leaves the next search in comment mode | a file whose section [a] holds an unclosed comment, then a search of [b] (StaleCommentHidesKey): key x is missed | start every search outside a comment | not executed | IniConfig.KeyReader.ReadKeyAsWritten | IniConfig.ReadKey |
