// The buffer-surface memory pool (src/cnedk_buf_surface_impl.cpp): a
// queue of pre-allocated surfaces handed out and taken back, or, for
// video-buffer (VB) memory, a pass-through to the allocator.
module BufSurfaceMemPool {
  import opened Common
  import opened SurfaceUtils
  import opened Surfaces

  /** The allocator implementations CreateMemAllocator can build. */
  datatype AllocatorKind = VbAllocator | UnifiedAllocator | SystemAllocator | DeviceAllocator

  /** CreateMemAllocator: system and device allocators exist everywhere,
      VB and unified ones only on CE3226; any other type has none. */
  function AllocatorFor(memType: int, ce3226: bool): (a: Option<AllocatorKind>)
    ensures a == Some(SystemAllocator) <==> memType == MEM_SYSTEM
    ensures a == Some(DeviceAllocator) <==> memType == MEM_DEVICE
    ensures a == Some(VbAllocator) <==> ce3226 && (memType == MEM_VB || memType == MEM_VB_CACHED)
    ensures a == Some(UnifiedAllocator) <==> ce3226 && (memType == MEM_UNIFIED || memType == MEM_UNIFIED_CACHED)
    ensures a.None? <==>
      !(memType == MEM_SYSTEM || memType == MEM_DEVICE || (ce3226 && MEM_UNIFIED <= memType <= MEM_VB_CACHED))
  {
    if memType == MEM_VB || memType == MEM_VB_CACHED then
      if ce3226 then Some(VbAllocator) else None
    else if memType == MEM_UNIFIED || memType == MEM_UNIFIED_CACHED then
      if ce3226 then Some(UnifiedAllocator) else None
    else if memType == MEM_SYSTEM then Some(SystemAllocator)
    else if memType == MEM_DEVICE then Some(DeviceAllocator)
    else None
  }

  /** DEFAULT memory becomes UNIFIED where the platform has unified
      addressing and DEVICE otherwise; other types are kept. */
  function ResolveMemType(memType: int, info: PlatformInfo): (r: int)
    ensures memType != MEM_DEFAULT ==> r == memType
    ensures memType == MEM_DEFAULT ==> r != MEM_DEFAULT
    ensures memType == MEM_DEFAULT ==> (r == MEM_UNIFIED <==> info.supportUnifiedAddr)
    ensures memType == MEM_DEFAULT ==> (r == MEM_DEVICE <==> !info.supportUnifiedAddr)
  {
    if memType != MEM_DEFAULT then memType
    else if info.supportUnifiedAddr then MEM_UNIFIED
    else MEM_DEVICE
  }

  /** The index of the first failed allocation among the first n, or n. */
  function FirstFailure(allocs: seq<Option<BufSurface>>, n: nat): (k: nat)
    requires n <= |allocs|
    ensures k <= n
    ensures forall i :: 0 <= i < k ==> allocs[i].Some?
    ensures k < n ==> allocs[k].None?
  {
    if n == 0 then 0
    else if FirstFailure(allocs, n - 1) < n - 1 then FirstFailure(allocs, n - 1)
    else if allocs[n - 1].None? then n - 1
    else n
  }

  /** The first k allocated surfaces, each tagged with the pool. */
  function Tagged(allocs: seq<Option<BufSurface>>, k: nat, pool: nat): (s: seq<BufSurface>)
    requires k <= |allocs|
    requires forall i :: 0 <= i < k ==> allocs[i].Some?
    ensures |s| == k
    ensures forall i :: 0 <= i < k ==> s[i] == allocs[i].value.(owner := Some(pool))
  {
    seq(k, i requires 0 <= i < k && allocs[i].Some? => allocs[i].value.(owner := Some(pool)))
  }

  /** The surface with every mapped_data_ptr of its batch cleared. */
  function Unmapped(surf: BufSurface): (r: BufSurface)
    ensures r.memType == surf.memType && r.batchSize == surf.batchSize && r.owner == surf.owner
    ensures |r.items| == |surf.items|
    ensures forall i :: 0 <= i < |r.items| ==> r.items[i] == surf.items[i].(mapped := false)
  {
    surf.(items := seq(|surf.items|, i requires 0 <= i < |surf.items| => surf.items[i].(mapped := false)))
  }

  /** What Destroy does when blocks are still handed out: it waits for them. */
  datatype DestroyOutcome = Done(code: int) | Waiting

  class MemPool {
    /** The pool's own address, stored in the opaque field of its surfaces. */
    const self: nat
    /** Whether the library is built for CE3226. */
    const ce3226: bool
    var created: bool
    var deviceId: nat
    var memType: int
    var isFakeMapped: bool
    var isVbPool: bool
    var cache: seq<BufSurface>
    var allocCount: int
    /** The number of blocks the pool owns (the block_num it was created with). */
    ghost var blocks: nat

    /** Outside VB mode every owned block is either idle in the cache or
        counted as handed out, and every idle block carries the pool tag. */
    ghost predicate Valid()
      reads this
    {
      (!created ==> allocCount == 0) &&
      (created && !isVbPool ==> |cache| + allocCount == blocks) &&
      (forall i :: 0 <= i < |cache| ==> cache[i].owner == Some(self))
    }

    constructor (self: nat, ce3226: bool)
      ensures Valid() && !created && cache == [] && allocCount == 0
      ensures this.self == self && this.ce3226 == ce3226
    {
      this.self := self;
      this.ce3226 := ce3226;
      created := false;
      deviceId := 0;
      memType := MEM_DEFAULT;
      isFakeMapped := false;
      isVbPool := false;
      cache := [];
      allocCount := 0;
      blocks := 0;
    }

    /** Create: fails when already created, on invalid parameters, when the
        platform query fails, when there is no allocator for the (resolved)
        memory type or it cannot be set up, and when pre-allocating one of
        the block_num surfaces fails (the surfaces allocated before stay
        queued). Outside VB mode the pool then holds block_num tagged
        surfaces and none is handed out. */
    method Create(params: CreateParams, blockNum: nat, platform: Option<PlatformInfo>,
                  allocatorOk: bool, allocs: seq<Option<BufSurface>>) returns (r: int)
      requires Valid()
      requires blockNum <= |allocs|
      modifies this
      ensures Valid()
      ensures r == 0 || r == -1
      ensures old(created) ==> r == -1 && created && cache == old(cache)
      ensures r == 0 <==>
        !old(created) &&
        CheckParams(params.batchSize, params.memType, params.colorFormat, params.width, params.height,
                    params.size, platform) == 0 &&
        platform.Some? &&
        AllocatorFor(ResolveMemType(params.memType, platform.value), ce3226).Some? &&
        allocatorOk &&
        (AllocatorFor(ResolveMemType(params.memType, platform.value), ce3226) == Some(VbAllocator) ||
         FirstFailure(allocs, blockNum) == blockNum)
      ensures r == 0 ==> created && allocCount == 0 && deviceId == params.deviceId
      ensures r == 0 ==> memType == ResolveMemType(params.memType, platform.value)
      ensures r == 0 ==> isFakeMapped == (memType == MEM_DEVICE)
      ensures r == 0 ==> isVbPool == (memType == MEM_VB || memType == MEM_VB_CACHED)
      ensures r == 0 && !isVbPool ==> cache == old(cache) + Tagged(allocs, blockNum, self)
      ensures r == 0 && isVbPool ==> cache == old(cache)
      ensures r == 0 && !isVbPool && old(cache) == [] ==> |cache| == blockNum && blocks == blockNum
      ensures r == -1 && !old(created) ==> !created
      ensures r == -1 ==>
        cache == old(cache) || cache == old(cache) + Tagged(allocs, FirstFailure(allocs, blockNum), self)
    {
      if created {
        return -1;
      }
      if CheckParams(params.batchSize, params.memType, params.colorFormat, params.width, params.height,
                     params.size, platform) < 0 {
        return -1;
      }
      deviceId := params.deviceId;
      if platform.None? {
        return -1;
      }
      var resolved := ResolveMemType(params.memType, platform.value);
      var allocator := AllocatorFor(resolved, ce3226);
      if allocator.None? {
        return -1;
      }
      if !allocatorOk {
        return -1;
      }
      memType := resolved;
      isFakeMapped := resolved == MEM_DEVICE;
      isVbPool := resolved == MEM_VB || resolved == MEM_VB_CACHED;
      if !isVbPool {
        var ok := FillCache(blockNum, allocs);
        if !ok {
          return -1;
        }
      }
      allocCount := 0;
      created := true;
      blocks := |cache|;
      return 0;
    }

    /** The pre-allocation loop of Create: queues one tagged surface per
        block until an allocation fails. */
    method FillCache(blockNum: nat, allocs: seq<Option<BufSurface>>) returns (ok: bool)
      requires blockNum <= |allocs|
      requires forall i :: 0 <= i < |cache| ==> cache[i].owner == Some(self)
      modifies this`cache
      ensures forall i :: 0 <= i < |cache| ==> cache[i].owner == Some(self)
      ensures ok <==> FirstFailure(allocs, blockNum) == blockNum
      ensures cache == old(cache) + Tagged(allocs, FirstFailure(allocs, blockNum), self)
    {
      var i := 0;
      while i < blockNum
        invariant i <= blockNum
        invariant forall k :: 0 <= k < i ==> allocs[k].Some?
        invariant cache == old(cache) + Tagged(allocs, i, self)
        invariant forall k :: 0 <= k < |cache| ==> cache[k].owner == Some(self)
      {
        if allocs[i].None? {
          FirstFailureAt(allocs, blockNum, i);
          return false;
        }
        assert Tagged(allocs, i + 1, self) == Tagged(allocs, i, self) + [allocs[i].value.(owner := Some(self))];
        cache := cache + [allocs[i].value.(owner := Some(self))];
        i := i + 1;
      }
      FirstFailureAt(allocs, blockNum, blockNum);
      return true;
    }

    /** Alloc: fails when not created; in VB mode the allocator makes a new
        tagged surface; otherwise the front idle surface is handed out and
        counted, and an empty cache fails. */
    method Alloc(vbSurface: Option<BufSurface>) returns (r: int, surf: Option<BufSurface>)
      requires Valid()
      modifies this
      ensures Valid()
      ensures created == old(created) && isVbPool == old(isVbPool) && blocks == old(blocks)
      ensures r == 0 <==> surf.Some?
      ensures r == 0 || r == -1
      ensures !created ==> r == -1 && cache == old(cache) && allocCount == old(allocCount)
      ensures created && isVbPool ==>
        cache == old(cache) && allocCount == old(allocCount) &&
        (vbSurface.None? ==> r == -1) &&
        (vbSurface.Some? ==> surf == Some(vbSurface.value.(owner := Some(self))))
      ensures created && !isVbPool && old(cache) == [] ==> r == -1 && cache == [] && allocCount == old(allocCount)
      ensures created && !isVbPool && old(cache) != [] ==>
        surf == Some(old(cache)[0]) && cache == old(cache)[1..] && allocCount == old(allocCount) + 1
    {
      if !created {
        return -1, None;
      }
      if isVbPool {
        if vbSurface.None? {
          return -1, None;
        }
        return 0, Some(vbSurface.value.(owner := Some(self)));
      }
      if cache == [] {
        return -1, None;
      }
      surf := Some(cache[0]);
      cache := cache[1..];
      allocCount := allocCount + 1;
      r := 0;
    }

    /** Free: fails when not created; in VB mode the allocator takes the
        surface back; otherwise the surface is queued again (with its mapped
        pointers cleared when device memory is only fake-mapped) and the
        handed-out count drops. */
    method Free(surf: BufSurface) returns (r: int)
      requires Valid() && surf.owner == Some(self)
      modifies this
      ensures Valid()
      ensures created == old(created) && isVbPool == old(isVbPool) && blocks == old(blocks)
      ensures !created ==> r == -1 && cache == old(cache) && allocCount == old(allocCount)
      ensures created && isVbPool ==> r == 0 && cache == old(cache) && allocCount == old(allocCount)
      ensures created && !isVbPool ==>
        r == 0 && allocCount == old(allocCount) - 1 &&
        cache == old(cache) + [if isFakeMapped then Unmapped(surf) else surf]
    {
      if !created {
        return -1;
      }
      if isVbPool {
        return 0;
      }
      var back := if isFakeMapped then Unmapped(surf) else surf;
      cache := cache + [back];
      allocCount := allocCount - 1;
      return 0;
    }

    /** Destroy: fails when not created; outside VB mode it first waits
        until nothing is handed out, then releases every idle surface; a
        failing allocator teardown leaves the pool created but empty. */
    method Destroy(allocatorDestroyOk: bool) returns (r: DestroyOutcome)
      requires Valid()
      modifies this
      ensures Valid()
      ensures !old(created) ==> r == Done(-1) && !created && cache == old(cache)
      ensures old(created) && !isVbPool && old(allocCount) != 0 ==>
        r == Waiting && created && cache == old(cache) && allocCount == old(allocCount)
      ensures old(created) && (isVbPool || old(allocCount) == 0) ==>
        (!isVbPool ==> cache == []) &&
        (allocatorDestroyOk ==> r == Done(0) && !created && allocCount == 0) &&
        (!allocatorDestroyOk ==> r == Done(-1) && created && allocCount == old(allocCount))
      ensures isVbPool == old(isVbPool)
    {
      if !created {
        return Done(-1);
      }
      if !isVbPool {
        if allocCount != 0 {
          return Waiting;
        }
        cache := [];
        blocks := 0;
      }
      if !allocatorDestroyOk {
        return Done(-1);
      }
      allocCount := 0;
      created := false;
      return Done(0);
    }
  }

  /** CreateSurface (the stand-alone, non-pool case): the parameters must
      pass CheckParams, VB memory is refused, the platform query must
      succeed, DEFAULT is resolved, and the resolved type needs a
      stand-alone allocator (unified ones only on CE3226) that can be set up
      and can allocate. `alloc` is what that allocator would hand out; it
      carries the resolved memory type and no pool tag. */
  function CreateSurface(params: CreateParams, ce3226: bool, platform: Option<PlatformInfo>,
                         allocatorOk: bool, alloc: Option<BufSurface>): (r: Option<BufSurface>)
    ensures r.Some? <==>
      CheckParams(params.batchSize, params.memType, params.colorFormat, params.width, params.height,
                  params.size, platform) == 0 &&
      params.memType != MEM_VB && params.memType != MEM_VB_CACHED &&
      platform.Some? &&
      AllocatorFor(ResolveMemType(params.memType, platform.value), ce3226).Some? &&
      allocatorOk && alloc.Some?
    ensures r.Some? ==>
      r.value.owner.None? && r.value.memType == ResolveMemType(params.memType, platform.value) &&
      r.value.memType != MEM_VB && r.value.memType != MEM_VB_CACHED
  {
    if CheckParams(params.batchSize, params.memType, params.colorFormat, params.width, params.height,
                   params.size, platform) < 0 then None
    else if params.memType == MEM_VB || params.memType == MEM_VB_CACHED then None
    else if platform.None? then None
    else
      var memType := ResolveMemType(params.memType, platform.value);
      var made := if allocatorOk && alloc.Some? then Some(alloc.value.(memType := memType, owner := None))
                  else None;
      if memType == MEM_UNIFIED || memType == MEM_UNIFIED_CACHED then
        if ce3226 then made else None
      else if memType == MEM_SYSTEM || memType == MEM_DEVICE then made
      else None
  }

  /** DestroySurface: a unified surface (CE3226 only), a system surface
      (whose allocator must also be torn down) or a device surface is handed
      back to its allocator; any other memory type fails. */
  function DestroySurface(surf: BufSurface, ce3226: bool, freeOk: bool, teardownOk: bool): (r: int)
    ensures r == 0 || r == -1
    ensures r == 0 <==>
      AllocatorFor(surf.memType, ce3226).Some? && AllocatorFor(surf.memType, ce3226) != Some(VbAllocator) &&
      freeOk && (surf.memType == MEM_SYSTEM ==> teardownOk)
  {
    if surf.memType == MEM_UNIFIED || surf.memType == MEM_UNIFIED_CACHED then
      if ce3226 && freeOk then 0 else -1
    else if surf.memType == MEM_SYSTEM then
      if freeOk && teardownOk then 0 else -1
    else if surf.memType == MEM_DEVICE then
      if freeOk then 0 else -1
    else -1
  }

  /** A surface that CreateSurface made on its own can be destroyed again
      when its allocator releases it. */
  lemma CreatedSurfaceIsDestroyable(params: CreateParams, ce3226: bool, platform: Option<PlatformInfo>,
                                    allocatorOk: bool, alloc: Option<BufSurface>)
    requires CreateSurface(params, ce3226, platform, allocatorOk, alloc).Some?
    ensures DestroySurface(CreateSurface(params, ce3226, platform, allocatorOk, alloc).value, ce3226, true, true) == 0
  {
  }

  lemma {:induction false} FirstFailureAt(allocs: seq<Option<BufSurface>>, n: nat, k: nat)
    requires k <= n <= |allocs|
    requires forall i :: 0 <= i < k ==> allocs[i].Some?
    requires k < n ==> allocs[k].None?
    ensures FirstFailure(allocs, n) == k
  {
    if n > 0 && k < n {
      if k < n - 1 {
        FirstFailureAt(allocs, n - 1, k);
      } else {
        FirstFailureAt(allocs, n - 1, n - 1);
      }
    } else if n > 0 {
      FirstFailureAt(allocs, n - 1, n - 1);
    }
  }

  /** A device pool of one block hands it out once; a second request fails
      until the block is freed, and then the same block comes back. */
  method OneBlockPool(surf: BufSurface, info: PlatformInfo) returns (first: int, second: int, third: int)
    ensures first == 0 && second == -1 && third == 0
  {
    var pool := new MemPool(1, false);
    var params := CreateParams(MEM_DEVICE, 0, 16, 16, FMT_NV12, 0, 1);
    var created := pool.Create(params, 1, Some(info), true, [Some(surf)]);
    assert FirstFailure([Some(surf)], 1) == 1;
    assert created == 0;
    var s;
    first, s := pool.Alloc(None);
    var s2;
    second, s2 := pool.Alloc(None);
    var freed := pool.Free(s.value);
    third, s2 := pool.Alloc(None);
  }
}
