// The C++ conveniences over buffer surfaces (src/cnedk_buf_surface_util.cpp):
// BufSurfaceWrapper, which holds one surface record and reads its fields,
// and BufPool, which owns one surface pool and hands its surfaces out in
// wrappers, retrying with a growing back-off.
module BufSurfaceUtil {
  import opened Common
  import opened SurfaceUtils
  import opened Surfaces
  import opened BufSurfaceMemPool
  import opened BufSurfaceService

  /** ~0 as a uint64_t: the wrapper's pts before any is set. */
  const U64_MAX: nat := 0xFFFF_FFFF_FFFF_FFFF

  /** The number of calls a retry loop makes when every call fails: it
      starts with count = timeout_ms + 1 and a step of 1, subtracts the step
      after each failure, stops once count drops to 0 or below, and
      otherwise doubles the step up to 10. */
  function Retries(count: int, step: nat): (n: nat)
    requires step >= 1
    ensures n >= 1
    decreases if count > 0 then count else 0
  {
    if count - step <= 0 then 1 else 1 + Retries(count - step, Min(2 * step, 10))
  }

  /** Every call uses up at least one unit of the budget, so the calls never
      outnumber timeout_ms + 1 (and there is always at least one). */
  lemma {:induction false} RetriesWithinBudget(count: int, step: nat)
    requires step >= 1
    ensures Retries(count, step) <= Max(count, 1)
    decreases if count > 0 then count else 0
  {
    if count - step > 0 {
      RetriesWithinBudget(count - step, Min(2 * step, 10));
    }
  }

  /** What the environment supplies to one CreateFromPool call: the
      surface a VB allocator would hand out, whether the slot array can be
      allocated and the name malloc would give a heap record. */
  datatype Attempt = Attempt(vbSurface: Option<BufSurface>, slotsOk: bool, heap: Option<nat>)

  class BufSurfaceWrapper {
    const service: SurfaceService
    /** The held CnedkBufSurface pointer, as the service's record name. */
    var surf: Option<nat>
    /** Whether the wrapper destroys the surface when it goes away. */
    var owner: bool
    /** The pts kept while no surface is held. */
    var pts: nat

    /** The held pointer, if any, names a live record. */
    predicate Live()
      reads this, service
    {
      surf.Some? ==> surf.value in service.records
    }

    constructor (service: SurfaceService, surf: Option<nat>, owner: bool)
      ensures this.service == service && this.surf == surf && this.owner == owner && pts == U64_MAX
    {
      this.service := service;
      this.surf := surf;
      this.owner := owner;
      pts := U64_MAX;
    }

    /** The held record: GetBufSurface, GetNumFilled, GetDeviceId and
        GetMemType read its fields, and GetColorFormat, GetWidth,
        GetHeight and GetPlaneNum those of its first item. */
    function Record(): (rec: BufSurface)
      reads this, service
      requires surf.Some? && Live()
      ensures rec in service.records.Values
    {
      service.records[surf.value]
    }

    /** The first item's plane parameters, which the whole batch shares. */
    function FirstPlanes(): (pp: PlaneParams)
      reads this, service
      requires surf.Some? && Live() && |Record().items| > 0
      ensures pp == Record().items[0].plane
    {
      Record().items[0].plane
    }

    /** GetStride: the pitch of plane i, or 0 for a plane the surface does
        not have. */
    function GetStride(i: nat): (p: nat)
      reads this, service
      requires surf.Some? && Live() && |Record().items| > 0 && FirstPlanes().WellFormed()
      ensures i >= FirstPlanes().numPlanes ==> p == 0
      ensures i < FirstPlanes().numPlanes ==> p == FirstPlanes().pitch[i]
    {
      var pp := FirstPlanes();
      if i >= pp.numPlanes then 0 else pp.pitch[i]
    }

    /** GetPlaneBytes: the size of plane i, or 0 for a plane the surface
        does not have. */
    function GetPlaneBytes(i: nat): (n: nat)
      reads this, service
      requires surf.Some? && Live() && |Record().items| > 0 && FirstPlanes().WellFormed()
      ensures i >= FirstPlanes().numPlanes ==> n == 0
      ensures i < FirstPlanes().numPlanes ==> n == FirstPlanes().psize[i]
    {
      var pp := FirstPlanes();
      if i >= pp.numPlanes then 0 else pp.psize[i]
    }

    /** GetData: plane `plane` of item `batch` starts this many bytes into
        the item's data. */
    function GetData(plane: nat, batch: nat): (at: nat)
      reads this, service
      requires surf.Some? && Live() && batch < |Record().items|
      requires Record().items[batch].plane.WellFormed() && plane < MAX_PLANES
      ensures at == Record().items[batch].plane.offset[plane]
    {
      Record().items[batch].plane.offset[plane]
    }

    /** GetPts: the held surface's pts, or the wrapper's own one when no
        surface is held. */
    function GetPts(): (t: int)
      reads this, service
      requires Live()
      ensures surf.Some? ==> t == service.records[surf.value].pts
      ensures surf.None? ==> t == pts
    {
      if surf.Some? then service.records[surf.value].pts else pts
    }

    /** SetPts: stores into the held surface, or into the wrapper when no
        surface is held; GetPts then gives the stored value back. */
    method SetPts(t: nat)
      requires Live() && service.Valid() && t <= U64_MAX
      modifies this`pts, service`records
      ensures Live() && service.Valid()
      ensures GetPts() == t
      ensures surf.Some? ==>
        pts == old(pts) &&
        service.records == old(service.records)[surf.value := old(service.records)[surf.value].(pts := t)]
      ensures surf.None? ==> pts == t && service.records == old(service.records)
    {
      if surf.Some? {
        var h := surf.value;
        service.records := service.records[h := service.records[h].(pts := t)];
      } else {
        pts := t;
      }
    }

    /** BufSurfaceChown: hands the held pointer over and holds nothing
        afterwards, so the wrapper no longer destroys it. */
    method BufSurfaceChown() returns (s: Option<nat>)
      modifies this`surf
      ensures s == old(surf) && surf.None?
    {
      s := surf;
      surf := None;
    }

    /** The destructor: an owning wrapper destroys the held surface through
        the service (back to its pool when it came from one). */
    method Dispose(pool: Option<MemPool>, freeOk: bool, teardownOk: bool)
      requires service.Valid() && Live()
      requires owner && surf.Some? && Record().owner.Some? ==>
        pool.Some? && pool.value.Valid() && pool.value.self == Record().owner.value
      modifies this`surf, service, if pool.Some? then {pool.value} else {}
      ensures service.Valid() && surf.None?
      ensures owner && old(surf).Some? ==> service.records == old(service.records) - {old(surf).value}
      ensures !(owner && old(surf).Some?) ==> service.records == old(service.records)
    {
      if owner && surf.Some? {
        var _ := service.Destroy(surf, pool, freeOk, teardownOk);
      }
      surf := None;
    }
  }

  class BufPool {
    const service: SurfaceService
    /** pool_: the pool handle; None while none was stored. */
    var pool: Option<MemPool>
    var stopped: bool
    /** Whether `pool` names a MemPool that BufPoolCreate deleted again. */
    ghost var dangling: bool

    /** The service is consistent, and a stored pool is a live, consistent
        MemPool. */
    ghost predicate Valid()
      reads this, service, if pool.Some? then {pool.value} else {}
    {
      service.Valid() && !dangling && (pool.Some? ==> pool.value.Valid())
    }

    constructor (service: SurfaceService)
      requires service.Valid()
      ensures Valid() && this.service == service && pool.None? && !stopped
    {
      this.service := service;
      pool := None;
      stopped := false;
      dangling := false;
    }

    /** CreatePool as written: the handle written by BufPoolCreate is kept
        even when the pool could not be created, and by then that pool has
        been deleted. */
    method CreatePoolAsWritten(params: Option<CreateParams>, blockCount: nat, addr: nat,
                               platform: Option<PlatformInfo>, allocatorOk: bool,
                               allocs: seq<Option<BufSurface>>) returns (r: int)
      requires Valid() && blockCount <= |allocs|
      modifies this
      ensures r == 0 || r == -1
      ensures r == 0 <==> params.Some? && blockCount != 0 &&
                          PoolCreatable(params.value, blockCount, service.ce3226, platform, allocatorOk, allocs)
      ensures r == 0 ==> Valid() && pool.Some? && !stopped && pool.value.created
      ensures r == -1 && params.Some? && blockCount != 0 ==> pool.Some? && dangling && stopped == old(stopped)
      ensures params.None? || blockCount == 0 ==> pool == old(pool) && !dangling && stopped == old(stopped)
    {
      var rc, created, written := service.BufPoolCreate(true, params, blockCount, addr, platform,
                                                        allocatorOk, allocs);
      // BufPoolCreate writes the handle only once it has allocated a MemPool.
      if written.Some? {
        pool := written;
        dangling := rc != 0;
      }
      if rc != 0 {
        return -1;
      }
      stopped := false;
      return 0;
    }

    /** CreatePool: a pool that could not be created leaves the wrapper as
        it was; a created one is stored and the pool is running. */
    method CreatePool(params: Option<CreateParams>, blockCount: nat, addr: nat,
                      platform: Option<PlatformInfo>, allocatorOk: bool,
                      allocs: seq<Option<BufSurface>>) returns (r: int)
      requires Valid() && blockCount <= |allocs|
      modifies this
      ensures Valid()
      ensures r == 0 || r == -1
      ensures r == 0 <==> params.Some? && blockCount != 0 &&
                          PoolCreatable(params.value, blockCount, service.ce3226, platform, allocatorOk, allocs)
      ensures r == 0 ==>
        pool.Some? && fresh(pool.value) && !stopped && pool.value.created && pool.value.allocCount == 0
      ensures r == -1 ==> pool == old(pool) && stopped == old(stopped)
    {
      var rc, created, written := service.BufPoolCreate(true, params, blockCount, addr, platform,
                                                        allocatorOk, allocs);
      if rc != 0 {
        return -1;
      }
      pool := created;
      stopped := false;
      return 0;
    }

    /** DestroyPool: idempotent once stopped; otherwise it stops the pool
        and tries to destroy it, retrying failures with back-off until the
        budget of timeout_ms + 1 is used up. A pool with surfaces still out
        makes the call wait (the attempt reports Waiting). `teardownOks`
        says per attempt whether the allocator's teardown succeeds. This is
        the retry the code evidently intends; DestroyPoolAsWritten is the
        loop as it stands. */
    method DestroyPool(timeoutMs: int, teardownOks: seq<bool>) returns (result: DestroyOutcome, attempts: nat)
      requires Valid()
      requires |teardownOks| >= Retries(timeoutMs + 1, 1)
      modifies this`stopped, if pool.Some? then {pool.value} else {}
      ensures Valid() && stopped
      ensures old(stopped) || pool.None? ==> attempts == 0
      ensures !old(stopped) && pool.Some? ==> 1 <= attempts <= Retries(timeoutMs + 1, 1)
      ensures result == Done(0) ==> pool.Some? && !pool.value.created
      ensures result == Done(-1) && !old(stopped) && pool.Some? ==> attempts == Retries(timeoutMs + 1, 1)
      ensures (!old(stopped) && pool.Some? && old(pool.value.created) &&
               (pool.value.isVbPool || old(pool.value.allocCount) == 0)) ==>
        ((result == Done(0) && teardownOks[attempts - 1]) ||
         (result == Done(-1) && forall k :: 0 <= k < attempts ==> !teardownOks[k]))
    {
      if stopped {
        return Done(-1), 0;
      }
      stopped := true;
      if pool.None? {
        return Done(-1), 0;
      }
      ghost var vb := pool.value.isVbPool;
      ghost var ready := pool.value.created && (vb || pool.value.allocCount == 0);
      var count := timeoutMs + 1;
      var step: nat := 1;
      attempts := 0;
      while true
        invariant Valid() && stopped && pool.Some?
        invariant step >= 1
        invariant attempts + Retries(count, step) == Retries(timeoutMs + 1, 1)
        invariant pool.value.isVbPool == vb
        invariant ready ==>
          (pool.value.created && (vb || pool.value.allocCount == 0) &&
           forall k :: 0 <= k < attempts ==> !teardownOks[k])
        decreases if count > 0 then count else 0
      {
        var ret := service.BufPoolDestroy(pool, teardownOks[attempts]);
        assert ready ==> ret == Done(if teardownOks[attempts] then 0 else -1);
        attempts := attempts + 1;
        if ret == Done(0) || ret == Waiting {
          return ret, attempts;
        }
        assert ready ==> !teardownOks[attempts - 1];
        count := count - step;
        if count <= 0 {
          return Done(-1), attempts;
        }
        step := Min(2 * step, 10);
      }
    }

    /** DestroyPool as written: the retry loop's body ends in a `return`
        that is reached after the first failed attempt too, so the pool is
        destroyed at most once whatever the time-out. */
    method DestroyPoolAsWritten(timeoutMs: int, teardownOk: bool) returns (result: DestroyOutcome, attempts: nat)
      requires Valid()
      modifies this`stopped, if pool.Some? then {pool.value} else {}
      ensures Valid() && stopped
      ensures old(stopped) || pool.None? ==> result == Done(-1) && attempts == 0
      ensures !old(stopped) && pool.Some? ==> attempts == 1
      ensures (!old(stopped) && pool.Some? && old(pool.value.created) &&
               (pool.value.isVbPool || old(pool.value.allocCount) == 0)) ==>
        result == Done(if teardownOk then 0 else -1)
    {
      if stopped {
        return Done(-1), 0;
      }
      stopped := true;
      if pool.None? {
        return Done(-1), 0;
      }
      var ret := service.BufPoolDestroy(pool, teardownOk);
      return ret, 1;
    }

    /** GetBufSurfaceWrapper: nothing without a pool or once stopped;
        otherwise it asks the pool for a surface, retrying with back-off,
        and wraps the first one it gets (the wrapper owns it). */
    method GetBufSurfaceWrapper(timeoutMs: int, tries: seq<Attempt>)
      returns (w: Option<BufSurfaceWrapper>, attempts: nat)
      requires Valid()
      requires |tries| >= Retries(timeoutMs + 1, 1)
      requires forall k :: 0 <= k < |tries| && tries[k].heap.Some? ==>
        tries[k].heap.value >= K_SURFS_NUM && tries[k].heap.value !in service.records
      modifies service, if pool.Some? then {pool.value} else {}
      ensures Valid()
      ensures pool.None? || stopped ==> w.None? && attempts == 0
      ensures attempts <= Retries(timeoutMs + 1, 1)
      ensures w.None? ==> service.records == old(service.records)
      ensures w.None? && pool.Some? && !stopped ==> attempts == Retries(timeoutMs + 1, 1)
      ensures w.Some? ==>
        fresh(w.value) && w.value.service == service && w.value.owner && w.value.surf.Some? &&
        w.value.Live() && w.value.surf.value !in old(service.records) &&
        service.records == old(service.records)[w.value.surf.value := w.value.Record()] &&
        w.value.Record().owner == Some(pool.value.self)
    {
      attempts := 0;
      if pool.None? {
        return None, 0;
      }
      var count := timeoutMs + 1;
      var step: nat := 1;
      while true
        invariant Valid() && pool.Some?
        invariant step >= 1
        invariant attempts + Retries(count, step) == Retries(timeoutMs + 1, 1)
        invariant service.records == old(service.records)
        invariant stopped ==> attempts == 0
        decreases if count > 0 then count else 0
      {
        if stopped {
          return None, attempts;
        }
        var t := tries[attempts];
        var r, handle := service.CreateFromPool(true, pool, t.vbSurface, t.slotsOk, t.heap);
        attempts := attempts + 1;
        if r == 0 {
          var wrapper := new BufSurfaceWrapper(service, handle, true);
          return Some(wrapper), attempts;
        }
        count := count - step;
        if count <= 0 {
          return None, attempts;
        }
        step := Min(2 * step, 10);
      }
    }
  }

  /** A pool whose creation fails (batch size 0) stays referenced as
      written, so a later GetBufSurfaceWrapper or the destructor would reach
      a deleted MemPool; with the corrected CreatePool nothing is stored and
      the wrapper request is refused. */
  method FailedCreateLeavesDanglingPool(platform: Option<PlatformInfo>, surf: BufSurface)
    returns (asWritten: BufPool, corrected: BufPool)
    ensures asWritten.pool.Some? && asWritten.dangling && !asWritten.stopped
    ensures corrected.pool.None? && !corrected.dangling
  {
    var params := CreateParams(MEM_SYSTEM, 0, 16, 16, FMT_NV12, 0, 0);
    var service := new SurfaceService(false);
    asWritten := new BufPool(service);
    var r1 := asWritten.CreatePoolAsWritten(Some(params), 1, 1, platform, true, [Some(surf)]);
    corrected := new BufPool(service);
    var r2 := corrected.CreatePool(Some(params), 1, 2, platform, true, [Some(surf)]);
  }

  /** A device pool whose allocator teardown fails once: as written
      DestroyPool gives up after that failure and leaves the pool alive,
      while the retrying DestroyPool destroys it on the second attempt. */
  method FailedTeardownIsNotRetried(info: PlatformInfo, surf: BufSurface)
    returns (asWritten: DestroyOutcome, corrected: DestroyOutcome)
    ensures asWritten == Done(-1) && corrected == Done(0)
  {
    var params := CreateParams(MEM_DEVICE, 0, 16, 16, FMT_NV12, 0, 1);
    var service := new SurfaceService(false);
    var first := new BufPool(service);
    var r1 := first.CreatePool(Some(params), 1, 1, Some(info), true, [Some(surf)]);
    assert FirstFailure([Some(surf)], 1) == 1;
    assert r1 == 0;
    var n;
    asWritten, n := first.DestroyPoolAsWritten(1, false);
    var second := new BufPool(service);
    var r2 := second.CreatePool(Some(params), 1, 2, Some(info), true, [Some(surf)]);
    assert r2 == 0;
    assert Retries(2, 1) == 2;
    var oks := [false, true];
    corrected, n := second.DestroyPool(1, oks);
    assert oks[1];
  }
}
