// The inference server's Buffer and MluMemoryPool
// (infer_server/src/core/buffer.cpp, infer_server/include/buffer.h).
// A Buffer is a view (type, size, offset) onto a block of host or device
// memory that is shared between the views made from it and allocated
// lazily on first write. The pool hands out device blocks up to a maximum
// count and takes them back when their buffers are released.
module InferBuffer {
  import opened Common

  datatype MemoryType = CPU | MLU

  /** The edk::Exception codes the buffer code throws. */
  datatype BufferError = InvalidArg | Unavailable | MemoryError | Timeout

  /** The memory record (detail::CpuMemory / detail::MluMemory) shared by
      every view of one buffer; `data` is None while the pointer is null. */
  class Memory {
    const size: nat
    var data: Option<seq<Byte>>

    predicate Valid()
      reads this
    {
      data.Some? ==> |data.value| == size
    }

    constructor (size: nat, data: Option<seq<Byte>>)
      requires data.Some? ==> |data.value| == size
      ensures Valid() && this.size == size && this.data == data
    {
      this.size := size;
      this.data := data;
    }
  }

  /** The bytes a block holds once LazyMalloc has run on it (fresh memory
      is indeterminate in C; the model fills it with zeros). */
  function Allocated(data: Option<seq<Byte>>, size: nat): (b: seq<Byte>)
    requires data.Some? ==> |data.value| == size
    ensures |b| == size
    ensures data.Some? ==> b == data.value
  {
    if data.Some? then data.value else Zeros(size)
  }

  class Buffer {
    const mem: Memory
    const memType: MemoryType
    const memorySize: nat
    const offset: nat
    const deviceId: int

    predicate Valid()
      reads this, mem
    {
      mem.Valid() && mem.size == memorySize && (offset == 0 || offset < memorySize)
    }

    constructor Make(mem: Memory, memType: MemoryType, offset: nat, deviceId: int)
      requires mem.Valid() && (offset == 0 || offset < mem.size)
      ensures Valid()
      ensures this.mem == mem && this.memType == memType && memorySize == mem.size
      ensures this.offset == offset && this.deviceId == deviceId
    {
      this.mem := mem;
      this.memType := memType;
      memorySize := mem.size;
      this.offset := offset;
      this.deviceId := deviceId;
    }

    /** MemorySize: the bytes from this view's offset to the block's end. */
    function MemorySize(): (n: nat)
      reads this, mem
      requires Valid()
      ensures offset + n == memorySize
    {
      memorySize - offset
    }

    /** OwnMemory: true iff the shared data pointer is non-null. */
    predicate OwnMemory()
      reads this, mem
    {
      mem.data.Some?
    }

    /** operator()(off): a view sharing the same memory, `off` bytes further
        on; the combined offset must stay below the block size. */
    method View(off: nat) returns (b: Buffer)
      requires Valid()
      requires off + offset < memorySize
      ensures fresh(b) && b.Valid()
      ensures b.mem == mem && b.memType == memType && b.memorySize == memorySize && b.deviceId == deviceId
      ensures b.offset == offset + off
      ensures b.MemorySize() == MemorySize() - off
    {
      b := new Buffer.Make(mem, memType, offset + off, deviceId);
    }

    /** LazyMalloc: allocates the block on first use (malloc or cnrtMalloc,
        whose success is `mallocOk`); a block already present is kept. A
        zero-sized buffer is a fatal CHECK. */
    method LazyMalloc(mallocOk: bool) returns (err: Option<BufferError>)
      requires Valid() && memorySize > 0
      modifies mem
      ensures Valid()
      ensures old(mem.data).Some? ==> err == None && mem.data == old(mem.data)
      ensures old(mem.data).None? && mallocOk ==> err == None && mem.data == Some(Zeros(memorySize))
      ensures old(mem.data).None? && !mallocOk ==> err == Some(MemoryError) && mem.data == None
    {
      if mem.data.None? {
        if !mallocOk {
          return Some(MemoryError);
        }
        mem.data := Some(Zeros(memorySize));
      }
      return None;
    }

    /** MutableData: allocates if needed and gives the position of this
        view inside the block. */
    method MutableData(mallocOk: bool) returns (r: Result<nat, BufferError>)
      requires Valid() && memorySize > 0
      modifies mem
      ensures Valid()
      ensures r.Ok? <==> old(mem.data).Some? || mallocOk
      ensures r.Ok? ==> r.value == offset && mem.data == Some(Allocated(old(mem.data), memorySize))
      ensures r.Err? ==> r.error == MemoryError && mem.data == old(mem.data)
    {
      var err := LazyMalloc(mallocOk);
      if err.Some? {
        return Err(err.value);
      }
      return Ok(offset);
    }

    /** Data as written: the test `!cpu_ && !cpu_->data` is false for every
        buffer whose memory record exists, so an unallocated buffer yields
        the null pointer plus its offset instead of the "buffer not
        initialized" exception. The pair is (pointer non-null, offset). */
    function DataAsWritten(): (r: Result<(bool, nat), BufferError>)
      reads this, mem
      ensures r.Ok? && r.value == (OwnMemory(), offset)
    {
      Ok((mem.data.Some?, offset))
    }

    /** Data with the evidently intended `||`: an unallocated buffer throws
        MEMORY, an allocated one gives its position. */
    function Data(): (r: Result<nat, BufferError>)
      reads this, mem
      ensures r.Ok? <==> OwnMemory()
      ensures r.Ok? ==> r.value == offset
      ensures r.Err? ==> r.error == MemoryError
    {
      if mem.data.None? then Err(MemoryError) else Ok(offset)
    }

    /** CopyFrom(cpu_src, n): n must fit after the offset and the source
        must be non-null; then the block is allocated and the n source bytes
        are written at the offset (a device copy can fail). */
    method CopyFromHost(src: Option<seq<Byte>>, n: nat, mallocOk: bool, copyOk: bool)
      returns (err: Option<BufferError>)
      requires Valid() && memorySize > 0
      requires src.Some? ==> |src.value| >= n
      modifies mem
      ensures Valid()
      ensures MemorySize() < n ==> err == Some(InvalidArg) && mem.data == old(mem.data)
      ensures MemorySize() >= n && src.None? ==> err == Some(InvalidArg) && mem.data == old(mem.data)
      ensures MemorySize() >= n && src.Some? && old(mem.data).None? && !mallocOk ==>
        err == Some(MemoryError) && mem.data == None
      ensures MemorySize() >= n && src.Some? && (old(mem.data).Some? || mallocOk) ==>
        (memType == MLU && !copyOk ==>
          err == Some(MemoryError) && mem.data == Some(Allocated(old(mem.data), memorySize))) &&
        (memType == CPU || copyOk ==>
          err == None && mem.data == Some(Splice(Allocated(old(mem.data), memorySize), offset, src.value[..n])))
    {
      if MemorySize() < n {
        return Some(InvalidArg);
      }
      if src.None? {
        return Some(InvalidArg);
      }
      err := LazyMalloc(mallocOk);
      if err.Some? {
        return;
      }
      if memType == MLU && !copyOk {
        return Some(MemoryError);
      }
      mem.data := Some(Splice(mem.data.value, offset, src.value[..n]));
    }

    /** CopyTo(cpu_dst, n): n must fit and the destination be non-null; a
        buffer owning no data throws MEMORY; otherwise the n bytes at the
        offset are read (a device copy can fail). */
    method CopyToHost(hasDst: bool, n: nat, copyOk: bool) returns (r: Result<seq<Byte>, BufferError>)
      requires Valid()
      ensures MemorySize() < n ==> r == Err(InvalidArg)
      ensures MemorySize() >= n && !hasDst ==> r == Err(InvalidArg)
      ensures MemorySize() >= n && hasDst && !OwnMemory() ==> r == Err(MemoryError)
      ensures MemorySize() >= n && hasDst && OwnMemory() ==>
        (memType == MLU && !copyOk ==> r == Err(MemoryError)) &&
        (memType == CPU || copyOk ==> r == Ok(mem.data.value[offset..offset + n]))
    {
      if MemorySize() < n {
        return Err(InvalidArg);
      }
      if !hasDst {
        return Err(InvalidArg);
      }
      if mem.data.None? {
        return Err(MemoryError);
      }
      if memType == MLU && !copyOk {
        return Err(MemoryError);
      }
      return Ok(mem.data.value[offset..offset + n]);
    }

    /** CopyFrom(src, n): both views must hold n bytes; this block is
        allocated, then src.Data() is read (with the corrected check, an
        unallocated source throws MEMORY) and its n bytes are written here.
        Only a host-to-host copy cannot fail. When both views share one
        block, the allocation above also makes the source readable. */
    method CopyFromBuffer(src: Buffer, n: nat, mallocOk: bool, copyOk: bool)
      returns (err: Option<BufferError>)
      requires Valid() && src.Valid() && memorySize > 0
      modifies mem
      ensures Valid() && src.Valid()
      ensures src.MemorySize() < n ==> err == Some(InvalidArg) && mem.data == old(mem.data)
      ensures src.MemorySize() >= n && MemorySize() < n ==> err == Some(InvalidArg) && mem.data == old(mem.data)
      ensures src.MemorySize() >= n && MemorySize() >= n && old(mem.data).None? && !mallocOk ==>
        err == Some(MemoryError) && mem.data == None
      ensures src.MemorySize() >= n && MemorySize() >= n && (old(mem.data).Some? || mallocOk) ==>
        var here := Allocated(old(mem.data), memorySize);
        var there := if src.mem == mem then Some(here) else old(src.mem.data);
        (there.None? ==> err == Some(MemoryError) && mem.data == Some(here)) &&
        (there.Some? && memType == CPU && src.memType == CPU ==>
          err == None && mem.data == Some(Splice(here, offset, there.value[src.offset..src.offset + n]))) &&
        (there.Some? && (memType == MLU || src.memType == MLU) ==>
          (copyOk ==> err == None && mem.data == Some(Splice(here, offset, there.value[src.offset..src.offset + n]))) &&
          (!copyOk ==> err == Some(MemoryError) && mem.data == Some(here)))
    {
      if src.MemorySize() < n {
        return Some(InvalidArg);
      }
      if MemorySize() < n {
        return Some(InvalidArg);
      }
      err := LazyMalloc(mallocOk);
      if err.Some? {
        return;
      }
      var at := src.Data();
      if at.Err? {
        return Some(at.error);
      }
      var bytes := src.mem.data.value[src.offset..src.offset + n];
      if !(memType == CPU && src.memType == CPU) && !copyOk {
        return Some(MemoryError);
      }
      mem.data := Some(Splice(mem.data.value, offset, bytes));
    }
  }

  /** The discrepancy: for a buffer that has not been allocated, Data as
      written returns (a null pointer plus offset) where the intended check
      throws MEMORY. */
  lemma DataOfUnallocatedBuffer(b: Buffer)
    requires !b.OwnMemory()
    ensures b.DataAsWritten() == Ok((false, b.offset))
    ensures b.Data() == Err(MemoryError)
  {
  }

  /** Buffer(memory_size, device_id): an empty MLU buffer; size 0 throws
      INVALID_ARG and an unknown device UNAVAILABLE. */
  method NewMluBuffer(size: nat, deviceId: int, deviceExists: bool) returns (r: Result<Buffer, BufferError>)
    ensures size == 0 ==> r == Err(InvalidArg)
    ensures size > 0 && !deviceExists ==> r == Err(Unavailable)
    ensures size > 0 && deviceExists ==>
      r.Ok? && fresh(r.value) && fresh(r.value.mem) &&
      r.value.Valid() && r.value.memType == MLU && r.value.memorySize == size &&
      r.value.offset == 0 && !r.value.OwnMemory()
  {
    if size == 0 {
      return Err(InvalidArg);
    }
    if !deviceExists {
      return Err(Unavailable);
    }
    var m := new Memory(size, None);
    var b := new Buffer.Make(m, MLU, 0, deviceId);
    return Ok(b);
  }

  /** Buffer(memory_size): an empty host buffer, with no argument check. */
  method NewCpuBuffer(size: nat) returns (b: Buffer)
    ensures fresh(b) && fresh(b.mem) && b.Valid()
    ensures b.memType == CPU && b.memorySize == size && b.offset == 0 && !b.OwnMemory()
  {
    var m := new Memory(size, None);
    b := new Buffer.Make(m, CPU, 0, -1);
  }

  /** Writing n bytes at a view and reading n bytes back gives the same
      bytes, and the rest of the block keeps its contents. */
  lemma CopyRoundTrip(block: seq<Byte>, at: nat, src: seq<Byte>)
    requires at + |src| <= |block|
    ensures Splice(block, at, src)[at..at + |src|] == src
    ensures Splice(block, at, src)[..at] == block[..at]
    ensures Splice(block, at, src)[at + |src|..] == block[at + |src|..]
  {
    var r := Splice(block, at, src);
    assert r == block[..at] + src + block[at + |src|..];
  }

  // ---------------------------------------------------------------------
  // MluMemoryPool

  /** A pool of device blocks, named 0, 1, 2, ... in allocation order. */
  class MluMemoryPool {
    const memorySize: nat
    const maxBufferNum: nat
    var bufferNum: nat
    /** The idle blocks, in the order Request hands them out. */
    var cache: seq<nat>
    var running: bool
    /** The blocks currently held by buffers. */
    ghost var lent: set<nat>

    ghost predicate Valid()
      reads this
    {
      memorySize > 0 && maxBufferNum > 0 &&
      bufferNum <= maxBufferNum &&
      (forall i, j :: 0 <= i < j < |cache| ==> cache[i] != cache[j]) &&
      (forall i :: 0 <= i < |cache| ==> cache[i] < bufferNum && cache[i] !in lent) &&
      (forall b :: b in lent ==> b < bufferNum) &&
      (forall b :: 0 <= b < bufferNum ==> b in lent || b in cache)
    }

    constructor Make(memorySize: nat, maxBufferNum: nat)
      requires memorySize > 0 && maxBufferNum > 0
      ensures Valid() && running
      ensures this.memorySize == memorySize && this.maxBufferNum == maxBufferNum
      ensures bufferNum == 0 && cache == [] && lent == {}
    {
      this.memorySize := memorySize;
      this.maxBufferNum := maxBufferNum;
      bufferNum := 0;
      cache := [];
      running := true;
      lent := {};
    }

    /** Request: a stopped pool throws UNAVAILABLE. With no idle block a new
        one is allocated while fewer than max_buffer_num exist (a failed
        cnrtMalloc throws MEMORY); otherwise the wait ends with no block (no
        other thread releases one in this model) and TIMEOUT is thrown. The
        front idle block is handed out. */
    method Request(mallocOk: bool) returns (r: Result<nat, BufferError>)
      requires Valid()
      modifies this
      ensures Valid()
      ensures running == old(running)
      ensures !old(running) ==> r == Err(Unavailable) && cache == old(cache) && bufferNum == old(bufferNum)
      ensures old(running) && old(cache) != [] ==>
        r == Ok(old(cache)[0]) && cache == old(cache)[1..] && bufferNum == old(bufferNum) &&
        lent == old(lent) + {old(cache)[0]}
      ensures old(running) && old(cache) == [] && old(bufferNum) < maxBufferNum && mallocOk ==>
        r == Ok(old(bufferNum)) && cache == [] && bufferNum == old(bufferNum) + 1 &&
        lent == old(lent) + {old(bufferNum)}
      ensures old(running) && old(cache) == [] && old(bufferNum) < maxBufferNum && !mallocOk ==>
        r == Err(MemoryError) && cache == [] && bufferNum == old(bufferNum) && lent == old(lent)
      ensures old(running) && old(cache) == [] && old(bufferNum) == maxBufferNum ==>
        r == Err(Timeout) && cache == [] && bufferNum == old(bufferNum) && lent == old(lent)
    {
      if !running {
        return Err(Unavailable);
      }
      if cache == [] {
        if bufferNum < maxBufferNum {
          if !mallocOk {
            return Err(MemoryError);
          }
          cache := cache + [bufferNum];
          bufferNum := bufferNum + 1;
        }
      }
      if cache == [] {
        return Err(Timeout);
      }
      var m := cache[0];
      cache := cache[1..];
      lent := lent + {m};
      r := Ok(m);
    }

    /** The deallocator of a handed-out buffer: the block goes back to the
        idle queue. */
    method Release(block: nat)
      requires Valid() && block in lent
      modifies this
      ensures Valid()
      ensures cache == old(cache) + [block] && lent == old(lent) - {block}
      ensures bufferNum == old(bufferNum) && running == old(running)
    {
      cache := cache + [block];
      lent := lent - {block};
    }
  }

  /** MluMemoryPool(memory_size, max_buffer_num, device_id): a zero size or
      count throws INVALID_ARG, an unknown device UNAVAILABLE. */
  method NewMluMemoryPool(memorySize: nat, maxBufferNum: nat, deviceExists: bool)
    returns (r: Result<MluMemoryPool, BufferError>)
    ensures memorySize == 0 || maxBufferNum == 0 ==> r == Err(InvalidArg)
    ensures memorySize > 0 && maxBufferNum > 0 && !deviceExists ==> r == Err(Unavailable)
    ensures memorySize > 0 && maxBufferNum > 0 && deviceExists ==>
      r.Ok? && fresh(r.value) && r.value.Valid() && r.value.running &&
      r.value.bufferNum == 0 && r.value.maxBufferNum == maxBufferNum
  {
    if memorySize == 0 || maxBufferNum == 0 {
      return Err(InvalidArg);
    }
    if !deviceExists {
      return Err(Unavailable);
    }
    var p := new MluMemoryPool.Make(memorySize, maxBufferNum);
    return Ok(p);
  }

  /** Every block is either idle or lent, so idle + lent = allocated and
      the allocated count never passes max_buffer_num. */
  lemma PoolAccounting(cache: seq<nat>, lent: set<nat>, bufferNum: nat, maxBufferNum: nat)
    requires bufferNum <= maxBufferNum
    requires forall i, j :: 0 <= i < j < |cache| ==> cache[i] != cache[j]
    requires forall i :: 0 <= i < |cache| ==> cache[i] < bufferNum && cache[i] !in lent
    requires forall b :: b in lent ==> b < bufferNum
    requires forall b :: 0 <= b < bufferNum ==> b in lent || b in cache
    ensures |cache| + |lent| == bufferNum <= maxBufferNum
  {
    PartitionCount(cache, lent, bufferNum);
  }
}
