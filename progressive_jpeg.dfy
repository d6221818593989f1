// The progressive-JPEG side path of the video decoder
// (src/easycodec/progressive_jpeg.cpp, src/easycodec/easy_decode.cpp): a
// scan of the JPEG marker segments (ITU-T T.81, Annex B, Table B.1) for a
// progressive frame header, and the id pool of the software decoder's
// output buffers.
module ProgressiveJpeg {
  import opened Common

  /** SOI, the start-of-image marker every JPEG stream begins with. */
  const SOI: nat := 0xFFD8
  /** SOF2 and SOF10: progressive DCT frames, Huffman and arithmetic coded. */
  const SOF2: nat := 0xFFC2
  const SOF10: nat := 0xFFCA

  /** The big-endian 16-bit value at `k`. */
  function Word(data: seq<Byte>, k: nat): (w: nat)
    requires k + 1 < |data|
    ensures w < 0x1_0000
  {
    (data[k] as int) * 256 + data[k + 1] as int
  }

  predicate IsProgressiveMarker(data: seq<Byte>, k: nat)
    requires k + 1 < |data|
  {
    Word(data, k) == SOF2 || Word(data, k) == SOF10
  }

  /** The scan from segment position `i`, reading only inside the data: 1
      at the first progressive frame marker, otherwise the segment is
      skipped (its marker plus its length field's value); 0 when the data
      ends, including in the middle of a marker or a length field. */
  function ScanFrom(data: seq<Byte>, i: nat): (r: int)
    ensures r == 0 || r == 1
    decreases |data| - i
  {
    if i + 1 >= |data| then 0
    else if IsProgressiveMarker(data, i) then 1
    else if i + 3 >= |data| then 0
    else ScanFrom(data, i + 2 + Word(data, i + 2))
  }

  /** CheckProgressiveMode with its reads kept inside the data: -1 when the
      data does not start with SOI, 1 for a progressive image, 0
      otherwise. */
  function ProgressiveMode(data: seq<Byte>): (r: int)
    ensures r == -1 <==> |data| < 2 || Word(data, 0) != SOI
  {
    if |data| < 2 || Word(data, 0) != SOI then -1 else ScanFrom(data, 2)
  }

  /** The marker positions the scan visits from `i`: each segment start
      with a whole marker in the data, up to the first one whose length
      field is cut off. */
  function Walk(data: seq<Byte>, i: nat): (w: seq<nat>)
    ensures forall k :: 0 <= k < |w| ==> i <= w[k] && w[k] + 1 < |data|
    decreases |data| - i
  {
    if i + 1 >= |data| then []
    else if i + 3 >= |data| then [i]
    else [i] + Walk(data, i + 2 + Word(data, i + 2))
  }

  /** The scan reports a progressive image exactly when one of the
      segments on the walk starts with a progressive frame marker. */
  lemma ScanFindsProgressiveMarker(data: seq<Byte>, i: nat)
    ensures ScanFrom(data, i) == 1 <==>
      exists k :: 0 <= k < |Walk(data, i)| && IsProgressiveMarker(data, Walk(data, i)[k])
  {
    if ScanFrom(data, i) == 1 {
      ScanHitIsOnWalk(data, i);
    }
    if exists k :: 0 <= k < |Walk(data, i)| && IsProgressiveMarker(data, Walk(data, i)[k]) {
      var k :| 0 <= k < |Walk(data, i)| && IsProgressiveMarker(data, Walk(data, i)[k]);
      WalkHitIsFound(data, i, k);
    }
  }

  lemma {:induction false} ScanHitIsOnWalk(data: seq<Byte>, i: nat)
    requires ScanFrom(data, i) == 1
    ensures exists k :: 0 <= k < |Walk(data, i)| && IsProgressiveMarker(data, Walk(data, i)[k])
    decreases |data| - i
  {
    assert i + 1 < |data|;
    if IsProgressiveMarker(data, i) {
      assert Walk(data, i)[0] == i;
    } else {
      var next := i + 2 + Word(data, i + 2);
      ScanHitIsOnWalk(data, next);
      var k :| 0 <= k < |Walk(data, next)| && IsProgressiveMarker(data, Walk(data, next)[k]);
      assert Walk(data, i)[k + 1] == Walk(data, next)[k];
    }
  }

  lemma {:induction false} WalkHitIsFound(data: seq<Byte>, i: nat, k: nat)
    requires k < |Walk(data, i)| && IsProgressiveMarker(data, Walk(data, i)[k])
    ensures ScanFrom(data, i) == 1
    decreases k
  {
    if !IsProgressiveMarker(data, i) {
      assert i + 3 < |data| && k > 0;
      var next := i + 2 + Word(data, i + 2);
      assert Walk(data, i)[k] == Walk(data, next)[k - 1];
      WalkHitIsFound(data, next, k - 1);
    }
  }

  /** CheckProgressiveMode: walks the segments from just after SOI. */
  method CheckProgressiveMode(data: seq<Byte>) returns (r: int)
    ensures r == ProgressiveMode(data)
  {
    if |data| < 2 || (data[0] as int) * 256 + data[1] as int != SOI {
      return -1;
    }
    var i := 2;
    while i < |data|
      invariant ScanFrom(data, i) == ScanFrom(data, 2)
      decreases |data| - i
    {
      if i + 1 >= |data| {
        return 0;
      }
      var segHeader := (data[i] as int) * 256 + data[i + 1] as int;
      if segHeader == SOF2 || segHeader == SOF10 {
        return 1;
      }
      if i + 3 >= |data| {
        return 0;
      }
      var step := (data[i + 2] as int) * 256 + data[i + 3] as int;
      i := i + 2 + step;
    }
    return 0;
  }

  /** What the unchecked scan does: a result, or a read at `index`, the
      last byte it reads, past the end of the data. */
  datatype ScanOutcome = Mode(m: int) | ReadsPast(index: nat)

  /** The scan as written, which reads the two marker bytes and the two
      length bytes without comparing their positions with the length. */
  function ScanFromAsWritten(data: seq<Byte>, i: nat): (r: ScanOutcome)
    ensures r.ReadsPast? ==> r.index >= |data|
    decreases |data| - i
  {
    if i >= |data| then Mode(0)
    else if i + 1 >= |data| then ReadsPast(i + 1)
    else if IsProgressiveMarker(data, i) then Mode(1)
    else if i + 3 >= |data| then ReadsPast(i + 3)
    else ScanFromAsWritten(data, i + 2 + Word(data, i + 2))
  }

  function ProgressiveModeAsWritten(data: seq<Byte>): (r: ScanOutcome)
    requires |data| > 0
  {
    if |data| < 2 then ReadsPast(1)
    else if Word(data, 0) != SOI then Mode(-1)
    else ScanFromAsWritten(data, 2)
  }

  /** Where the unchecked scan stays inside the data it computes the
      bounded scan's result; where it reads past the end, the bounded scan
      answers "not progressive" (or "not a JPEG" for a one-byte input). */
  lemma {:induction false} AsWrittenAgreesInBounds(data: seq<Byte>, i: nat)
    ensures ScanFromAsWritten(data, i).Mode? ==> ScanFromAsWritten(data, i).m == ScanFrom(data, i)
    ensures ScanFromAsWritten(data, i).ReadsPast? ==> ScanFrom(data, i) == 0
    decreases |data| - i
  {
    if i + 3 < |data| && !IsProgressiveMarker(data, i) {
      AsWrittenAgreesInBounds(data, i + 2 + Word(data, i + 2));
    }
  }

  /** A stream of SOI followed by a single 0xFF byte: the unchecked scan
      reads the byte at index 3 of a 3-byte buffer, the bounded one
      reports a non-progressive JPEG. */
  lemma TruncatedMarkerReadsPastEnd()
    ensures ProgressiveModeAsWritten([0xFF, 0xD8, 0xFF]) == ReadsPast(3)
    ensures ProgressiveMode([0xFF, 0xD8, 0xFF]) == 0
  {
    var data: seq<Byte> := [0xFF, 0xD8, 0xFF];
    assert Word(data, 0) == SOI;
  }

  /** A baseline image with one APP0 segment and a progressive one with a
      SOF2 header right after SOI. */
  lemma ScanExamples()
    ensures ProgressiveMode([0xFF, 0xD8, 0xFF, 0xE0, 0x00, 0x02]) == 0
    ensures ProgressiveMode([0xFF, 0xD8, 0xFF, 0xC2, 0x00, 0x02]) == 1
    ensures ProgressiveMode([0x00, 0xD8]) == -1
  {
    var a: seq<Byte> := [0xFF, 0xD8, 0xFF, 0xE0, 0x00, 0x02];
    assert Word(a, 0) == SOI && Word(a, 2) == 0xFFE0 && Word(a, 4) == 2;
    assert ScanFrom(a, 6) == 0;
    var b: seq<Byte> := [0xFF, 0xD8, 0xFF, 0xC2, 0x00, 0x02];
    assert Word(b, 0) == SOI && Word(b, 2) == SOF2;
    var c: seq<Byte> := [0x00, 0xD8];
    assert Word(c, 0) == 0xD8;
  }

  /** The decoder a packet goes to. */
  datatype FeedTarget = Refused | SoftwareJpeg | Hardware

  /** EasyDecode::FeedData's routing: nothing is fed unless the decoder is
      running and the packet has data; a progressive JPEG goes to the
      software decoder when one can be created (`softwareAvailable`), all
      else to the hardware decoder. */
  function RouteFeed(running: bool, packet: Option<seq<Byte>>, softwareAvailable: bool): (t: FeedTarget)
    ensures t == Refused <==> !running || packet.None? || |packet.value| == 0
    ensures t == SoftwareJpeg <==>
      running && packet.Some? && |packet.value| > 0 && ProgressiveMode(packet.value) == 1 && softwareAvailable
  {
    if !running then Refused
    else if packet.None? || |packet.value| == 0 then Refused
    else if ProgressiveMode(packet.value) == 1 && softwareAvailable then SoftwareJpeg
    else Hardware
  }

  /** The software decoder's output buffers: `pool` holds the ids that
      have memory behind them, `free` the queue of ids ready for use. */
  class OutputBuffers {
    var pool: set<nat>
    var free: seq<nat>

    ghost predicate Valid()
      reads this
    {
      forall k :: 0 <= k < |free| ==> free[k] in pool
    }

    /** The constructor numbers the n buffers n, n+1, ..., 2n-1 and queues
        them all. */
    constructor (n: nat)
      ensures Valid()
      ensures pool == set k | k in Below(2 * n) && n <= k
      ensures |free| == n && forall k :: 0 <= k < n ==> free[k] == n + k
    {
      pool := set k | k in Below(2 * n) && n <= k;
      free := seq(n, k requires 0 <= k < n => n + k);
    }

    /** ReleaseBuffer: a known id goes back to the queue; an unknown id is
        refused. */
    method ReleaseBuffer(id: nat) returns (ok: bool)
      requires Valid()
      modifies this`free
      ensures Valid()
      ensures ok <==> id in pool
      ensures free == if ok then old(free) + [id] else old(free)
    {
      if id in pool {
        free := free + [id];
        return true;
      }
      return false;
    }

    /** Taking a buffer for a decoded frame as written: the result of the
        queue pop is ignored, so with an empty queue the id is whatever the
        variable held (`stale`), and looking it up adds it to the pool
        without memory. */
    method AcquireAsWritten(stale: nat) returns (id: nat, hasMemory: bool)
      modifies this
      ensures old(free) != [] ==> id == old(free)[0] && free == old(free)[1..] && hasMemory == (id in old(pool))
      ensures old(free) == [] ==> id == stale && free == [] && hasMemory == (stale in old(pool))
      ensures pool == old(pool) + {id}
    {
      if |free| > 0 {
        id := free[0];
        free := free[1..];
      } else {
        id := stale;
      }
      hasMemory := id in pool;
      pool := pool + {id};
    }

    /** Taking a buffer for a decoded frame: the front of the queue, or
        none when every buffer is in use. */
    method Acquire() returns (id: Option<nat>)
      requires Valid()
      modifies this`free
      ensures Valid()
      ensures old(free) == [] ==> id.None? && free == []
      ensures old(free) != [] ==> id == Some(old(free)[0]) && free == old(free)[1..] && id.value in pool
    {
      if |free| == 0 {
        return None;
      }
      id := Some(free[0]);
      free := free[1..];
    }
  }

  /** A decoder with one output buffer receiving two frames before any is
      released: as written the second frame gets an id with no memory,
      which ReleaseBuffer then accepts; corrected, the second frame finds
      no buffer. */
  method SecondFrameWithoutBuffer() returns (asWrittenMemory: bool, asWrittenRelease: bool, corrected: Option<nat>)
    ensures !asWrittenMemory && asWrittenRelease
    ensures corrected.None?
  {
    var written := new OutputBuffers(1);
    assert written.free == [1];
    var first, _ := written.AcquireAsWritten(0);
    var second, mem := written.AcquireAsWritten(0);
    asWrittenMemory := mem;
    asWrittenRelease := written.ReleaseBuffer(second);
    var fixed := new OutputBuffers(1);
    assert fixed.free == [1];
    var got := fixed.Acquire();
    corrected := fixed.Acquire();
  }
}
