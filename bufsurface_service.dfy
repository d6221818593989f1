// The buffer-surface service (src/cnedk_buf_surface.cpp): pool creation
// and destruction, surfaces from pools or on their own, cache syncs, and
// the byte-level Memset and Copy of surfaces, plus the recycling of the
// CnedkBufSurface records themselves from a preallocated slot array.
module BufSurfaceService {
  import opened Common
  import opened SurfaceUtils
  import opened Surfaces
  import opened BufSurfaceMemPool

  // ---------------------------------------------------------------------
  // Byte-level helpers

  /** `data` with `len` bytes from `at` set to `v` (memset). */
  function Fill(data: seq<Byte>, at: nat, len: nat, v: Byte): (r: seq<Byte>)
    requires at + len <= |data|
    ensures |r| == |data|
    ensures forall k :: 0 <= k < |data| ==> r[k] == if at <= k < at + len then v else data[k]
  {
    Splice(data, at, seq(len, _ => v))
  }

  /** A block of `rows` rows of `rowBytes` bytes, each `pitch` after the
      previous one and the first at `start`, lies inside `len` bytes. */
  predicate RowsFit(len: nat, start: nat, pitch: nat, rowBytes: nat, rows: nat)
    decreases rows
  {
    rows == 0 || (start + rowBytes <= len && RowsFit(len, start + pitch, pitch, rowBytes, rows - 1))
  }

  /** The row-by-row copy loop: copy a row, then advance both positions by
      their pitches. */
  function CopyRows(dst: seq<Byte>, dstStart: nat, dstPitch: nat,
                    src: seq<Byte>, srcStart: nat, srcPitch: nat, rowBytes: nat, rows: nat): (r: seq<Byte>)
    requires RowsFit(|dst|, dstStart, dstPitch, rowBytes, rows)
    requires RowsFit(|src|, srcStart, srcPitch, rowBytes, rows)
    ensures |r| == |dst|
    decreases rows
  {
    if rows == 0 then dst
    else
      CopyRows(Splice(dst, dstStart, src[srcStart..srcStart + rowBytes]), dstStart + dstPitch, dstPitch,
               src, srcStart + srcPitch, srcPitch, rowBytes, rows - 1)
  }

  /** Row by row, the destination block holds the source block. */
  predicate RowsCopied(r: seq<Byte>, dstStart: nat, dstPitch: nat,
                       src: seq<Byte>, srcStart: nat, srcPitch: nat, rowBytes: nat, rows: nat)
    decreases rows
  {
    rows == 0 ||
    (dstStart + rowBytes <= |r| && srcStart + rowBytes <= |src| &&
     r[dstStart..dstStart + rowBytes] == src[srcStart..srcStart + rowBytes] &&
     RowsCopied(r, dstStart + dstPitch, dstPitch, src, srcStart + srcPitch, srcPitch, rowBytes, rows - 1))
  }

  /** One past the last byte of the block's last row (its start when empty). */
  function BlockEnd(start: nat, pitch: nat, rowBytes: nat, rows: nat): (e: nat)
    ensures rows > 0 ==> start + rowBytes <= e
    decreases rows
  {
    if rows == 0 then start
    else if rows == 1 then start + rowBytes
    else BlockEnd(start + pitch, pitch, rowBytes, rows - 1)
  }

  /** The copy loop changes no byte before the block or after its last row. */
  lemma {:induction false} CopyRowsOutside(dst: seq<Byte>, dstStart: nat, dstPitch: nat,
                                           src: seq<Byte>, srcStart: nat, srcPitch: nat, rowBytes: nat, rows: nat)
    requires RowsFit(|dst|, dstStart, dstPitch, rowBytes, rows)
    requires RowsFit(|src|, srcStart, srcPitch, rowBytes, rows)
    ensures forall k :: 0 <= k < |dst| && (k < dstStart || BlockEnd(dstStart, dstPitch, rowBytes, rows) <= k) ==>
      CopyRows(dst, dstStart, dstPitch, src, srcStart, srcPitch, rowBytes, rows)[k] == dst[k]
    decreases rows
  {
    if rows > 0 {
      var d1 := Splice(dst, dstStart, src[srcStart..srcStart + rowBytes]);
      CopyRowsOutside(d1, dstStart + dstPitch, dstPitch, src, srcStart + srcPitch, srcPitch, rowBytes, rows - 1);
      if rows > 1 {
        BlockEndGrows(dstStart + dstPitch, dstPitch, rowBytes, rows - 1);
      }
    }
  }

  lemma {:induction false} BlockEndGrows(start: nat, pitch: nat, rowBytes: nat, rows: nat)
    requires rows > 0
    ensures start <= BlockEnd(start, pitch, rowBytes, rows)
    decreases rows
  {
    if rows > 1 {
      BlockEndGrows(start + pitch, pitch, rowBytes, rows - 1);
    }
  }

  /** When a destination row is no longer than the destination pitch, rows
      written by the loop are never overwritten: every source row lands in
      its destination row. */
  lemma {:induction false} CopyRowsPlaces(dst: seq<Byte>, dstStart: nat, dstPitch: nat,
                                          src: seq<Byte>, srcStart: nat, srcPitch: nat, rowBytes: nat, rows: nat)
    requires RowsFit(|dst|, dstStart, dstPitch, rowBytes, rows)
    requires RowsFit(|src|, srcStart, srcPitch, rowBytes, rows)
    requires rowBytes <= dstPitch
    ensures RowsCopied(CopyRows(dst, dstStart, dstPitch, src, srcStart, srcPitch, rowBytes, rows),
                       dstStart, dstPitch, src, srcStart, srcPitch, rowBytes, rows)
    decreases rows
  {
    if rows > 0 {
      var row := src[srcStart..srcStart + rowBytes];
      var d1 := Splice(dst, dstStart, row);
      var r := CopyRows(d1, dstStart + dstPitch, dstPitch, src, srcStart + srcPitch, srcPitch, rowBytes, rows - 1);
      CopyRowsPlaces(d1, dstStart + dstPitch, dstPitch, src, srcStart + srcPitch, srcPitch, rowBytes, rows - 1);
      CopyRowsOutside(d1, dstStart + dstPitch, dstPitch, src, srcStart + srcPitch, srcPitch, rowBytes, rows - 1);
      assert r[dstStart..dstStart + rowBytes] == d1[dstStart..dstStart + rowBytes];
    }
  }

  // ---------------------------------------------------------------------
  // Memset

  /** Plane j selected by a plane argument (-1 selects every plane). */
  predicate PlaneSelected(plane: int, j: nat) { plane < 0 || j == plane }

  /** Every plane of an item, counted by the first item's plane count, lies
      inside the item's memory. */
  predicate PlanesFit(item: SurfaceItem, np: nat)
  {
    item.plane.WellFormed() && np <= MAX_PLANES &&
    forall j :: 0 <= j < np ==> item.plane.offset[j] + item.plane.psize[j] <= |item.data|
  }

  /** The memory of one item after setting the selected planes among the
      first n. */
  function MemsetPlanes(data: seq<Byte>, pp: PlaneParams, n: nat, plane: int, v: Byte): (r: seq<Byte>)
    requires pp.WellFormed() && n <= MAX_PLANES
    requires forall j :: 0 <= j < n ==> pp.offset[j] + pp.psize[j] <= |data|
    ensures |r| == |data|
  {
    if n == 0 then data
    else
      var prev := MemsetPlanes(data, pp, n - 1, plane, v);
      if PlaneSelected(plane, n - 1) then Fill(prev, pp.offset[n - 1], pp.psize[n - 1], v) else prev
  }

  /** Byte k lies in a selected plane among the first n. */
  predicate Covered(pp: PlaneParams, n: nat, plane: int, k: nat)
    requires pp.WellFormed() && n <= MAX_PLANES
  {
    exists j :: 0 <= j < n && PlaneSelected(plane, j) && pp.offset[j] <= k < pp.offset[j] + pp.psize[j]
  }

  /** Memset sets exactly the bytes of the selected planes. */
  lemma {:induction false} MemsetPlanesBytes(data: seq<Byte>, pp: PlaneParams, n: nat, plane: int, v: Byte)
    requires pp.WellFormed() && n <= MAX_PLANES
    requires forall j :: 0 <= j < n ==> pp.offset[j] + pp.psize[j] <= |data|
    ensures forall k :: 0 <= k < |data| ==>
      MemsetPlanes(data, pp, n, plane, v)[k] == if Covered(pp, n, plane, k) then v else data[k]
  {
    if n > 0 {
      MemsetPlanesBytes(data, pp, n - 1, plane, v);
      forall k | 0 <= k < |data|
        ensures MemsetPlanes(data, pp, n, plane, v)[k] == if Covered(pp, n, plane, k) then v else data[k]
      {
        if Covered(pp, n - 1, plane, k) {
          var j :| 0 <= j < n - 1 && PlaneSelected(plane, j) && pp.offset[j] <= k < pp.offset[j] + pp.psize[j];
          assert Covered(pp, n, plane, k) by {
            assert 0 <= j < n && PlaneSelected(plane, j) && pp.offset[j] <= k < pp.offset[j] + pp.psize[j];
          }
        } else if PlaneSelected(plane, n - 1) && pp.offset[n - 1] <= k < pp.offset[n - 1] + pp.psize[n - 1] {
          assert Covered(pp, n, plane, k) by {
            var j := n - 1;
            assert 0 <= j < n && PlaneSelected(plane, j) && pp.offset[j] <= k < pp.offset[j] + pp.psize[j];
          }
        } else {
          assert !Covered(pp, n, plane, k);
        }
      }
    }
  }

  /** The surface after Memset: the selected items (-1 selects all) have
      their selected planes set to `v`. The plane count is the first
      item's. */
  function MemsetSurface(surf: BufSurface, index: int, plane: int, v: Byte): (r: BufSurface)
    requires surf.Wf() && surf.batchSize > 0
    requires forall i :: 0 <= i < |surf.items| ==> PlanesFit(surf.items[i], surf.items[0].plane.numPlanes)
    ensures r == surf.(items := r.items) && |r.items| == |surf.items|
  {
    var np := surf.items[0].plane.numPlanes;
    surf.(items := seq(|surf.items|, i requires 0 <= i < |surf.items| && PlanesFit(surf.items[i], np) =>
      if index < 0 || i == index then MemsetOne(surf.items[i], np, plane, v) else surf.items[i]))
  }

  /** One item after Memset of its selected planes. */
  function MemsetOne(item: SurfaceItem, np: nat, plane: int, v: Byte): (r: SurfaceItem)
    requires PlanesFit(item, np)
    ensures r == item.(data := r.data) && |r.data| == |item.data|
  {
    item.(data := MemsetPlanes(item.data, item.plane, np, plane, v))
  }

  /** Memset touches only the selected items, and in them exactly the bytes
      of the selected planes. */
  lemma MemsetTouchesOnlySelection(surf: BufSurface, index: int, plane: int, v: Byte)
    requires surf.Wf() && surf.batchSize > 0
    requires forall i :: 0 <= i < |surf.items| ==> PlanesFit(surf.items[i], surf.items[0].plane.numPlanes)
    ensures forall i :: 0 <= i < |surf.items| && !(index < 0 || i == index) ==>
      MemsetSurface(surf, index, plane, v).items[i] == surf.items[i]
    ensures forall i, k :: 0 <= i < |surf.items| && (index < 0 || i == index) && 0 <= k < |surf.items[i].data| ==>
      |MemsetSurface(surf, index, plane, v).items[i].data| == |surf.items[i].data| &&
      MemsetSurface(surf, index, plane, v).items[i].data[k] ==
        if Covered(surf.items[i].plane, surf.items[0].plane.numPlanes, plane, k) then v else surf.items[i].data[k]
  {
    var np := surf.items[0].plane.numPlanes;
    var r := MemsetSurface(surf, index, plane, v);
    forall i | 0 <= i < |surf.items| && (index < 0 || i == index)
      ensures |r.items[i].data| == |surf.items[i].data|
      ensures forall k :: 0 <= k < |surf.items[i].data| ==>
        r.items[i].data[k] == if Covered(surf.items[i].plane, np, plane, k) then v else surf.items[i].data[k]
    {
      assert PlanesFit(surf.items[i], np);
      assert r.items[i] == MemsetOne(surf.items[i], np, plane, v);
      MemsetPlanesBytes(surf.items[i].data, surf.items[i].plane, np, plane, v);
    }
  }

  /** Memset: a null surface, an item index below -1 or past the batch, or
      a plane index below -1 or past the first item's plane count give -1
      and change nothing; otherwise the selected bytes are set. Host memory
      is set with memset, device memory with cnrtMemset (both loops visit
      the same bytes). */
  method Memset(surf: Option<BufSurface>, index: int, plane: int, v: Byte) returns (r: int, out: Option<BufSurface>)
    requires surf.Some? ==> surf.value.Wf() && surf.value.batchSize > 0
    requires surf.Some? ==>
      forall i :: 0 <= i < |surf.value.items| ==> PlanesFit(surf.value.items[i], surf.value.items[0].plane.numPlanes)
    ensures surf.None? ==> r == -1 && out == surf
    ensures surf.Some? && (index < -1 || index >= surf.value.batchSize) ==> r == -1 && out == surf
    ensures surf.Some? && -1 <= index < surf.value.batchSize &&
            (plane < -1 || plane >= surf.value.items[0].plane.numPlanes) ==>
      r == -1 && out == surf
    ensures surf.Some? && -1 <= index < surf.value.batchSize && -1 <= plane < surf.value.items[0].plane.numPlanes ==>
      r == 0 && out == Some(MemsetSurface(surf.value, index, plane, v))
  {
    if surf.None? {
      return -1, surf;
    }
    var s := surf.value;
    if index < -1 || index >= s.batchSize {
      return -1, surf;
    }
    var np := s.items[0].plane.numPlanes;
    if plane < -1 || plane >= np {
      return -1, surf;
    }
    var items := s.items;
    var i := 0;
    while i < s.batchSize
      invariant i <= s.batchSize && |items| == |s.items|
      invariant forall k :: 0 <= k < |items| ==>
        items[k] == if k < i then MemsetSurface(s, index, plane, v).items[k] else s.items[k]
    {
      if index >= 0 && i != index {
        i := i + 1;
        continue;
      }
      var data := MemsetItem(s.items[i], np, plane, v);
      items := items[i := s.items[i].(data := data)];
      i := i + 1;
    }
    assert items == MemsetSurface(s, index, plane, v).items;
    return 0, Some(s.(items := items));
  }

  /** The plane loop of Memset over one item. */
  method MemsetItem(item: SurfaceItem, np: nat, plane: int, v: Byte) returns (data: seq<Byte>)
    requires PlanesFit(item, np)
    ensures data == MemsetPlanes(item.data, item.plane, np, plane, v)
  {
    data := item.data;
    var j := 0;
    while j < np
      invariant j <= np
      invariant data == MemsetPlanes(item.data, item.plane, j, plane, v)
    {
      if plane >= 0 && j != plane {
        j := j + 1;
        continue;
      }
      data := Fill(data, item.plane.offset[j], item.plane.psize[j], v);
      j := j + 1;
    }
  }

  // ---------------------------------------------------------------------
  // Copy

  /** Where one plane is copied from and to, and how many rows. */
  datatype Plan = Plan(srcStart: nat, dstStart: nat, rows: nat)

  /** The plan of plane j of batch item i. As written, the row count is
      read from height[i] (the batch index) and every plane after the first
      starts at the offset of the plane before it (the pointers are reset
      to the current plane's offset after its rows). Corrected, plane j
      starts at its own offset and has height[j] rows. */
  function PlanFor(asWritten: bool, i: nat, j: nat, s: PlaneParams, d: PlaneParams): (p: Plan)
    requires s.WellFormed() && d.WellFormed() && j < MAX_PLANES
    requires asWritten ==> i < MAX_PLANES
    ensures !asWritten ==> p == Plan(s.offset[j], d.offset[j], s.height[j])
  {
    if !asWritten then Plan(s.offset[j], d.offset[j], s.height[j])
    else if j == 0 then Plan(0, 0, s.height[i])
    else Plan(s.offset[j - 1], d.offset[j - 1], s.height[i])
  }

  /** The bytes of one row of plane j: width times bytes per pixel, in 32 bits. */
  function RowBytes(s: PlaneParams, j: nat): nat
    requires s.WellFormed() && j < MAX_PLANES
  {
    U32(s.width[j] * s.bytesPerPix[j])
  }

  /** The checks on plane j before its rows are copied: a later plane must
      have non-zero offsets on both sides, and the row size and both
      pitches must be non-zero. */
  predicate PlaneCheck(j: nat, s: PlaneParams, d: PlaneParams)
    requires s.WellFormed() && d.WellFormed() && j < MAX_PLANES
  {
    !(j > 0 && (s.offset[j] == 0 || d.offset[j] == 0)) &&
    RowBytes(s, j) != 0 && s.pitch[j] != 0 && d.pitch[j] != 0
  }

  /** Every plane's rows lie inside both items' memory, and a same-size
      item fits its whole data size. */
  predicate ItemFits(asWritten: bool, i: nat, si: SurfaceItem, di: SurfaceItem)
  {
    si.plane.WellFormed() && di.plane.WellFormed() && (asWritten ==> i < MAX_PLANES) &&
    (si.dataSize == di.dataSize ==> di.dataSize <= |si.data| && di.dataSize <= |di.data|) &&
    forall j :: 0 <= j < si.plane.numPlanes ==>
      RowsFit(|di.data|, PlanFor(asWritten, i, j, si.plane, di.plane).dstStart, di.plane.pitch[j],
              RowBytes(si.plane, j), PlanFor(asWritten, i, j, si.plane, di.plane).rows) &&
      RowsFit(|si.data|, PlanFor(asWritten, i, j, si.plane, di.plane).srcStart, si.plane.pitch[j],
              RowBytes(si.plane, j), PlanFor(asWritten, i, j, si.plane, di.plane).rows)
  }

  /** The plane loop of one item over its first n planes: whether the checks
      passed, and the destination memory (planes copied before a failed
      check stay copied). */
  function CopyPlanes(asWritten: bool, i: nat, si: SurfaceItem, di: SurfaceItem, n: nat): (r: (bool, seq<Byte>))
    requires ItemFits(asWritten, i, si, di) && n <= si.plane.numPlanes
    ensures |r.1| == |di.data|
  {
    if n == 0 then (true, di.data)
    else
      var prev := CopyPlanes(asWritten, i, si, di, n - 1);
      var j := n - 1;
      if !prev.0 then prev
      else if !PlaneCheck(j, si.plane, di.plane) then (false, prev.1)
      else
        var p := PlanFor(asWritten, i, j, si.plane, di.plane);
        (true, CopyRows(prev.1, p.dstStart, di.plane.pitch[j], si.data, p.srcStart, si.plane.pitch[j],
                        RowBytes(si.plane, j), p.rows))
  }

  /** One batch item: items of different data sizes are copied plane by
      plane and row by row; items of the same size in one block. */
  function CopyItem(asWritten: bool, i: nat, si: SurfaceItem, di: SurfaceItem): (r: (bool, SurfaceItem))
    requires ItemFits(asWritten, i, si, di)
    ensures r.1 == di.(data := r.1.data) && |r.1.data| == |di.data|
  {
    if si.dataSize != di.dataSize then
      var planes := CopyPlanes(asWritten, i, si, di, si.plane.numPlanes);
      (planes.0, di.(data := planes.1))
    else
      (true, di.(data := Splice(di.data, 0, si.data[..di.dataSize])))
  }

  /** Both surfaces' items fit the corrected copy. */
  predicate SurfacesFit(src: BufSurface, dst: BufSurface)
  {
    src.Wf() && dst.Wf() && src.batchSize == dst.batchSize &&
    forall i :: 0 <= i < src.batchSize ==> ItemFits(false, i, src.items[i], dst.items[i])
  }

  /** The item loop over the first n items, stopping at the first failed
      check (items copied before it stay copied). */
  function CopyItems(src: BufSurface, dst: BufSurface, n: nat): (r: (bool, seq<SurfaceItem>))
    requires SurfacesFit(src, dst) && n <= src.batchSize
    ensures |r.1| == |dst.items|
    ensures forall k :: n <= k < |dst.items| ==> r.1[k] == dst.items[k]
  {
    if n == 0 then (true, dst.items)
    else
      var prev := CopyItems(src, dst, n - 1);
      if !prev.0 then prev
      else
        var item := CopyItem(false, n - 1, src.items[n - 1], prev.1[n - 1]);
        (item.0, prev.1[n - 1 := item.1])
  }

  /** Copying preserves a row-by-row copy whose block is left alone. */
  lemma {:induction false} RowsCopiedFrame(r1: seq<Byte>, r2: seq<Byte>, dstStart: nat, dstPitch: nat,
                                           src: seq<Byte>, srcStart: nat, srcPitch: nat, rowBytes: nat, rows: nat)
    requires |r1| == |r2|
    requires RowsCopied(r1, dstStart, dstPitch, src, srcStart, srcPitch, rowBytes, rows)
    requires forall k :: dstStart <= k < BlockEnd(dstStart, dstPitch, rowBytes, rows) && k < |r1| ==> r1[k] == r2[k]
    ensures RowsCopied(r2, dstStart, dstPitch, src, srcStart, srcPitch, rowBytes, rows)
    decreases rows
  {
    if rows > 0 {
      assert r2[dstStart..dstStart + rowBytes] == r1[dstStart..dstStart + rowBytes];
      if rows > 1 {
        BlockEndGrows(dstStart + dstPitch, dstPitch, rowBytes, rows - 1);
        RowsCopiedFrame(r1, r2, dstStart + dstPitch, dstPitch, src, srcStart + srcPitch, srcPitch, rowBytes, rows - 1);
      }
    }
  }

  /** The destination block of plane j, as the corrected copy writes it. */
  function PlaneEnd(s: PlaneParams, d: PlaneParams, j: nat): nat
    requires s.WellFormed() && d.WellFormed() && j < MAX_PLANES
  {
    BlockEnd(d.offset[j], d.pitch[j], RowBytes(s, j), s.height[j])
  }

  /** The destination planes come one after the other without overlapping,
      and no row is longer than its pitch. */
  predicate PlanesApart(s: PlaneParams, d: PlaneParams)
    requires s.WellFormed() && d.WellFormed()
  {
    s.numPlanes <= MAX_PLANES &&
    (forall j :: 0 <= j < s.numPlanes ==> RowBytes(s, j) <= d.pitch[j]) &&
    (forall j :: 0 <= j && j + 1 < s.numPlanes ==> PlaneEnd(s, d, j) <= d.offset[j + 1])
  }

  lemma PlanesApartChain(s: PlaneParams, d: PlaneParams, j: nat, m: nat)
    requires s.WellFormed() && d.WellFormed() && PlanesApart(s, d)
    requires j < m < s.numPlanes
    ensures PlaneEnd(s, d, j) <= d.offset[m]
    decreases m - j
  {
    if j + 1 < m {
      if s.height[j + 1] > 0 {
        BlockEndGrows(d.offset[j + 1], d.pitch[j + 1], RowBytes(s, j + 1), s.height[j + 1]);
      }
      PlanesApartChain(s, d, j + 1, m);
    }
  }

  /** With the planes of the destination apart, the corrected plane loop
      leaves every plane it got through holding the source plane, row by
      row. */
  lemma {:induction false} CopyPlanesPlaces(i: nat, si: SurfaceItem, di: SurfaceItem, n: nat)
    requires ItemFits(false, i, si, di) && n <= si.plane.numPlanes
    requires PlanesApart(si.plane, di.plane)
    requires CopyPlanes(false, i, si, di, n).0
    ensures forall j :: 0 <= j < n ==>
      RowsCopied(CopyPlanes(false, i, si, di, n).1, di.plane.offset[j], di.plane.pitch[j],
                 si.data, si.plane.offset[j], si.plane.pitch[j], RowBytes(si.plane, j), si.plane.height[j])
  {
    if n > 0 {
      var s, d := si.plane, di.plane;
      var prev := CopyPlanes(false, i, si, di, n - 1);
      var m := n - 1;
      CopyPlanesPlaces(i, si, di, m);
      var r := CopyPlanes(false, i, si, di, n).1;
      CopyPlanesStep(i, si, di, m);
      CopyRowsPlaces(prev.1, d.offset[m], d.pitch[m], si.data, s.offset[m], s.pitch[m], RowBytes(s, m), s.height[m]);
      CopyRowsOutside(prev.1, d.offset[m], d.pitch[m], si.data, s.offset[m], s.pitch[m], RowBytes(s, m), s.height[m]);
      EarlierPlanesKept(s, d, si.data, prev.1, r, m);
    }
  }

  /** Writing plane m only below-or-past its own start leaves the planes
      before it as they were copied. */
  lemma EarlierPlanesKept(s: PlaneParams, d: PlaneParams, data: seq<Byte>, prev: seq<Byte>, r: seq<Byte>, m: nat)
    requires s.WellFormed() && d.WellFormed() && PlanesApart(s, d) && m < s.numPlanes
    requires |prev| == |r|
    requires forall k :: 0 <= k < |prev| && k < d.offset[m] ==> r[k] == prev[k]
    requires forall j :: 0 <= j < m ==>
      RowsCopied(prev, d.offset[j], d.pitch[j], data, s.offset[j], s.pitch[j], RowBytes(s, j), s.height[j])
    ensures forall j :: 0 <= j < m ==>
      RowsCopied(r, d.offset[j], d.pitch[j], data, s.offset[j], s.pitch[j], RowBytes(s, j), s.height[j])
  {
    forall j | 0 <= j < m
      ensures RowsCopied(r, d.offset[j], d.pitch[j], data, s.offset[j], s.pitch[j], RowBytes(s, j), s.height[j])
    {
      PlanesApartChain(s, d, j, m);
      RowsCopiedFrame(prev, r, d.offset[j], d.pitch[j], data, s.offset[j], s.pitch[j], RowBytes(s, j), s.height[j]);
    }
  }

  /** An item of the same data size receives the source's first data_size
      bytes, and the rest of its memory is kept. */
  lemma SameSizeItemCopy(i: nat, si: SurfaceItem, di: SurfaceItem)
    requires ItemFits(false, i, si, di) && si.dataSize == di.dataSize
    ensures CopyItem(false, i, si, di).0
    ensures CopyItem(false, i, si, di).1.data[..di.dataSize] == si.data[..di.dataSize]
    ensures CopyItem(false, i, si, di).1.data[di.dataSize..] == di.data[di.dataSize..]
  {
    var r := CopyItem(false, i, si, di).1.data;
    assert r == Splice(di.data, 0, si.data[..di.dataSize]);
    assert r[di.dataSize..] == di.data[di.dataSize..];
  }

  /** Both surfaces are in device memory, on different devices. */
  predicate CrossDevice(src: BufSurface, dst: BufSurface)
  {
    !IsHostMemory(src.memType) && !IsHostMemory(dst.memType) && src.deviceId != dst.deviceId
  }

  /** Copy: a null surface or differing batch sizes give -1 and change
      nothing; otherwise the destination takes the source's pts, a copy
      between two devices gives -1, and the items are copied in order,
      stopping with -1 at the first plane that fails its checks. (The
      direction of each cnrtMemcpy and the final cache sync of a cached
      destination do not change the bytes.) */
  method Copy(src: Option<BufSurface>, dst: Option<BufSurface>) returns (r: int, out: Option<BufSurface>)
    requires src.Some? && dst.Some? && src.value.batchSize == dst.value.batchSize ==>
      SurfacesFit(src.value, dst.value)
    ensures src.None? || dst.None? ==> r == -1 && out == dst
    ensures src.Some? && dst.Some? && src.value.batchSize != dst.value.batchSize ==> r == -1 && out == dst
    ensures src.Some? && dst.Some? && src.value.batchSize == dst.value.batchSize &&
            CrossDevice(src.value, dst.value) ==>
      r == -1 && out == Some(dst.value.(pts := src.value.pts))
    ensures src.Some? && dst.Some? && src.value.batchSize == dst.value.batchSize &&
            !CrossDevice(src.value, dst.value) ==>
      var c := CopyItems(src.value, dst.value, src.value.batchSize);
      r == (if c.0 then 0 else -1) && out == Some(dst.value.(pts := src.value.pts, items := c.1))
  {
    if src.None? || dst.None? {
      return -1, dst;
    }
    var s, d := src.value, dst.value;
    if s.batchSize != d.batchSize {
      return -1, dst;
    }
    var result := d.(pts := s.pts);
    if CrossDevice(s, d) {
      return -1, Some(result);
    }
    var items := d.items;
    var i := 0;
    while i < s.batchSize
      invariant i <= s.batchSize
      invariant CopyItems(s, d, i) == (true, items)
    {
      CopyItemsStep(s, d, i);
      var ok, item := CopyOneItem(i, s.items[i], items[i]);
      items := items[i := item];
      if !ok {
        CopyItemsStopped(s, d, i + 1, s.batchSize);
        return -1, Some(result.(items := items));
      }
      i := i + 1;
    }
    return 0, Some(result.(items := items));
  }

  /** The body of Copy's item loop (corrected plan). */
  method CopyOneItem(i: nat, si: SurfaceItem, di: SurfaceItem) returns (ok: bool, item: SurfaceItem)
    requires ItemFits(false, i, si, di)
    ensures (ok, item) == CopyItem(false, i, si, di)
  {
    if si.dataSize == di.dataSize {
      return true, di.(data := Splice(di.data, 0, si.data[..di.dataSize]));
    }
    var data := di.data;
    var j := 0;
    while j < si.plane.numPlanes
      invariant j <= si.plane.numPlanes
      invariant CopyPlanes(false, i, si, di, j) == (true, data)
    {
      CopyPlanesStep(i, si, di, j);
      if !PlaneCheck(j, si.plane, di.plane) {
        CopyPlanesStopped(i, si, di, j + 1, si.plane.numPlanes);
        return false, di.(data := data);
      }
      var p := PlanFor(false, i, j, si.plane, di.plane);
      data := CopyRowsLoop(data, p.dstStart, di.plane.pitch[j], si.data, p.srcStart, si.plane.pitch[j],
                           RowBytes(si.plane, j), p.rows);
      j := j + 1;
    }
    return true, di.(data := data);
  }

  lemma {:induction false} CopyItemsStopped(src: BufSurface, dst: BufSurface, k: nat, n: nat)
    requires SurfacesFit(src, dst) && k <= n <= src.batchSize
    requires !CopyItems(src, dst, k).0
    ensures CopyItems(src, dst, n) == CopyItems(src, dst, k)
    decreases n
  {
    if k < n {
      CopyItemsStopped(src, dst, k, n - 1);
    }
  }

  lemma {:induction false} CopyPlanesStopped(i: nat, si: SurfaceItem, di: SurfaceItem, k: nat, n: nat)
    requires ItemFits(false, i, si, di) && k <= n <= si.plane.numPlanes
    requires !CopyPlanes(false, i, si, di, k).0
    ensures CopyPlanes(false, i, si, di, n) == CopyPlanes(false, i, si, di, k)
    decreases n
  {
    if k < n {
      CopyPlanesStopped(i, si, di, k, n - 1);
    }
  }

  lemma CopyItemsStep(src: BufSurface, dst: BufSurface, i: nat)
    requires SurfacesFit(src, dst) && i < src.batchSize
    ensures ItemFits(false, i, src.items[i], CopyItems(src, dst, i).1[i])
    ensures CopyItems(src, dst, i).0 ==>
      var item := CopyItem(false, i, src.items[i], CopyItems(src, dst, i).1[i]);
      CopyItems(src, dst, i + 1) == (item.0, CopyItems(src, dst, i).1[i := item.1])
  {
  }

  lemma CopyPlanesStep(i: nat, si: SurfaceItem, di: SurfaceItem, j: nat)
    requires ItemFits(false, i, si, di) && j < si.plane.numPlanes
    ensures var p := PlanFor(false, i, j, si.plane, di.plane);
      RowsFit(|di.data|, p.dstStart, di.plane.pitch[j], RowBytes(si.plane, j), p.rows) &&
      RowsFit(|si.data|, p.srcStart, si.plane.pitch[j], RowBytes(si.plane, j), p.rows)
    ensures CopyPlanes(false, i, si, di, j).0 ==>
      var prev := CopyPlanes(false, i, si, di, j).1;
      var p := PlanFor(false, i, j, si.plane, di.plane);
      CopyPlanes(false, i, si, di, j + 1) ==
        if !PlaneCheck(j, si.plane, di.plane) then (false, prev)
        else (true, CopyRows(prev, p.dstStart, di.plane.pitch[j], si.data, p.srcStart, si.plane.pitch[j],
                             RowBytes(si.plane, j), p.rows))
  {
  }

  /** The row loop: copy a row, advance both positions by their pitches. */
  method CopyRowsLoop(dst: seq<Byte>, dstStart: nat, dstPitch: nat,
                      src: seq<Byte>, srcStart: nat, srcPitch: nat, rowBytes: nat, rows: nat) returns (out: seq<Byte>)
    requires RowsFit(|dst|, dstStart, dstPitch, rowBytes, rows)
    requires RowsFit(|src|, srcStart, srcPitch, rowBytes, rows)
    ensures out == CopyRows(dst, dstStart, dstPitch, src, srcStart, srcPitch, rowBytes, rows)
  {
    out := dst;
    var sp: nat, dp: nat, h: nat := srcStart, dstStart, 0;
    while h < rows
      invariant h <= rows && |out| == |dst|
      invariant RowsFit(|out|, dp, dstPitch, rowBytes, rows - h)
      invariant RowsFit(|src|, sp, srcPitch, rowBytes, rows - h)
      invariant CopyRows(out, dp, dstPitch, src, sp, srcPitch, rowBytes, rows - h) ==
                CopyRows(dst, dstStart, dstPitch, src, srcStart, srcPitch, rowBytes, rows)
    {
      out := Splice(out, dp, src[sp..sp + rowBytes]);
      sp, dp, h := sp + srcPitch, dp + dstPitch, h + 1;
    }
  }

  // The copy as written, on a two-plane NV12 item of 2x2 pixels whose
  // destination has two bytes of padding (so the data sizes differ and the
  // plane loop runs): plane 1 has one row of two bytes at offset 4.

  function ExamplePlanes(): (p: PlaneParams)
    ensures p.WellFormed()
  {
    PlaneParams(2, [2, 1, 0], [2, 1, 0], [2, 2, 0], [0, 4, 0], [4, 2, 0], [1, 2, 0])
  }

  /** The as-written copy of one item: rows counted by height[i] and each
      later plane started at the previous plane's offset. */
  function AsWrittenCopyItem(i: nat, si: SurfaceItem, di: SurfaceItem): (r: (bool, SurfaceItem))
    requires ItemFits(true, i, si, di)
    ensures r.1 == di.(data := r.1.data) && |r.1.data| == |di.data|
  {
    CopyItem(true, i, si, di)
  }

  /** As written, plane 1 of the destination never receives plane 1 of the
      source (two rows of plane 0 are copied over plane 0 again); the
      corrected plan copies it. */
  lemma AsWrittenCopyMissesSecondPlane()
    ensures var si := SurfaceItem(2, 2, 2, FMT_NV12, 6, [1, 2, 3, 4, 5, 6], false, ExamplePlanes());
            var di := SurfaceItem(2, 2, 2, FMT_NV12, 8, [0, 0, 0, 0, 0, 0, 0, 0], false, ExamplePlanes());
            ItemFits(true, 0, si, di) && ItemFits(false, 0, si, di) &&
            AsWrittenCopyItem(0, si, di) == (true, di.(data := [1, 2, 3, 4, 0, 0, 0, 0])) &&
            CopyItem(false, 0, si, di) == (true, di.(data := [1, 2, 3, 4, 5, 6, 0, 0]))
  {
    var pp := ExamplePlanes();
    var si := SurfaceItem(2, 2, 2, FMT_NV12, 6, [1, 2, 3, 4, 5, 6], false, pp);
    var di := SurfaceItem(2, 2, 2, FMT_NV12, 8, [0, 0, 0, 0, 0, 0, 0, 0], false, pp);
    assert RowBytes(pp, 0) == 2 && RowBytes(pp, 1) == 2;
    assert RowsFit(8, 0, 2, 2, 2) && RowsFit(6, 0, 2, 2, 2);
    assert RowsFit(8, 4, 2, 2, 1) && RowsFit(6, 4, 2, 2, 1);
    assert ItemFits(true, 0, si, di);
    assert ItemFits(false, 0, si, di);
    var p0 := CopyRows(di.data, 0, 2, si.data, 0, 2, 2, 2);
    assert p0 == [1, 2, 3, 4, 0, 0, 0, 0];
    assert CopyPlanes(true, 0, si, di, 1) == (true, p0);
    assert CopyPlanes(false, 0, si, di, 1) == (true, p0);
    assert CopyRows(p0, 0, 2, si.data, 0, 2, 2, 2) == p0;
    assert CopyRows(p0, 4, 2, si.data, 4, 2, 2, 1) == [1, 2, 3, 4, 5, 6, 0, 0];
  }

  // ---------------------------------------------------------------------
  // Cache synchronisation

  /** SyncForCpu and SyncForDevice (the two differ only in the cache
      operation): only cached memory is synced, index -1 means every item
      and any other index outside the batch fails. */
  function Sync(surf: BufSurface, index: int): (r: int)
    ensures r == 0 || r == -1
    ensures r == 0 <==> IsCachedMemory(surf.memType) && (index == -1 || 0 <= index < surf.batchSize)
  {
    if surf.memType == MEM_UNIFIED_CACHED || surf.memType == MEM_VB_CACHED then
      if index == -1 then 0
      else if index < 0 || index >= surf.batchSize then -1
      else 0
    else -1
  }

  // ---------------------------------------------------------------------
  // The service object: CnedkBufSurface records live in a slot array of
  // K_SURFS_NUM entries created on first use, or on the heap once the
  // slots run out. Slots are named 0 .. K_SURFS_NUM-1; heap records get
  // names from K_SURFS_NUM on.

  const K_SURFS_NUM: nat := 256 * 1024

  /** The slot names 0 .. n-1 in queue order. */
  function Slots(n: nat): (s: seq<nat>)
    ensures |s| == n && forall i :: 0 <= i < n ==> s[i] == i
  {
    seq(n, i => i)
  }

  /** What MemPool::Create needs to succeed on a fresh pool. */
  predicate PoolCreatable(params: CreateParams, blockNum: nat, ce3226: bool, platform: Option<PlatformInfo>,
                          allocatorOk: bool, allocs: seq<Option<BufSurface>>)
    requires blockNum <= |allocs|
  {
    CheckParams(params.batchSize, params.memType, params.colorFormat, params.width, params.height,
                params.size, platform) == 0 &&
    platform.Some? &&
    AllocatorFor(ResolveMemType(params.memType, platform.value), ce3226).Some? &&
    allocatorOk &&
    (AllocatorFor(ResolveMemType(params.memType, platform.value), ce3226) == Some(VbAllocator) ||
     FirstFailure(allocs, blockNum) == blockNum)
  }

  class SurfaceService {
    /** Whether the library is built for CE3226. */
    const ce3226: bool
    var initialized: bool
    /** The idle slots, in queue order. */
    var surfpool: seq<nat>
    /** The record stored behind each handed-out surface pointer. */
    var records: map<nat, BufSurface>
    /** The slots handed out and not yet given back. */
    ghost var lent: set<nat>

    /** Before the slot array exists nothing is queued or lent; afterwards
        every slot is either queued once or lent, and every live record in
        the slot range sits in a lent slot. */
    ghost predicate Valid()
      reads this
    {
      (!initialized ==> surfpool == [] && lent == {}) &&
      (forall i, j :: 0 <= i < j < |surfpool| ==> surfpool[i] != surfpool[j]) &&
      (forall i :: 0 <= i < |surfpool| ==> surfpool[i] < K_SURFS_NUM && surfpool[i] !in lent) &&
      (forall b :: b in lent ==> b < K_SURFS_NUM) &&
      (initialized ==> forall b :: 0 <= b < K_SURFS_NUM ==> b in lent || b in surfpool) &&
      (forall b :: b in records && b < K_SURFS_NUM ==> b in lent)
    }

    /** Once the slot array exists, idle and lent slots add up to it. */
    lemma SlotAccounting()
      requires Valid() && initialized
      ensures |surfpool| + |lent| == K_SURFS_NUM
    {
      PartitionCount(surfpool, lent, K_SURFS_NUM);
    }

    constructor (ce3226: bool)
      ensures Valid() && !initialized && surfpool == [] && records == map[] && lent == {}
      ensures this.ce3226 == ce3226
    {
      this.ce3226 := ce3226;
      initialized := false;
      surfpool := [];
      records := map[];
      lent := {};
    }

    /** AllocSurface can hand out a record: from the slot queue (created
        now if need be) or from the heap. */
    ghost predicate CanAllocate(slotsOk: bool, heap: Option<nat>)
      reads this
    {
      (if initialized then surfpool != [] else slotsOk) || heap.Some?
    }

    /** CreateSurfsPool: on first use allocate the slot array and queue
        every slot; a failed allocation leaves the service uninitialised. */
    method CreateSurfsPool(slotsOk: bool)
      requires Valid()
      modifies this`initialized, this`surfpool
      ensures Valid()
      ensures old(initialized) ==> initialized && surfpool == old(surfpool)
      ensures !old(initialized) ==> initialized == slotsOk && surfpool == if slotsOk then Slots(K_SURFS_NUM) else []
    {
      if initialized {
        return;
      }
      if !slotsOk {
        return;
      }
      surfpool := Slots(K_SURFS_NUM);
      initialized := true;
      forall b | 0 <= b < K_SURFS_NUM
        ensures b in surfpool
      {
        assert surfpool[b] == b;
      }
    }

    /** AllocSurface: pop the front idle slot, or fall back to the heap
        (`heap` is the name malloc would give, None when it fails). */
    method AllocSurface(slotsOk: bool, heap: Option<nat>) returns (slot: Option<nat>)
      requires Valid()
      requires heap.Some? ==> heap.value >= K_SURFS_NUM && heap.value !in records
      modifies this`initialized, this`surfpool, this`lent
      ensures Valid()
      ensures slot.Some? <==> old(CanAllocate(slotsOk, heap))
      ensures initialized == (old(initialized) || slotsOk)
      ensures !old(initialized) && slotsOk ==> slot == Some(0) && surfpool == Slots(K_SURFS_NUM)[1..] && lent == {0}
      ensures old(initialized) && old(surfpool) != [] ==>
        slot == Some(old(surfpool)[0]) && surfpool == old(surfpool)[1..] && lent == old(lent) + {old(surfpool)[0]}
      ensures !(if old(initialized) then old(surfpool) != [] else slotsOk) ==>
        slot == heap && surfpool == old(surfpool) && lent == old(lent)
      ensures slot.Some? ==> slot.value !in records
    {
      CreateSurfsPool(slotsOk);
      if surfpool != [] {
        var res := surfpool[0];
        assert res !in lent;
        surfpool := surfpool[1..];
        lent := lent + {res};
        return Some(res);
      }
      return heap;
    }

    /** FreeSurface: a record inside the slot array is queued again; any
        other record goes back to the heap. */
    method FreeSurface(slot: nat)
      requires Valid()
      requires initialized && slot < K_SURFS_NUM ==> slot in lent
      requires slot !in records
      modifies this`surfpool, this`lent
      ensures Valid()
      ensures initialized && slot < K_SURFS_NUM ==>
        surfpool == old(surfpool) + [slot] && lent == old(lent) - {slot}
      ensures !(initialized && slot < K_SURFS_NUM) ==> surfpool == old(surfpool) && lent == old(lent)
    {
      if initialized && slot < K_SURFS_NUM {
        surfpool := surfpool + [slot];
        lent := lent - {slot};
      }
    }

    /** BufPoolCreate: the pool pointer, the parameters and a non-zero
        block count are required; the pool exists only if MemPool::Create
        succeeds. `addr` is the new pool's address. `written` is what the
        caller's pool pointer holds afterwards: the new pool is stored there
        before Create runs, so after a failed Create it names a pool that
        has been deleted again. */
    method BufPoolCreate(hasPool: bool, params: Option<CreateParams>, blockNum: nat, addr: nat,
                         platform: Option<PlatformInfo>, allocatorOk: bool, allocs: seq<Option<BufSurface>>)
      returns (r: int, pool: Option<MemPool>, written: Option<MemPool>)
      requires blockNum <= |allocs|
      ensures r == 0 || r == -1
      ensures r == 0 <==> pool.Some?
      ensures written.Some? <==> hasPool && params.Some? && blockNum != 0
      ensures r == 0 ==> written == pool
      ensures r == 0 <==> hasPool && params.Some? && blockNum != 0 &&
                          PoolCreatable(params.value, blockNum, ce3226, platform, allocatorOk, allocs)
      ensures pool.Some? ==>
        fresh(pool.value) && pool.value.Valid() && pool.value.created && pool.value.allocCount == 0 &&
        pool.value.self == addr && pool.value.ce3226 == ce3226 &&
        (!pool.value.isVbPool ==> |pool.value.cache| == blockNum)
    {
      if hasPool && params.Some? && blockNum != 0 {
        var mempool := new MemPool(addr, ce3226);
        written := Some(mempool);
        var rc := mempool.Create(params.value, blockNum, platform, allocatorOk, allocs);
        if rc == 0 {
          return 0, Some(mempool), written;
        }
        return -1, None, written;
      }
      return -1, None, None;
    }

    /** BufPoolDestroy: a missing pool fails; otherwise the pool's own
        Destroy decides (a pool with surfaces still out keeps waiting). */
    method BufPoolDestroy(pool: Option<MemPool>, allocatorDestroyOk: bool) returns (r: DestroyOutcome)
      requires pool.Some? ==> pool.value.Valid()
      modifies if pool.Some? then {pool.value} else {}
      ensures pool.None? ==> r == Done(-1)
      ensures pool.Some? ==> pool.value.Valid()
      ensures pool.Some? && !old(pool.value.created) ==> r == Done(-1)
      ensures pool.Some? && old(pool.value.created) && !pool.value.isVbPool && old(pool.value.allocCount) != 0 ==>
        r == Waiting
      ensures pool.Some? && old(pool.value.created) && (pool.value.isVbPool || old(pool.value.allocCount) == 0) ==>
        r == Done(if allocatorDestroyOk then 0 else -1)
      ensures r == Done(0) ==> pool.Some? && !pool.value.created && pool.value.allocCount == 0
      ensures pool.Some? ==> pool.value.isVbPool == old(pool.value.isVbPool)
      ensures (pool.Some? && old(pool.value.created) && (pool.value.isVbPool || old(pool.value.allocCount) == 0) &&
               !allocatorDestroyOk) ==>
        pool.value.created && pool.value.allocCount == old(pool.value.allocCount)
    {
      if pool.None? {
        return Done(-1);
      }
      r := pool.value.Destroy(allocatorDestroyOk);
    }

    /** CreateFromPool: take a surface from the pool and a record to hold
        it; when no record can be had the surface goes back to the pool. */
    method CreateFromPool(hasSurf: bool, pool: Option<MemPool>, vbSurface: Option<BufSurface>,
                          slotsOk: bool, heap: Option<nat>) returns (r: int, handle: Option<nat>)
      requires Valid()
      requires pool.Some? ==> pool.value.Valid()
      requires heap.Some? ==> heap.value >= K_SURFS_NUM && heap.value !in records
      modifies this, if pool.Some? then {pool.value} else {}
      ensures Valid()
      ensures pool.Some? ==> pool.value.Valid()
      ensures r == 0 || r == -1
      ensures r == 0 <==> handle.Some?
      ensures !hasSurf || pool.None? ==> r == -1 && records == old(records)
      ensures r == -1 ==> records == old(records)
      ensures r == -1 && pool.Some? ==>
        pool.value.allocCount == old(pool.value.allocCount) && |pool.value.cache| <= |old(pool.value.cache)|
      ensures r == 0 ==>
        handle.value !in old(records) && handle.value in records &&
        records == old(records)[handle.value := records[handle.value]] &&
        records[handle.value].owner == Some(pool.value.self)
      ensures r == 0 && !pool.value.isVbPool ==>
        old(pool.value.cache) != [] && records[handle.value] == old(pool.value.cache)[0] && pool.value.cache == old(pool.value.cache)[1..] &&
        pool.value.allocCount == old(pool.value.allocCount) + 1
    {
      if !hasSurf || pool.None? {
        return -1, None;
      }
      var mempool := pool.value;
      var ar, surface := mempool.Alloc(vbSurface);
      if ar < 0 {
        return -1, None;
      }
      var slot := AllocSurface(slotsOk, heap);
      if slot.None? {
        var _ := mempool.Free(surface.value);
        return -1, None;
      }
      records := records[slot.value := surface.value];
      return 0, slot;
    }

    /** Create: both pointers are required, the parameters must pass
        CheckParams, CreateSurface must succeed, and a record must be had;
        without a record the new surface is destroyed again. */
    method Create(hasSurf: bool, params: Option<CreateParams>, platform: Option<PlatformInfo>,
                  allocatorOk: bool, alloc: Option<BufSurface>, freeOk: bool, teardownOk: bool,
                  slotsOk: bool, heap: Option<nat>) returns (r: int, handle: Option<nat>)
      requires Valid()
      requires heap.Some? ==> heap.value >= K_SURFS_NUM && heap.value !in records
      modifies this
      ensures Valid()
      ensures r == 0 || r == -1
      ensures r == 0 <==> handle.Some?
      ensures r == 0 <==>
        hasSurf && params.Some? &&
        CreateSurface(params.value, ce3226, platform, allocatorOk, alloc).Some? &&
        old(CanAllocate(slotsOk, heap))
      ensures r == -1 ==> records == old(records)
      ensures r == 0 ==>
        handle.value !in old(records) &&
        records == old(records)[handle.value := CreateSurface(params.value, ce3226, platform, allocatorOk, alloc).value]
    {
      if !hasSurf || params.None? {
        return -1, None;
      }
      if CheckParams(params.value.batchSize, params.value.memType, params.value.colorFormat, params.value.width,
                     params.value.height, params.value.size, platform) < 0 {
        return -1, None;
      }
      var surface := CreateSurface(params.value, ce3226, platform, allocatorOk, alloc);
      if surface.None? {
        return -1, None;
      }
      var slot := AllocSurface(slotsOk, heap);
      if slot.None? {
        var _ := DestroySurface(surface.value, ce3226, freeOk, teardownOk);
        return -1, None;
      }
      records := records[slot.value := surface.value];
      return 0, slot;
    }

    /** Destroy: a null pointer fails; a surface tagged with a pool goes
        back to that pool, any other one to its allocator; either way its
        record is released and the pool's or the allocator's result is
        returned. */
    method Destroy(handle: Option<nat>, pool: Option<MemPool>, freeOk: bool, teardownOk: bool) returns (r: int)
      requires Valid()
      requires handle.Some? ==> handle.value in records
      requires handle.Some? && records[handle.value].owner.Some? ==>
        pool.Some? && pool.value.Valid() && pool.value.self == records[handle.value].owner.value
      modifies this, if pool.Some? then {pool.value} else {}
      ensures Valid()
      ensures handle.None? ==> r == -1 && records == old(records)
      ensures handle.Some? ==> records == old(records) - {handle.value}
      ensures handle.Some? && initialized && handle.value < K_SURFS_NUM ==>
        surfpool == old(surfpool) + [handle.value]
      ensures handle.Some? && old(records)[handle.value].owner.Some? ==>
        pool.value.Valid() && r == (if old(pool.value.created) then 0 else -1)
      ensures handle.Some? && old(records)[handle.value].owner.None? ==>
        r == DestroySurface(old(records)[handle.value], ce3226, freeOk, teardownOk)
    {
      if handle.None? {
        return -1;
      }
      var h := handle.value;
      var surface := records[h];
      records := records - {h};
      if surface.owner.Some? {
        var mempool := pool.value;
        r := mempool.Free(surface);
        FreeSurface(h);
        return r;
      }
      r := DestroySurface(surface, ce3226, freeOk, teardownOk);
      FreeSurface(h);
    }
  }
}
