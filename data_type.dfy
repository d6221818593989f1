// Tensor layout helpers of the inference server
// (infer_server/src/core/data_type.cpp): the permutation axis between the
// NCHW and NHWC dimension orders, the element size of each data type, and
// the choice TransLayout makes between cast, transpose, both or a copy.
module DataTypes {
  import opened Common
  import opened TensorShape

  datatype DataType = UINT8 | FLOAT32 | FLOAT16 | INT16 | INT32 | INVALID
  datatype DimOrder = NCHW | NHWC | HWCN | TNC | NTC
  datatype DataLayout = DataLayout(dtype: DataType, order: DimOrder)

  /** The runtime_error GetTransOrderAxis throws for an unsupported pair. */
  datatype OrderError = UnsupportedOrder(src: DimOrder, dst: DimOrder)

  const SIZE_MAX: int := 0x1_0000_0000_0000_0000 - 1

  /** Byte size of one element: 1 for UINT8, 2 for the 16-bit types, 4 for
      the 32-bit types and 0 (with an error log) for INVALID. */
  function GetTypeSize(t: DataType): (r: nat)
    ensures r == 0 <==> t == INVALID
    ensures r == 1 <==> t == UINT8
    ensures r == 2 <==> t in {FLOAT16, INT16}
    ensures r == 4 <==> t in {FLOAT32, INT32}
  {
    match t
    case UINT8 => 1
    case FLOAT16 => 2
    case FLOAT32 => 4
    case INT32 => 4
    case INT16 => 2
    case INVALID => 0
  }

  /** The NCHW -> NHWC axis [0, 2, 3, ..., n-1, 1]: output dimension i is
      input dimension axis[i]. */
  function NchwToNhwcAxis(n: nat): seq<int>
  {
    seq(n, i requires 0 <= i < n => if i == 0 then 0 else if i == n - 1 then 1 else i + 1)
  }

  /** The NHWC -> NCHW axis [0, n-1, 1, 2, ..., n-2]. */
  function NhwcToNchwAxis(n: nat): seq<int>
  {
    seq(n, i requires 0 <= i < n => if i == 0 then 0 else if i == 1 then n - 1 else i - 1)
  }

  /** The axis GetTransOrderAxis produces for a pair of orders, or the
      error it throws. */
  function TransOrderAxis(src: DimOrder, dst: DimOrder, n: nat): Result<seq<int>, OrderError>
  {
    if src == NCHW && dst == NHWC then Ok(NchwToNhwcAxis(n))
    else if src == NHWC && dst == NCHW then Ok(NhwcToNchwAxis(n))
    else if src == dst then Ok([])
    else Err(UnsupportedOrder(src, dst))
  }

  /** GetTransOrderAxis fills a zeroed vector of n entries in a loop; the
      NCHW -> NHWC loop stops before the last entry. */
  method GetTransOrderAxis(src: DimOrder, dst: DimOrder, n: nat) returns (r: Result<seq<int>, OrderError>)
    ensures r == TransOrderAxis(src, dst, n)
  {
    if src == NCHW && dst == NHWC {
      var axis := new int[n](_ => 0);
      var i := 1;
      while i + 1 < n
        invariant 1 <= i
        invariant n >= 1 ==> i <= n - 1 || n == 1
        invariant forall k :: 0 <= k < n && (k == 0 || k >= i) ==> axis[k] == 0
        invariant forall k :: 1 <= k < i && k < n ==> axis[k] == k + 1
      {
        axis[i] := i + 1;
        i := i + 1;
      }
      if n > 1 {
        axis[n - 1] := 1;
      }
      r := Ok(axis[..]);
      assert axis[..] == NchwToNhwcAxis(n);
    } else if src == NHWC && dst == NCHW {
      var axis := new int[n](_ => 0);
      if n > 1 {
        axis[1] := n - 1;
      }
      var i := 2;
      while i < n
        invariant 2 <= i
        invariant n > 2 ==> i <= n
        invariant forall k :: 0 <= k < n && (k == 0 || k >= i) && k != 1 ==> axis[k] == 0
        invariant n > 1 ==> axis[1] == n - 1
        invariant forall k :: 2 <= k < i && k < n ==> axis[k] == k - 1
      {
        axis[i] := i - 1;
        i := i + 1;
      }
      r := Ok(axis[..]);
      assert axis[..] == NhwcToNchwAxis(n);
    } else if src == dst {
      r := Ok([]);
    } else {
      r := Err(UnsupportedOrder(src, dst));
    }
  }

  /** A permutation of 0..n-1, written as a sequence. */
  predicate IsPermutation(axis: seq<int>)
  {
    (forall i :: 0 <= i < |axis| ==> 0 <= axis[i] < |axis|) &&
    (forall i, j :: 0 <= i < j < |axis| ==> axis[i] != axis[j])
  }

  /** Reorders dims so that output dimension i is input dimension axis[i]. */
  function Permute(dims: seq<int>, axis: seq<int>): (p: seq<int>)
    requires |axis| == |dims|
    requires forall i :: 0 <= i < |axis| ==> 0 <= axis[i] < |dims|
    ensures |p| == |dims|
    ensures forall i :: 0 <= i < |p| ==> p[i] == dims[axis[i]]
  {
    seq(|axis|, i requires 0 <= i < |axis| => dims[axis[i]])
  }

  /** The two axes are permutations and undo each other in both orders. */
  lemma AxesAreInversePermutations(n: nat)
    ensures IsPermutation(NchwToNhwcAxis(n)) && IsPermutation(NhwcToNchwAxis(n))
    ensures forall i :: 0 <= i < n ==> NchwToNhwcAxis(n)[NhwcToNchwAxis(n)[i]] == i
    ensures forall i :: 0 <= i < n ==> NhwcToNchwAxis(n)[NchwToNhwcAxis(n)[i]] == i
  {
  }

  /** For a 4-dimensional tensor the axes are {0,2,3,1} and {0,3,1,2}, and
      NCHW dims (n,c,h,w) become NHWC dims (n,h,w,c) and back. */
  lemma FourDimAxes(n: int, c: int, h: int, w: int)
    ensures NchwToNhwcAxis(4) == [0, 2, 3, 1]
    ensures NhwcToNchwAxis(4) == [0, 3, 1, 2]
    ensures Permute([n, c, h, w], NchwToNhwcAxis(4)) == [n, h, w, c]
    ensures Permute([n, h, w, c], NhwcToNchwAxis(4)) == [n, c, h, w]
  {
    assert NchwToNhwcAxis(4) == [0, 2, 3, 1];
    assert NhwcToNchwAxis(4) == [0, 3, 1, 2];
  }

  /** Transposing NCHW -> NHWC and then NHWC -> NCHW restores the dims, and
      so does the opposite round trip. */
  lemma TransposeRoundTrip(dims: seq<int>)
    ensures AxesInRange(NchwToNhwcAxis(|dims|)) && AxesInRange(NhwcToNchwAxis(|dims|))
    ensures Permute(Permute(dims, NchwToNhwcAxis(|dims|)), NhwcToNchwAxis(|dims|)) == dims
    ensures Permute(Permute(dims, NhwcToNchwAxis(|dims|)), NchwToNhwcAxis(|dims|)) == dims
  {
    var n := |dims|;
    AxesAreInversePermutations(n);
    var p := Permute(dims, NchwToNhwcAxis(n));
    var q := Permute(dims, NhwcToNchwAxis(n));
    assert forall i :: 0 <= i < n ==> Permute(p, NhwcToNchwAxis(n))[i] == dims[NchwToNhwcAxis(n)[NhwcToNchwAxis(n)[i]]];
    assert forall i :: 0 <= i < n ==> Permute(q, NchwToNhwcAxis(n))[i] == dims[NhwcToNchwAxis(n)[NchwToNhwcAxis(n)[i]]];
  }

  predicate AxesInRange(axis: seq<int>)
  {
    forall i :: 0 <= i < |axis| ==> 0 <= axis[i] < |axis|
  }

  /** The same order on both sides gives an empty axis; every pair other
      than NCHW/NHWC in either direction is refused. */
  lemma OrderPairs(src: DimOrder, dst: DimOrder, n: nat)
    ensures TransOrderAxis(src, dst, n).Ok? <==>
      src == dst || (src == NCHW && dst == NHWC) || (src == NHWC && dst == NCHW)
    ensures src == dst ==> TransOrderAxis(src, dst, n) == Ok([])
    ensures TransOrderAxis(src, dst, n).Ok? && src != dst ==> |TransOrderAxis(src, dst, n).value| == n
  {
  }

  // ---------------------------------------------------------------------
  // TransLayout

  /** The runtime call TransLayout issues (cnrtCastDataType,
      cnrtTransDataOrder, cnrtTransOrderAndCast) or the memcpy it falls
      back to. */
  datatype TransStep =
    | CastStep(count: int, from: DataType, to: DataType)
    | TransposeStep(dims: seq<int>, axis: seq<int>, dtype: DataType)
    | TransposeCastStep(dims: seq<int>, axis: seq<int>, from: DataType, to: DataType)
    | CopyStep(bytes: int)

  /** TransLayout: a source order other than NHWC/NCHW is refused (false,
      nothing done); an unsupported order pair throws; otherwise bit 0 (the
      dtypes differ) and bit 1 (the axis is non-empty) select the step, and
      the result is the runtime's outcome, or true for the copy. */
  method TransLayout(src: DataLayout, dst: DataLayout, shape: Shape, runtime: Outcome)
    returns (r: Result<bool, OrderError>, step: Option<TransStep>)
    ensures src.order !in {NHWC, NCHW} ==> r == Ok(false) && step == None
    ensures src.order in {NHWC, NCHW} && TransOrderAxis(src.order, dst.order, |shape.dims|).Err? ==>
      r == Err(TransOrderAxis(src.order, dst.order, |shape.dims|).error) && step == None
    ensures src.order in {NHWC, NCHW} && TransOrderAxis(src.order, dst.order, |shape.dims|).Ok? ==>
      var axis := TransOrderAxis(src.order, dst.order, |shape.dims|).value;
      var count := DimProduct(shape.dims);
      step == Some(
        if src.dtype != dst.dtype && axis == [] then CastStep(count, src.dtype, dst.dtype)
        else if src.dtype == dst.dtype && axis != [] then TransposeStep(shape.dims, axis, src.dtype)
        else if src.dtype != dst.dtype then TransposeCastStep(shape.dims, axis, src.dtype, dst.dtype)
        else CopyStep(count * GetTypeSize(src.dtype))) &&
      r == Ok(step.value.CopyStep? || runtime == Success)
  {
    if src.order != NHWC && src.order != NCHW {
      return Ok(false), None;
    }
    var bits := 0;
    if src.dtype != dst.dtype {
      bits := bits + 1;
    }
    var axisOrError := GetTransOrderAxis(src.order, dst.order, |shape.dims|);
    if axisOrError.Err? {
      return Err(axisOrError.error), None;
    }
    var axis := axisOrError.value;
    if axis != [] {
      bits := bits + 2;
    }
    var size := BatchDataCount(shape);
    if bits == 1 {
      step := Some(CastStep(size, src.dtype, dst.dtype));
      r := Ok(runtime == Success);
    } else if bits == 2 {
      step := Some(TransposeStep(shape.dims, axis, src.dtype));
      r := Ok(runtime == Success);
    } else if bits == 3 {
      step := Some(TransposeCastStep(shape.dims, axis, src.dtype, dst.dtype));
      r := Ok(runtime == Success);
    } else {
      step := Some(CopyStep(size * GetTypeSize(src.dtype)));
      r := Ok(true);
    }
  }

  // ---------------------------------------------------------------------
  // The NCHW -> NHWC loop on an empty shape

  /** The loop bound `n_dims - 1` of the NCHW -> NHWC branch, computed in
      size_t: it wraps to SIZE_MAX when n_dims is 0. */
  function AsWrittenNchwLoopBound(n: nat): (b: int)
    requires n <= SIZE_MAX
    ensures n >= 1 ==> b == n - 1
    ensures n == 0 ==> b == SIZE_MAX
  {
    (n - 1) % (SIZE_MAX + 1)
  }

  /** As written, the loop writes axis[i] for every 1 <= i < bound; for an
      empty shape the first such index is already past the zero-length
      vector. */
  lemma AsWrittenEmptyShapeWritesPastEnd()
    ensures 1 < AsWrittenNchwLoopBound(0) && !(1 < 0)
  {
  }
}
