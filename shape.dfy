// The inference server's tensor Shape (infer_server/include/shape.h): a
// vector of dimensions with size-dependent accessors and element counts.
module TensorShape {
  import opened Common

  /** A shape is its list of dimensions (C++ `int` values). */
  datatype Shape = Shape(dims: seq<int>)
  {
    function Size(): nat { |dims| }

    predicate Empty() { |dims| == 0 }

    /** BatchSize reads the first dimension; it is only defined on a
        non-empty shape. */
    function BatchSize(): (b: int)
      requires |dims| > 0
      ensures b == dims[0]
    {
      dims[0]
    }

    /** GetN/GetH/GetW/GetC read positions 0..3 of a 4-dimensional shape and
        give 0 for a shape of any other size. */
    function Get4(k: nat): (v: int)
      requires k < 4
      ensures |dims| != 4 ==> v == 0
      ensures |dims| == 4 ==> v == dims[k]
    {
      if |dims| == 4 then dims[k] else 0
    }

    function GetN(): int { Get4(0) }
    function GetH(): int { Get4(1) }
    function GetW(): int { Get4(2) }
    function GetC(): int { Get4(3) }
  }

  /** Product of a sequence of (possibly negative) dimensions; 1 when empty. */
  function DimProduct(s: seq<int>): int
  {
    if |s| == 0 then 1 else DimProduct(s[..|s| - 1]) * s[|s| - 1]
  }

  lemma {:induction false} DimProductSnoc(s: seq<int>, i: nat)
    requires i < |s|
    ensures DimProduct(s[..i + 1]) == DimProduct(s[..i]) * s[i]
  {
    assert s[..i + 1][..i] == s[..i];
  }

  /** DataCount: the product of every dimension but the first, in a loop. */
  method DataCount(shape: Shape) returns (cnt: int)
    ensures |shape.dims| <= 1 ==> cnt == 1
    ensures |shape.dims| > 1 ==> cnt == DimProduct(shape.dims[1..])
  {
    cnt := 1;
    var i := 1;
    while i < |shape.dims|
      invariant 1 <= i <= Max(1, |shape.dims|)
      invariant |shape.dims| > 1 ==> cnt == DimProduct(shape.dims[1..i])
      invariant |shape.dims| <= 1 ==> cnt == 1
    {
      DimProductSnoc(shape.dims[1..], i - 1);
      assert shape.dims[1..][..i - 1] == shape.dims[1..i];
      assert shape.dims[1..][..i] == shape.dims[1..i + 1];
      cnt := cnt * shape.dims[i];
      i := i + 1;
    }
    if |shape.dims| > 1 {
      assert i == |shape.dims|;
      assert shape.dims[1..i] == shape.dims[1..];
    }
  }

  /** BatchDataCount: the product of every dimension, in a loop. */
  method BatchDataCount(shape: Shape) returns (cnt: int)
    ensures cnt == DimProduct(shape.dims)
  {
    cnt := 1;
    var i := 0;
    while i < |shape.dims|
      invariant 0 <= i <= |shape.dims|
      invariant cnt == DimProduct(shape.dims[..i])
    {
      DimProductSnoc(shape.dims, i);
      cnt := cnt * shape.dims[i];
      i := i + 1;
    }
    assert shape.dims[..i] == shape.dims;
  }

  /** The batch count is the batch size times the per-sample count. */
  lemma {:induction false} BatchCountSplits(dims: seq<int>)
    requires |dims| > 0
    ensures DimProduct(dims) == dims[0] * DimProduct(dims[1..])
  {
    if |dims| > 1 {
      var init := dims[..|dims| - 1];
      BatchCountSplits(init);
      assert init[1..] == dims[1..][..|dims| - 2];
      assert dims[1..][|dims| - 2] == dims[|dims| - 1];
      calc {
        DimProduct(dims);
        DimProduct(init) * dims[|dims| - 1];
        dims[0] * DimProduct(init[1..]) * dims[|dims| - 1];
        dims[0] * DimProduct(dims[1..]);
      }
    } else {
      assert dims[1..] == [];
      assert dims[..0] == [];
    }
  }

  /** operator==: sizes compared first, then elements one by one. */
  method Equal(a: Shape, b: Shape) returns (eq: bool)
    ensures eq <==> (|a.dims| == |b.dims| && forall i :: 0 <= i < |a.dims| ==> a.dims[i] == b.dims[i])
    ensures eq <==> a == b
  {
    if |a.dims| != |b.dims| {
      return false;
    }
    var i := 0;
    while i < |a.dims|
      invariant 0 <= i <= |a.dims|
      invariant forall k :: 0 <= k < i ==> a.dims[k] == b.dims[k]
    {
      if a.dims[i] != b.dims[i] {
        return false;
      }
      i := i + 1;
    }
    assert a.dims == b.dims;
    return true;
  }

  /** operator!= is the negation of operator==. */
  method NotEqual(a: Shape, b: Shape) returns (ne: bool)
    ensures ne <==> a != b
  {
    var eq := Equal(a, b);
    ne := !eq;
  }
}
