/**
 * The shape descriptor of an N-dimensional array and the shape helpers the
 * factory and the reduction kernels call (shape::shapeBuffer,
 * shape::updateStrides, shape::length, shape::getIndexOffset, shape::tadLength,
 * ...). Those helpers live outside the modelled files; here they are given as
 * specification functions, and their defining properties are proved as lemmas.
 */
module Shapes {

  /** Largest rank a descriptor may have (MAX_RANK). */
  const MAX_RANK: nat := 32

  /** Element data type tags (nd4j::DataType), as far as the factory names them. */
  datatype DataType = BOOL | INT8 | UINT8 | INT16 | INT32 | INT64 | HALF | FLOAT32 | DOUBLE

  /**
   * A shape descriptor: dimension sizes, strides (in elements), the
   * element-wise stride, the order character ('c' row-major, 'f' column-major),
   * the data type and the "empty" property bit.
   */
  datatype ShapeInfo = ShapeInfo(
    dims: seq<nat>,
    strides: seq<int>,
    ews: int,
    order: char,
    dtype: DataType,
    isEmpty: bool)
  {
    function Rank(): nat { |dims| }

    /** One stride per dimension. */
    predicate WellFormed() { |strides| == |dims| }
  }

  /** Product of the dimension sizes, taken from the last dimension backwards. */
  function Product(dims: seq<nat>): nat
  {
    if |dims| == 0 then 1 else Product(dims[..|dims| - 1]) * dims[|dims| - 1]
  }

  /** shape::length: the number of elements the dimensions describe. */
  function Length(s: ShapeInfo): nat
  {
    Product(s.dims)
  }

  /** Every stride multiplied by k. */
  function Scale(s: seq<int>, k: int): (r: seq<int>)
    ensures |r| == |s|
    ensures forall i :: 0 <= i < |s| ==> r[i] == s[i] * k
  {
    seq(|s|, i requires 0 <= i < |s| => s[i] * k)
  }

  /** Row-major strides: the last dimension has stride 1. */
  function CStrides(dims: seq<nat>): (r: seq<int>)
    ensures |r| == |dims|
  {
    if |dims| == 0 then []
    else Scale(CStrides(dims[..|dims| - 1]), dims[|dims| - 1]) + [1]
  }

  /** Column-major strides: the first dimension has stride 1. */
  function FStrides(dims: seq<nat>): (r: seq<int>)
    ensures |r| == |dims|
  {
    if |dims| == 0 then []
    else FStrides(dims[..|dims| - 1]) + [Product(dims[..|dims| - 1])]
  }

  /** The strides shape::updateStrides writes: row-major for 'c', column-major for any other order. */
  function CanonicalStrides(dims: seq<nat>, order: char): seq<int>
  {
    if order == 'c' then CStrides(dims) else FStrides(dims)
  }

  /** shape::shapeBuffer: a row-major descriptor with element-wise stride 1. */
  function ShapeBuffer(dims: seq<nat>, dtype: DataType): ShapeInfo
  {
    ShapeInfo(dims, CStrides(dims), 1, 'c', dtype, false)
  }

  /** shape::shapeBufferFortran: a column-major descriptor with element-wise stride 1. */
  function ShapeBufferFortran(dims: seq<nat>, dtype: DataType): ShapeInfo
  {
    ShapeInfo(dims, FStrides(dims), 1, 'f', dtype, false)
  }

  /** shape::updateStrides: canonical strides for the given order, which is stored as given; ews becomes 1. */
  function UpdateStrides(s: ShapeInfo, order: char): ShapeInfo
  {
    s.(strides := CanonicalStrides(s.dims, order), ews := 1, order := order)
  }

  /** ArrayOptions::setDataType. */
  function SetDataType(s: ShapeInfo, dtype: DataType): ShapeInfo
  {
    s.(dtype := dtype)
  }

  /** ShapeBuilders::createScalarShapeInfo: rank 0. */
  function ScalarShapeInfo(dtype: DataType): ShapeInfo
  {
    ShapeBuffer([], dtype)
  }

  /** ShapeBuilders::createVectorShapeInfo: rank 1 of the given length. */
  function VectorShapeInfo(dtype: DataType, length: nat): ShapeInfo
  {
    ShapeBuffer([length], dtype)
  }

  /** ShapeBuilders::createShapeInfo: the given dimensions with the strides of the given order. */
  function CreateShapeInfo(dtype: DataType, order: char, dims: seq<nat>): ShapeInfo
  {
    UpdateStrides(ShapeBuffer(dims, dtype), order)
  }

  /** shape::isScalar: rank 0, or rank 1 or 2 with every dimension equal to 1. */
  predicate IsScalar(s: ShapeInfo)
  {
    |s.dims| == 0
    || (|s.dims| == 1 && s.dims[0] == 1)
    || (|s.dims| == 2 && s.dims[0] == 1 && s.dims[1] == 1)
  }

  /** shape::strideDescendingCAscendingF: strictly decreasing strides for 'c', strictly increasing for 'f'. */
  predicate StrideDescendingCAscendingF(s: ShapeInfo)
  {
    if s.order == 'c' then forall i :: 0 < i < |s.strides| ==> s.strides[i - 1] > s.strides[i]
    else if s.order == 'f' then forall i :: 0 < i < |s.strides| ==> s.strides[i - 1] < s.strides[i]
    else false
  }

  /**
   * The buffer offset of logical element i: its row-major coordinates,
   * peeled off from the last dimension, each multiplied by its stride
   * (shape::getIndexOffset, shape::indexOffset).
   */
  function IndexOffset(i: nat, dims: seq<nat>, strides: seq<int>): int
    requires |strides| == |dims|
    decreases |dims|
  {
    if |dims| == 0 then 0
    else
      var n := |dims| - 1;
      var d := dims[n];
      if d == 0 then 0
      else
        var rest: nat := i / d;
        var coord: int := i % d;
        coord * strides[n] + IndexOffset(rest, dims[..n], strides[..n])
  }

  function Offset(i: nat, s: ShapeInfo): int
    requires s.WellFormed()
  {
    IndexOffset(i, s.dims, s.strides)
  }

  /** axis lies within the rank of s. */
  predicate ValidAxes(s: ShapeInfo, axes: seq<int>)
  {
    forall j :: 0 <= j < |axes| ==> 0 <= axes[j] < |s.dims|
  }

  /** shape::tadLength: the product of the sizes of the reduced axes. */
  function TadLength(s: ShapeInfo, axes: seq<int>): nat
    requires ValidAxes(s, axes)
  {
    if |axes| == 0 then 1
    else TadLength(s, axes[..|axes| - 1]) * s.dims[axes[|axes| - 1]]
  }

  // ---------------------------------------------------------------------
  // Properties of the helpers

  lemma {:induction false} ProductSuffix(dims: seq<nat>, k: nat)
    requires k < |dims|
    ensures Product(dims[k..]) == Product(dims[k..|dims| - 1]) * dims[|dims| - 1]
  {
    var t := dims[k..];
    assert t[..|t| - 1] == dims[k..|dims| - 1];
  }

  /** Row-major stride k is the product of the dimensions after k. */
  lemma {:induction false} CStridesAt(dims: seq<nat>, k: nat)
    requires k < |dims|
    ensures CStrides(dims)[k] == Product(dims[k + 1..])
  {
    var n := |dims| - 1;
    var p := dims[..n];
    if k == n {
      assert dims[k + 1..] == [];
    } else {
      CStridesAt(p, k);
      assert CStrides(dims)[k] == CStrides(p)[k] * dims[n];
      ProductSuffix(dims, k + 1);
      assert dims[k + 1..n] == p[k + 1..];
    }
  }

  /** Column-major stride k is the product of the dimensions before k. */
  lemma {:induction false} FStridesAt(dims: seq<nat>, k: nat)
    requires k < |dims|
    ensures FStrides(dims)[k] == Product(dims[..k])
  {
    var n := |dims| - 1;
    var p := dims[..n];
    if k < n {
      FStridesAt(p, k);
      assert p[..k] == dims[..k];
    }
  }

  lemma DivBelow(i: nat, p: nat, d: nat)
    requires d > 0 && i < p * d
    ensures i / d < p
  {
  }

  lemma DivModRecombine(i: nat, d: nat, k: int)
    requires d > 0
    ensures (i % d) * k + (d * k) * (i / d) == k * i
  {
    var q, m := i / d, i % d;
    assert i == d * q + m;
    calc {
      m * k + (d * k) * q;
      == { assert (d * k) * q == (d * q) * k; }
      m * k + (d * q) * k;
      == 
      (m + d * q) * k;
    }
  }

  lemma MulAssoc(a: int, b: int, c: int)
    ensures (a * b) * c == a * (b * c)
  {
  }

  lemma ScaleCStridesSplit(dims: seq<nat>, k: int)
    requires |dims| > 0
    ensures var n := |dims| - 1;
      Scale(CStrides(dims), k)[n] == k &&
      Scale(CStrides(dims), k)[..n] == Scale(CStrides(dims[..n]), dims[n] * k)
  {
    var n := |dims| - 1;
    var st := Scale(CStrides(dims), k);
    var p := dims[..n];
    var d := dims[n];
    var cp := CStrides(p);
    assert CStrides(dims) == Scale(cp, d) + [1];
    forall j | 0 <= j < n ensures st[..n][j] == Scale(cp, d * k)[j] {
      var c := cp[j];
      assert CStrides(dims)[j] == c * d;
      assert st[j] == (c * d) * k;
      MulAssoc(c, d, k);
    }
  }

  /**
   * When the strides are the row-major strides times k, the offset of logical
   * element i is k * i: the strided general path and the ews path of the
   * kernels read the same elements.
   */
  lemma {:induction false} ScaledCOffset(i: nat, dims: seq<nat>, k: int)
    requires i < Product(dims)
    ensures IndexOffset(i, dims, Scale(CStrides(dims), k)) == k * i
    decreases |dims|
  {
    if |dims| > 0 {
      var n := |dims| - 1;
      var p := dims[..n];
      var d := dims[n];
      var st := Scale(CStrides(dims), k);
      assert d > 0;
      ScaleCStridesSplit(dims, k);
      var q: nat, m := i / d, i % d;
      DivBelow(i, Product(p), d);
      ScaledCOffset(q, p, d * k);
      assert IndexOffset(q, p, st[..n]) == (d * k) * q;
      assert IndexOffset(i, dims, st) == m * st[n] + IndexOffset(q, dims[..n], st[..n]);
      DivModRecombine(i, d, k);
    }
  }

  /** The row-major canonical descriptor maps logical index i to offset i. */
  lemma RowMajorOffsetIsIdentity(s: ShapeInfo, i: nat)
    requires s.strides == CStrides(s.dims) && i < Length(s)
    ensures Offset(i, s) == i
  {
    ScaledCOffset(i, s.dims, 1);
    assert Scale(CStrides(s.dims), 1) == CStrides(s.dims);
  }
}
