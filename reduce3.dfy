/**
 * Reduce3: paired reductions z = reduce(op, x, y) over strided buffers
 * (distances, dot products, equality within epsilon, ...). The operator is
 * abstract; the accumulator and output type Z is modelled as int, the input
 * type X is generic. Loops run sequentially: every output cell is computed by
 * exactly one iteration, so the OpenMP schedule does not change any cell.
 */
module Reduce3 {
  import opened Shapes

  /**
   * A reduction operator (the OpType template argument): its starting value,
   * the pairwise op, the accumulating update, the final postProcess (given the
   * number of elements reduced) and the number of per-slice extra slots.
   * extraParams is passed by value: ops that write into their extra slots are
   * not modelled.
   */
  datatype Reduce3Op<!X> = Reduce3Op(
    startingValue: int,
    op: (X, X, seq<int>) -> int,
    update: (int, int, seq<int>) -> int,
    postProcess: (int, int, seq<int>) -> int,
    extraParamsLen: nat)

  /** A tensor-along-dimension decomposition: the sub-shape and one base offset per slice. */
  datatype Tad = Tad(shape: ShapeInfo, offsets: seq<int>)

  // ---------------------------------------------------------------------
  // Specification functions

  /** update(... update(update(acc, op(xs[0], ys[0])), op(xs[1], ys[1])) ..., op(xs[n-1], ys[n-1])). */
  function Fold<X>(o: Reduce3Op<X>, xs: seq<X>, ys: seq<X>, acc: int, opExtras: seq<int>, updExtras: seq<int>): int
    requires |xs| == |ys|
    decreases |xs|
  {
    if |xs| == 0 then acc
    else
      var n := |xs| - 1;
      o.update(Fold(o, xs[..n], ys[..n], acc, opExtras, updExtras), o.op(xs[n], ys[n], opExtras), updExtras)
  }

  /** Address of element j on an element-wise-stride walk. */
  function StridedIndex(base: int, step: int, j: int): int
  {
    base + step * j
  }

  predicate ReadableStrided<X>(buf: seq<X>, base: int, step: int, first: nat, count: nat)
  {
    forall j :: first <= j < first + count ==> 0 <= StridedIndex(base, step, j) < |buf|
  }

  /** buf[base + step * j] for j = first, ..., first + count - 1. */
  function GatherStrided<X>(buf: seq<X>, base: int, step: int, first: nat, count: nat): (r: seq<X>)
    requires ReadableStrided(buf, base, step, first, count)
    ensures |r| == count
  {
    seq(count, k requires 0 <= k < count => buf[StridedIndex(base, step, first + k)])
  }

  predicate ReadableOffsets<X>(buf: seq<X>, base: int, s: ShapeInfo, n: nat)
    requires s.WellFormed()
  {
    forall j :: 0 <= j < n ==> 0 <= base + Offset(j, s) < |buf|
  }

  /** buf[base + Offset(j, s)] for the first n logical elements j of s. */
  function Gather<X>(buf: seq<X>, base: int, s: ShapeInfo, n: nat): (r: seq<X>)
    requires s.WellFormed() && ReadableOffsets(buf, base, s, n)
    ensures |r| == n
  {
    seq(n, j requires 0 <= j < n => buf[base + Offset(j, s)])
  }

  /** The extra-parameter slots of execScalar: three zeros, the third replaced by the caller's first slot if there is one. */
  function ScalarExtras(extraParams: seq<int>): (e: seq<int>)
    ensures |e| == 3 && e[0] == 0 && e[1] == 0
    ensures e[2] == (if |extraParams| > 0 then extraParams[0] else 0)
  {
    var zeroed := [0, 0, 0];
    if |extraParams| == 0 then zeroed else zeroed[2 := extraParams[0]]
  }

  /** The zeroed extraParamsVals array of exec. */
  function ZeroExtras(): seq<int>
  {
    [0, 0, 0]
  }

  /** A fresh per-slice extra-params array: extraParamsLen copies of startingValue. */
  function LocalExtras<X>(o: Reduce3Op<X>): (e: seq<int>)
    ensures |e| == o.extraParamsLen
    ensures forall k :: 0 <= k < |e| ==> e[k] == o.startingValue
  {
    seq(o.extraParamsLen, _ => o.startingValue)
  }

  /** execScalar's test for walking both buffers by their element-wise strides. */
  predicate LinearScalarPath(xShape: ShapeInfo, yShape: ShapeInfo)
  {
    && xShape.order == yShape.order
    && xShape.ews >= 1 && yShape.ews >= 1
    && StrideDescendingCAscendingF(xShape) && StrideDescendingCAscendingF(yShape)
  }

  /** Every read execScalar makes is in bounds (length(x) elements of both operands). */
  predicate ScalarReadable<X>(x: seq<X>, xShape: ShapeInfo, y: seq<X>, yShape: ShapeInfo)
  {
    && xShape.WellFormed() && yShape.WellFormed()
    && var n := Length(xShape);
    if LinearScalarPath(xShape, yShape)
    then ReadableStrided(x, 0, xShape.ews, 0, n) && ReadableStrided(y, 0, yShape.ews, 0, n)
    else ReadableOffsets(x, 0, xShape, n) && ReadableOffsets(y, 0, yShape, n)
  }

  /** The value execScalar stores in z[0]. */
  function ScalarReduction<X>(o: Reduce3Op<X>, x: seq<X>, xShape: ShapeInfo, extraParams: seq<int>, y: seq<X>, yShape: ShapeInfo): int
    requires ScalarReadable(x, xShape, y, yShape)
  {
    var n := Length(xShape);
    var e := ScalarExtras(extraParams);
    var acc :=
      if LinearScalarPath(xShape, yShape)
      then Fold(o, GatherStrided(x, 0, xShape.ews, 0, n), GatherStrided(y, 0, yShape.ews, 0, n), o.startingValue, e, e)
      else Fold(o, Gather(x, 0, xShape, n), Gather(y, 0, yShape, n), o.startingValue, e, e);
    o.postProcess(acc, n, e)
  }

  /** The reference scalar reduction: both operands read through the index-to-offset map. */
  function OffsetScalarReduction<X>(o: Reduce3Op<X>, x: seq<X>, xShape: ShapeInfo, extraParams: seq<int>, y: seq<X>, yShape: ShapeInfo): int
    requires xShape.WellFormed() && yShape.WellFormed()
    requires ReadableOffsets(x, 0, xShape, Length(xShape)) && ReadableOffsets(y, 0, yShape, Length(xShape))
  {
    var n := Length(xShape);
    var e := ScalarExtras(extraParams);
    o.postProcess(Fold(o, Gather(x, 0, xShape, n), Gather(y, 0, yShape, n), o.startingValue, e, e), n, e)
  }

  /** One slice reduced through both sub-shapes' offset maps, with fresh per-slice extras. */
  function TadCell<X>(o: Reduce3Op<X>, x: seq<X>, xS: ShapeInfo, xOff: int, y: seq<X>, yS: ShapeInfo, yOff: int, n: nat): int
    requires xS.WellFormed() && yS.WellFormed()
    requires ReadableOffsets(x, xOff, xS, n) && ReadableOffsets(y, yOff, yS, n)
  {
    var local := LocalExtras(o);
    o.postProcess(Fold(o, Gather(x, xOff, xS, n), Gather(y, yOff, yS, n), o.startingValue, local, local), n, local)
  }

  // ----- the axis form of exec (same order of x and y)

  /** xTadBigger: x has more elements than y. */
  predicate XTadBigger(xShape: ShapeInfo, yShape: ShapeInfo)
  {
    Length(xShape) > Length(yShape)
  }

  /** The slice length exec iterates over: that of the TAD of the larger operand (y's when the lengths are equal). */
  function IterationTadLength(xShape: ShapeInfo, yShape: ShapeInfo, xTad: Tad, yTad: Tad): nat
  {
    if XTadBigger(xShape, yShape) then Length(xTad.shape) else Length(yTad.shape)
  }

  /** Both operands' and both TADs' element-wise strides are at least 1 (the larger/smaller pair is x's and y's in some order). */
  predicate EwsAxisPath(xShape: ShapeInfo, yShape: ShapeInfo, xTad: Tad, yTad: Tad)
  {
    xShape.ews >= 1 && yShape.ews >= 1 && xTad.shape.ews >= 1 && yTad.shape.ews >= 1
  }

  /** The number of update steps after the seed: j runs from 1 to n - 1 (none when n is 0, but the seed is still read). */
  function SeedCount(n: nat): nat
  {
    if n >= 1 then n - 1 else 0
  }

  /**
   * Equal lengths, element-wise strides: the accumulator is seeded with the
   * op of the slices' first elements and updated for j = 1 .. n-1 at
   * offset + ews * j; per-slice extras start at startingValue.
   */
  function EwsCell<X>(o: Reduce3Op<X>, x: seq<X>, y: seq<X>, xTad: Tad, yTad: Tad, n: nat, i: nat): int
    requires i < |xTad.offsets| && i < |yTad.offsets|
    requires ReadableStrided(x, xTad.offsets[i], xTad.shape.ews, 0, SeedCount(n) + 1)
    requires ReadableStrided(y, yTad.offsets[i], yTad.shape.ews, 0, SeedCount(n) + 1)
  {
    var local := LocalExtras(o);
    var xOff, yOff := xTad.offsets[i], yTad.offsets[i];
    var xEws, yEws := xTad.shape.ews, yTad.shape.ews;
    var m := SeedCount(n);
    assert StridedIndex(xOff, xEws, 0) == xOff && StridedIndex(yOff, yEws, 0) == yOff;
    var seed := o.op(x[xOff], y[yOff], local);
    var acc := Fold(o, GatherStrided(x, xOff, xEws, 1, m), GatherStrided(y, yOff, yEws, 1, m), seed, local, local);
    o.postProcess(acc, n, local)
  }

  /** Where the unequal-length branch reads x and y: the larger operand at its TAD i, the smaller one whole from offset 0. */
  function BroadcastXOffset(xShape: ShapeInfo, yShape: ShapeInfo, xTad: Tad, i: nat): int
    requires XTadBigger(xShape, yShape) ==> i < |xTad.offsets|
  {
    if XTadBigger(xShape, yShape) then xTad.offsets[i] else 0
  }

  function BroadcastYOffset(xShape: ShapeInfo, yShape: ShapeInfo, yTad: Tad, i: nat): int
    requires !XTadBigger(xShape, yShape) ==> i < |yTad.offsets|
  {
    if !XTadBigger(xShape, yShape) then yTad.offsets[i] else 0
  }

  function BroadcastXShape(xShape: ShapeInfo, yShape: ShapeInfo, xTad: Tad): ShapeInfo
  {
    if XTadBigger(xShape, yShape) then xTad.shape else xShape
  }

  function BroadcastYShape(xShape: ShapeInfo, yShape: ShapeInfo, yTad: Tad): ShapeInfo
  {
    if !XTadBigger(xShape, yShape) then yTad.shape else yShape
  }

  /** The unequal-length branch: op sees the caller's extraParams, update and postProcess the zeroed ones. */
  function BroadcastCell<X>(o: Reduce3Op<X>, x: seq<X>, xShape: ShapeInfo, extraParams: seq<int>, y: seq<X>, yShape: ShapeInfo, xTad: Tad, yTad: Tad, n: nat, i: nat): int
    requires XTadBigger(xShape, yShape) ==> i < |xTad.offsets|
    requires !XTadBigger(xShape, yShape) ==> i < |yTad.offsets|
    requires BroadcastXShape(xShape, yShape, xTad).WellFormed() && BroadcastYShape(xShape, yShape, yTad).WellFormed()
    requires ReadableOffsets(x, BroadcastXOffset(xShape, yShape, xTad, i), BroadcastXShape(xShape, yShape, xTad), n)
    requires ReadableOffsets(y, BroadcastYOffset(xShape, yShape, yTad, i), BroadcastYShape(xShape, yShape, yTad), n)
  {
    var xs := Gather(x, BroadcastXOffset(xShape, yShape, xTad, i), BroadcastXShape(xShape, yShape, xTad), n);
    var ys := Gather(y, BroadcastYOffset(xShape, yShape, yTad, i), BroadcastYShape(xShape, yShape, yTad), n);
    o.postProcess(Fold(o, xs, ys, o.startingValue, extraParams, ZeroExtras()), n, ZeroExtras())
  }

  /** Some element-wise stride below 1: both slices read through their TAD offset maps, zeroed extras throughout. */
  function StridedCell<X>(o: Reduce3Op<X>, x: seq<X>, y: seq<X>, xTad: Tad, yTad: Tad, n: nat, i: nat): int
    requires i < |xTad.offsets| && i < |yTad.offsets|
    requires xTad.shape.WellFormed() && yTad.shape.WellFormed()
    requires ReadableOffsets(x, xTad.offsets[i], xTad.shape, n) && ReadableOffsets(y, yTad.offsets[i], yTad.shape, n)
  {
    var xs := Gather(x, xTad.offsets[i], xTad.shape, n);
    var ys := Gather(y, yTad.offsets[i], yTad.shape, n);
    o.postProcess(Fold(o, xs, ys, o.startingValue, ZeroExtras(), ZeroExtras()), n, ZeroExtras())
  }

  /** Every read the chosen branch of exec makes for output cell i is in bounds. */
  predicate AxisCellReadable<X>(x: seq<X>, xShape: ShapeInfo, y: seq<X>, yShape: ShapeInfo, xTad: Tad, yTad: Tad, i: nat)
    requires xShape.WellFormed() && yShape.WellFormed() && xTad.shape.WellFormed() && yTad.shape.WellFormed()
  {
    var n := IterationTadLength(xShape, yShape, xTad, yTad);
    if EwsAxisPath(xShape, yShape, xTad, yTad) && Length(xShape) == Length(yShape) then
      && i < |xTad.offsets| && i < |yTad.offsets|
      && ReadableStrided(x, xTad.offsets[i], xTad.shape.ews, 0, SeedCount(n) + 1)
      && ReadableStrided(y, yTad.offsets[i], yTad.shape.ews, 0, SeedCount(n) + 1)
    else if EwsAxisPath(xShape, yShape, xTad, yTad) then
      && (XTadBigger(xShape, yShape) ==> i < |xTad.offsets|)
      && (!XTadBigger(xShape, yShape) ==> i < |yTad.offsets|)
      && ReadableOffsets(x, BroadcastXOffset(xShape, yShape, xTad, i), BroadcastXShape(xShape, yShape, xTad), n)
      && ReadableOffsets(y, BroadcastYOffset(xShape, yShape, yTad, i), BroadcastYShape(xShape, yShape, yTad), n)
    else
      && i < |xTad.offsets| && i < |yTad.offsets|
      && ReadableOffsets(x, xTad.offsets[i], xTad.shape, n)
      && ReadableOffsets(y, yTad.offsets[i], yTad.shape, n)
  }

  /** The value exec stores in output cell i when z is not a scalar. */
  function AxisCell<X>(o: Reduce3Op<X>, x: seq<X>, xShape: ShapeInfo, extraParams: seq<int>, y: seq<X>, yShape: ShapeInfo, xTad: Tad, yTad: Tad, i: nat): int
    requires xShape.WellFormed() && yShape.WellFormed() && xTad.shape.WellFormed() && yTad.shape.WellFormed()
    requires AxisCellReadable(x, xShape, y, yShape, xTad, yTad, i)
  {
    var n := IterationTadLength(xShape, yShape, xTad, yTad);
    if EwsAxisPath(xShape, yShape, xTad, yTad) && Length(xShape) == Length(yShape) then EwsCell(o, x, y, xTad, yTad, n, i)
    else if EwsAxisPath(xShape, yShape, xTad, yTad) then BroadcastCell(o, x, xShape, extraParams, y, yShape, xTad, yTad, n, i)
    else StridedCell(o, x, y, xTad, yTad, n, i)
  }

  // ---------------------------------------------------------------------
  // The fast paths agree with the offset paths

  /** For a row-major layout scaled by ews, logical element j sits at base + ews * j. */
  lemma StridedIsOffset(s: ShapeInfo, base: int, j: nat)
    requires s.strides == Scale(CStrides(s.dims), s.ews) && j < Length(s)
    ensures s.WellFormed() && base + Offset(j, s) == StridedIndex(base, s.ews, j)
  {
    ScaledCOffset(j, s.dims, s.ews);
  }

  /** For such a layout the element-wise-stride walk reads exactly the elements the offset map reads, in the same order. */
  lemma GatherStridedIsGather<X>(buf: seq<X>, base: int, s: ShapeInfo, n: nat)
    requires s.strides == Scale(CStrides(s.dims), s.ews) && n <= Length(s)
    requires ReadableStrided(buf, base, s.ews, 0, n)
    ensures s.WellFormed() && ReadableOffsets(buf, base, s, n)
    ensures GatherStrided(buf, base, s.ews, 0, n) == Gather(buf, base, s, n)
  {
    forall j | 0 <= j < n
      ensures base + Offset(j, s) == StridedIndex(base, s.ews, j)
    {
      StridedIsOffset(s, base, j);
    }
  }

  /**
   * execScalar's strided paths compute what the offset path would, whenever
   * both operands have the row-major layout scaled by their element-wise
   * stride and y has at least length(x) elements.
   */
  lemma ScalarPathsAgree<X>(o: Reduce3Op<X>, x: seq<X>, xShape: ShapeInfo, extraParams: seq<int>, y: seq<X>, yShape: ShapeInfo)
    requires xShape.strides == Scale(CStrides(xShape.dims), xShape.ews)
    requires yShape.strides == Scale(CStrides(yShape.dims), yShape.ews)
    requires Length(xShape) <= Length(yShape)
    requires ScalarReadable(x, xShape, y, yShape)
    ensures ReadableOffsets(x, 0, xShape, Length(xShape)) && ReadableOffsets(y, 0, yShape, Length(xShape))
    ensures ScalarReduction(o, x, xShape, extraParams, y, yShape) == OffsetScalarReduction(o, x, xShape, extraParams, y, yShape)
  {
    if LinearScalarPath(xShape, yShape) {
      GatherStridedIsGather(x, 0, xShape, Length(xShape));
      GatherStridedIsGather(y, 0, yShape, Length(xShape));
    }
  }

  /**
   * Seeding the accumulator with the first pair's op and folding the rest
   * gives the plain fold from startingValue, provided startingValue is a
   * left identity of update.
   */
  lemma {:induction false} SeededFoldAgrees<X>(o: Reduce3Op<X>, xs: seq<X>, ys: seq<X>, e: seq<int>)
    requires |xs| == |ys| >= 1
    requires forall v :: o.update(o.startingValue, v, e) == v
    ensures Fold(o, xs[1..], ys[1..], o.op(xs[0], ys[0], e), e, e) == Fold(o, xs, ys, o.startingValue, e, e)
    decreases |xs|
  {
    var n := |xs| - 1;
    if n == 0 {
      assert Fold(o, xs[..0], ys[..0], o.startingValue, e, e) == o.startingValue;
    } else {
      SeededFoldAgrees(o, xs[..n], ys[..n], e);
      assert xs[1..][..n - 1] == xs[..n][1..];
      assert ys[1..][..n - 1] == ys[..n][1..];
    }
  }

  /**
   * The equal-length element-wise-stride branch of exec agrees with the
   * reduction of the same slices through their offset maps, for non-empty
   * row-major TADs and an update with startingValue as left identity.
   */
  lemma EwsCellMatchesTadCell<X>(o: Reduce3Op<X>, x: seq<X>, y: seq<X>, xTad: Tad, yTad: Tad, n: nat, i: nat)
    requires i < |xTad.offsets| && i < |yTad.offsets|
    requires xTad.shape.strides == Scale(CStrides(xTad.shape.dims), xTad.shape.ews)
    requires yTad.shape.strides == Scale(CStrides(yTad.shape.dims), yTad.shape.ews)
    requires 1 <= n <= Length(xTad.shape) && n <= Length(yTad.shape)
    requires ReadableStrided(x, xTad.offsets[i], xTad.shape.ews, 0, n)
    requires ReadableStrided(y, yTad.offsets[i], yTad.shape.ews, 0, n)
    requires forall v :: o.update(o.startingValue, v, LocalExtras(o)) == v
    ensures ReadableOffsets(x, xTad.offsets[i], xTad.shape, n) && ReadableOffsets(y, yTad.offsets[i], yTad.shape, n)
    ensures EwsCell(o, x, y, xTad, yTad, n, i) == TadCell(o, x, xTad.shape, xTad.offsets[i], y, yTad.shape, yTad.offsets[i], n)
  {
    var xOff, yOff := xTad.offsets[i], yTad.offsets[i];
    GatherStridedIsGather(x, xOff, xTad.shape, n);
    GatherStridedIsGather(y, yOff, yTad.shape, n);
    var xs := Gather(x, xOff, xTad.shape, n);
    var ys := Gather(y, yOff, yTad.shape, n);
    assert GatherStrided(x, xOff, xTad.shape.ews, 1, n - 1) == xs[1..];
    assert GatherStrided(y, yOff, yTad.shape.ews, 1, n - 1) == ys[1..];
    assert StridedIndex(xOff, xTad.shape.ews, 0) == xOff && StridedIndex(yOff, yTad.shape.ews, 0) == yOff;
    SeededFoldAgrees(o, xs, ys, LocalExtras(o));
  }

  // ---------------------------------------------------------------------
  // Loops

  /** The accumulation loop over an element-wise-stride walk, j = first .. first + count - 1. */
  method FoldStrided<X>(o: Reduce3Op<X>, x: array<X>, xBase: int, xStep: int, y: array<X>, yBase: int, yStep: int,
                        first: nat, count: nat, acc0: int, opExtras: seq<int>, updExtras: seq<int>) returns (acc: int)
    requires ReadableStrided(x[..], xBase, xStep, first, count) && ReadableStrided(y[..], yBase, yStep, first, count)
    ensures acc == Fold(o, GatherStrided(x[..], xBase, xStep, first, count), GatherStrided(y[..], yBase, yStep, first, count), acc0, opExtras, updExtras)
  {
    acc := acc0;
    for k := 0 to count
      invariant acc == Fold(o, GatherStrided(x[..], xBase, xStep, first, k), GatherStrided(y[..], yBase, yStep, first, k), acc0, opExtras, updExtras)
    {
      var xs := GatherStrided(x[..], xBase, xStep, first, k + 1);
      var ys := GatherStrided(y[..], yBase, yStep, first, k + 1);
      assert xs[..k] == GatherStrided(x[..], xBase, xStep, first, k);
      assert ys[..k] == GatherStrided(y[..], yBase, yStep, first, k);
      acc := o.update(acc, o.op(x[StridedIndex(xBase, xStep, first + k)], y[StridedIndex(yBase, yStep, first + k)], opExtras), updExtras);
    }
  }

  /** The accumulation loop through the index-to-offset maps of two shapes. */
  method FoldOffsets<X>(o: Reduce3Op<X>, x: array<X>, xBase: int, xS: ShapeInfo, y: array<X>, yBase: int, yS: ShapeInfo,
                        n: nat, acc0: int, opExtras: seq<int>, updExtras: seq<int>) returns (acc: int)
    requires xS.WellFormed() && yS.WellFormed()
    requires ReadableOffsets(x[..], xBase, xS, n) && ReadableOffsets(y[..], yBase, yS, n)
    ensures acc == Fold(o, Gather(x[..], xBase, xS, n), Gather(y[..], yBase, yS, n), acc0, opExtras, updExtras)
  {
    acc := acc0;
    for j := 0 to n
      invariant acc == Fold(o, Gather(x[..], xBase, xS, j), Gather(y[..], yBase, yS, j), acc0, opExtras, updExtras)
    {
      var xs := Gather(x[..], xBase, xS, j + 1);
      var ys := Gather(y[..], yBase, yS, j + 1);
      assert xs[..j] == Gather(x[..], xBase, xS, j);
      assert ys[..j] == Gather(y[..], yBase, yS, j);
      acc := o.update(acc, o.op(x[xBase + Offset(j, xS)], y[yBase + Offset(j, yS)], opExtras), updExtras);
    }
  }

  /** new Z[extraParamsLen], every slot set to startingValue. */
  method NewLocalExtraParams<X>(o: Reduce3Op<X>) returns (local: seq<int>)
    ensures local == LocalExtras(o)
  {
    var slots := new int[o.extraParamsLen];
    for k := 0 to o.extraParamsLen
      invariant forall t :: 0 <= t < k ==> slots[t] == o.startingValue
    {
      slots[k] := o.startingValue;
    }
    local := slots[..];
  }

  /** One slice of x against one slice of y through their offset maps, with fresh per-slice extras. */
  method ReduceSlice<X>(o: Reduce3Op<X>, x: array<X>, xS: ShapeInfo, xOff: int, y: array<X>, yS: ShapeInfo, yOff: int, n: nat) returns (v: int)
    requires xS.WellFormed() && yS.WellFormed()
    requires ReadableOffsets(x[..], xOff, xS, n) && ReadableOffsets(y[..], yOff, yS, n)
    ensures v == TadCell(o, x[..], xS, xOff, y[..], yS, yOff, n)
  {
    var local := NewLocalExtraParams(o);
    var sv := FoldOffsets(o, x, xOff, xS, y, yOff, yS, n, o.startingValue, local, local);
    v := o.postProcess(sv, n, local);
  }

  // ---------------------------------------------------------------------
  // The kernels

  /**
   * Reduce3::execScalar: reduce all length(x) elements of x against y into
   * z[0]. Unit strides read x[i], y[i]; other element-wise strides read
   * x[i * xEws], y[i * yEws]; any other layout goes through the offset maps.
   */
  method ExecScalar<X>(o: Reduce3Op<X>, x: array<X>, xShape: ShapeInfo, extraParams: seq<int>, y: array<X>, yShape: ShapeInfo, z: array<int>)
    requires z as object != x as object && z as object != y as object
    requires z.Length >= 1
    requires ScalarReadable(x[..], xShape, y[..], yShape)
    modifies z
    ensures z[0] == ScalarReduction(o, x[..], xShape, extraParams, y[..], yShape)
    ensures z[1..] == old(z[1..])
  {
    var n := Length(xShape);
    var e := ScalarExtras(extraParams);
    var startingVal := o.startingValue;
    if LinearScalarPath(xShape, yShape) {
      if xShape.ews == 1 && yShape.ews == 1 {
        for i := 0 to n
          invariant startingVal == Fold(o, GatherStrided(x[..], 0, 1, 0, i), GatherStrided(y[..], 0, 1, 0, i), o.startingValue, e, e)
        {
          assert StridedIndex(0, 1, i) == i;
          assert GatherStrided(x[..], 0, 1, 0, i + 1)[..i] == GatherStrided(x[..], 0, 1, 0, i);
          assert GatherStrided(y[..], 0, 1, 0, i + 1)[..i] == GatherStrided(y[..], 0, 1, 0, i);
          startingVal := o.update(startingVal, o.op(x[i], y[i], e), e);
        }
        z[0] := o.postProcess(startingVal, n, e);
      } else {
        startingVal := FoldStrided(o, x, 0, xShape.ews, y, 0, yShape.ews, 0, n, startingVal, e, e);
        z[0] := o.postProcess(startingVal, n, e);
      }
    } else {
      startingVal := FoldOffsets(o, x, 0, xShape, y, 0, yShape, n, startingVal, e, e);
    }
    z[0] := o.postProcess(startingVal, n, e);
  }

  /** Output cell i of the axis form of exec, by the branch the layouts select. */
  method ReduceAxisSlice<X>(o: Reduce3Op<X>, x: array<X>, xShape: ShapeInfo, extraParams: seq<int>, y: array<X>, yShape: ShapeInfo,
                            xTad: Tad, yTad: Tad, i: nat) returns (v: int)
    requires xShape.WellFormed() && yShape.WellFormed() && xTad.shape.WellFormed() && yTad.shape.WellFormed()
    requires AxisCellReadable(x[..], xShape, y[..], yShape, xTad, yTad, i)
    ensures v == AxisCell(o, x[..], xShape, extraParams, y[..], yShape, xTad, yTad, i)
  {
    var tadLength := IterationTadLength(xShape, yShape, xTad, yTad);
    if EwsAxisPath(xShape, yShape, xTad, yTad) && Length(xShape) == Length(yShape) {
      var local := NewLocalExtraParams(o);
      var offset, yOffset := xTad.offsets[i], yTad.offsets[i];
      assert StridedIndex(offset, xTad.shape.ews, 0) == offset && StridedIndex(yOffset, yTad.shape.ews, 0) == yOffset;
      var sv := o.op(x[offset], y[yOffset], local);
      sv := FoldStrided(o, x, offset, xTad.shape.ews, y, yOffset, yTad.shape.ews, 1, SeedCount(tadLength), sv, local, local);
      v := o.postProcess(sv, tadLength, local);
    } else if EwsAxisPath(xShape, yShape, xTad, yTad) {
      var xTadBigger := XTadBigger(xShape, yShape);
      var xOffset := if xTadBigger then xTad.offsets[i] else 0;
      var yOffset := if !xTadBigger then yTad.offsets[i] else 0;
      var xShapeInf := if xTadBigger then xTad.shape else xShape;
      var yShapeInf := if !xTadBigger then yTad.shape else yShape;
      var start := FoldOffsets(o, x, xOffset, xShapeInf, y, yOffset, yShapeInf, tadLength, o.startingValue, extraParams, ZeroExtras());
      v := o.postProcess(start, tadLength, ZeroExtras());
    } else {
      var start := FoldOffsets(o, x, xTad.offsets[i], xTad.shape, y, yTad.offsets[i], yTad.shape, tadLength, o.startingValue, ZeroExtras(), ZeroExtras());
      v := o.postProcess(start, tadLength, ZeroExtras());
    }
  }

  /**
   * Reduce3::exec along dimensions, given the TADs of x and y: a scalar z is
   * reduced whole by execScalar with the zeroed extras; otherwise output cell
   * i (i < length(z)) reduces TAD i as AxisCell describes.
   */
  method Exec<X>(o: Reduce3Op<X>, x: array<X>, xShape: ShapeInfo, extraParams: seq<int>, y: array<X>, yShape: ShapeInfo,
                 z: array<int>, zShape: ShapeInfo, xTad: Tad, yTad: Tad)
    requires z as object != x as object && z as object != y as object
    requires xShape.WellFormed() && yShape.WellFormed() && xTad.shape.WellFormed() && yTad.shape.WellFormed()
    requires IsScalar(zShape) ==> z.Length >= 1 && ScalarReadable(x[..], xShape, y[..], yShape)
    requires !IsScalar(zShape) ==> xShape.order == yShape.order && Length(zShape) <= z.Length
    requires !IsScalar(zShape) ==> forall i :: 0 <= i < Length(zShape) ==> AxisCellReadable(x[..], xShape, y[..], yShape, xTad, yTad, i)
    modifies z
    ensures IsScalar(zShape) ==> z[0] == ScalarReduction(o, x[..], xShape, ZeroExtras(), y[..], yShape) && z[1..] == old(z[1..])
    ensures !IsScalar(zShape) ==> forall i :: 0 <= i < Length(zShape) ==> z[i] == AxisCell(o, x[..], xShape, extraParams, y[..], yShape, xTad, yTad, i)
    ensures !IsScalar(zShape) ==> forall k :: Length(zShape) <= k < z.Length ==> z[k] == old(z[k])
  {
    var extraParamsVals := ZeroExtras();
    if IsScalar(zShape) {
      ExecScalar(o, x, xShape, extraParamsVals, y, yShape, z);
      assert ScalarExtras(extraParamsVals) == ScalarExtras(ZeroExtras());
      return;
    }
    var zLen := Length(zShape);
    for i := 0 to zLen
      invariant forall t :: 0 <= t < i ==> z[t] == AxisCell(o, x[..], xShape, extraParams, y[..], yShape, xTad, yTad, t)
      invariant forall k :: i <= k < z.Length ==> z[k] == old(z[k])
    {
      var v := ReduceAxisSlice(o, x, xShape, extraParams, y, yShape, xTad, yTad, i);
      z[i] := v;
    }
  }

  /** The number of TADs: length(s) / tadLength. */
  function TadCount(s: ShapeInfo, axes: seq<int>): nat
    requires ValidAxes(s, axes) && TadLength(s, axes) > 0
  {
    Length(s) / TadLength(s, axes)
  }

  /**
   * Reduce3::exec with a precomputed TAD table: tads = length(x) / tadLength
   * slices of x, slice r at tadOffsets[r] through tadShape, each reduced
   * against the first tadLength elements of the whole of y into z[r].
   */
  method ExecTads<X>(o: Reduce3Op<X>, x: array<X>, xShape: ShapeInfo, y: array<X>, yShape: ShapeInfo, z: array<int>,
                     axes: seq<int>, tadShape: ShapeInfo, tadOffsets: seq<int>)
    requires z as object != x as object && z as object != y as object
    requires yShape.WellFormed() && tadShape.WellFormed()
    requires ValidAxes(xShape, axes) && TadLength(xShape, axes) > 0
    requires TadCount(xShape, axes) <= |tadOffsets|
    requires TadCount(xShape, axes) <= z.Length
    requires forall r :: 0 <= r < TadCount(xShape, axes) ==> ReadableOffsets(x[..], tadOffsets[r], tadShape, TadLength(xShape, axes))
    requires ReadableOffsets(y[..], 0, yShape, TadLength(xShape, axes))
    modifies z
    ensures forall r :: 0 <= r < TadCount(xShape, axes) ==>
      z[r] == TadCell(o, x[..], tadShape, tadOffsets[r], y[..], yShape, 0, TadLength(xShape, axes))
    ensures forall k :: TadCount(xShape, axes) <= k < z.Length ==> z[k] == old(z[k])
  {
    var tadLength := TadLength(xShape, axes);
    var tads := TadCount(xShape, axes);
    for r := 0 to tads
      invariant forall t :: 0 <= t < r ==> z[t] == TadCell(o, x[..], tadShape, tadOffsets[t], y[..], yShape, 0, tadLength)
      invariant forall k :: r <= k < z.Length ==> z[k] == old(z[k])
    {
      var v := ReduceSlice(o, x, tadShape, tadOffsets[r], y, yShape, 0, tadLength);
      z[r] := v;
    }
  }

  lemma MulBounds(a: int, d: int)
    requires d > 0
    ensures a >= 1 ==> a * d >= d
    ensures a <= -1 ==> a * d <= -d
  {
  }

  /** The output slot of pair (r, g) in execAll: ri = r * yTads + g. */
  function PairSlot(r: nat, g: nat, yTads: nat): nat
  {
    r * yTads + g
  }

  /** Pairs visited later in row-major order occupy strictly later slots, so no slot is written twice. */
  lemma PairSlotOrder(r': nat, g': nat, r: nat, g: nat, yTads: nat)
    requires g' < yTads
    requires r' < r || (r' == r && g' < g)
    ensures PairSlot(r', g', yTads) < PairSlot(r, g, yTads)
  {
    MulBounds(r - r', yTads);
    assert r * yTads - r' * yTads == (r - r') * yTads;
  }

  /** Every pair's slot lies below xTads * yTads. */
  lemma PairSlotBound(r: nat, g: nat, xTads: nat, yTads: nat)
    requires r < xTads && g < yTads
    ensures PairSlot(r, g, yTads) < xTads * yTads
  {
    MulBounds(xTads - r, yTads);
    assert xTads * yTads - r * yTads == (xTads - r) * yTads;
  }

  /**
   * Reduce3::execAll: every x-slice r (< xTads) against every y-slice g
   * (< yTads), both over xTadLength elements, into z[r * yTads + g]; each of
   * the xTads * yTads cells is written exactly once (writes counts the
   * stores per cell).
   */
  method ExecAll<X>(o: Reduce3Op<X>, x: array<X>, xShape: ShapeInfo, y: array<X>, yShape: ShapeInfo, z: array<int>, axes: seq<int>,
                    xTadShape: ShapeInfo, xOffsets: seq<int>, yTadShape: ShapeInfo, yOffsets: seq<int>) returns (ghost writes: seq<nat>)
    requires z as object != x as object && z as object != y as object
    requires xTadShape.WellFormed() && yTadShape.WellFormed()
    requires ValidAxes(xShape, axes) && ValidAxes(yShape, axes)
    requires TadLength(xShape, axes) > 0 && TadLength(yShape, axes) > 0
    requires TadCount(xShape, axes) <= |xOffsets|
    requires TadCount(yShape, axes) <= |yOffsets|
    requires (TadCount(xShape, axes)) * (TadCount(yShape, axes)) <= z.Length
    requires forall r :: 0 <= r < TadCount(xShape, axes) ==> ReadableOffsets(x[..], xOffsets[r], xTadShape, TadLength(xShape, axes))
    requires forall g :: 0 <= g < TadCount(yShape, axes) ==> ReadableOffsets(y[..], yOffsets[g], yTadShape, TadLength(xShape, axes))
    modifies z
    ensures var xTads, yTads := TadCount(xShape, axes), TadCount(yShape, axes);
      forall r, g :: 0 <= r < xTads && 0 <= g < yTads ==>
        && PairSlot(r, g, yTads) < xTads * yTads
        && z[PairSlot(r, g, yTads)] == TadCell(o, x[..], xTadShape, xOffsets[r], y[..], yTadShape, yOffsets[g], TadLength(xShape, axes))
    ensures var cells := (TadCount(xShape, axes)) * (TadCount(yShape, axes));
      && (forall k :: cells <= k < z.Length ==> z[k] == old(z[k]))
      && |writes| == cells && (forall k :: 0 <= k < cells ==> writes[k] == 1)
  {
    var xTadLength := TadLength(xShape, axes);
    var yTadLength := TadLength(yShape, axes);
    var xTads := Length(xShape) / xTadLength;
    var yTads := Length(yShape) / yTadLength;
    writes := seq(xTads * yTads, _ => 0);
    for r := 0 to xTads
      invariant forall r', g' :: 0 <= r' < r && 0 <= g' < yTads ==>
        && PairSlot(r', g', yTads) < xTads * yTads
        && z[PairSlot(r', g', yTads)] == TadCell(o, x[..], xTadShape, xOffsets[r'], y[..], yTadShape, yOffsets[g'], xTadLength)
      invariant forall k :: r * yTads <= k < z.Length ==> z[k] == old(z[k])
      invariant |writes| == xTads * yTads && forall k :: 0 <= k < |writes| ==> writes[k] == (if k < r * yTads then 1 else 0)
    {
      for g := 0 to yTads
        invariant forall r', g' :: ((0 <= r' < r && 0 <= g' < yTads) || (r' == r && 0 <= g' < g)) ==>
          && PairSlot(r', g', yTads) < xTads * yTads
          && z[PairSlot(r', g', yTads)] == TadCell(o, x[..], xTadShape, xOffsets[r'], y[..], yTadShape, yOffsets[g'], xTadLength)
        invariant forall k :: r * yTads + g <= k < z.Length ==> z[k] == old(z[k])
        invariant |writes| == xTads * yTads && forall k :: 0 <= k < |writes| ==> writes[k] == (if k < r * yTads + g then 1 else 0)
      {
        var ri := r * yTads + g;
        forall r', g' | (0 <= r' < r && 0 <= g' < yTads) || (r' == r && 0 <= g' < g)
          ensures PairSlot(r', g', yTads) < ri
        {
          PairSlotOrder(r', g', r, g, yTads);
        }
        PairSlotBound(r, g, xTads, yTads);
        var v := ReduceSlice(o, x, xTadShape, xOffsets[r], y, yTadShape, yOffsets[g], xTadLength);
        z[ri] := v;
        writes := writes[ri := writes[ri] + 1];
      }
      assert r * yTads + yTads == (r + 1) * yTads;
    }
  }
}
