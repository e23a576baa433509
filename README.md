# NDArray construction and paired reductions (libnd4j), in Dafny

This project models two sequential parts of libnd4j, the C++ core of
deeplearning4j. Both work on a strided N-dimensional array: a shape
descriptor (dimensions, strides, element-wise stride `ews`, order `'c'` or
`'f'`, data type, empty bit) together with a flat buffer.

- **NDArrayFactory** (`factory.dfy`, `ndarray.dfy`). Each factory allocates an
  `NDArray` object step by step: it builds a shape descriptor, allocates or
  wraps a buffer, fills it (memset, memcpy or assign), and sets the two
  ownership flags.
  - `NDArray` is a class. Its fields are the descriptor, the buffer (an
    `array`), `isBuffAlloc` and `isShapeAlloc`.
  - Each factory is a method with `fresh` contracts, stating the
    complete new object.
  - Exceptions become a `Result` whose failure carries the source's exception
    kind and message.
- **Reduce3** (`reduce3.dfy`). This computes `z = reduce(op, x, y)` over
  strided buffers. It covers:
  - `execScalar`, with its three addressing strategies;
  - `exec` along dimensions over TAD slices (tensor along dimension);
  - `exec` over a precomputed TAD table;
  - `execAll`, which reduces every x-slice against every y-slice.

  The operator is a record `{startingValue, op, update, postProcess,
  extraParamsLen}` of pure functions. Each kernel is a method whose loops
  write `z` in place. Each is proved against specification functions: `Fold`,
  `Gather`, `ScalarReduction`, `AxisCell` and `TadCell`.
- **Shape helpers** (`shapes.dfy`, `shape_words.dfy`). The `shape::` helpers
  (canonical strides, `updateStrides`, `length`, index-to-offset, `tadLength`
  and `isScalar`) live outside the modelled files. Here they are
  specification functions with their defining properties proved.
  - `ShapeWords` gives the flat word layout of a descriptor,
    `[rank, dims, strides, extra, ews, order]`, and proves its round trip.

Modelling choices:

- The element type of the inputs is generic.
- The accumulator and output type of the reductions is `int`.
- The caller's `extraParams` pointer is a `seq<int>`; the empty sequence
  stands for `nullptr`.
- `DataTypeUtils::fromT<T>()` is passed in as a `dtype` parameter.
- The bit pattern that `memset(…, 0, …)` writes is passed in as a `zero`
  parameter.
- Order characters are kept as `char`, because the source treats them
  asymmetrically:
  - `create(order, shape, dtype)` picks column-major for any order other
    than `'c'`;
  - `create_(…)` picks row-major for any order other than `'f'`;
  - `updateStrides` then writes row-major strides for `'c'` and column-major
    strides for anything else, and stores the order as given.

Notes on the code's behaviour:

- `lengthOf` of an empty array is 0.
- `create(other, copyStrides)` does not copy the buffer contents.
- `create(order, shape, data)` makes no size check.
- `create_(values)` and `create_(order, shape, data)` do not copy the data:
  the copy is commented out in the source.

## Model

| member | source | states |
|---|---|---|
| Shapes.CStridesAt | libnd4j/blas/cpu/NDArrayFactory.cpp:458-479 | the row-major strides the `'c'` descriptor receives: stride k is the product of the dimensions after k |
| Shapes.FStridesAt | libnd4j/blas/cpu/NDArrayFactory.cpp:458-479 | the column-major strides of any other order: stride k is the product of the dimensions before k |
| Shapes.ScaledCOffset | libnd4j/include/loops/cpu/reduce3.cpp:56-85 | under row-major strides multiplied by k, logical element i lies at offset k·i, so index-to-offset addressing and `i * ews` addressing coincide |
| Shapes.RowMajorOffsetIsIdentity | libnd4j/include/loops/cpu/reduce3.cpp:79-80 | for a canonical row-major descriptor, getIndexOffset maps logical index i to i |
| ShapeWords.Encode | libnd4j/blas/cpu/NDArrayFactory.cpp:206-214 | a rank-r descriptor occupies shapeInfoLength(r) = 2r + 4 words |
| ShapeWords.DecodeEncode | libnd4j/blas/cpu/NDArrayFactory.cpp:203-229 | reading back the words of a descriptor gives the same descriptor, so a full copy of the words duplicates it |
| ShapeWords.ToBytesFromBytes | libnd4j/blas/cpu/NDArrayFactory.cpp:218 | the little-endian bytes of a word read back as the same bytes, so a byte-wise memcpy is modelled exactly |
| ShapeWords.WordOfBytes | libnd4j/blas/cpu/NDArrayFactory.cpp:218 | every eight bytes are the memory image of exactly the word it returns |
| ShapeWords.PartialWord | libnd4j/blas/cpu/NDArrayFactory.cpp:218 | a word overwritten in its first k bytes holds the source word's first k bytes and its own previous last 8 − k bytes |
| ShapeWords.CopyWordsAsWritten | libnd4j/blas/cpu/NDArrayFactory.cpp:218 | the copy as written, a memcpy of shapeInfoLength bytes: the first shapeInfoLength / 8 words come from the source; the next word, when shapeInfoLength % 8 > 0, takes its first shapeInfoLength % 8 bytes from the source and keeps its other bytes; every later word keeps its previous contents |
| ShapeWords.AsWrittenLosesLastDimension | libnd4j/blas/cpu/NDArrayFactory.cpp:218 | for every rank ≥ 1, the rank-th word (the last dimension) is not copied |
| ShapeWords.AsWrittenCopyCounterexample | libnd4j/blas/cpu/NDArrayFactory.cpp:218 | a 3×4 FLOAT32 descriptor copied as written into zeroed memory does not read back as itself |
| Arrays.NDArray.constructor | libnd4j/blas/cpu/NDArrayFactory.cpp:204 | a default NDArray has no descriptor and no buffer, and owns neither |
| Arrays.NDArray.Wrap | libnd4j/blas/cpu/NDArrayFactory.cpp:543 | NDArray(buffer, shapeInfo) holds exactly the given buffer and descriptor and owns neither |
| Arrays.NDArray.SetShapeInfo | libnd4j/blas/cpu/NDArrayFactory.cpp:225 | setShapeInfo replaces the descriptor and changes nothing else |
| Arrays.NDArray.SetBuffer | libnd4j/blas/cpu/NDArrayFactory.cpp:224 | setBuffer replaces the buffer and changes nothing else |
| Arrays.NDArray.TriggerAllocationFlag | libnd4j/blas/cpu/NDArrayFactory.cpp:226 | both ownership flags take the given values; nothing else changes |
| Arrays.NDArray.Assign | libnd4j/blas/cpu/NDArrayFactory.cpp:372-376 | assign(value): each of the lengthOf() elements becomes value; the rest of the buffer is unchanged |
| Arrays.NDArray.AssignFrom | libnd4j/blas/cpu/NDArrayFactory.cpp:551-555 | assign(other): fails exactly when other's length is neither 1 nor this length; a length-1 source is broadcast; an equal-length source is copied by linear buffer position; on failure the buffer is unchanged |
| Factory.Memcpy | libnd4j/blas/cpu/NDArrayFactory.cpp:31-42 | memcpy_: the buffer prefix equals the vector; the rest is unchanged |
| Factory.Memset | libnd4j/blas/cpu/NDArrayFactory.cpp:475 | every element becomes the all-zero value |
| Factory.NewFromShape | libnd4j/blas/cpu/NDArrayFactory.cpp:119-137 | create_(shape): a row-major descriptor of the shape, with a buffer of product(shape) elements; owns both |
| Factory.NewVector | libnd4j/blas/cpu/NDArrayFactory.cpp:142-159 | create_(values): a vector descriptor of \|values\| elements and a buffer of that length (contents not copied); owns both |
| Factory.CreateFromVector | libnd4j/blas/cpu/NDArrayFactory.cpp:513-527 | create(values): a vector descriptor whose buffer holds exactly the values; owns both |
| Factory.Scalar | libnd4j/blas/cpu/NDArrayFactory.cpp:174-191 | scalar(value), also create_(value): a rank-0 descriptor and a one-element buffer holding value; owns both |
| Factory.ScalarDirect | libnd4j/blas/cpu/NDArrayFactory.cpp:251-268 | _scalar(value), also create(value): a rank-0 descriptor and a one-element buffer holding value; owns both |
| Factory.ZeroScalar | libnd4j/blas/cpu/NDArrayFactory.cpp:233-248 | _scalar(dataType): rank 0, with the one element assigned 0 |
| Factory.CreateScalarOfType | libnd4j/blas/cpu/NDArrayFactory.cpp:482-493 | create(dtype): rank 0, with the one element memset to zero; owns both |
| Factory.CopyShapeWords | libnd4j/blas/cpu/NDArrayFactory.cpp:214-218 | the fresh shapeInfo allocation receives every word of the source descriptor (intended behaviour) |
| Factory.CopyDescriptor | libnd4j/blas/cpu/NDArrayFactory.cpp:203-229 | create(other, copyStrides) with the whole descriptor copied (intended behaviour; see Findings): same dims, dtype, order and empty bit as other's descriptor. The strides and ews are kept when copyStrides is set; otherwise they are the canonical strides of other's order and ews 1. The buffer is fresh, of other's length, not copied. Owns both |
| Factory.Create | libnd4j/blas/cpu/NDArrayFactory.cpp:458-479 | create(order, shape, dtype): row-major for `'c'` and column-major otherwise; product(shape) elements, all zero; owns both |
| Factory.NewShape | libnd4j/blas/cpu/NDArrayFactory.cpp:575-596 | the descriptor create_(order, …) ends with: the given dims, dtype and order, ews 1, and the canonical strides of the order |
| Factory.New | libnd4j/blas/cpu/NDArrayFactory.cpp:558-600 | create_(order, shape, dtype) fails with invalid_argument exactly when rank > 32. Otherwise it returns product(shape) zero elements under NewShape, and owns both |
| Factory.NewWithData | libnd4j/blas/cpu/NDArrayFactory.cpp:296-344 | create_(order, shape, data) fails exactly when rank > 32 (invalid_argument) or when \|data\| ≠ product(shape) (runtime_error). Otherwise the buffer has \|data\| elements under NewShape, and owns both |
| Factory.CreateWithData | libnd4j/blas/cpu/NDArrayFactory.cpp:604-609 | create(order, shape, data): the create(order, shape) array with data copied to its front; the remaining elements stay zero |
| Factory.Empty | libnd4j/blas/cpu/NDArrayFactory.cpp:540-547 | empty(): a rank-0 descriptor with the empty bit, no buffer, length 0; owns the shape only |
| Factory.ValueOf | libnd4j/blas/cpu/NDArrayFactory.cpp:372-376 | valueOf(shape, value, order) fails exactly where create_ does, with create_'s invalid_argument and rank message. Otherwise every one of the product(shape) elements equals value, and it owns both |
| Factory.ValueOfArray | libnd4j/blas/cpu/NDArrayFactory.cpp:551-555 | valueOf(shape, NDArray, order) fails exactly for rank > 32 (invalid_argument with the rank message) or a length that assign refuses (runtime_error "Lengths of arrays are mismatched"). Otherwise it broadcasts a one-element value or copies an equal-length value by buffer position, and owns both |
| Factory.WrapBuffer | libnd4j/blas/cpu/NDArrayFactory.cpp:623-639 | create(buffer, order, shape) fails with invalid_argument exactly when rank > 32. Otherwise it wraps the caller's buffer itself under createShapeInfo(order, shape), with flags (false, true) |
| Reduce3.ScalarExtras | libnd4j/include/loops/cpu/reduce3.cpp:49-52 | the three extra slots start at 0; slot 2 takes extraParams[0] exactly when a pointer is given |
| Reduce3.LocalExtras | libnd4j/include/loops/cpu/reduce3.cpp:212-218 | the per-slice extras are extraParamsLen copies of startingValue |
| Reduce3.NewLocalExtraParams | libnd4j/include/loops/cpu/reduce3.cpp:212-218 | the allocation-and-fill loop yields LocalExtras |
| Reduce3.FoldStrided | libnd4j/include/loops/cpu/reduce3.cpp:66-69 | the loop over `x[base + ews*j]` and `y[base + ews*j]` computes Fold of the gathered pairs from the given seed |
| Reduce3.FoldOffsets | libnd4j/include/loops/cpu/reduce3.cpp:76-83 | the loop through the offset maps of two shapes computes Fold of the gathered pairs from the given seed |
| Reduce3.ReduceSlice | libnd4j/include/loops/cpu/reduce3.cpp:341-363 | one slice pair reduced with fresh per-slice extras and finalised with the slice length (TadCell) |
| Reduce3.ExecScalar | libnd4j/include/loops/cpu/reduce3.cpp:34-86 | z[0] = postProcess(fold, length(x)). With equal orders, ews ≥ 1 and monotone strides, the fold reads `x[i*xEws]`, `y[i*yEws]` (`x[i]`, `y[i]` for unit strides); otherwise it reads through the offset maps. No other cell of z changes |
| Reduce3.ReduceAxisSlice | libnd4j/include/loops/cpu/reduce3.cpp:205-309 | output cell i by the branch the layouts select (AxisCell) |
| Reduce3.Exec | libnd4j/include/loops/cpu/reduce3.cpp:103-312 | a scalar z is execScalar with the locally zeroed extras, not the caller's. Otherwise each z[i] for i < length(z) is AxisCell i, and later cells are unchanged |
| Reduce3.ExecTads | libnd4j/include/loops/cpu/reduce3.cpp:317-365 | tads = length(x) / tadLength. Each z[r] for r < tads reduces x-slice r against the whole of y, finalised with tadLength. Later cells are unchanged |
| Reduce3.PairSlotOrder | libnd4j/include/loops/cpu/reduce3.cpp:398-407 | pairs later in row-major order get strictly later slots `r*yTads+g`, so no slot is shared |
| Reduce3.PairSlotBound | libnd4j/include/loops/cpu/reduce3.cpp:398-407 | every pair's slot is below xTads·yTads |
| Reduce3.ExecAll | libnd4j/include/loops/cpu/reduce3.cpp:371-430 | z[r*yTads+g] is x-slice r against y-slice g over xTadLength elements, for every r < xTads and g < yTads. Each of the xTads·yTads cells is written exactly once, and later cells are unchanged |
| Reduce3.StridedIsOffset | libnd4j/include/loops/cpu/reduce3.cpp:56-85 | for a row-major layout scaled by ews, the offset of element j is `ews*j` |
| Reduce3.GatherStridedIsGather | libnd4j/include/loops/cpu/reduce3.cpp:56-85 | for such a layout, the ews walk and the offset map read the same elements in the same order |
| Reduce3.ScalarPathsAgree | libnd4j/include/loops/cpu/reduce3.cpp:56-85 | when both operands are row-major layouts scaled by their ews, execScalar's result equals the offset-path reduction, whichever branch is taken |
| Reduce3.SeededFoldAgrees | libnd4j/include/loops/cpu/reduce3.cpp:222-229 | seeding with the first pair's op and folding from j = 1 equals folding from startingValue, when startingValue is a left identity of update |
| Reduce3.EwsCellMatchesTadCell | libnd4j/include/loops/cpu/reduce3.cpp:207-235 | the equal-length ews branch agrees with the offset-map reduction of the same slices, for non-empty row-major TADs and an identity starting value |

## Left out

- Workspaces and arena allocation are not modelled: every allocation is a
  fresh Dafny object, and deallocation is implicit.
- OpenMP `parallel`/`simd` pragmas and the thread-count heuristics
  (`OmpLaunchHelper`, `TAD_THRESHOLD`) are not modelled. Loops run
  sequentially. Each output cell is written by one iteration of the
  `parallel for`, so running the cells in parallel does not change them.
  Within a cell, `#pragma omp simd reduction(sumT:…)` (reduce3.cpp:60, 68,
  77, 224, 261, 301, 353 and 417) lets lanes keep partial accumulators that
  are combined with `sumT`. The model's sequential left fold (`Fold`,
  `FoldStrided`, `FoldOffsets`) matches that only when `update` is
  associative and commutative and agrees with `sumT`. The within-cell
  accumulation order is not modelled.
- The order-mismatch branch of the axis `exec` (reduce3.cpp:126-154) is left
  out. `Reduce3.Exec` requires equal orders when z is not a scalar. That
  branch accumulates into the existing z contents through
  `shape::indexOffset` casts, which are not part of this model.
- The TADs of the axis `exec` are parameters. `shape::TAD` construction is
  not part of this model.
- The `dimension` argument is likewise not modelled: the tadLength that the
  axis `exec` computes from it is shadowed in the same-order branch.
- `linspace` (NDArrayFactory.cpp:389-398) and `vector`
  (NDArrayFactory.cpp:410-431) are not modelled. They are not part of the
  modelled core: `linspace` computes its step in floating point, and
  `vector` builds a descriptor it never stores.
- The `DISPATCH_BY_OPNUM_TT` wrappers and opNum dispatch are not modelled.
  The op is a parameter.
- Ops that write into their extra-parameter slots are not modelled. The
  extras are passed by value.
- Floating point is not modelled. Z is `int`, and op, update and postProcess
  are arbitrary functions.
- Integer widths are not modelled: `int` and `unsigned int` loop counters,
  and `Nd4jLong` overflow.
- `NDArray::assign(const NDArray&)` is not in the modelled files. Its
  behaviour is assumed: broadcast a one-element source, copy an
  equal-length source, refuse any other length. The copy goes by linear
  buffer position, whatever the orders and strides of the two arrays: when
  they differ (an `'f'` value assigned into the `'c'` result of
  `valueOf`), the model does not move elements to matching logical
  positions, and it does not promise what the real assign does there.
- `shape::strideDescendingCAscendingF` is modelled without its row-vector
  special case, as strictly decreasing strides for `'c'` and strictly
  increasing strides for `'f'`.
- `shape::getIndexOffset`'s ews shortcut is not modelled. Offsets are always
  computed from coordinates.
- `ShapeBuilders::createShapeInfo` is modelled as shapeBuffer followed by
  updateStrides for the order. Its handling of empty `shape` lists is not
  part of this model.
- The per-byte reinterpretation of the `void*` and `int8_t*` buffers is not
  modelled. Buffers are typed arrays of T.
- The extra word of the descriptor is packed as `2·typeCode + emptyBit`.
  The real ArrayOptions bit layout is not part of this model.
- Reduce3.ExecScalar, Reduce3.Exec, Reduce3.ExecTads and Reduce3.ExecAll:
  the length argument the kernels pass to `shape::getIndexOffset` and
  `shape::indexOffset` is not modelled (`length(x)` for y at
  reduce3.cpp:80; `tadLength` at :263-264, :303-304 and :356; `xTadLength`
  for the y slice at :420). The model always splits a logical index into
  coordinates by the operand's own dimensions. When the length passed
  differs from the operand's own length, the model does not promise the
  offsets the source computes. `shape::getIndexOffset` is not part of this
  model.
- Reduce3.ExecScalar, Reduce3.Exec, Reduce3.ExecTads and Reduce3.ExecAll:
  the kernels take the element count from `shape::length`, the product of
  the dimensions (`Length`). They ignore the empty bit, which
  `NDArray::lengthOf` (`Arrays.LengthOfShape`) honours. For an empty rank-0
  x, the model's `ExecScalar` therefore folds one pair, while the array
  layer reports length 0.
- Reduce3.ExecTads and Reduce3.ExecAll: require a non-zero tadLength. With a
  zero tadLength the source divides by zero at reduce3.cpp:332 and
  :387-388, which is undefined behaviour in C++.
- ShapeWords.CopyWordsAsWritten: words are taken to be 64-bit two's
  complement values stored little-endian, as on the x86 and ARM targets;
  the byte order of a big-endian target is not modelled.
- Factory.CreateWithData: requires |data| ≤ product(shape). The source
  writes past the buffer otherwise.
- Factory.NewVector and Factory.NewWithData: the buffer contents are left
  unspecified, because the source's copy is commented out.
- Reduce3.ScalarPathsAgree and Reduce3.EwsCellMatchesTadCell: these are
  stated for row-major layouts only.
  - For column-major operands, the ews walk reads elements in memory order
    rather than row-major logical order. It then agrees only for an order
    insensitive update.
  - For a zero-length TAD, the equal-length ews branch still reads the first
    pair (reduce3.cpp:222) and returns postProcess(op(x0, y0)) instead of
    postProcess(startingValue).

## Findings

| source | as written | input that shows it | evidently intended | confidence | as-written member | corrected member |
|---|---|---|---|---|---|---|
| libnd4j/blas/cpu/NDArrayFactory.cpp:218 | `memcpy(shapeInfo, other->getShapeInfo(), shapeLength)` copies shapeLength bytes, i.e. only shapeLength / 8 of the shapeLength words | a rank-2 3×4 descriptor (8 words): only the first word is copied, so the dimensions of the copy are whatever the allocation held. The strides, ews and order are lost too when copyStrides is set; otherwise `updateStrides` (:220-221) recomputes the strides from the lost dimensions, sets ews 1 and stores other's order, and `setDataType` (:223) rewrites the type in every case | copy `shapeLength * sizeof(Nd4jLong)` bytes, the whole descriptor | not executed | ShapeWords.CopyWordsAsWritten, ShapeWords.AsWrittenCopyCounterexample | Factory.CopyDescriptor (with ShapeWords.DecodeEncode) |
