/**
 * NDArrayFactory: each factory allocates a fresh NDArray, builds its shape
 * descriptor, allocates (or wraps) its buffer, fills it, and sets the two
 * ownership flags. `dtype` stands for DataTypeUtils::fromT<T>() and `zero`
 * for the element whose bytes are all zero (what memset writes).
 */
module Factory {
  import opened Wrappers
  import opened Shapes
  import ShapeWords
  import opened Arrays

  datatype FactoryError = InvalidArgument(message: string) | RuntimeError(message: string)

  const RANK_MESSAGE: string := "Rank of NDArray can't exceed 32"
  const SIZE_MESSAGE: string := "Data size doesn't match shape"

  /** memcpy_: the elements of v are written to the front of p, one by one. */
  method Memcpy<T>(p: array<T>, v: seq<T>)
    requires |v| <= p.Length
    modifies p
    ensures p[..|v|] == v
    ensures p[|v|..] == old(p[|v|..])
  {
    for e := 0 to |v|
      invariant p[..e] == v[..e]
      invariant p[|v|..] == old(p[|v|..])
    {
      p[e] := v[e];
    }
  }

  /** memset(p, 0, ...): every element becomes the all-zero value. */
  method Memset<T>(p: array<T>, zero: T)
    modifies p
    ensures forall i :: 0 <= i < p.Length ==> p[i] == zero
  {
    for e := 0 to p.Length
      invariant forall i :: 0 <= i < e ==> p[i] == zero
    {
      p[e] := zero;
    }
  }

  /** create_(shape): row-major, owns both, contents left as allocated. */
  method NewFromShape<T(0)>(shape: seq<nat>, dtype: DataType) returns (res: NDArray<T>)
    ensures fresh(res) && res.buffer != null && fresh(res.buffer)
    ensures res.shapeInfo == Some(ShapeBuffer(shape, dtype))
    ensures res.LengthOf() == Product(shape) && res.buffer.Length == Product(shape)
    ensures res.isBuffAlloc && res.isShapeAlloc
  {
    res := new NDArray();
    res.SetShapeInfo(SetDataType(ShapeBuffer(shape, dtype), dtype));
    var buffer := new T[res.LengthOf()];
    res.SetBuffer(buffer);
    res.TriggerAllocationFlag(true, true);
  }

  /**
   * create_(values): a vector descriptor of |values| elements and a buffer of
   * that size; the copy of `values` is commented out in the source, so the
   * contents are whatever the allocation held.
   */
  method NewVector<T(0)>(values: seq<T>, dtype: DataType) returns (res: NDArray<T>)
    ensures fresh(res) && res.buffer != null && fresh(res.buffer)
    ensures res.shapeInfo == Some(VectorShapeInfo(dtype, |values|))
    ensures res.LengthOf() == |values| == res.buffer.Length
    ensures res.isBuffAlloc && res.isShapeAlloc
  {
    res := new NDArray();
    var shapeInfo := VectorShapeInfo(dtype, |values|);
    var buffer := new T[|values|];
    res.SetBuffer(buffer);
    res.SetShapeInfo(SetDataType(shapeInfo, dtype));
    res.TriggerAllocationFlag(true, true);
  }

  /** create(values): a vector holding exactly `values`. */
  method CreateFromVector<T(0)>(values: seq<T>, dtype: DataType) returns (res: NDArray<T>)
    ensures fresh(res) && res.buffer != null && fresh(res.buffer)
    ensures res.shapeInfo == Some(VectorShapeInfo(dtype, |values|))
    ensures res.LengthOf() == |values| && res.buffer[..] == values
    ensures res.isBuffAlloc && res.isShapeAlloc
  {
    res := new NDArray();
    var shapeInfo := VectorShapeInfo(dtype, |values|);
    var buffer := new T[|values|];
    res.SetBuffer(buffer);
    res.SetShapeInfo(shapeInfo);
    Memcpy(buffer, values);
    res.TriggerAllocationFlag(true, true);
  }

  /** scalar(value) and create_(value): rank 0, one element, filled by assign. */
  method Scalar<T(0)>(value: T, dtype: DataType) returns (res: NDArray<T>)
    ensures fresh(res) && res.buffer != null && fresh(res.buffer)
    ensures res.shapeInfo == Some(ScalarShapeInfo(dtype))
    ensures res.LengthOf() == 1 && res.buffer[..] == [value]
    ensures res.isBuffAlloc && res.isShapeAlloc
  {
    res := new NDArray();
    var buffer := new T[1];
    var shapeInfo := ScalarShapeInfo(dtype);
    res.SetShapeInfo(shapeInfo);
    res.SetBuffer(buffer);
    res.TriggerAllocationFlag(true, true);
    res.Assign(value);
  }

  /** _scalar(value) and create(value): rank 0, the one element written directly. */
  method ScalarDirect<T(0)>(value: T, dtype: DataType) returns (res: NDArray<T>)
    ensures fresh(res) && res.buffer != null && fresh(res.buffer)
    ensures res.shapeInfo == Some(ScalarShapeInfo(dtype))
    ensures res.LengthOf() == 1 && res.buffer[..] == [value]
    ensures res.isBuffAlloc && res.isShapeAlloc
  {
    res := new NDArray();
    var buffer := new T[1];
    var shapeInfo := ScalarShapeInfo(dtype);
    res.SetShapeInfo(shapeInfo);
    res.SetBuffer(buffer);
    res.TriggerAllocationFlag(true, true);
    buffer[0] := value;
  }

  /** _scalar(dataType): a rank-0 array assigned 0. */
  method ZeroScalar<T(0)>(dtype: DataType, zero: T) returns (res: NDArray<T>)
    ensures fresh(res) && res.buffer != null && fresh(res.buffer)
    ensures res.shapeInfo == Some(ScalarShapeInfo(dtype))
    ensures res.LengthOf() == 1 && res.buffer[..] == [zero]
    ensures res.isBuffAlloc && res.isShapeAlloc
  {
    res := new NDArray();
    var buffer := new T[1];
    var shapeInfo := ScalarShapeInfo(dtype);
    res.SetShapeInfo(shapeInfo);
    res.SetBuffer(buffer);
    res.TriggerAllocationFlag(true, true);
    res.Assign(zero);
  }

  /** create(dtype): a rank-0 array whose buffer is memset to zero. */
  method CreateScalarOfType<T(0)>(dtype: DataType, zero: T) returns (res: NDArray<T>)
    ensures fresh(res) && res.buffer != null && fresh(res.buffer)
    ensures res.shapeInfo == Some(ScalarShapeInfo(dtype))
    ensures res.LengthOf() == 1 && res.buffer[..] == [zero]
    ensures res.isBuffAlloc && res.isShapeAlloc
  {
    res := new NDArray();
    var shapeInfo := ScalarShapeInfo(dtype);
    var buffer := new T[1];
    Memset(buffer, zero);
    res.SetBuffer(buffer);
    res.SetShapeInfo(shapeInfo);
    res.TriggerAllocationFlag(true, true);
  }

  /** The word-for-word copy of a shapeInfo buffer into a fresh allocation. */
  method CopyShapeWords(src: seq<int>) returns (dst: array<int>)
    ensures fresh(dst) && dst[..] == src
  {
    dst := new int[|src|];
    Memcpy(dst, src);
  }

  /**
   * create(other, copyStrides): other's descriptor is duplicated into a fresh
   * shapeInfo; unless copyStrides, the strides are recomputed for other's
   * order; the data type is set to other's. A fresh buffer of other's length
   * is allocated and left uninitialised. The source copies only
   * shapeInfoLength bytes of the descriptor (see ShapeWords.CopyWordsAsWritten);
   * this member copies every word.
   */
  method CopyDescriptor<T(0)>(other: NDArray<T>, copyStrides: bool) returns (res: NDArray<T>)
    requires other.shapeInfo.Some? && other.shapeInfo.value.WellFormed()
    ensures fresh(res) && res.buffer != null && fresh(res.buffer)
    ensures var s := other.shapeInfo.value;
      && res.shapeInfo.Some?
      && res.shapeInfo.value.dims == s.dims
      && res.shapeInfo.value.dtype == s.dtype
      && res.shapeInfo.value.order == s.order
      && res.shapeInfo.value.isEmpty == s.isEmpty
      && res.shapeInfo.value.strides == (if copyStrides then s.strides else CanonicalStrides(s.dims, s.order))
      && res.shapeInfo.value.ews == (if copyStrides then s.ews else 1)
    ensures res.buffer.Length == other.LengthOf() == res.LengthOf()
    ensures res.isBuffAlloc && res.isShapeAlloc
  {
    var s := other.shapeInfo.value;
    var buffer := new T[other.LengthOf()];
    var words := CopyShapeWords(ShapeWords.Encode(s));
    ShapeWords.DecodeEncode(s);
    var copied := ShapeWords.Decode(words[..]).value;
    if !copyStrides {
      copied := UpdateStrides(copied, s.order);
    }
    copied := SetDataType(copied, s.dtype);
    res := new NDArray();
    res.SetBuffer(buffer);
    res.SetShapeInfo(copied);
    res.TriggerAllocationFlag(true, true);
  }

  /**
   * create(order, shape, dtype): 'c' gives a row-major descriptor and any other
   * order a column-major one; the buffer is zero-filled; owns both.
   * No rank check is made.
   */
  method Create<T(0)>(order: char, shape: seq<nat>, dtype: DataType, zero: T) returns (res: NDArray<T>)
    ensures fresh(res) && res.buffer != null && fresh(res.buffer)
    ensures res.shapeInfo == Some(if order == 'c' then ShapeBuffer(shape, dtype) else ShapeBufferFortran(shape, dtype))
    ensures res.LengthOf() == Product(shape) == res.buffer.Length
    ensures forall i :: 0 <= i < res.buffer.Length ==> res.buffer[i] == zero
    ensures res.isBuffAlloc && res.isShapeAlloc
  {
    res := new NDArray();
    var shapeInfo := if order == 'c' then ShapeBuffer(shape, dtype) else ShapeBufferFortran(shape, dtype);
    res.SetShapeInfo(shapeInfo);
    var buffer := new T[res.LengthOf()];
    res.SetBuffer(buffer);
    Memset(buffer, zero);
    res.TriggerAllocationFlag(true, true);
  }

  /** The descriptor create_(order, shape, ...) ends with: built for 'f' or 'c', then strides updated for `order`. */
  function NewShape(order: char, shape: seq<nat>, dtype: DataType): (s: ShapeInfo)
    ensures s.dims == shape && s.dtype == dtype && s.order == order && s.ews == 1 && !s.isEmpty
    ensures s.strides == CanonicalStrides(shape, order)
  {
    var built := if order == 'f' then ShapeBufferFortran(shape, dtype) else ShapeBuffer(shape, dtype);
    UpdateStrides(SetDataType(built, dtype), order)
  }

  /**
   * create_(order, shape, dtype): rank above 32 throws invalid_argument;
   * otherwise a zero-filled array of product(shape) elements that owns both.
   */
  method New<T(0)>(order: char, shape: seq<nat>, dtype: DataType, zero: T) returns (r: Result<NDArray<T>, FactoryError>)
    ensures r.Failure? <==> |shape| > MAX_RANK
    ensures r.Failure? ==> r.error == InvalidArgument(RANK_MESSAGE)
    ensures r.Success? ==>
      && fresh(r.value) && r.value.buffer != null && fresh(r.value.buffer)
      && r.value.shapeInfo == Some(NewShape(order, shape, dtype))
      && r.value.LengthOf() == Product(shape) == r.value.buffer.Length
      && (forall i :: 0 <= i < r.value.buffer.Length ==> r.value.buffer[i] == zero)
      && r.value.isBuffAlloc && r.value.isShapeAlloc
  {
    var res := new NDArray();
    if |shape| > MAX_RANK {
      return Failure(InvalidArgument(RANK_MESSAGE));
    }
    var built := if order == 'f' then ShapeBufferFortran(shape, dtype) else ShapeBuffer(shape, dtype);
    res.SetShapeInfo(built);
    var buffer := new T[res.LengthOf()];
    res.SetBuffer(buffer);
    res.SetShapeInfo(SetDataType(built, dtype));
    Memset(buffer, zero);
    res.TriggerAllocationFlag(true, true);
    res.SetShapeInfo(UpdateStrides(res.shapeInfo.value, order));
    r := Success(res);
  }

  /**
   * create_(order, shape, data): rank above 32 throws invalid_argument; a
   * data size other than product(shape) throws runtime_error. The copy of
   * `data` is commented out in the source, so on success the buffer has the
   * right length but its contents are whatever the allocation held.
   */
  method NewWithData<T(0)>(order: char, shape: seq<nat>, data: seq<T>, dtype: DataType) returns (r: Result<NDArray<T>, FactoryError>)
    ensures r.Failure? <==> |shape| > MAX_RANK || Product(shape) != |data|
    ensures r.Failure? ==> r.error == (if |shape| > MAX_RANK then InvalidArgument(RANK_MESSAGE) else RuntimeError(SIZE_MESSAGE))
    ensures r.Success? ==>
      && fresh(r.value) && r.value.buffer != null && fresh(r.value.buffer)
      && r.value.shapeInfo == Some(NewShape(order, shape, dtype))
      && r.value.LengthOf() == |data| == r.value.buffer.Length
      && r.value.isBuffAlloc && r.value.isShapeAlloc
  {
    var res := new NDArray();
    if |shape| > MAX_RANK {
      return Failure(InvalidArgument(RANK_MESSAGE));
    }
    var built := if order == 'f' then ShapeBufferFortran(shape, dtype) else ShapeBuffer(shape, dtype);
    res.SetShapeInfo(built);
    var buffer := new T[res.LengthOf()];
    res.SetBuffer(buffer);
    res.SetShapeInfo(SetDataType(built, dtype));
    if res.LengthOf() != |data| {
      return Failure(RuntimeError(SIZE_MESSAGE));
    }
    res.TriggerAllocationFlag(true, true);
    res.SetShapeInfo(UpdateStrides(res.shapeInfo.value, order));
    r := Success(res);
  }

  /**
   * create(order, shape, data): a zero-filled array of the shape, then the
   * elements of `data` copied to its front. The source does not compare
   * |data| with the shape's length; more data than elements would be written
   * past the buffer, so that is this member's precondition.
   */
  method CreateWithData<T(0)>(order: char, shape: seq<nat>, data: seq<T>, dtype: DataType, zero: T) returns (res: NDArray<T>)
    requires |data| <= Product(shape)
    ensures fresh(res) && res.buffer != null && fresh(res.buffer)
    ensures res.shapeInfo == Some(if order == 'c' then ShapeBuffer(shape, dtype) else ShapeBufferFortran(shape, dtype))
    ensures res.LengthOf() == Product(shape) == res.buffer.Length
    ensures forall i :: 0 <= i < |data| ==> res.buffer[i] == data[i]
    ensures forall i :: |data| <= i < res.buffer.Length ==> res.buffer[i] == zero
    ensures res.isBuffAlloc && res.isShapeAlloc
  {
    res := Create(order, shape, dtype, zero);
    Memcpy(res.buffer, data);
    assert forall i :: 0 <= i < |data| ==> res.buffer[..|data|][i] == res.buffer[i];
    assert forall i :: |data| <= i < res.buffer.Length ==> res.buffer[|data|..][i - |data|] == res.buffer[i];
  }

  /** empty<T>(): a rank-0 descriptor with the empty bit, no buffer; owns the shape only. */
  method Empty<T(0)>(dtype: DataType) returns (res: NDArray<T>)
    ensures fresh(res)
    ensures res.shapeInfo == Some(ScalarShapeInfo(dtype).(isEmpty := true))
    ensures res.buffer == null && res.LengthOf() == 0
    ensures !res.isBuffAlloc && res.isShapeAlloc
  {
    var shapeInfo := ScalarShapeInfo(dtype).(isEmpty := true);
    res := new NDArray.Wrap(null, shapeInfo);
    res.TriggerAllocationFlag(false, true);
  }

  /** valueOf(shape, value, order): create_(order, shape, dtype) and then every element assigned `value`. */
  method ValueOf<T(0)>(shape: seq<nat>, value: T, order: char, dtype: DataType, zero: T) returns (r: Result<NDArray<T>, FactoryError>)
    ensures r.Failure? <==> |shape| > MAX_RANK
    ensures r.Failure? ==> r.error == InvalidArgument(RANK_MESSAGE)
    ensures r.Success? ==>
      && fresh(r.value) && r.value.buffer != null && fresh(r.value.buffer)
      && r.value.shapeInfo == Some(NewShape(order, shape, dtype))
      && r.value.LengthOf() == Product(shape) == r.value.buffer.Length
      && (forall i :: 0 <= i < r.value.buffer.Length ==> r.value.buffer[i] == value)
      && r.value.isBuffAlloc && r.value.isShapeAlloc
  {
    r := New(order, shape, dtype, zero);
    if r.Success? {
      r.value.Assign(value);
    }
  }

  /**
   * valueOf(shape, NDArray value, order): create_(order, shape, value's type)
   * and then NDArray::assign from `value`: a one-element value fills every
   * element, a value of the same length is copied, any other length fails.
   */
  method ValueOfArray<T(0)>(shape: seq<nat>, value: NDArray<T>, order: char, zero: T) returns (r: Result<NDArray<T>, FactoryError>)
    requires value.Valid() && value.shapeInfo.Some?
    ensures r.Failure? <==> |shape| > MAX_RANK || (value.LengthOf() != 1 && value.LengthOf() != Product(shape))
    ensures r.Failure? && |shape| > MAX_RANK ==> r.error == InvalidArgument(RANK_MESSAGE)
    ensures r.Failure? && |shape| <= MAX_RANK ==> r.error == RuntimeError("Lengths of arrays are mismatched")
    ensures r.Success? ==>
      && fresh(r.value) && r.value.buffer != null && fresh(r.value.buffer)
      && r.value.shapeInfo == Some(NewShape(order, shape, value.shapeInfo.value.dtype))
      && r.value.LengthOf() == Product(shape) == r.value.buffer.Length
      && (value.LengthOf() == 1 ==> forall i :: 0 <= i < r.value.buffer.Length ==> r.value.buffer[i] == value.buffer[0])
      && (value.LengthOf() != 1 ==> forall i :: 0 <= i < r.value.buffer.Length ==> r.value.buffer[i] == value.buffer[i])
      && r.value.isBuffAlloc && r.value.isShapeAlloc
  {
    r := New(order, shape, value.shapeInfo.value.dtype, zero);
    if r.Success? {
      var res := r.value;
      var outcome := res.AssignFrom(value);
      if outcome.Failure? {
        r := Failure(RuntimeError("Lengths of arrays are mismatched"));
      }
    }
  }

  /**
   * create(buffer, order, shape): rank above 32 throws invalid_argument;
   * otherwise the caller's buffer is wrapped as it is (no copy, no
   * ownership: flags (false, true)) under a fresh descriptor.
   */
  method WrapBuffer<T(0)>(buffer: array<T>, order: char, shape: seq<nat>, dtype: DataType) returns (r: Result<NDArray<T>, FactoryError>)
    ensures r.Failure? <==> |shape| > MAX_RANK
    ensures r.Failure? ==> r.error == InvalidArgument(RANK_MESSAGE)
    ensures r.Success? ==>
      && fresh(r.value)
      && r.value.buffer == buffer
      && r.value.shapeInfo == Some(CreateShapeInfo(dtype, order, shape))
      && !r.value.isBuffAlloc && r.value.isShapeAlloc
  {
    if |shape| > MAX_RANK {
      return Failure(InvalidArgument(RANK_MESSAGE));
    }
    var res := new NDArray();
    var shapeInfo := CreateShapeInfo(dtype, order, shape);
    res.SetBuffer(buffer);
    res.SetShapeInfo(shapeInfo);
    res.TriggerAllocationFlag(false, true);
    r := Success(res);
  }
}
