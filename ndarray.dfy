/**
 * The array object the factory builds: one shape descriptor, one flat
 * buffer, and the two ownership flags (owns-buffer, owns-shape) that
 * NDArray::triggerAllocationFlag sets. The class stands in for NDArray;
 * only the members the factory calls are modelled.
 */
module Arrays {
  import opened Wrappers
  import opened Shapes

  datatype AssignError = LengthMismatch

  /** NDArray::lengthOf: 0 for no descriptor or an empty descriptor, else the product of the dimensions. */
  function LengthOfShape(shapeInfo: Option<ShapeInfo>): nat
  {
    match shapeInfo
    case None => 0
    case Some(s) => if s.isEmpty then 0 else Length(s)
  }

  class NDArray<T(0)> {
    var shapeInfo: Option<ShapeInfo>
    var buffer: array?<T>
    var isBuffAlloc: bool
    var isShapeAlloc: bool

    /** NDArray(): no descriptor, no buffer, owns nothing. */
    constructor ()
      ensures shapeInfo == None && buffer == null
      ensures !isBuffAlloc && !isShapeAlloc
    {
      shapeInfo := None;
      buffer := null;
      isBuffAlloc := false;
      isShapeAlloc := false;
    }

    /** NDArray(buffer, shapeInfo, workspace): wraps both, owns neither until the flags are set. */
    constructor Wrap(buffer: array?<T>, shapeInfo: ShapeInfo)
      ensures this.shapeInfo == Some(shapeInfo) && this.buffer == buffer
      ensures !isBuffAlloc && !isShapeAlloc
    {
      this.shapeInfo := Some(shapeInfo);
      this.buffer := buffer;
      isBuffAlloc := false;
      isShapeAlloc := false;
    }

    function LengthOf(): nat
      reads this
    {
      LengthOfShape(shapeInfo)
    }

    /** The buffer holds at least lengthOf() elements. */
    ghost predicate Valid()
      reads this
    {
      buffer != null && LengthOf() <= buffer.Length
    }

    method SetShapeInfo(s: ShapeInfo)
      modifies this
      ensures shapeInfo == Some(s)
      ensures buffer == old(buffer) && isBuffAlloc == old(isBuffAlloc) && isShapeAlloc == old(isShapeAlloc)
    {
      shapeInfo := Some(s);
    }

    method SetBuffer(b: array?<T>)
      modifies this
      ensures buffer == b
      ensures shapeInfo == old(shapeInfo) && isBuffAlloc == old(isBuffAlloc) && isShapeAlloc == old(isShapeAlloc)
    {
      buffer := b;
    }

    method TriggerAllocationFlag(bufferAllocated: bool, shapeAllocated: bool)
      modifies this
      ensures isBuffAlloc == bufferAllocated && isShapeAlloc == shapeAllocated
      ensures shapeInfo == old(shapeInfo) && buffer == old(buffer)
    {
      isBuffAlloc := bufferAllocated;
      isShapeAlloc := shapeAllocated;
    }

    /** NDArray::assign(T): every one of the lengthOf() elements becomes v. */
    method Assign(v: T)
      requires Valid()
      modifies buffer
      ensures forall i :: 0 <= i < LengthOf() ==> buffer[i] == v
      ensures forall i :: LengthOf() <= i < buffer.Length ==> buffer[i] == old(buffer[i])
    {
      var n := LengthOf();
      for e := 0 to n
        invariant forall i :: 0 <= i < e ==> buffer[i] == v
        invariant forall i :: e <= i < buffer.Length ==> buffer[i] == old(buffer[i])
      {
        buffer[e] := v;
      }
    }

    /**
     * NDArray::assign(const NDArray&): a one-element source is broadcast to
     * every element, a source of the same length is copied by linear buffer
     * position (whatever the orders and strides of the two arrays), any
     * other length is refused.
     */
    method AssignFrom(other: NDArray<T>) returns (r: Result<(), AssignError>)
      requires Valid() && other.Valid() && other != this && other.buffer != buffer
      modifies buffer
      ensures r.Failure? <==> other.LengthOf() != 1 && other.LengthOf() != LengthOf()
      ensures r.Success? && other.LengthOf() == 1 ==>
        forall i :: 0 <= i < LengthOf() ==> buffer[i] == other.buffer[0]
      ensures r.Success? && other.LengthOf() != 1 ==>
        forall i :: 0 <= i < LengthOf() ==> buffer[i] == other.buffer[i]
      ensures r.Failure? ==> buffer[..] == old(buffer[..])
      ensures forall i :: LengthOf() <= i < buffer.Length ==> buffer[i] == old(buffer[i])
    {
      var n := LengthOf();
      if other.LengthOf() == 1 {
        Assign(other.buffer[0]);
        r := Success(());
      } else if other.LengthOf() == n {
        for e := 0 to n
          invariant forall i :: 0 <= i < e ==> buffer[i] == other.buffer[i]
          invariant forall i :: e <= i < buffer.Length ==> buffer[i] == old(buffer[i])
        {
          buffer[e] := other.buffer[e];
        }
        r := Success(());
      } else {
        r := Failure(LengthMismatch);
      }
    }
  }
}
