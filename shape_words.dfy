/**
 * The flat word layout of a shape descriptor (the Nd4jLong shapeInfo buffer):
 *   [rank, dims..., strides..., extra, ews, order]
 * of shape::shapeInfoLength(rank) = 2 * rank + 4 words. The "extra" word
 * carries the data type and the property bits; the model packs them as
 * 2 * typeCode + emptyBit.
 */
module ShapeWords {
  import opened Wrappers
  import opened Shapes

  /** shape::shapeInfoLength. */
  function ShapeInfoLength(rank: nat): nat
  {
    2 * rank + 4
  }

  /** Bytes per word of the shapeInfo buffer (sizeof(Nd4jLong)). */
  const WORD_BYTES: nat := 8

  function TypeCode(t: DataType): nat
  {
    match t
    case BOOL => 0
    case INT8 => 1
    case UINT8 => 2
    case INT16 => 3
    case INT32 => 4
    case INT64 => 5
    case HALF => 6
    case FLOAT32 => 7
    case DOUBLE => 8
  }

  function TypeOfCode(c: int): (r: Option<DataType>)
    ensures r.Some? ==> TypeCode(r.value) == c
  {
    if c == 0 then Some(BOOL)
    else if c == 1 then Some(INT8)
    else if c == 2 then Some(UINT8)
    else if c == 3 then Some(INT16)
    else if c == 4 then Some(INT32)
    else if c == 5 then Some(INT64)
    else if c == 6 then Some(HALF)
    else if c == 7 then Some(FLOAT32)
    else if c == 8 then Some(DOUBLE)
    else None
  }

  function ExtraWord(s: ShapeInfo): int
  {
    2 * TypeCode(s.dtype) + (if s.isEmpty then 1 else 0)
  }

  /** Lays a descriptor out as shapeInfo words. */
  function Encode(s: ShapeInfo): (w: seq<int>)
    requires s.WellFormed()
    ensures |w| == ShapeInfoLength(s.Rank())
  {
    [|s.dims|] + s.dims + s.strides + [ExtraWord(s), s.ews, s.order as int]
  }

  /** The word is the code of a character (a Unicode scalar value). */
  predicate IsCharCode(c: int)
  {
    (0 <= c < 0xD800) || (0xE000 <= c < 0x11_0000)
  }

  /** Reads shapeInfo words back into a descriptor; None when they are not a layout. */
  function Decode(w: seq<int>): (r: Option<ShapeInfo>)
    ensures r.Some? ==> r.value.WellFormed() && |w| == ShapeInfoLength(r.value.Rank())
  {
    if |w| < 4 || w[0] < 0 || |w| != 2 * w[0] + 4 then None
    else
      var rank := w[0];
      var extra := w[2 * rank + 1];
      var orderWord := w[2 * rank + 3];
      var dt := TypeOfCode(extra / 2);
      if !(forall j :: 1 <= j <= rank ==> w[j] >= 0) || dt.None? || !IsCharCode(orderWord) then None
      else
        var dims := seq(rank, j requires 0 <= j < rank => w[1 + j] as nat);
        Some(ShapeInfo(dims, w[rank + 1..2 * rank + 1], w[2 * rank + 2], orderWord as char, dt.value, extra % 2 == 1))
  }

  /** Reading back a laid-out descriptor gives the descriptor. */
  lemma {:induction false} DecodeEncode(s: ShapeInfo)
    requires s.WellFormed()
    ensures Decode(Encode(s)) == Some(s)
  {
    var w := Encode(s);
    var rank := |s.dims|;
    assert w[0] == rank;
    assert forall j :: 1 <= j <= rank ==> w[j] == s.dims[j - 1];
    assert w[rank + 1..2 * rank + 1] == s.strides;
    assert w[2 * rank + 1] == ExtraWord(s);
    assert ExtraWord(s) / 2 == TypeCode(s.dtype);
    assert IsCharCode(s.order as int);
    var d := Decode(w);
    assert d.Some?;
    assert d.value.dims == s.dims;
  }

  // ---------------------------------------------------------------------
  // The bytes of a word: a word is a 64-bit two's complement Nd4jLong, laid
  // out little-endian (least significant byte first).

  const WORD_MODULUS: int := 0x1_0000_0000_0000_0000

  /** The unsigned 64-bit value with the same bit pattern as w (w truncated to 64 bits). */
  function Unsigned(w: int): (u: nat)
    ensures u < WORD_MODULUS
  {
    w % WORD_MODULUS
  }

  /** The signed word whose bit pattern is the unsigned value u. */
  function Signed(u: nat): int
    requires u < WORD_MODULUS
  {
    if u < WORD_MODULUS / 2 then u else u - WORD_MODULUS
  }

  /** The n least significant bytes of u, lowest first. */
  function ToBytes(u: nat, n: nat): (bs: seq<nat>)
    ensures |bs| == n
    ensures forall j :: 0 <= j < n ==> bs[j] < 256
  {
    if n == 0 then [] else [u % 256] + ToBytes(u / 256, n - 1)
  }

  /** The unsigned value of little-endian bytes. */
  function FromBytes(bs: seq<nat>): nat
  {
    if |bs| == 0 then 0 else bs[0] + 256 * FromBytes(bs[1..])
  }

  function Pow256(n: nat): nat
  {
    if n == 0 then 1 else 256 * Pow256(n - 1)
  }

  predicate AreBytes(bs: seq<nat>)
  {
    forall j :: 0 <= j < |bs| ==> bs[j] < 256
  }

  /** The eight bytes of a word in memory. */
  function WordBytes(w: int): (bs: seq<nat>)
    ensures |bs| == WORD_BYTES && AreBytes(bs)
  {
    ToBytes(Unsigned(w), WORD_BYTES)
  }

  lemma {:induction false} FromBytesBound(bs: seq<nat>)
    requires AreBytes(bs)
    ensures FromBytes(bs) < Pow256(|bs|)
  {
    if |bs| > 0 {
      FromBytesBound(bs[1..]);
    }
  }

  /** Reading bytes as a value and writing the value back as bytes gives the bytes. */
  lemma {:induction false} ToBytesFromBytes(bs: seq<nat>)
    requires AreBytes(bs)
    ensures ToBytes(FromBytes(bs), |bs|) == bs
  {
    if |bs| > 0 {
      var v := FromBytes(bs);
      var rest := FromBytes(bs[1..]);
      assert v == bs[0] + 256 * rest;
      assert v % 256 == bs[0] && v / 256 == rest;
      ToBytesFromBytes(bs[1..]);
    }
  }

  /** The word whose memory holds the eight given bytes. */
  function WordOfBytes(bs: seq<nat>): (w: int)
    requires |bs| == WORD_BYTES && AreBytes(bs)
    ensures WordBytes(w) == bs
  {
    FromBytesBound(bs);
    assert Pow256(WORD_BYTES) == WORD_MODULUS;
    var u := FromBytes(bs);
    ToBytesFromBytes(bs);
    assert Unsigned(Signed(u)) == u;
    Signed(u)
  }

  /**
   * The word a memcpy leaves when it overwrites only the first k bytes of
   * the word `prior`, from the word `src`: its first k bytes are those of
   * src and the others those of prior.
   */
  function PartialWord(src: int, prior: int, k: nat): (w: int)
    requires k <= WORD_BYTES
    ensures WordBytes(w)[..k] == WordBytes(src)[..k]
    ensures WordBytes(w)[k..] == WordBytes(prior)[k..]
  {
    var bs := WordBytes(src)[..k] + WordBytes(prior)[k..];
    assert bs[..k] == WordBytes(src)[..k] && bs[k..] == WordBytes(prior)[k..];
    WordOfBytes(bs)
  }

  /**
   * The shapeInfo copy that NDArrayFactory::create(other, copyStrides)
   * performs as written: memcpy of shapeInfoLength BYTES into the fresh
   * allocation `uninit`. The first shapeInfoLength / 8 words are copied
   * whole; the next word, when shapeInfoLength is not a multiple of 8,
   * receives only its first shapeInfoLength % 8 bytes; every later word
   * keeps what the allocation held.
   */
  function CopyWordsAsWritten(src: seq<int>, uninit: seq<int>): (r: seq<int>)
    requires |uninit| == |src|
    ensures |r| == |src|
    ensures forall j :: 0 <= j < |src| / WORD_BYTES ==> r[j] == src[j]
    ensures var q, k := |src| / WORD_BYTES, |src| % WORD_BYTES;
      k > 0 ==> (
        && q < |src|
        && WordBytes(r[q])[..k] == WordBytes(src[q])[..k]
        && WordBytes(r[q])[k..] == WordBytes(uninit[q])[k..])
    ensures var q := |src| / WORD_BYTES + (if |src| % WORD_BYTES > 0 then 1 else 0);
      forall j :: q <= j < |src| ==> r[j] == uninit[j]
  {
    var q, k := |src| / WORD_BYTES, |src| % WORD_BYTES;
    if k == 0 then src[..q] + uninit[q..]
    else src[..q] + [PartialWord(src[q], uninit[q], k)] + uninit[q + 1..]
  }

  /**
   * For every rank of at least 1 the last dimension word lies past the bytes
   * that are copied: it keeps the uninitialised value.
   */
  lemma AsWrittenLosesLastDimension(s: ShapeInfo, uninit: seq<int>)
    requires s.WellFormed() && |s.dims| >= 1 && |uninit| == ShapeInfoLength(|s.dims|)
    ensures CopyWordsAsWritten(Encode(s), uninit)[|s.dims|] == uninit[|s.dims|]
  {
  }

  /** A 3x4 row-major descriptor copied into zero-filled memory comes back with other dimensions. */
  lemma AsWrittenCopyCounterexample()
    ensures var s := ShapeBuffer([3, 4], FLOAT32);
      var copy := CopyWordsAsWritten(Encode(s), seq(8, _ => 0));
      Decode(copy) != Some(s)
  {
    var s := ShapeBuffer([3, 4], FLOAT32);
    var copy := CopyWordsAsWritten(Encode(s), seq(8, _ => 0));
    assert copy[1] == 0;
    var d := Decode(copy);
    if d.Some? {
      assert d.value.dims[0] == 0;
    }
  }
}
