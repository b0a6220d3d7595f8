/** pkg/array/slice.go: reinterpreting a numeric slice as its little-endian
    bytes (`Encode`) and bytes as a numeric slice (`Decode`).

    The Go code shares memory between the slice and the bytes; here both
    directions are functions on values. An element is an integer: a signed
    element is its value, an unsigned one its value, and a float element the
    bit pattern of its IEEE 754 binary32 or binary64 encoding, so that no
    floating-point arithmetic is involved. */
module Slice {
  import opened Common

  /** The ten element types the codec accepts. */
  datatype ElemKind =
    | Int8 | Int16 | Int32 | Int64
    | Uint8 | Uint16 | Uint32 | Uint64
    | Float32 | Float64

  /** Bytes per element. */
  function Width(k: ElemKind): (w: nat)
    ensures w == 1 || w == 2 || w == 4 || w == 8
  {
    match k
    case Int8 => 1
    case Uint8 => 1
    case Int16 => 2
    case Uint16 => 2
    case Int32 => 4
    case Uint32 => 4
    case Float32 => 4
    case Int64 => 8
    case Uint64 => 8
    case Float64 => 8
  }

  predicate Signed(k: ElemKind)
  {
    k == Int8 || k == Int16 || k == Int32 || k == Int64
  }

  /** 256 to the power w: the number of bit patterns of w bytes. */
  function Pow256(w: nat): (p: nat)
    ensures p >= 1
  {
    if w == 0 then 1 else 256 * Pow256(w - 1)
  }

  /** Whether x is a value of element type k. */
  predicate InRange(k: ElemKind, x: int)
  {
    var p := Pow256(Width(k));
    if Signed(k) then -(p / 2) <= x < p / 2 else 0 <= x < p
  }

  /** The argument of `Encode`: a slice of one of the ten element types, or a
      value of any other Go type. */
  datatype GoSlice = Numeric(kind: ElemKind, elems: seq<int>) | Other(typeName: string)

  /** What the Go type system guarantees of a slice: every element is a value
      of its element type. */
  predicate WellTyped(s: GoSlice)
  {
    s.Numeric? ==> forall i :: 0 <= i < |s.elems| ==> InRange(s.kind, s.elems[i])
  }

  /** The argument of `Decode`: a pointer to a slice of one of the ten
      element types, or a value of any other Go type. */
  datatype Target = SliceOf(kind: ElemKind) | OtherTarget(typeName: string)

  /** The two's complement bit pattern of an element. */
  function Bits(k: ElemKind, x: int): (u: nat)
    requires InRange(k, x)
    ensures u < Pow256(Width(k))
  {
    if x < 0 then x + Pow256(Width(k)) else x
  }

  /** The element whose bit pattern is u. */
  function FromBits(k: ElemKind, u: nat): (x: int)
    requires u < Pow256(Width(k))
    ensures InRange(k, x)
  {
    var p := Pow256(Width(k));
    if Signed(k) && u >= p / 2 then u - p else u
  }

  lemma FromBitsBits(k: ElemKind, x: int)
    requires InRange(k, x)
    ensures FromBits(k, Bits(k, x)) == x
  {
    var p := Pow256(Width(k));
    assert p % 2 == 0 by { assert Width(k) > 0; }
  }

  lemma BitsFromBits(k: ElemKind, u: nat)
    requires u < Pow256(Width(k))
    ensures Bits(k, FromBits(k, u)) == u
  {
  }

  /** The w least significant bytes of x, least significant first. */
  function LittleEndian(x: nat, w: nat): (bs: seq<byte>)
    ensures |bs| == w
  {
    if w == 0 then [] else [x % 256] + LittleEndian(x / 256, w - 1)
  }

  /** The number whose little-endian bytes are bs. */
  function ValueOf(bs: seq<byte>): nat
  {
    if bs == [] then 0 else bs[0] + 256 * ValueOf(bs[1..])
  }

  lemma {:induction false} ValueOfBound(bs: seq<byte>)
    ensures ValueOf(bs) < Pow256(|bs|)
  {
    if bs != [] {
      ValueOfBound(bs[1..]);
    }
  }

  lemma {:induction false} ValueOfLittleEndian(x: nat, w: nat)
    requires x < Pow256(w)
    ensures ValueOf(LittleEndian(x, w)) == x
  {
    if w > 0 {
      assert x / 256 < Pow256(w - 1);
      ValueOfLittleEndian(x / 256, w - 1);
      assert LittleEndian(x, w)[1..] == LittleEndian(x / 256, w - 1);
    }
  }

  lemma {:induction false} LittleEndianValueOf(bs: seq<byte>)
    ensures LittleEndian(ValueOf(bs), |bs|) == bs
  {
    if bs != [] {
      LittleEndianValueOf(bs[1..]);
      var v := ValueOf(bs[1..]);
      assert (bs[0] + 256 * v) % 256 == bs[0];
      assert (bs[0] + 256 * v) / 256 == v;
    }
  }

  /** The bytes of the elements, each as `Width(k)` little-endian bytes. */
  function EncodeElems(k: ElemKind, xs: seq<int>): (bs: seq<byte>)
    requires forall i :: 0 <= i < |xs| ==> InRange(k, xs[i])
  {
    if xs == [] then [] else LittleEndian(Bits(k, xs[0]), Width(k)) + EncodeElems(k, xs[1..])
  }

  /** The elements read from consecutive `Width(k)`-byte groups; trailing
      bytes that do not fill a group are dropped. */
  function DecodeElems(k: ElemKind, bs: seq<byte>): (xs: seq<int>)
    ensures |xs| == |bs| / Width(k)
    ensures forall i :: 0 <= i < |xs| ==> InRange(k, xs[i])
    decreases |bs|
  {
    var w := Width(k);
    if |bs| < w then []
    else
      ValueOfBound(bs[..w]);
      assert (|bs| - w) / w + 1 == |bs| / w by { DivStep(|bs|, w); }
      [FromBits(k, ValueOf(bs[..w]))] + DecodeElems(k, bs[w..])
  }

  lemma DivStep(n: nat, w: nat)
    requires w == 1 || w == 2 || w == 4 || w == 8
    requires n >= w
    ensures (n - w) / w + 1 == n / w
  {
  }

  /** `[]uint8` elements as bytes. */
  function AsBytes(xs: seq<int>): (bs: seq<byte>)
    requires forall i :: 0 <= i < |xs| ==> 0 <= xs[i] < 256
    ensures bs == xs
  {
    if xs == [] then [] else [xs[0] as byte] + AsBytes(xs[1..])
  }

  /** `Encode`: panics for a value that is not one of the ten slice types;
      a `[]uint8` is returned as it is. */
  function Encode(s: GoSlice): (r: Outcome<seq<byte>>)
    requires WellTyped(s)
    ensures r.Panic? <==> s.Other?
    ensures r.Ok? ==> |r.value| == |s.elems| * Width(s.kind)
  {
    match s
    case Other(name) => Panic("Encode: invalid type: " + name)
    case Numeric(Uint8, xs) => Ok(AsBytes(xs))
    case Numeric(k, xs) => EncodeElemsLength(k, xs); Ok(EncodeElems(k, xs))
  }

  lemma {:induction false} EncodeElemsLength(k: ElemKind, xs: seq<int>)
    requires forall i :: 0 <= i < |xs| ==> InRange(k, xs[i])
    ensures |EncodeElems(k, xs)| == |xs| * Width(k)
  {
    if xs != [] {
      EncodeElemsLength(k, xs[1..]);
    }
  }

  /** `Decode`: panics for a target that is not a pointer to one of the ten
      slice types; otherwise the target slice gets `len(b) / Width` elements. */
  function Decode(t: Target, b: seq<byte>): (r: Outcome<GoSlice>)
    ensures r.Panic? <==> t.OtherTarget?
    ensures r.Ok? ==> r.value.Numeric? && r.value.kind == t.kind
    ensures r.Ok? ==> |r.value.elems| == |b| / Width(t.kind) && WellTyped(r.value)
  {
    match t
    case OtherTarget(name) => Panic("Decode: invalid type: " + name)
    case SliceOf(k) => Ok(Numeric(k, DecodeElems(k, b)))
  }

  /** Encoding a `[]uint8` gives back its own bytes. */
  lemma EncodeBytesIdentity(xs: seq<int>)
    requires WellTyped(Numeric(Uint8, xs))
    ensures Encode(Numeric(Uint8, xs)) == Ok(xs)
  {
  }

  /** For a `[]uint8`, the general little-endian encoding and the identity agree. */
  lemma {:induction false} EncodeElemsUint8(xs: seq<int>)
    requires forall i :: 0 <= i < |xs| ==> InRange(Uint8, xs[i])
    ensures EncodeElems(Uint8, xs) == xs
  {
    if xs != [] {
      EncodeElemsUint8(xs[1..]);
    }
  }

  /** Every encoding is the concatenation of the elements' little-endian groups. */
  lemma EncodeIsLittleEndian(s: GoSlice)
    requires WellTyped(s) && s.Numeric?
    ensures Encode(s) == Ok(EncodeElems(s.kind, s.elems))
  {
    if s.kind == Uint8 {
      EncodeElemsUint8(s.elems);
    }
  }

  lemma {:induction false} DecodeEncodeElems(k: ElemKind, xs: seq<int>)
    requires forall i :: 0 <= i < |xs| ==> InRange(k, xs[i])
    ensures DecodeElems(k, EncodeElems(k, xs)) == xs
  {
    if xs != [] {
      var w := Width(k);
      var head := LittleEndian(Bits(k, xs[0]), w);
      var bs := EncodeElems(k, xs);
      assert bs == head + EncodeElems(k, xs[1..]);
      assert bs[..w] == head;
      assert bs[w..] == EncodeElems(k, xs[1..]);
      ValueOfLittleEndian(Bits(k, xs[0]), w);
      FromBitsBits(k, xs[0]);
      DecodeEncodeElems(k, xs[1..]);
    }
  }

  /** Round trip: decoding the encoding of a slice gives back the slice. */
  lemma DecodeEncode(s: GoSlice)
    requires WellTyped(s) && s.Numeric?
    ensures Encode(s).Ok? && Decode(SliceOf(s.kind), Encode(s).value) == Ok(s)
  {
    EncodeIsLittleEndian(s);
    DecodeEncodeElems(s.kind, s.elems);
  }

  lemma {:induction false} EncodeDecodeElems(k: ElemKind, bs: seq<byte>)
    ensures EncodeElems(k, DecodeElems(k, bs)) == bs[..|DecodeElems(k, bs)| * Width(k)]
    decreases |bs|
  {
    var w := Width(k);
    if |bs| >= w {
      var xs := DecodeElems(k, bs);
      var head := bs[..w];
      var rest := DecodeElems(k, bs[w..]);
      var v := ValueOf(head);
      ValueOfBound(head);
      BitsFromBits(k, v);
      LittleEndianValueOf(head);
      EncodeDecodeElems(k, bs[w..]);
      assert xs == [FromBits(k, v)] + rest;
      assert xs[1..] == rest;
      var m := |rest| * w;
      MulStep(|rest|, w);
      assert |xs| * w == w + m;
      assert EncodeElems(k, xs) == head + EncodeElems(k, rest);
      assert EncodeElems(k, rest) == bs[w..][..m];
      PrefixSplit(bs, w, m);
    }
  }

  lemma MulStep(n: nat, w: nat)
    ensures (n + 1) * w == w + n * w
  {
  }

  lemma PrefixSplit<T>(s: seq<T>, a: nat, b: nat)
    requires a + b <= |s|
    ensures s[..a + b] == s[..a] + s[a..][..b]
  {
  }

  /** The other direction: encoding decoded bytes gives back the bytes, less
      the trailing ones that did not fill an element. */
  lemma EncodeDecode(k: ElemKind, b: seq<byte>)
    ensures Decode(SliceOf(k), b).Ok?
    ensures Encode(Decode(SliceOf(k), b).value) == Ok(b[..|b| / Width(k) * Width(k)])
  {
    EncodeIsLittleEndian(Decode(SliceOf(k), b).value);
    EncodeDecodeElems(k, b);
  }

  /** The IEEE 754 binary32 bit pattern with the given sign, biased exponent
      and trailing significand fields (section 3.4 of IEEE 754-2008). */
  function Binary32(sign: nat, exponent: nat, fraction: nat): (u: nat)
    requires sign < 2 && exponent < 256 && fraction < 0x80_0000
    ensures u < Pow256(4)
  {
    sign * 0x8000_0000 + exponent * 0x80_0000 + fraction
  }

  /** The IEEE 754 binary64 bit pattern with the given fields. */
  function Binary64(sign: nat, exponent: nat, fraction: nat): (u: nat)
    requires sign < 2 && exponent < 2048 && fraction < 0x10_0000_0000_0000
    ensures u < Pow256(8)
  {
    sign * 0x8000_0000_0000_0000 + exponent * 0x10_0000_0000_0000 + fraction
  }

  /** -1.0: sign 1, exponent equal to the bias, fraction 0. */
  const MinusOne32: nat := Binary32(1, 127, 0)
  const MinusOne64: nat := Binary64(1, 1023, 0)

  lemma Pow256Values()
    ensures Pow256(1) == 0x100 && Pow256(2) == 0x1_0000
    ensures Pow256(4) == 0x1_0000_0000 && Pow256(8) == 0x1_0000_0000_0000_0000
  {
    assert Pow256(3) == 0x100_0000;
    assert Pow256(5) == 0x100_0000_0000;
    assert Pow256(6) == 0x1_0000_0000_0000;
    assert Pow256(7) == 0x100_0000_0000_0000;
  }

  lemma EncodeSingleton(k: ElemKind, x: int)
    requires InRange(k, x)
    ensures Encode(Numeric(k, [x])) == Ok(LittleEndian(Bits(k, x), Width(k)))
  {
    EncodeIsLittleEndian(Numeric(k, [x]));
    assert [x][1..] == [];
    var bytes := LittleEndian(Bits(k, x), Width(k));
    assert EncodeElems(k, [x]) == bytes + EncodeElems(k, []);
    assert bytes + [] == bytes;
  }

  /** The byte vectors the repository's tests pin. */
  lemma SignedTestVectors()
    ensures Encode(Numeric(Int8, [-1])) == Ok([0xff])
    ensures Encode(Numeric(Int16, [-1])) == Ok([0xff, 0xff])
    ensures Encode(Numeric(Int32, [-1])) == Ok([0xff, 0xff, 0xff, 0xff])
    ensures Encode(Numeric(Int64, [-1])) == Ok([0xff, 0xff, 0xff, 0xff, 0xff, 0xff, 0xff, 0xff])
  {
    Pow256Values();
    EncodeSingleton(Int8, -1);
    EncodeSingleton(Int16, -1);
    EncodeSingleton(Int32, -1);
    EncodeSingleton(Int64, -1);
    assert LittleEndian(0xff, 1) == [0xff];
    assert LittleEndian(0xffff, 2) == [0xff, 0xff];
    assert LittleEndian(0xffff_ffff, 4) == [0xff, 0xff, 0xff, 0xff];
    assert LittleEndian(0xffff_ffff_ffff_ffff, 8) == [0xff, 0xff, 0xff, 0xff, 0xff, 0xff, 0xff, 0xff];
  }

  lemma UnsignedTestVectors()
    ensures Encode(Numeric(Uint16, [1])) == Ok([1, 0])
    ensures Encode(Numeric(Uint32, [1])) == Ok([1, 0, 0, 0])
    ensures Encode(Numeric(Uint64, [1])) == Ok([1, 0, 0, 0, 0, 0, 0, 0])
  {
    Pow256Values();
    EncodeSingleton(Uint16, 1);
    EncodeSingleton(Uint32, 1);
    EncodeSingleton(Uint64, 1);
    assert LittleEndian(1, 2) == [1, 0];
    assert LittleEndian(1, 4) == [1, 0, 0, 0];
    assert LittleEndian(1, 8) == [1, 0, 0, 0, 0, 0, 0, 0];
  }

  lemma FloatTestVectors()
    ensures Encode(Numeric(Float32, [MinusOne32])) == Ok([0, 0, 0x80, 0xbf])
    ensures Encode(Numeric(Float64, [MinusOne64])) == Ok([0, 0, 0, 0, 0, 0, 0xf0, 0xbf])
  {
    Pow256Values();
    EncodeSingleton(Float32, MinusOne32);
    EncodeSingleton(Float64, MinusOne64);
    assert MinusOne32 == 0xbf80_0000;
    assert MinusOne64 == 0xbff0_0000_0000_0000;
    assert LittleEndian(0xbf80_0000, 4) == [0, 0, 0x80, 0xbf];
    assert LittleEndian(0xbff0_0000_0000_0000, 8) == [0, 0, 0, 0, 0, 0, 0xf0, 0xbf];
  }
}
