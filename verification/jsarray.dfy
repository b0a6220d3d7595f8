/** internal/jsutil/array: the older typed-array and ArrayBuffer wrappers.

    Their reader differs from the one of pkg/array in how a large enough
    destination is served (a direct copy with no length check); typed arrays
    are made by naming one of ten JS constructors; ArrayBuffer views cover
    the whole elements that fit in the buffer. */
module JsArray {
  import opened Common
  import opened Slice
  import TA = TypedArrays

  /** `reader.Read` of internal/jsutil/array/typedarray.go for a destination
      of length bLen. */
  function ReaderRead(s: TA.ReaderState, bLen: nat): TA.ReadStep
  {
    if s.eof then TA.ReadStep(0, [], Some(EOF), s)
    else if s.buf.Some? then
      var r := ReadBuffer(s.buf.value, bLen);
      TA.ReadStep(r.n, r.data, r.err, s.(buf := Some(r.rest)))
    else
      var length := |s.ab|;
      if bLen < length then
        var n := CopyCount(length, length);
        if n != length then TA.ReadStep(n, [], Some(ErrUnexpectedEOF), s)
        else
          var r := ReadBuffer(s.ab, bLen);
          TA.ReadStep(r.n, r.data, r.err, s.(buf := Some(r.rest)))
      else
        var n := CopyCount(bLen, length);
        TA.ReadStep(n, s.ab[..n], None, s.(eof := true))
  }

  /** After `eof`, every read answers `(0, io.EOF)` and changes nothing. */
  lemma ReadAfterEof(s: TA.ReaderState, bLen: nat)
    requires s.eof
    ensures ReaderRead(s, bLen) == TA.ReadStep(0, [], Some(EOF), s)
  {
  }

  /** A first read into a slice that can hold the buffer copies it directly,
      sets `eof` and returns the number of bytes copied: all of them. */
  lemma ReadDirect(s: TA.ReaderState, bLen: nat)
    requires !s.eof && s.buf.None? && bLen >= |s.ab|
    ensures ReaderRead(s, bLen) == TA.ReadStep(|s.ab|, s.ab, None, s.(eof := true))
  {
  }

  /** A first read into a shorter slice buffers the whole ArrayBuffer and
      returns its first bLen bytes; the buffer keeps the rest. */
  lemma ReadBuffered(s: TA.ReaderState, bLen: nat)
    requires !s.eof && s.buf.None? && bLen < |s.ab|
    ensures ReaderRead(s, bLen) == TA.ReadStep(bLen, s.ab[..bLen], None, s.(buf := Some(s.ab[bLen..])))
  {
  }

  /** The two readers answer every read alike, so what is proved of the
      reader of pkg/array (reads continue where the last one stopped and
      deliver the buffer in order) holds for this one. */
  lemma ReaderReadAgrees(s: TA.ReaderState, bLen: nat)
    ensures ReaderRead(s, bLen) == TA.ReaderRead(s, bLen)
  {
  }

  /** Reads continue where the previous one stopped. */
  lemma ReadContinues(s: TA.ReaderState, bLen: nat)
    ensures var r := ReaderRead(s, bLen);
      TA.Remaining(s) == r.data + TA.Remaining(r.next) && r.n == |r.data| <= bLen
  {
    ReaderReadAgrees(s, bLen);
    TA.ReadConsumes(s, bLen);
  }

  /** The Go reader of this file: `NewReader(ab)` and `Read`. */
  class Reader {
    const ab: seq<byte>
    var buf: Option<seq<byte>>
    var eof: bool

    function State(): TA.ReaderState
      reads this
    {
      TA.ReaderState(ab, buf, eof)
    }

    constructor (ab: seq<byte>)
      ensures State() == TA.ReaderState(ab, None, false)
    {
      this.ab := ab;
      buf := None;
      eof := false;
    }

    method Read(b: array<byte>) returns (n: nat, err: Option<GoError>)
      modifies this, b
      ensures var r := ReaderRead(old(State()), b.Length);
        n == r.n && err == r.err && State() == r.next
        && |r.data| <= b.Length && b[..|r.data|] == r.data
        && b[|r.data|..] == old(b[|r.data|..])
    {
      if eof {
        return 0, Some(EOF);
      }
      if buf.Some? {
        var r := ReadBuffer(buf.value, b.Length);
        TA.CopyInto(b, r.data);
        buf := Some(r.rest);
        return r.n, r.err;
      }
      var length := |ab|;
      if b.Length < length {
        var copied := CopyCount(length, length);
        var r := ReadBuffer(ab, b.Length);
        var short := copied != length;
        if !short {
          TA.CopyInto(b, r.data);
          buf := Some(r.rest);
        }
        n, err := r.n, r.err;
        if short {
          n, err := copied, Some(ErrUnexpectedEOF);
        }
        return;
      }
      n := CopyCount(b.Length, length);
      TA.CopyInto(b, ab[..n]);
      eof := true;
      err := None;
    }
  }

  /** The constructor named by a `Type`, if it is one of the ten constants. */
  function KindOfName(typ: string): (k: Option<ElemKind>)
    ensures k.Some? ==> TA.ArrayTypeName(k.value) == typ
  {
    if typ == "Int8Array" then Some(Int8)
    else if typ == "Int16Array" then Some(Int16)
    else if typ == "Int32Array" then Some(Int32)
    else if typ == "BigInt64Array" then Some(Int64)
    else if typ == "Uint8Array" then Some(Uint8)
    else if typ == "Uint16Array" then Some(Uint16)
    else if typ == "Uint32Array" then Some(Uint32)
    else if typ == "BigUint64Array" then Some(Uint64)
    else if typ == "Float32Array" then Some(Float32)
    else if typ == "Float64Array" then Some(Float64)
    else None
  }

  /** Every one of the ten constants names its element type, and nothing
      else names one. */
  lemma KindOfNameExact(typ: string)
    ensures KindOfName(typ).Some? <==> exists k :: TA.ArrayTypeName(k) == typ
    ensures forall k :: TA.ArrayTypeName(k) == typ ==> KindOfName(typ) == Some(k)
  {
    forall k | TA.ArrayTypeName(k) == typ
      ensures KindOfName(typ) == Some(k)
    {
      match k
      case Int8 =>
      case Int16 =>
      case Int32 =>
      case Int64 =>
      case Uint8 =>
      case Uint16 =>
      case Uint32 =>
      case Uint64 =>
      case Float32 =>
      case Float64 =>
    }
  }

  /** `New(typ, buf)`: panics for a name outside the ten; otherwise the JS
      constructor makes a view over the whole buffer, which throws a
      RangeError when the buffer does not hold a whole number of elements. */
  function New(typ: string, buf: seq<byte>): (r: Outcome<TA.TypedArray>)
    ensures KindOfName(typ).None? ==> r.Panic?
    ensures KindOfName(typ).Some? ==> (r.Ok? <==> |buf| % Width(KindOfName(typ).value) == 0)
    ensures r.Ok? ==> TA.Type(r.value) == typ && r.value.buffer == buf
                      && TA.ByteLength(r.value) == |buf| && TA.ValidArray(r.value)
  {
    match KindOfName(typ)
    case None => Panic("New: invalid type '" + typ + "'")
    case Some(k) => TA.NewView(k, buf)
  }

  /** `NewFromSlice`: encodes the slice into a fresh ArrayBuffer through a
      `Uint8Array` view, then names the typed array of the slice's element
      type (the view itself for `[]uint8`). Other values panic. */
  function NewFromSlice(s: GoSlice): (r: Outcome<TA.TypedArray>)
    requires WellTyped(s)
    ensures r.Panic? <==> s.Other?
    ensures r.Ok? ==> TA.Type(r.value) == TA.ArrayTypeName(s.kind) && r.value.kind == s.kind
    ensures r.Ok? ==> TA.Len(r.value) == |s.elems| && r.value.buffer == Encode(s).value
    ensures r.Ok? ==> TA.ByteLength(r.value) == |r.value.buffer|
  {
    match Encode(s)
    case Panic(msg) => Panic(msg)
    case Ok(b) =>
      var view := New("Uint8Array", b);
      var copied := CopyCount(|b|, |b|);
      if copied != |b| then Panic("NewArrayBufferFromSlice: short copy")
      else
        var w := Width(s.kind);
        assert |b| % w == 0 && |b| / w == |s.elems| by { TA.MulDiv(|s.elems|, w); }
        KindOfNameExact(TA.ArrayTypeName(s.kind));
        if s.kind == Uint8 then view else New(TA.ArrayTypeName(s.kind), b)
  }

  /** Both packages build the same typed array from a slice. */
  lemma NewFromSliceAgrees(s: GoSlice)
    requires WellTyped(s)
    ensures NewFromSlice(s) == TA.NewFromSlice(s)
  {
  }

  /** `Bytes`: reads `ByteLength()` bytes of the array's buffer with a fresh
      reader, panicking on a read error. */
  method Bytes(a: TA.TypedArray) returns (r: Outcome<seq<byte>>)
    requires TA.ValidArray(a)
    ensures r == Ok(a.buffer[..TA.ByteLength(a)])
  {
    var b := new byte[TA.ByteLength(a)];
    var reader := new Reader(a.buffer);
    ReaderReadAgrees(reader.State(), b.Length);
    TA.ReadFirst(reader.State(), b.Length);
    var _, err := reader.Read(b);
    assert b[..] == b[..b.Length];
    r := if err.Some? then Panic("read error") else Ok(b[..]);
  }

  /** `Type`: the name of the array's constructor. */
  function Type(a: TA.TypedArray): (t: string)
    ensures KindOfName(t) == Some(a.kind)
  {
    KindOfNameExact(TA.ArrayTypeName(a.kind));
    TA.ArrayTypeName(a.kind)
  }

  // ---------------------------------------------------------------------
  // arraybuffer.go

  /** A JS ArrayBuffer, as its bytes. */
  type ArrayBuffer = seq<byte>

  /** `NewArrayBuffer(size)`: size zero bytes; the JS constructor throws a
      RangeError for a negative size. */
  function NewArrayBuffer(size: int): (r: Outcome<ArrayBuffer>)
    ensures r.Ok? <==> size >= 0
    ensures r.Ok? ==> Len(r.value) == size && forall i :: 0 <= i < |r.value| ==> r.value[i] == 0
  {
    if size < 0 then Panic("RangeError: invalid array length")
    else Ok(seq(size, _ => 0))
  }

  /** `Len`: the buffer's `byteLength`. */
  function Len(a: ArrayBuffer): nat
  {
    |a|
  }

  /** A buffer of 129 bytes reports 129. */
  lemma NewArrayBufferLen129()
    ensures NewArrayBuffer(129).Ok? && Len(NewArrayBuffer(129).value) == 129
  {
  }

  /** `NewArrayBufferFromSlice`: the slice's bytes copied into a new buffer
      of the same length; values other than the ten slice types panic. */
  function NewArrayBufferFromSlice(s: GoSlice): (r: Outcome<ArrayBuffer>)
    requires WellTyped(s)
    ensures r.Panic? <==> s.Other?
    ensures r.Ok? ==> r.value == Encode(s).value && Len(r.value) == |s.elems| * Width(s.kind)
  {
    match Encode(s)
    case Panic(msg) => Panic("NewArrayBufferFromSlice: invalid type")
    case Ok(bs) =>
      var buf := NewArrayBuffer(|bs|).value;
      var copied := CopyCount(|buf|, |bs|);
      if copied != |bs| then Panic("NewArrayBufferFromSlice: short copy")
      else Ok(bs)
  }

  /** `Bytes`: copies all `Len()` bytes out; a short copy would panic. */
  function BufferBytes(a: ArrayBuffer): (r: Outcome<seq<byte>>)
    ensures r.Ok? && r.value == a && |r.value| == Len(a)
  {
    var n := CopyCount(Len(a), Len(a));
    if n != Len(a) then Panic("CopyBytesToGo: invalid copied length")
    else Ok(a[..n])
  }

  /** The bytes of a buffer made from a `[]byte` are that slice. */
  lemma BytesFromSlice(xs: seq<int>)
    requires WellTyped(Numeric(Uint8, xs))
    ensures NewArrayBufferFromSlice(Numeric(Uint8, xs)).Ok?
    ensures BufferBytes(NewArrayBufferFromSlice(Numeric(Uint8, xs)).value) == Ok(xs)
  {
    EncodeBytesIdentity(xs);
  }

  /** A view of element type k over the buffer: `new <Type>(ab, 0, Len()/w)`,
      the whole elements that fit, never a RangeError. */
  function View(k: ElemKind, a: ArrayBuffer): (v: TA.TypedArray)
    ensures TA.ValidArray(v) && v.kind == k && v.buffer == a
    ensures TA.Len(v) == Len(a) / Width(k)
    ensures TA.ByteLength(v) <= Len(a) < TA.ByteLength(v) + Width(k)
  {
    var v := TA.TypedArray(k, a, |a| / Width(k));
    assert TA.ByteLength(v) <= |a| < TA.ByteLength(v) + Width(k) by { ViewBound(|a|, Width(k)); }
    v
  }

  lemma ViewBound(n: nat, w: nat)
    requires w == 1 || w == 2 || w == 4 || w == 8
    ensures n / w * w <= n < n / w * w + w
  {
  }

  /** A view shows what `Decode` reads from the same bytes. */
  lemma ViewElements(k: ElemKind, a: ArrayBuffer)
    ensures TA.Elements(View(k, a)) == Decode(SliceOf(k), a).value.elems
  {
    // The bytes past the last whole element form no element of their own.
    DecodeElemsPrefix(k, a, |a| / Width(k));
  }

  /** Decoding drops what follows the first m whole groups when m is the
      number of groups. */
  lemma {:induction false} DecodeElemsPrefix(k: ElemKind, bs: seq<byte>, m: nat)
    requires m == |bs| / Width(k)
    ensures DecodeElems(k, bs[..m * Width(k)]) == DecodeElems(k, bs)
    decreases |bs|
  {
    var w := Width(k);
    if |bs| >= w {
      DivStep(|bs|, w);
      var p := bs[..m * w];
      assert m >= 1;
      assert (m - 1) * w == m * w - w;
      assert p[..w] == bs[..w];
      assert p[w..] == bs[w..][..(m - 1) * w];
      DecodeElemsPrefix(k, bs[w..], m - 1);
    } else {
      assert m == 0;
    }
  }

  /** Slice to typed array, to bytes, and decoded again: the original slice. */
  method BytesRoundTrip(s: GoSlice) returns (back: Outcome<GoSlice>)
    requires WellTyped(s) && s.Numeric?
    ensures back == Ok(s)
  {
    var a := NewFromSlice(s);
    assert a.value.buffer[..TA.ByteLength(a.value)] == a.value.buffer;
    var bytes := Bytes(a.value);
    DecodeEncode(s);
    back := Decode(SliceOf(s.kind), bytes.value);
  }
}
