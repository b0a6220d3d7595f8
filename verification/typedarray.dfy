/** pkg/array/typedarray.go: an `io.Reader` over a JavaScript ArrayBuffer,
    and typed-array views built from Go slices.

    The ArrayBuffer is its bytes. The reader copies them out in one go when
    the caller's slice is large enough, and otherwise buffers them in a
    `bytes.Buffer` that later reads drain. */
module TypedArrays {
  import opened Common
  import opened Slice

  /** The fields of a reader: the ArrayBuffer, the lazily created buffer
      (`None` while `buf` is nil) and the `eof` flag. */
  datatype ReaderState = ReaderState(ab: seq<byte>, buf: Option<seq<byte>>, eof: bool)

  /** What one `Read(b)` returns: the count, the bytes written to the front
      of b, the error, and the reader's new fields. */
  datatype ReadStep = ReadStep(n: nat, data: seq<byte>, err: Option<GoError>, next: ReaderState)

  /** The bytes a reader has still to deliver. */
  function Remaining(s: ReaderState): seq<byte>
  {
    if s.eof then [] else if s.buf.Some? then s.buf.value else s.ab
  }

  /** `reader.Read` of this file, for a destination of length bLen. */
  function ReaderRead(s: ReaderState, bLen: nat): ReadStep
  {
    if s.eof then ReadStep(0, [], Some(EOF), s)
    else if s.buf.Some? then
      var r := ReadBuffer(s.buf.value, bLen);
      ReadStep(r.n, r.data, r.err, s.(buf := Some(r.rest)))
    else
      var abLen := |s.ab|;
      if bLen >= abLen then
        // Can fit exactly.
        var n := CopyCount(bLen, abLen);
        ReadStep(n, s.ab[..n], if n != abLen then Some(ErrUnexpectedEOF) else None,
                 if n != abLen then s else s.(eof := true))
      else
        // Not enough room: copy the whole buffer aside first.
        var n := CopyCount(abLen, abLen);
        if n != abLen then ReadStep(n, [], Some(ErrUnexpectedEOF), s)
        else
          var r := ReadBuffer(s.ab, bLen);
          ReadStep(r.n, r.data, r.err, s.(buf := Some(r.rest)))
  }

  /** A fresh reader's first read copies the first min(bLen, len) bytes of
      the ArrayBuffer without error. */
  lemma ReadFirst(s: ReaderState, bLen: nat)
    requires !s.eof && s.buf.None?
    ensures var r := ReaderRead(s, bLen);
      r.err == None && r.n == Min(bLen, |s.ab|) && r.data == s.ab[..r.n]
  {
  }

  /** Once `eof` is set, every read answers `(0, io.EOF)` and changes nothing. */
  lemma ReadAfterEof(s: ReaderState, bLen: nat)
    requires s.eof
    ensures ReaderRead(s, bLen) == ReadStep(0, [], Some(EOF), s)
  {
  }

  /** A first read into a slice that can hold the whole ArrayBuffer copies
      all of it, sets `eof` and reports no error. */
  lemma ReadWhole(s: ReaderState, bLen: nat)
    requires !s.eof && s.buf.None? && bLen >= |s.ab|
    ensures ReaderRead(s, bLen) == ReadStep(|s.ab|, s.ab, None, s.(eof := true))
  {
  }

  /** A first read into a shorter, non-empty slice buffers the ArrayBuffer
      and returns its first bLen bytes. */
  lemma ReadBuffered(s: ReaderState, bLen: nat)
    requires !s.eof && s.buf.None? && 0 < bLen < |s.ab|
    ensures ReaderRead(s, bLen) == ReadStep(bLen, s.ab[..bLen], None, s.(buf := Some(s.ab[bLen..])))
  {
  }

  /** The host always copies the full length, so the short-copy branches
      never return `io.ErrUnexpectedEOF`. */
  lemma ReadNeverShort(s: ReaderState, bLen: nat)
    ensures ReaderRead(s, bLen).err != Some(ErrUnexpectedEOF)
  {
  }

  /** One read delivers a prefix of what remained and keeps the rest, so
      successive reads neither skip nor repeat a byte. */
  lemma ReadConsumes(s: ReaderState, bLen: nat)
    ensures var r := ReaderRead(s, bLen);
      r.n == |r.data| <= bLen && Remaining(s) == r.data + Remaining(r.next)
      && r.next.ab == s.ab
    ensures var r := ReaderRead(s, bLen);
      r.err.Some? <==> (s.eof || (s.buf == Some([]) && bLen > 0))
    ensures var r := ReaderRead(s, bLen);
      r.err.Some? ==> r.err.value == EOF && r.data == [] && r.next == s
  {
  }

  /** How much a reader has still to do: its remaining bytes, plus one
      until it has reported the end. */
  function Progress(s: ReaderState): nat
  {
    |Remaining(s)| + (if s.eof then 0 else 1)
  }

  /** A read into a non-empty slice that reports no error makes progress,
      and one that reports an error has nothing left to deliver: so reading
      until the first error, as `io.Copy` does, ends. */
  lemma ReadProgress(s: ReaderState, bLen: nat)
    requires bLen > 0
    ensures var r := ReaderRead(s, bLen);
      (r.err.None? ==> Progress(r.next) < Progress(s))
      && (r.err.Some? ==> Remaining(s) == [] && r.err == Some(EOF))
  {
    ReadConsumes(s, bLen);
  }

  /** Reads delivered one after another, for the given destination lengths. */
  function ReadSeq(s: ReaderState, lens: seq<nat>): (r: (seq<byte>, ReaderState))
    decreases |lens|
  {
    if lens == [] then ([], s)
    else
      var step := ReaderRead(s, lens[0]);
      var rest := ReadSeq(step.next, lens[1..]);
      (step.data + rest.0, rest.1)
  }

  /** Any run of reads delivers the ArrayBuffer's bytes in order, from the
      start, with none skipped or repeated. */
  lemma {:induction false} ReadSeqDelivers(s: ReaderState, lens: seq<nat>)
    ensures var (data, last) := ReadSeq(s, lens); Remaining(s) == data + Remaining(last)
    decreases |lens|
  {
    if lens != [] {
      ReadConsumes(s, lens[0]);
      ReadSeqDelivers(ReaderRead(s, lens[0]).next, lens[1..]);
    }
  }

  /** The Go reader: `NewReader(ab)` and `Read`. */
  class Reader {
    const ab: seq<byte>
    var buf: Option<seq<byte>>
    var eof: bool

    function State(): ReaderState
      reads this
    {
      ReaderState(ab, buf, eof)
    }

    /** `NewReader`: nothing buffered, not at end. */
    constructor (ab: seq<byte>)
      ensures State() == ReaderState(ab, None, false)
      ensures Remaining(State()) == ab
    {
      this.ab := ab;
      buf := None;
      eof := false;
    }

    method Read(b: array<byte>) returns (n: nat, err: Option<GoError>)
      modifies this, b
      ensures var r := ReaderRead(old(State()), b.Length);
        n == r.n && err == r.err && State() == r.next
        && |r.data| <= b.Length && b[..|r.data|] == r.data
        && b[|r.data|..] == old(b[|r.data|..])
    {
      if eof {
        return 0, Some(EOF);
      }
      if buf.Some? {
        var r := ReadBuffer(buf.value, b.Length);
        CopyInto(b, r.data);
        buf := Some(r.rest);
        return r.n, r.err;
      }
      var abLen := |ab|;
      if b.Length >= abLen {
        // Can fit exactly.
        n := CopyCount(b.Length, abLen);
        CopyInto(b, ab[..n]);
        err := if n != abLen then Some(ErrUnexpectedEOF) else None;
        eof := n == abLen;
        return;
      }
      // Not enough room: copy the whole buffer aside first.
      var copied := CopyCount(abLen, abLen);
      var r := ReadBuffer(ab, b.Length);
      if copied == abLen {
        CopyInto(b, r.data);
        buf := Some(r.rest);
      }
      var short := copied != abLen;
      n, err := r.n, r.err;
      if short {
        n, err := copied, Some(ErrUnexpectedEOF);
      }
    }
  }

  /** Copies data to the front of b, as `copy(b, data)` does. */
  method CopyInto(b: array<byte>, data: seq<byte>)
    requires |data| <= b.Length
    modifies b
    ensures b[..|data|] == data && b[|data|..] == old(b[|data|..])
  {
    var i := 0;
    while i < |data|
      invariant 0 <= i <= |data|
      invariant b[..i] == data[..i]
      invariant b[|data|..] == old(b[|data|..])
    {
      b[i] := data[i];
      i := i + 1;
    }
  }

  /** The JS typed array classes, one per element type. */
  function ArrayTypeName(k: ElemKind): string
  {
    match k
    case Int8 => "Int8Array"
    case Int16 => "Int16Array"
    case Int32 => "Int32Array"
    case Int64 => "BigInt64Array"
    case Uint8 => "Uint8Array"
    case Uint16 => "Uint16Array"
    case Uint32 => "Uint32Array"
    case Uint64 => "BigUint64Array"
    case Float32 => "Float32Array"
    case Float64 => "Float64Array"
  }

  lemma ArrayTypeNameInjective(k1: ElemKind, k2: ElemKind)
    requires ArrayTypeName(k1) == ArrayTypeName(k2)
    ensures k1 == k2
  {
  }

  /** A JS typed array: its element type, its ArrayBuffer, and its length in
      elements, starting at byte offset 0. */
  datatype TypedArray = TypedArray(kind: ElemKind, buffer: seq<byte>, length: nat)

  predicate ValidArray(a: TypedArray)
  {
    a.length * Width(a.kind) <= |a.buffer|
  }

  /** `Len`: the `length` property. */
  function Len(a: TypedArray): nat
  {
    a.length
  }

  /** `ByteLength`: the `byteLength` property, length times element width. */
  function ByteLength(a: TypedArray): nat
  {
    a.length * Width(a.kind)
  }

  /** `Type`: the name of the array's constructor. */
  function Type(a: TypedArray): string
  {
    ArrayTypeName(a.kind)
  }

  /** The element values the array shows. */
  function Elements(a: TypedArray): seq<int>
    requires ValidArray(a)
  {
    DecodeElems(a.kind, a.buffer[..ByteLength(a)])
  }

  lemma DivExact(n: nat, w: nat)
    requires w == 1 || w == 2 || w == 4 || w == 8
    requires n % w == 0
    ensures n / w * w == n
  {
  }

  /** `new <Type>(ab)`: a view over the whole buffer. The JS constructor
      throws a RangeError, which Go turns into a panic, when the buffer's
      length is not a multiple of the element width. */
  function NewView(k: ElemKind, ab: seq<byte>): (r: Outcome<TypedArray>)
    ensures r.Ok? <==> |ab| % Width(k) == 0
    ensures r.Ok? ==> (r.value.kind == k && r.value.buffer == ab && Len(r.value) == |ab| / Width(k)
                       && ByteLength(r.value) == |ab| && ValidArray(r.value))
  {
    if |ab| % Width(k) != 0 then Panic("RangeError: invalid typed array length")
    else
      DivExact(|ab|, Width(k));
      Ok(TypedArray(k, ab, |ab| / Width(k)))
  }

  /** `NewFromSlice`: encodes the slice, copies the bytes into a new
      ArrayBuffer and wraps it in the typed array of the element type (for
      `[]uint8`, the `Uint8Array` used for the copy). Element types outside
      the ten panic in `Encode`. */
  function NewFromSlice(s: GoSlice): (r: Outcome<TypedArray>)
    requires WellTyped(s)
    ensures r.Panic? <==> s.Other?
    ensures r.Ok? ==> Type(r.value) == ArrayTypeName(s.kind) && r.value.kind == s.kind
    ensures r.Ok? ==> Len(r.value) == |s.elems| && ByteLength(r.value) == |r.value.buffer|
    ensures r.Ok? ==> r.value.buffer == Encode(s).value
  {
    match Encode(s)
    case Panic(msg) => Panic(msg)
    case Ok(b) =>
      var ab := b;
      var copied := CopyCount(|b|, |b|);
      if copied != |b| then Panic("NewArrayBufferFromSlice: short copy")
      else
        var view := NewView(Uint8, ab);
        var w := Width(s.kind);
        assert |b| % w == 0 && |b| / w == |s.elems| by { MulDiv(|s.elems|, w); }
        if s.kind == Uint8 then view else NewView(s.kind, ab)
  }

  lemma MulDiv(n: nat, w: nat)
    requires w == 1 || w == 2 || w == 4 || w == 8
    ensures (n * w) % w == 0 && (n * w) / w == n
  {
  }

  /** Slice to typed array: the array shows exactly the slice's elements. */
  lemma NewFromSliceElements(s: GoSlice)
    requires WellTyped(s) && s.Numeric?
    ensures NewFromSlice(s).Ok? && ValidArray(NewFromSlice(s).value)
    ensures Elements(NewFromSlice(s).value) == s.elems
  {
    var a := NewFromSlice(s).value;
    assert a.buffer[..ByteLength(a)] == a.buffer;
    DecodeEncode(s);
  }

  /** `Bytes`: copies `ByteLength()` bytes out of the array's ArrayBuffer
      with a fresh reader, panicking on a read error. */
  method Bytes(a: TypedArray) returns (r: Outcome<seq<byte>>)
    requires ValidArray(a)
    ensures r == Ok(a.buffer[..ByteLength(a)])
  {
    var b := new byte[ByteLength(a)];
    var reader := new Reader(a.buffer);
    ReadFirst(reader.State(), b.Length);
    var _, err := reader.Read(b);
    assert b[..] == b[..b.Length];
    r := if err.Some? then Panic("read error") else Ok(b[..]);
  }

  /** Slice to typed array to bytes gives the slice's encoding. */
  method BytesOfNewFromSlice(s: GoSlice) returns (r: Outcome<seq<byte>>)
    requires WellTyped(s) && s.Numeric?
    ensures r == Encode(s)
  {
    var a := NewFromSlice(s);
    assert a.value.buffer[..ByteLength(a.value)] == a.value.buffer;
    r := Bytes(a.value);
  }
}
