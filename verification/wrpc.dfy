/** pkg/wrpc/port.go: a MessagePort wrapper that turns `arr` messages into
    a byte stream.

    Each incoming data message is handed over by a goroutine on an
    unbuffered channel; the model keeps these deliveries in a queue
    (`pending`), in arrival order. An `__ack` offers one acknowledgement.
    The first of `Close`, an error event, `__eof` and `__err` runs the
    port's `sync.Once`: it latches `err` and closes `done` (`done` stands for
    both). `readBuf` is the `bytes.Buffer` that `Read` drains. JS calls are
    recorded in `posted`. A call that would wait returns `Blocked`; when
    `done` is closed the model's `select` takes it. */
module WrpcPort {
  import opened Common
  import TA = TypedArrays

  /** The fields of a port. */
  datatype PortState = PortState(
    pending: seq<JsMessage>,
    acks: nat,
    readBuf: seq<byte>,
    err: Option<GoError>,
    done: bool,
    posted: seq<HostCall>)

  /** The once-latch: `done` is closed exactly when `err` is set. */
  predicate Valid(s: PortState)
  {
    s.done <==> s.err.Some?
  }

  const Fresh: PortState := PortState([], 0, [], None, false, [])

  datatype Received = Message(data: JsMessage) | Failed(err: GoError)

  datatype Step<+T> = Step(result: Completion<T>, next: PortState)

  /** A `Read`'s completion, the bytes placed at the front of b, and the
      port's fields afterwards. */
  datatype ReadOut = ReadOut(result: Completion<IoReturn>, data: seq<byte>, next: PortState)

  const AckMessage: HostCall := PostMessage(Flag("__ack"), [])

  /** `once.Do(f)`: runs the latch only the first time. */
  function Latch(s: PortState, e: GoError): PortState
  {
    if s.done then s else s.(err := Some(e), done := true)
  }

  /** `onerror` and `onmessageerror`. */
  function OnError(s: PortState, event: JsValue): PortState
  {
    Latch(s, JsError(event))
  }

  /** `onmessage`: `__eof`, then `__err`, then `__ack`; any other message is
      delivered to the reader. */
  function OnMessage(s: PortState, data: JsMessage): PortState
  {
    if Get(data, "__eof") != Undefined then Latch(s, EOF)
    else if Get(data, "__err") != Undefined then Latch(s, Remote(JsString(Get(data, "__err"))))
    else if Get(data, "__ack") != Undefined then s.(acks := s.acks + 1)
    else s.(pending := s.pending + [data])
  }

  /** `ReadMessage`: the latched error once `done`; otherwise the next
      delivery, acknowledged with `__ack`. */
  function ReadMessageStep(s: PortState): Step<Received>
    requires Valid(s)
  {
    if s.done then Step(Returned(Failed(s.err.value)), s)
    else if s.pending == [] then Step(Blocked, s)
    else Step(Returned(Message(s.pending[0])), s.(pending := s.pending[1..], posted := s.posted + [AckMessage]))
  }

  /** The wait at the end of `WriteMessage`. */
  function AwaitAckStep(s: PortState): Step<Option<GoError>>
    requires Valid(s)
  {
    if s.done then Step(Returned(s.err), s)
    else if s.acks == 0 then Step(Blocked, s)
    else Step(Returned(None), s.(acks := s.acks - 1))
  }

  /** `WriteMessage`: post, then wait for an acknowledgement. */
  function WriteMessageStep(s: PortState, data: JsMessage, transfer: seq<JsValue>): Step<Option<GoError>>
    requires Valid(s)
  {
    AwaitAckStep(s.(posted := s.posted + [PostMessage(data, transfer)]))
  }

  /** `WriteError`: the error's text under `__err`, nothing transferred. */
  function WriteErrorStep(s: PortState, text: string): Step<Option<GoError>>
    requires Valid(s)
  {
    WriteMessageStep(s, map["__err" := Str(text)], [])
  }

  /** A `bytes.Buffer.Read` result with `io.EOF` turned into nil. */
  function DrainResult(r: BufferRead): IoReturn
  {
    if r.err.Some? && r.err.value != EOF then IoReturn(r.n, r.err) else IoReturn(r.n, None)
  }

  /** The panic of syscall/js when the ArrayBuffer reader asks a value that
      is not an ArrayBuffer for its `byteLength`: `Value.Get` panics on a
      value that is not an object, and a host object answers `undefined`,
      on which `Value.Int` panics. */
  function ByteLengthPanic(v: JsValue): string
  {
    match v
    case Null => "syscall/js: call of Value.Get on null"
    case Bool(_) => "syscall/js: call of Value.Get on boolean"
    case Num(_) => "syscall/js: call of Value.Get on number"
    case Str(_) => "syscall/js: call of Value.Get on string"
    case _ => "syscall/js: call of Value.Int on undefined"
  }

  /** `Read`: serve from `readBuf` while it holds bytes; otherwise fetch one
      message, append all of its `arr` bytes to `readBuf`, and serve from
      that. */
  function ReadStep(s: PortState, bLen: nat): ReadOut
    requires Valid(s)
  {
    if |s.readBuf| > 0 then
      var r := ReadBuffer(s.readBuf, bLen);
      ReadOut(Returned(DrainResult(r)), r.data, s.(readBuf := r.rest))
    else
      var m := ReadMessageStep(s);
      match m.result
      case Blocked => ReadOut(Blocked, [], m.next)
      case Panicked(why) => ReadOut(Panicked(why), [], m.next)
      case Returned(Failed(e)) => ReadOut(Returned(IoReturn(0, Some(e))), [], m.next)
      case Returned(Message(msg)) =>
        var arr := Get(msg, "arr");
        if arr.Undefined? then ReadOut(Returned(IoReturn(0, Some(NotArrayBuffer))), [], m.next)
        else if !arr.Buffer? then ReadOut(Panicked(ByteLengthPanic(arr)), [], m.next)
        else
          var r := ReadBuffer(m.next.readBuf + arr.bytes, bLen);
          ReadOut(Returned(DrainResult(r)), r.data, m.next.(readBuf := r.rest))
  }

  function ArrMessage(b: seq<byte>): JsMessage
  {
    map["arr" := Buffer(b)]
  }

  /** `Write`: `(len(b), nil)` once acknowledged, `(0, err)` once `done`. */
  function WriteStep(s: PortState, b: seq<byte>): Step<IoReturn>
    requires Valid(s)
  {
    var w := WriteMessageStep(s, ArrMessage(b), [Buffer(b)]);
    match w.result
    case Blocked => Step(Blocked, w.next)
    case Panicked(why) => Step(Panicked(why), w.next)
    case Returned(None) => Step(Returned(IoReturn(|b|, None)), w.next)
    case Returned(Some(e)) => Step(Returned(IoReturn(0, Some(e))), w.next)
  }

  /** `Close`: the first time, latches `io.ErrClosedPipe` and posts
      `__eof`; it always returns nil. */
  function CloseStep(s: PortState): PortState
  {
    if s.done then s
    else s.(err := Some(ErrClosedPipe), done := true, posted := s.posted + [PostMessage(Flag("__eof"), [])])
  }

  // ---------------------------------------------------------------------
  // Properties

  lemma ValidPreserved(s: PortState, event: JsValue, data: JsMessage, bLen: nat, b: seq<byte>)
    requires Valid(s)
    ensures Valid(OnError(s, event)) && Valid(OnMessage(s, data)) && Valid(CloseStep(s))
    ensures Valid(ReadMessageStep(s).next) && Valid(ReadStep(s, bLen).next)
    ensures Valid(WriteStep(s, b).next)
  {
  }

  /** `Close` runs once: a second `Close` changes nothing, so `__eof` is
      posted at most once, and after it `err` is `io.ErrClosedPipe` unless
      an earlier event latched another error. */
  lemma CloseOnce(s: PortState)
    ensures CloseStep(CloseStep(s)) == CloseStep(s)
    ensures CloseStep(s).done
    ensures !s.done ==> (CloseStep(s).err == Some(ErrClosedPipe)
      && CloseStep(s).posted == s.posted + [PostMessage(Flag("__eof"), [])])
    ensures s.done ==> CloseStep(s) == s
  {
  }

  /** The first latching event fixes `err`; later events, including `Close`,
      do not change it. */
  lemma ErrorFixed(s: PortState, event: JsValue, data: JsMessage)
    requires s.done
    ensures OnError(s, event).err == s.err && CloseStep(s).err == s.err
    ensures OnMessage(s, data).err == s.err && OnMessage(s, data).done
  {
  }

  /** With bytes in `readBuf`, `Read` serves from it alone: no message is
      fetched and nothing is posted. */
  lemma ReadFromBuffer(s: PortState, bLen: nat)
    requires Valid(s) && |s.readBuf| > 0
    ensures var r := ReadStep(s, bLen);
      r.result == Returned(IoReturn(|r.data|, None))
      && r.data == s.readBuf[..Min(bLen, |s.readBuf|)]
      && r.next == s.(readBuf := s.readBuf[|r.data|..])
  {
  }

  /** With `readBuf` empty, `Read` fetches exactly one message, appends all
      of its bytes, and returns a prefix of them. */
  lemma ReadFetches(s: PortState, bLen: nat)
    requires Valid(s) && s.readBuf == [] && !s.done && s.pending != []
    requires Get(s.pending[0], "arr").Buffer?
    ensures var r := ReadStep(s, bLen);
      var bytes := Get(s.pending[0], "arr").bytes;
      r.result == Returned(IoReturn(|r.data|, None))
      && r.data + r.next.readBuf == bytes && |r.data| == Min(bLen, |bytes|)
      && r.next.pending == s.pending[1..] && r.next.posted == s.posted + [AckMessage]
  {
  }

  /** A message without `arr` is consumed and reported as an error; any
      other `arr` that is not an ArrayBuffer makes the reader panic. */
  lemma ReadNotArrayBuffer(s: PortState, bLen: nat)
    requires Valid(s) && s.readBuf == [] && !s.done && s.pending != []
    requires !Get(s.pending[0], "arr").Buffer?
    ensures var arr := Get(s.pending[0], "arr");
      (arr == Undefined ==> ReadStep(s, bLen).result == Returned(IoReturn(0, Some(NotArrayBuffer))))
      && (arr != Undefined ==> ReadStep(s, bLen).result == Panicked(ByteLengthPanic(arr)))
      && (arr == Null ==> ReadStep(s, bLen).result == Panicked("syscall/js: call of Value.Get on null"))
      && (arr.Num? ==> ReadStep(s, bLen).result == Panicked("syscall/js: call of Value.Get on number"))
  {
  }

  /** The drain's `io.EOF` never surfaces: `Read` reports `io.EOF` only
      when the remote end's `__eof` latched it, with nothing left to read. */
  lemma ReadEofOnlyFromRemote(s: PortState, bLen: nat)
    requires Valid(s)
    ensures var r := ReadStep(s, bLen);
      r.result == Returned(IoReturn(0, Some(EOF))) ==> s.err == Some(EOF) && s.readBuf == []
    ensures var r := ReadStep(s, bLen);
      r.result.Returned? && r.result.value.err.None? ==> r.result.value.n == |r.data| <= bLen
  {
  }

  /** The bytes of a message's `arr`, none for a message without one. */
  function Payload(m: JsMessage): seq<byte>
  {
    var arr := Get(m, "arr");
    if arr.Buffer? then arr.bytes else []
  }

  function Payloads(ms: seq<JsMessage>): seq<byte>
  {
    if ms == [] then [] else Payload(ms[0]) + Payloads(ms[1..])
  }

  /** Everything the port has still to hand out through `Read`: the
      buffered bytes, then the payloads of the messages waiting. */
  function Stream(s: PortState): seq<byte>
  {
    s.readBuf + Payloads(s.pending)
  }

  lemma {:induction false} PayloadsAppend(ms: seq<JsMessage>, m: JsMessage)
    ensures Payloads(ms + [m]) == Payloads(ms) + Payload(m)
  {
    if ms != [] {
      assert (ms + [m])[1..] == ms[1..] + [m];
      PayloadsAppend(ms[1..], m);
    }
  }

  /** A delivered message adds its payload to the end of the stream. */
  lemma OnMessageExtends(s: PortState, data: JsMessage)
    requires "__eof" !in data && "__err" !in data && "__ack" !in data
    ensures Stream(OnMessage(s, data)) == Stream(s) + Payload(data)
  {
    PayloadsAppend(s.pending, data);
  }

  /** One `Read` takes its bytes from the front of the stream and keeps the
      rest, whatever it returns. */
  lemma ReadTakesFront(s: PortState, bLen: nat)
    requires Valid(s)
    ensures var r := ReadStep(s, bLen); Stream(s) == r.data + Stream(r.next)
  {
    if |s.readBuf| == 0 && !s.done && s.pending != [] {
      var msg := s.pending[0];
      var m := ReadMessageStep(s);
      assert m.result == Returned(Message(msg)) && m.next.readBuf == [];
      assert Payloads(s.pending) == Payload(msg) + Payloads(m.next.pending);
      var arr := Get(msg, "arr");
      if arr.Buffer? {
        var b := ReadBuffer(arr.bytes, bLen);
        assert m.next.readBuf + arr.bytes == arr.bytes;
        assert ReadStep(s, bLen) == ReadOut(Returned(DrainResult(b)), b.data, m.next.(readBuf := b.rest));
      }
    }
  }

  lemma Regroup(x: seq<byte>, a: seq<byte>, y: seq<byte>, b: seq<byte>, z: seq<byte>)
    requires x == a + y && y == b + z
    ensures x == (a + b) + z
  {
  }

  lemma ReadMessageValid(s: PortState)
    requires Valid(s)
    ensures Valid(ReadMessageStep(s).next)
  {
    ValidPreserved(s, Undefined, map[], 0, []);
  }

  lemma ReadValid(s: PortState, bLen: nat)
    requires Valid(s)
    ensures Valid(ReadStep(s, bLen).next)
  {
    ValidPreserved(s, Undefined, map[], bLen, []);
  }

  /** Reads one after another, for the given lengths of b. */
  function ReadAll(s: PortState, lens: seq<nat>): (r: (seq<byte>, PortState))
    requires Valid(s)
    decreases |lens|
  {
    if lens == [] then ([], s)
    else
      var r := ReadStep(s, lens[0]);
      ReadValid(s, lens[0]);
      var rest := ReadAll(r.next, lens[1..]);
      (r.data + rest.0, rest.1)
  }

  /** The bytes of successive reads, concatenated, are the stream's front:
      the received payloads in order, none skipped or repeated. */
  lemma {:induction false} ReadAllInOrder(s: PortState, lens: seq<nat>)
    requires Valid(s)
    ensures var (data, last) := ReadAll(s, lens); Stream(s) == data + Stream(last)
    decreases |lens|
  {
    if lens != [] {
      var r := ReadStep(s, lens[0]);
      ReadValid(s, lens[0]);
      ReadTakesFront(s, lens[0]);
      ReadAllInOrder(r.next, lens[1..]);
      var rest := ReadAll(r.next, lens[1..]);
      Regroup(Stream(s), r.data, Stream(r.next), rest.0, Stream(rest.1));
    }
  }

  /** `Write` posts the `arr` message and returns `(len(b), nil)` on an
      acknowledgement, `(0, err)` once `done`. */
  lemma WriteResults(s: PortState, b: seq<byte>)
    requires Valid(s)
    ensures var w := WriteStep(s, b);
      w.next.posted == s.posted + [PostMessage(ArrMessage(b), [Buffer(b)])]
      && (s.done ==> w.result == Returned(IoReturn(0, s.err)))
      && (!s.done && s.acks > 0 ==> w.result == Returned(IoReturn(|b|, None)))
      && (!s.done && s.acks == 0 ==> w.result == Blocked)
  {
  }

  /** The copy loop of `io.Copy`: reads through a 512-byte buffer until the
      reader reports the end, and collects what it read. */
  method Copy(reader: TA.Reader) returns (copied: seq<byte>)
    modifies reader
    ensures copied == TA.Remaining(old(reader.State()))
  {
    var chunk := new byte[512];
    ghost var total := TA.Remaining(reader.State());
    copied := [];
    while true
      invariant copied + TA.Remaining(reader.State()) == total
      decreases TA.Progress(reader.State())
    {
      ghost var s := reader.State();
      ghost var r := TA.ReaderRead(s, chunk.Length);
      TA.ReadProgress(s, chunk.Length);
      TA.ReadConsumes(s, chunk.Length);
      var n, e := reader.Read(chunk);
      if e.Some? {
        break;
      }
      assert chunk[..n] == r.data;
      Regroup(total, copied, TA.Remaining(s), r.data, TA.Remaining(r.next));
      copied := copied + chunk[..n];
    }
  }

  /** The Go object. */
  class MessagePort {
    var pending: seq<JsMessage>
    var acks: nat
    var readBuf: seq<byte>
    var err: Option<GoError>
    var done: bool
    var posted: seq<HostCall>

    function State(): PortState
      reads this
    {
      PortState(pending, acks, readBuf, err, done, posted)
    }

    /** `NewMessagePort`. */
    constructor ()
      ensures State() == Fresh
    {
      pending, acks, readBuf := [], 0, [];
      err, done, posted := None, false, [];
    }

    method HandleError(event: JsValue)
      modifies this
      ensures State() == OnError(old(State()), event)
    {
      if !done {
        err := Some(JsError(event));
        done := true;
      }
    }

    method HandleMessage(data: JsMessage)
      modifies this
      ensures State() == OnMessage(old(State()), data)
    {
      var eof := Get(data, "__eof");
      var e := Get(data, "__err");
      var ack := Get(data, "__ack");
      if eof != Undefined {
        if !done {
          err := Some(EOF);
          done := true;
        }
      } else if e != Undefined {
        if !done {
          err := Some(Remote(JsString(e)));
          done := true;
        }
      } else if ack != Undefined {
        acks := acks + 1;
      } else {
        pending := pending + [data];
      }
    }

    method ReadMessage() returns (r: Completion<Received>)
      requires Valid(State())
      modifies this
      ensures Step(r, State()) == ReadMessageStep(old(State()))
    {
      if done {
        return Returned(Failed(err.value));
      }
      if pending == [] {
        return Blocked;
      }
      var msg := pending[0];
      pending := pending[1..];
      posted := posted + [AckMessage];
      return Returned(Message(msg));
    }

    method AwaitAck() returns (r: Completion<Option<GoError>>)
      requires Valid(State())
      modifies this
      ensures Step(r, State()) == AwaitAckStep(old(State()))
    {
      if done {
        return Returned(err);
      }
      if acks == 0 {
        return Blocked;
      }
      acks := acks - 1;
      return Returned(None);
    }

    method WriteMessage(data: JsMessage, transfer: seq<JsValue>) returns (r: Completion<Option<GoError>>)
      requires Valid(State())
      modifies this
      ensures Step(r, State()) == WriteMessageStep(old(State()), data, transfer)
    {
      posted := posted + [PostMessage(data, transfer)];
      r := AwaitAck();
    }

    method WriteError(text: string) returns (r: Completion<Option<GoError>>)
      requires Valid(State())
      modifies this
      ensures Step(r, State()) == WriteErrorStep(old(State()), text)
    {
      r := WriteMessage(map["__err" := Str(text)], []);
    }

    /** `io.Copy(&p.readBuf, array.NewReader(arr))`: appends everything the
        ArrayBuffer's reader yields to the read buffer. */
    method CopyIn(ab: seq<byte>)
      modifies this
      ensures State() == old(State()).(readBuf := old(readBuf) + ab)
    {
      var reader := new TA.Reader(ab);
      var copied := Copy(reader);
      readBuf := readBuf + copied;
    }

    method Read(b: array<byte>) returns (r: Completion<IoReturn>)
      requires Valid(State())
      modifies this, b
      ensures var out := ReadStep(old(State()), b.Length);
        r == out.result && State() == out.next
        && b[..|out.data|] == out.data && b[|out.data|..] == old(b[|out.data|..])
    {
      if |readBuf| > 0 {
        var rb := ReadBuffer(readBuf, b.Length);
        TA.CopyInto(b, rb.data);
        readBuf := rb.rest;
        return Returned(DrainResult(rb));
      }
      var m := ReadMessage();
      match m
      case Blocked => return Blocked;
      case Panicked(why) => return Panicked(why);
      case Returned(Failed(e)) => return Returned(IoReturn(0, Some(e)));
      case Returned(Message(msg)) =>
        var arr := Get(msg, "arr");
        if arr.Undefined? {
          return Returned(IoReturn(0, Some(NotArrayBuffer)));
        }
        if !arr.Buffer? {
          return Panicked(ByteLengthPanic(arr));
        }
        CopyIn(arr.bytes);
        var rb := ReadBuffer(readBuf, b.Length);
        TA.CopyInto(b, rb.data);
        readBuf := rb.rest;
        return Returned(DrainResult(rb));
    }

    method Write(b: seq<byte>) returns (r: Completion<IoReturn>)
      requires Valid(State())
      modifies this
      ensures Step(r, State()) == WriteStep(old(State()), b)
    {
      var w := WriteMessage(ArrMessage(b), [Buffer(b)]);
      match w
      case Blocked => return Blocked;
      case Panicked(why) => return Panicked(why);
      case Returned(None) => return Returned(IoReturn(|b|, None));
      case Returned(Some(e)) => return Returned(IoReturn(0, Some(e)));
    }

    method Close() returns (e: Option<GoError>)
      modifies this
      ensures State() == CloseStep(old(State())) && e == None
    {
      if !done {
        err := Some(ErrClosedPipe);
        done := true;
        posted := posted + [PostMessage(Flag("__eof"), [])];
      }
      return None;
    }
  }
}
