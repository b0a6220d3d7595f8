/** pkg/wrpcnet/port.go: a synchronous wrapper around a JS MessagePort.

    Data messages are queued in arrival order; each one also starts a
    goroutine that offers one notification on the `notify` channel, and an
    `__ack` from the remote end offers one on `ack`. The model counts the
    offered notifications and acknowledgements instead of running
    goroutines. `done` is the closed `done` channel; `err` is the latched
    error. The JS side's `postMessage` and `close` calls are recorded in
    `posted`.

    A call that would wait on a channel with nothing offered returns
    `Blocked`. When `done` is closed and another case is also ready, Go's
    `select` may take either; the model takes `done`. */
module WrpcNet {
  import opened Common

  /** The fields of a port. */
  datatype PortState = PortState(
    messages: seq<JsMessage>,
    notify: nat,
    acks: nat,
    err: Option<GoError>,
    done: bool,
    posted: seq<HostCall>)

  /** `done` is closed exactly when an error is latched, and every
      notification offered has a message queued for it. */
  predicate Valid(s: PortState)
  {
    (s.done <==> s.err.Some?) && s.notify <= |s.messages|
  }

  /** Every queued message has a notification offered for it, so a reader
      waiting on `notify` is woken for each one. */
  predicate Notified(s: PortState)
  {
    s.notify == |s.messages|
  }

  /** `NewMessagePort`: an empty queue, nothing latched. */
  const Fresh: PortState := PortState([], 0, 0, None, false, [])

  /** What `ReadMessage` hands back: a message or the latched error. */
  datatype Received = Message(data: JsMessage) | Failed(err: GoError)

  /** A call's completion and the port's fields afterwards. */
  datatype Step<+T> = Step(result: Completion<T>, next: PortState)

  /** A `Read`'s completion, the bytes it put at the front of b, and the
      port's fields afterwards. */
  datatype ReadOut = ReadOut(result: Completion<IoReturn>, data: seq<byte>, next: PortState)

  const AckMessage: HostCall := PostMessage(Flag("__ack"), [])

  /** `onerror` and `onmessageerror`: the first error is latched and closes
      `done`. */
  function OnError(s: PortState, event: JsValue): PortState
  {
    if s.err.None? then s.(err := Some(JsError(event)), done := true) else s
  }

  /** `onmessage`, for the message's `data`: `__eof`, then `__err`, then
      `__ack` are looked for; anything else is queued at the back. */
  function OnMessage(s: PortState, data: JsMessage): PortState
  {
    if Get(data, "__eof") != Undefined then
      if s.err.None? then s.(err := Some(EOF), done := true) else s
    else if Get(data, "__err") != Undefined then
      if s.err.None? then s.(err := Some(Remote(JsString(Get(data, "__err")))), done := true) else s
    else if Get(data, "__ack") != Undefined then s.(acks := s.acks + 1)
    else s.(messages := s.messages + [data], notify := s.notify + 1)
  }

  /** `ReadMessage`: the latched error once `done` is closed; otherwise it
      takes a notification, posts `__ack` and removes the front message. */
  function ReadMessageStep(s: PortState): Step<Received>
    requires Valid(s)
  {
    if s.done then Step(Returned(Failed(s.err.value)), s)
    else if s.notify == 0 then Step(Blocked, s)
    else
      Step(Returned(Message(s.messages[0])),
           s.(notify := s.notify - 1, messages := s.messages[1..], posted := s.posted + [AckMessage]))
  }

  /** The wait at the end of `WriteMessage`: the latched error once `done`
      is closed, nil once an acknowledgement is offered. */
  function AwaitAckStep(s: PortState): Step<Option<GoError>>
    requires Valid(s)
  {
    if s.done then Step(Returned(s.err), s)
    else if s.acks == 0 then Step(Blocked, s)
    else Step(Returned(None), s.(acks := s.acks - 1))
  }

  /** `WriteMessage`: posts the message, then waits for the remote end's
      acknowledgement. */
  function WriteMessageStep(s: PortState, data: JsMessage, transfer: seq<JsValue>): Step<Option<GoError>>
    requires Valid(s)
  {
    AwaitAckStep(s.(posted := s.posted + [PostMessage(data, transfer)]))
  }

  /** n zero bytes. */
  function Zeros(n: nat): (z: seq<byte>)
    ensures |z| == n && forall i :: 0 <= i < n ==> z[i] == 0
  {
    seq(n, _ => 0)
  }

  const InvalidLength: string := "RangeError: Invalid typed array length"

  /** `array.NewUint8Array(v)`, that is `new Uint8Array(v)`. Over an
      ArrayBuffer it is a view of the buffer's bytes. Any other value is
      taken as a length (JavaScript's ToIndex) and the array is that many
      zero bytes: 0 for `undefined`, `null`, `false` and a host object
      (which has no `length`), 1 for `true`, a number itself, and for a
      string the number it spells, a string that is not a number counting
      as 0. A negative length throws a RangeError, which syscall/js turns
      into a panic. */
  function NewUint8Array(v: JsValue): (r: Outcome<seq<byte>>)
    ensures v.Buffer? ==> r == Ok(v.bytes)
    ensures r.Panic? ==> v.Str? || (v.Num? && v.n < 0)
    ensures v.Num? ==> (r.Ok? <==> v.n >= 0) && (r.Ok? ==> |r.value| == v.n)
    ensures r.Ok? && !v.Buffer? ==> forall i :: 0 <= i < |r.value| ==> r.value[i] == 0
    ensures v.Bool? ==> r == Ok(if v.b then [0] else [])
    ensures v.Null? || v.Object? ==> r == Ok([])
  {
    match v
    case Buffer(bytes) => Ok(bytes)
    case Bool(b) => Ok(if b then [0] else [])
    case Num(n) => if n < 0 then Panic(InvalidLength) else Ok(Zeros(n))
    case Str(s) =>
      if |s| > 1 && s[0] == '-' && AllDigits(s[1..]) && DecimalValue(s[1..]) > 0 then Panic(InvalidLength)
      else if AllDigits(s) then Ok(Zeros(DecimalValue(s)))
      else Ok([])
    case _ => Ok([])
  }

  /** `Read` as written: a message longer than b is pushed back to the front
      of the queue, but the notification it consumed is not offered again,
      and its `__ack` has already been posted. */
  function ReadStepAsWritten(s: PortState, bLen: nat): ReadOut
    requires Valid(s)
  {
    var m := ReadMessageStep(s);
    match m.result
    case Blocked => ReadOut(Blocked, [], m.next)
    case Panicked(why) => ReadOut(Panicked(why), [], m.next)
    case Returned(Failed(e)) => ReadOut(Returned(IoReturn(0, Some(e))), [], m.next)
    case Returned(Message(msg)) =>
      var ab := Get(msg, "arr");
      if ab.Undefined? then ReadOut(Panicked("expected an ArrayBuffer message"), [], m.next)
      else
        match NewUint8Array(ab)
        case Panic(why) => ReadOut(Panicked(why), [], m.next)
        case Ok(arr) =>
          if |arr| > bLen then
            ReadOut(Returned(IoReturn(0, Some(ErrShortBuffer))), [], m.next.(messages := [msg] + m.next.messages))
          else ReadOut(Returned(IoReturn(|arr|, None)), arr, m.next)
  }

  /** `Read` as evidently intended: a message longer than b is left for a
      retry as if it had not been taken, with its notification offered
      again and no `__ack` posted, since it has not been read. */
  function ReadStep(s: PortState, bLen: nat): ReadOut
    requires Valid(s)
  {
    var m := ReadMessageStep(s);
    match m.result
    case Blocked => ReadOut(Blocked, [], m.next)
    case Panicked(why) => ReadOut(Panicked(why), [], m.next)
    case Returned(Failed(e)) => ReadOut(Returned(IoReturn(0, Some(e))), [], m.next)
    case Returned(Message(msg)) =>
      var ab := Get(msg, "arr");
      if ab.Undefined? then ReadOut(Panicked("expected an ArrayBuffer message"), [], m.next)
      else
        match NewUint8Array(ab)
        case Panic(why) => ReadOut(Panicked(why), [], m.next)
        case Ok(arr) =>
          if |arr| > bLen then
            ReadOut(Returned(IoReturn(0, Some(ErrShortBuffer))), [],
                    m.next.(messages := [msg] + m.next.messages, notify := m.next.notify + 1, posted := s.posted))
          else ReadOut(Returned(IoReturn(|arr|, None)), arr, m.next)
  }

  /** The message `Write` sends for b: the bytes in a fresh ArrayBuffer under
      `arr`, the buffer also transferred. */
  function ArrMessage(b: seq<byte>): JsMessage
  {
    map["arr" := Buffer(b)]
  }

  /** `Write`: `(len(b), nil)` once acknowledged, `(0, err)` once `done`. */
  function WriteStep(s: PortState, b: seq<byte>): Step<IoReturn>
    requires Valid(s)
  {
    var w := WriteMessageStep(s, ArrMessage(b), [Buffer(b)]);
    match w.result
    case Blocked => Step(Blocked, w.next)
    case Panicked(why) => Step(Panicked(why), w.next)
    case Returned(None) => Step(Returned(IoReturn(|b|, None)), w.next)
    case Returned(Some(e)) => Step(Returned(IoReturn(0, Some(e))), w.next)
  }

  /** `Close`: latches `io.ErrClosedPipe`, closes `done`, posts `__eof` and
      closes the JS port. Closing `done` a second time panics. */
  function CloseStep(s: PortState): Step<Option<GoError>>
  {
    var t := s.(err := Some(ErrClosedPipe));
    if s.done then Step(Panicked("close of closed channel"), t)
    else Step(Returned(None), t.(done := true, posted := s.posted + [PostMessage(Flag("__eof"), []), ClosePort]))
  }

  /** `CloseWithError`: as `Close`, but posts the error's text under `__err`. */
  function CloseWithErrorStep(s: PortState, text: string): Step<()>
  {
    var t := s.(err := Some(ErrClosedPipe));
    if s.done then Step(Panicked("close of closed channel"), t)
    else Step(Returned(()), t.(done := true, posted := s.posted + [PostMessage(map["__err" := Str(text)], []), ClosePort]))
  }

  // ---------------------------------------------------------------------
  // Properties

  /** Every event and call keeps the port valid; a second close panics. */
  lemma ValidPreserved(s: PortState, event: JsValue, data: JsMessage, bLen: nat, b: seq<byte>, text: string)
    requires Valid(s)
    ensures Valid(OnError(s, event)) && Valid(OnMessage(s, data))
    ensures Valid(ReadMessageStep(s).next) && Valid(AwaitAckStep(s).next)
    ensures Valid(ReadStep(s, bLen).next) && Valid(ReadStepAsWritten(s, bLen).next)
    ensures Valid(WriteStep(s, b).next)
    ensures !s.done ==> Valid(CloseStep(s).next) && Valid(CloseWithErrorStep(s, text).next)
    ensures s.done <==> CloseStep(s).result.Panicked?
    ensures s.done <==> CloseWithErrorStep(s, text).result.Panicked?
  {
  }

  /** With the corrected `Read`, every event and call keeps one notification
      per queued message. */
  lemma NotifiedPreserved(s: PortState, event: JsValue, data: JsMessage, bLen: nat, b: seq<byte>, text: string)
    requires Valid(s) && Notified(s)
    ensures Notified(OnError(s, event)) && Notified(OnMessage(s, data))
    ensures Notified(ReadMessageStep(s).next) && Notified(ReadStep(s, bLen).next)
    ensures Notified(WriteStep(s, b).next) && Notified(CloseStep(s).next)
    ensures Notified(CloseWithErrorStep(s, text).next)
  {
  }

  /** A data message goes to the back of the queue with one notification,
      and nothing else changes. */
  lemma OnMessageQueues(s: PortState, data: JsMessage)
    requires "__eof" !in data && "__err" !in data && "__ack" !in data
    ensures OnMessage(s, data) == s.(messages := s.messages + [data], notify := s.notify + 1)
  {
  }

  /** The first of `__eof`, `__err` and an error event latches its error and
      closes `done`: `io.EOF` for `__eof`, the remote text for `__err`.
      After that, none of them changes anything. */
  lemma ErrorLatch(s: PortState, event: JsValue, data: JsMessage)
    ensures s.err.Some? ==> OnError(s, event) == s
    ensures (s.err.Some? && (Get(data, "__eof") != Undefined || Get(data, "__err") != Undefined))
              ==> OnMessage(s, data) == s
    ensures (s.err.None? && Get(data, "__eof") != Undefined)
              ==> OnMessage(s, data) == s.(err := Some(EOF), done := true)
    ensures (s.err.None? && Get(data, "__eof") == Undefined && Get(data, "__err") != Undefined)
              ==> OnMessage(s, data) == s.(err := Some(Remote(JsString(Get(data, "__err")))), done := true)
    ensures s.err.None? && data == map["__err" := Bool(true)] ==>
              OnMessage(s, data).err == Some(Remote("<boolean: true>"))
    ensures s.err.None? && data == map["__err" := Num(5)] ==>
              OnMessage(s, data).err == Some(Remote("<number: 5>"))
    ensures s.err.None? ==> OnError(s, event) == s.(err := Some(JsError(event)), done := true)
  {
    assert JsString(Num(5)) == "<number: 5>" by {
      assert IntText(5) == "5";
    }
  }

  /** `ReadMessage` returns the front of the queue, removes it and posts one
      `__ack`; once `done`, it returns the latched error and changes
      nothing. */
  lemma ReadMessageFront(s: PortState)
    requires Valid(s)
    ensures s.done ==> ReadMessageStep(s) == Step(Returned(Failed(s.err.value)), s)
    ensures !s.done && s.notify > 0 ==>
      var r := ReadMessageStep(s);
      r.result == Returned(Message(s.messages[0])) && r.next.messages == s.messages[1..]
      && r.next.posted == s.posted + [AckMessage] && r.next.notify == s.notify - 1
  {
  }

  /** Messages read one after another, up to k of them. */
  function ReadMessages(s: PortState, k: nat): (r: (seq<JsMessage>, PortState))
    requires Valid(s)
    decreases k
  {
    if k == 0 then ([], s)
    else
      var st := ReadMessageStep(s);
      ValidPreserved(s, Undefined, map[], 0, [], "");
      match st.result
      case Returned(Message(m)) =>
        var rest := ReadMessages(st.next, k - 1);
        ([m] + rest.0, rest.1)
      case _ => ([], st.next)
  }

  /** FIFO: k successive `ReadMessage` calls return the first k queued
      messages in arrival order and leave the others queued. */
  lemma {:induction false} ReadMessagesFifo(s: PortState, k: nat)
    requires Valid(s) && !s.done && k <= s.notify
    ensures ReadMessages(s, k).0 == s.messages[..k]
    ensures ReadMessages(s, k).1.messages == s.messages[k..]
    decreases k
  {
    if k > 0 {
      var st := ReadMessageStep(s);
      ValidPreserved(s, Undefined, map[], 0, [], "");
      ReadMessagesFifo(st.next, k - 1);
      assert s.messages[..k] == [s.messages[0]] + s.messages[1..][..k - 1];
      assert s.messages[k..] == s.messages[1..][k - 1..];
    }
  }

  /** A message longer than b is put back at the front and `Read` returns
      `(0, io.ErrShortBuffer)`; the port is left exactly as it was, so
      nothing is acknowledged for the message yet. */
  lemma ReadShortBuffer(s: PortState, bLen: nat)
    requires Valid(s) && !s.done && s.notify > 0
    requires var v := NewUint8Array(Get(s.messages[0], "arr")); v.Ok? && |v.value| > bLen
    ensures var r := ReadStep(s, bLen);
      r.result == Returned(IoReturn(0, Some(ErrShortBuffer))) && r.data == [] && r.next == s
  {
    assert [s.messages[0]] + s.messages[1..] == s.messages;
  }

  /** A successful `Read` copies the whole front message into b: its count
      is the message's length, at most len(b). */
  lemma ReadCopies(s: PortState, bLen: nat)
    requires Valid(s)
    ensures var r := ReadStep(s, bLen);
      r.result.Returned? && r.result.value.err.None? ==>
        !s.done && s.notify > 0 && NewUint8Array(Get(s.messages[0], "arr")) == Ok(r.data)
        && r.result.value.n == |r.data| <= bLen && r.next.messages == s.messages[1..]
        && r.next.posted == s.posted + [AckMessage]
  {
  }

  /** An `arr` that is not an ArrayBuffer is read as the zero bytes of the
      Uint8Array it makes: `true` gives one byte, `null` and a host object
      none, a numeric string that many. */
  lemma ReadNonBuffer(s: PortState, msg: JsMessage)
    requires Valid(s) && !s.done && s.notify > 0 && s.messages[0] == msg
    ensures msg == map["arr" := Bool(true)] ==>
      ReadStep(s, 0).result == Returned(IoReturn(0, Some(ErrShortBuffer)))
      && ReadStep(s, 1).result == Returned(IoReturn(1, None)) && ReadStep(s, 1).data == [0]
    ensures msg == map["arr" := Null] ==>
      ReadStep(s, 0).result == Returned(IoReturn(0, None)) && ReadStep(s, 0).data == []
    ensures msg == map["arr" := Str("5")] ==>
      ReadStep(s, 8).result == Returned(IoReturn(5, None)) && ReadStep(s, 8).data == [0, 0, 0, 0, 0]
    ensures msg == map["arr" := Str("-1")] ==> ReadStep(s, 8).result == Panicked(InvalidLength)
  {
    assert DecimalValue("5") == 5 by {
      assert "5"[..0] == [];
    }
    assert DecimalValue("1") == 1 by {
      assert "1"[..0] == [];
    }
    assert "-1"[1..] == "1";
  }

  /** A numeric `arr` is read as that many zero bytes; a negative one
      panics with a RangeError. */
  lemma ReadNumber(s: PortState, msg: JsMessage)
    requires Valid(s) && !s.done && s.notify > 0 && s.messages[0] == msg
    ensures msg == map["arr" := Num(5)] ==>
      ReadStep(s, 8).result == Returned(IoReturn(5, None)) && ReadStep(s, 8).data == [0, 0, 0, 0, 0]
    ensures msg == map["arr" := Num(5)] ==> ReadStep(s, 4).result == Returned(IoReturn(0, Some(ErrShortBuffer)))
    ensures msg == map["arr" := Num(-1)] ==> ReadStep(s, 8).result == Panicked(InvalidLength)
  {
  }

  /** A string that spells an integer makes the same array as the integer
      itself, as ToIndex converts a string through ToNumber. */
  lemma NewUint8ArrayOfText(n: int)
    ensures NewUint8Array(Str(IntText(n))) == NewUint8Array(Num(n))
  {
  }

  /** Reads one after another into buffers of the given lengths. */
  function Reads(s: PortState, lens: seq<nat>): (t: PortState)
    requires Valid(s)
    ensures Valid(t)
    decreases |lens|
  {
    if lens == [] then s
    else
      ValidPreserved(s, Undefined, map[], lens[0], [], "");
      Reads(ReadStep(s, lens[0]).next, lens[1..])
  }

  function Acks(k: nat): (a: seq<HostCall>)
    ensures |a| == k && forall i :: 0 <= i < k ==> a[i] == AckMessage
  {
    seq(k, _ => AckMessage)
  }

  /** One `Read` either leaves the queue and the posted calls as they were
      or takes the front message and posts one `__ack` for it. */
  lemma ReadAcksTaken(s: PortState, bLen: nat)
    requires Valid(s)
    ensures Valid(ReadStep(s, bLen).next)
    ensures var r := ReadStep(s, bLen);
      (r.next.messages == s.messages && r.next.posted == s.posted)
      || (s.messages != [] && r.next.messages == s.messages[1..] && r.next.posted == s.posted + [AckMessage])
  {
    var m := ReadMessageStep(s);
    if m.result.Returned? && m.result.value.Message? {
      assert [s.messages[0]] + s.messages[1..] == s.messages;
    }
  }

  /** Over any run of corrected reads, the messages taken are the front of
      the queue, and exactly one `__ack` is posted for each of them. */
  lemma {:induction false} ReadsAckOnce(s: PortState, lens: seq<nat>)
    requires Valid(s)
    ensures var t := Reads(s, lens);
      |t.messages| <= |s.messages| && t.messages == s.messages[|s.messages| - |t.messages|..]
      && t.posted == s.posted + Acks(|s.messages| - |t.messages|)
    decreases |lens|
  {
    if lens == [] {
      assert s.posted + Acks(0) == s.posted;
    } else {
      var u := ReadStep(s, lens[0]).next;
      ReadAcksTaken(s, lens[0]);
      ReadsAckOnce(u, lens[1..]);
      var t := Reads(u, lens[1..]);
      TakenAdd(s.messages, u.messages, t.messages, s.posted, u.posted, t.posted);
    }
  }

  /** One read's take, if any, followed by the takes of the reads after it. */
  lemma TakenAdd(m0: seq<JsMessage>, m1: seq<JsMessage>, m2: seq<JsMessage>,
                 p0: seq<HostCall>, p1: seq<HostCall>, p2: seq<HostCall>)
    requires (m1 == m0 && p1 == p0) || (m0 != [] && m1 == m0[1..] && p1 == p0 + [AckMessage])
    requires |m2| <= |m1| && m2 == m1[|m1| - |m2|..] && p2 == p1 + Acks(|m1| - |m2|)
    ensures |m2| <= |m0| && m2 == m0[|m0| - |m2|..] && p2 == p0 + Acks(|m0| - |m2|)
  {
    if m1 != m0 || p1 != p0 {
      var k := |m1| - |m2|;
      assert m0[1..][k..] == m0[k + 1..];
      assert p0 + [AckMessage] + Acks(k) == p0 + Acks(k + 1);
    }
  }

  /** `Write` returns `(len(b), nil)` on acknowledgement and `(0, err)` once
      `done`; either way the `arr` message was posted first. */
  lemma WriteResults(s: PortState, b: seq<byte>)
    requires Valid(s)
    ensures var w := WriteStep(s, b);
      w.next.posted == s.posted + [PostMessage(ArrMessage(b), [Buffer(b)])]
      && (s.done ==> w.result == Returned(IoReturn(0, s.err)))
      && (!s.done && s.acks > 0 ==> w.result == Returned(IoReturn(|b|, None)) && w.next.acks == s.acks - 1)
      && (!s.done && s.acks == 0 ==> w.result == Blocked)
  {
  }

  /** `Close` and `CloseWithError` latch `io.ErrClosedPipe`, so every later
      read and write returns it. */
  lemma CloseLatches(s: PortState, bLen: nat, b: seq<byte>)
    requires Valid(s) && !s.done
    ensures var c := CloseStep(s).next;
      c.err == Some(ErrClosedPipe) && c.done
      && c.posted == s.posted + [PostMessage(Flag("__eof"), []), ClosePort]
      && ReadStep(c, bLen).result == Returned(IoReturn(0, Some(ErrClosedPipe)))
      && WriteStep(c, b).result == Returned(IoReturn(0, Some(ErrClosedPipe)))
  {
  }

  // ---------------------------------------------------------------------
  // The short-buffer retry

  /** A message of four bytes. */
  const FourBytes: JsMessage := ArrMessage([1, 2, 3, 4])

  /** As written, a `Read` into two bytes pushes the four-byte message back
      but has already acknowledged it, and a retry into eight bytes then
      waits although the message is queued: its notification was consumed
      by the first attempt. */
  lemma ShortBufferRetryBlocks()
    ensures var s := OnMessage(Fresh, FourBytes);
      var first := ReadStepAsWritten(s, 2);
      var second := ReadStepAsWritten(first.next, 8);
      first.result == Returned(IoReturn(0, Some(ErrShortBuffer)))
      && first.next.messages == [FourBytes]
      && first.next.posted == [AckMessage]
      && second.result == Blocked
  {
    var s := OnMessage(Fresh, FourBytes);
    assert Get(FourBytes, "arr") == Buffer([1, 2, 3, 4]);
    assert s.messages == [FourBytes] && s.notify == 1;
  }

  /** Corrected: after a short-buffer failure, a retry with room for the
      message returns it, and the message is acknowledged once. */
  lemma ShortBufferRetryReads(s: PortState, bLen: nat, bigger: nat)
    requires Valid(s) && !s.done && s.notify > 0
    requires var v := NewUint8Array(Get(s.messages[0], "arr")); v.Ok? && bLen < |v.value| <= bigger
    ensures var first := ReadStep(s, bLen);
      Valid(first.next)
      && first.result == Returned(IoReturn(0, Some(ErrShortBuffer)))
      && var second := ReadStep(first.next, bigger);
      second.result == Returned(IoReturn(|second.data|, None))
      && Ok(second.data) == NewUint8Array(Get(s.messages[0], "arr"))
      && second.next.posted == s.posted + [AckMessage]
  {
    ReadShortBuffer(s, bLen);
  }

  /** The JS-side port object of the wrapper. */
  class MessagePort {
    var messages: seq<JsMessage>
    var notify: nat
    var acks: nat
    var err: Option<GoError>
    var done: bool
    var posted: seq<HostCall>

    function State(): PortState
      reads this
    {
      PortState(messages, notify, acks, err, done, posted)
    }

    /** `NewMessagePort`. */
    constructor ()
      ensures State() == Fresh
    {
      messages, notify, acks := [], 0, 0;
      err, done, posted := None, false, [];
    }

    method HandleError(event: JsValue)
      modifies this
      ensures State() == OnError(old(State()), event)
    {
      if err.None? {
        err := Some(JsError(event));
        done := true;
      }
    }

    method HandleMessage(data: JsMessage)
      modifies this
      ensures State() == OnMessage(old(State()), data)
    {
      var eof := Get(data, "__eof");
      var e := Get(data, "__err");
      var ack := Get(data, "__ack");
      if eof != Undefined {
        if err.None? {
          err := Some(EOF);
          done := true;
        }
      } else if e != Undefined {
        if err.None? {
          err := Some(Remote(JsString(e)));
          done := true;
        }
      } else if ack != Undefined {
        acks := acks + 1;
      } else {
        messages := messages + [data];
        notify := notify + 1;
      }
    }

    method ReadMessage() returns (r: Completion<Received>)
      requires Valid(State())
      modifies this
      ensures Step(r, State()) == ReadMessageStep(old(State()))
    {
      if done {
        return Returned(Failed(err.value));
      }
      if notify == 0 {
        return Blocked;
      }
      notify := notify - 1;
      posted := posted + [AckMessage];
      var msg := messages[0];
      messages := messages[1..];
      return Returned(Message(msg));
    }

    method AwaitAck() returns (r: Completion<Option<GoError>>)
      requires Valid(State())
      modifies this
      ensures Step(r, State()) == AwaitAckStep(old(State()))
    {
      if done {
        return Returned(err);
      }
      if acks == 0 {
        return Blocked;
      }
      acks := acks - 1;
      return Returned(None);
    }

    method WriteMessage(data: JsMessage, transfer: seq<JsValue>) returns (r: Completion<Option<GoError>>)
      requires Valid(State())
      modifies this
      ensures Step(r, State()) == WriteMessageStep(old(State()), data, transfer)
    {
      posted := posted + [PostMessage(data, transfer)];
      r := AwaitAck();
    }

    /** `Read`, corrected: b receives the message's bytes. */
    method Read(b: array<byte>) returns (r: Completion<IoReturn>)
      requires Valid(State())
      modifies this, b
      ensures var out := ReadStep(old(State()), b.Length);
        r == out.result && State() == out.next
        && b[..|out.data|] == out.data && b[|out.data|..] == old(b[|out.data|..])
    {
      var before := posted;
      var m := ReadMessage();
      match m
      case Blocked => return Blocked;
      case Panicked(why) => return Panicked(why);
      case Returned(Failed(e)) => return Returned(IoReturn(0, Some(e)));
      case Returned(Message(msg)) =>
        var ab := Get(msg, "arr");
        if ab.Undefined? {
          return Panicked("expected an ArrayBuffer message");
        }
        var view := NewUint8Array(ab);
        if view.Panic? {
          return Panicked(view.reason);
        }
        var arr := view.value;
        if |arr| > b.Length {
          messages := [msg] + messages;
          notify := notify + 1;
          posted := before;
          return Returned(IoReturn(0, Some(ErrShortBuffer)));
        }
        ghost var fields := State();
        var i := 0;
        while i < |arr|
          invariant 0 <= i <= |arr| && State() == fields
          invariant b[..i] == arr[..i]
          invariant b[|arr|..] == old(b[|arr|..])
        {
          b[i] := arr[i];
          i := i + 1;
        }
        return Returned(IoReturn(|arr|, None));
    }

    method Write(b: seq<byte>) returns (r: Completion<IoReturn>)
      requires Valid(State())
      modifies this
      ensures Step(r, State()) == WriteStep(old(State()), b)
    {
      var w := WriteMessage(ArrMessage(b), [Buffer(b)]);
      match w
      case Blocked => return Blocked;
      case Panicked(why) => return Panicked(why);
      case Returned(None) => return Returned(IoReturn(|b|, None));
      case Returned(Some(e)) => return Returned(IoReturn(0, Some(e)));
    }

    method Close() returns (r: Completion<Option<GoError>>)
      modifies this
      ensures Step(r, State()) == CloseStep(old(State()))
    {
      err := Some(ErrClosedPipe);
      if done {
        return Panicked("close of closed channel");
      }
      done := true;
      posted := posted + [PostMessage(Flag("__eof"), []), ClosePort];
      return Returned(None);
    }

    method CloseWithError(text: string) returns (r: Completion<()>)
      modifies this
      ensures Step(r, State()) == CloseWithErrorStep(old(State()), text)
    {
      err := Some(ErrClosedPipe);
      if done {
        return Panicked("close of closed channel");
      }
      done := true;
      posted := posted + [PostMessage(map["__err" := Str(text)], []), ClosePort];
      return Returned(());
    }
  }
}
