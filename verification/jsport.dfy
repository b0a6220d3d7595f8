/** internal/jsutil/wrpc/messageport.go: the older MessagePort, whose reads
    go through an `io.Pipe` and whose writes rely on two flags.

    `isEOF` is set when the remote end announces `EOF`; `isClosed` when this
    end closes. Each data message starts a goroutine that writes its bytes
    to the pipe; `io.Pipe` hands a write to readers one `Read` at a time and
    the write returns once its last byte is read, so `writes` holds, in
    arrival order, the bytes each such goroutine still has to get read.
    `ready` and `ack` messages are counted as the signals their goroutines
    deliver. Calls on the JS object are recorded in `posted`. */
module JsutilPort {
  import opened Common
  import TA = TypedArrays

  /** The fields of a port, with the pipe reduced to its pending writes and
      the flags of its two closed ends. */
  datatype PortState = PortState(
    isEOF: bool,
    isClosed: bool,
    canceled: bool,        // the port's context was canceled
    writerClosed: bool,    // recvWriter.Close() was called
    readerClosed: bool,    // recvReader.Close() was called
    readySignals: nat,     // `ready` messages not yet taken by RemoteReady
    acks: nat,             // `ack` messages not yet taken by a Write
    writes: seq<seq<byte>>, // unread bytes of each write blocked on the pipe
    posted: seq<HostCall>)

  /** What the two closing paths leave behind: a local `Close` closes both
      pipe ends and cancels; a remote `EOF` closes the writer and cancels;
      a closed pipe has no write waiting on it; and a waiting write has
      bytes left, since an empty message never reaches the pipe. */
  predicate Valid(s: PortState)
  {
    (s.isClosed ==> s.readerClosed && s.writerClosed && s.canceled)
    && (s.isEOF ==> s.writerClosed && s.canceled)
    && (s.readerClosed || s.writerClosed ==> s.writes == [])
    && forall i :: 0 <= i < |s.writes| ==> s.writes[i] != []
  }

  /** The bytes still to be read from the pipe, in order. */
  function Unread(writes: seq<seq<byte>>): seq<byte>
  {
    if writes == [] then [] else writes[0] + Unread(writes[1..])
  }

  const ReadyMessage: HostCall := PostMessage(Flag("ready"), [])
  const EofMessage: HostCall := PostMessage(Flag("EOF"), [])
  const AckMessage: HostCall := PostMessage(Flag("ack"), [])

  /** What k writes waiting on the pipe do when it is closed under them:
      each fails with `io.ErrClosedPipe`, posts `EOF` to the remote end,
      and then its deferred `ack`. */
  function Released(k: nat): (r: seq<HostCall>)
    ensures |r| == 2 * k
  {
    if k == 0 then [] else [EofMessage, AckMessage] + Released(k - 1)
  }

  /** The i-th released write posts `EOF` and then `ack`. */
  lemma {:induction false} ReleasedPairs(k: nat, i: nat)
    requires i < k
    ensures Released(k)[2 * i] == EofMessage && Released(k)[2 * i + 1] == AckMessage
    decreases k
  {
    if i > 0 {
      ReleasedPairs(k - 1, i - 1);
      assert Released(k)[2 * i] == Released(k - 1)[2 * (i - 1)];
      assert Released(k)[2 * i + 1] == Released(k - 1)[2 * (i - 1) + 1];
    }
  }

  /** `NewMessagePort`: both pipe ends open, and `ready` posted. */
  const Fresh: PortState := PortState(false, false, false, false, false, 0, 0, [], [ReadyMessage])

  datatype Step<+T> = Step(result: Completion<T>, next: PortState)

  datatype ReadOut = ReadOut(result: Completion<IoReturn>, data: seq<byte>, next: PortState)

  function ArrMessage(b: seq<byte>): JsMessage
  {
    map["arr" := Buffer(b)]
  }

  /** `Write`: `io.EOF` after a remote EOF, else `io.ErrClosedPipe` after a
      local `Close`; otherwise the bytes are posted and the call waits for
      an `ack`. Nothing but an `ack` ends that wait. */
  function WriteStep(s: PortState, p: seq<byte>): Step<IoReturn>
  {
    if s.isEOF then Step(Returned(IoReturn(0, Some(EOF))), s)
    else if s.isClosed then Step(Returned(IoReturn(0, Some(ErrClosedPipe))), s)
    else
      var s' := s.(posted := s.posted + [PostMessage(ArrMessage(p), [Buffer(p)])]);
      if s'.acks == 0 then Step(Blocked, s')
      else Step(Returned(IoReturn(|p|, None)), s'.(acks := s'.acks - 1))
  }

  /** The `<-port.ack` a blocked `Write` is still waiting on. */
  function AwaitAckStep(s: PortState, p: seq<byte>): Step<IoReturn>
  {
    if s.acks == 0 then Step(Blocked, s)
    else Step(Returned(IoReturn(|p|, None)), s.(acks := s.acks - 1))
  }

  /** `Close`: `io.EOF` after a remote EOF, else `io.ErrClosedPipe` when
      already closed, changing nothing; otherwise marks the port closed,
      cancels, posts `EOF`, closes both pipe ends and the JS port. The
      writes waiting on the pipe then fail and are released. */
  function CloseStep(s: PortState): (Option<GoError>, PortState)
  {
    if s.isEOF then (Some(EOF), s)
    else if s.isClosed then (Some(ErrClosedPipe), s)
    else
      (None, s.(isClosed := true, canceled := true, readerClosed := true, writerClosed := true,
                writes := [], posted := s.posted + [EofMessage, ClosePort] + Released(|s.writes|)))
  }

  /** `Read` on the pipe: `io.ErrClosedPipe` once this end closed the
      reader, `io.EOF` once the writer is closed; otherwise it copies the
      front of the first waiting write, never more than that write holds,
      and waits when there is none. A write whose last byte is read
      returns, and its goroutine posts the deferred `ack`. */
  function ReadStep(s: PortState, bLen: nat): ReadOut
  {
    if s.readerClosed then ReadOut(Returned(IoReturn(0, Some(ErrClosedPipe))), [], s)
    else if s.writerClosed then ReadOut(Returned(IoReturn(0, Some(EOF))), [], s)
    else if s.writes == [] then ReadOut(Blocked, [], s)
    else
      var w := s.writes[0];
      if bLen >= |w| then
        ReadOut(Returned(IoReturn(|w|, None)), w, s.(writes := s.writes[1..], posted := s.posted + [AckMessage]))
      else
        ReadOut(Returned(IoReturn(bLen, None)), w[..bLen], s.(writes := [w[bLen..]] + s.writes[1..]))
  }

  /** The kinds of message `onmessage` tells apart. */
  datatype Kind = ReadyKind | AckKind | EofKind | RemoteCallKind | DataKind | OtherKind

  /** `!data.Get(key).IsUndefined()`. */
  predicate Carries(data: JsMessage, key: string)
  {
    Get(data, key) != Undefined
  }

  /** The order of the checks in `onmessage`: `ready`, `ack`, `EOF`, then
      `rc` (only inside a worker), then `arr`. */
  function Classify(data: JsMessage, isWorker: bool): Kind
  {
    if Carries(data, "ready") then ReadyKind
    else if Carries(data, "ack") then AckKind
    else if Carries(data, "EOF") then EofKind
    else if isWorker && Carries(data, "rc") then RemoteCallKind
    else if Carries(data, "arr") then DataKind
    else OtherKind
  }

  /** The goroutine of a data message: copy the bytes out (panicking on a
      failed or empty copy) and write them to the pipe. On a closed pipe the
      write fails at once and `EOF` is posted to the remote end; on an open
      one it waits until a reader has taken every byte. The deferred `ack`
      is posted when the goroutine ends, also when it panicked. */
  function DataStep(s: PortState, arr: JsValue): Step<()>
  {
    if !arr.Buffer? then Step(Panicked("copyBytes: error"), s.(posted := s.posted + [AckMessage]))
    else if arr.bytes == [] then Step(Panicked("copyBytes: 0 bytes"), s.(posted := s.posted + [AckMessage]))
    else if s.readerClosed || s.writerClosed then
      Step(Returned(()), s.(posted := s.posted + [EofMessage, AckMessage]))
    else Step(Blocked, s.(writes := s.writes + [arr.bytes]))
  }

  /** `onmessage` with the message's data, inside a worker or not; for a
      data message, how far the goroutine it starts gets. */
  function OnMessage(s: PortState, data: JsMessage, isWorker: bool): Step<()>
  {
    match Classify(data, isWorker)
    case ReadyKind => Step(Returned(()), s.(readySignals := s.readySignals + 1))
    case AckKind => Step(Returned(()), s.(acks := s.acks + 1))
    case EofKind =>
      Step(Returned(()), s.(isEOF := true, canceled := true, writerClosed := true, writes := [],
                            posted := s.posted + [ClosePort] + Released(|s.writes|)))
    case RemoteCallKind => Step(Returned(()), s)
    case DataKind => DataStep(s, Get(data, "arr"))
    case OtherKind => Step(Returned(()), s)
  }

  // ---------------------------------------------------------------------
  // Properties

  lemma ValidPreserved(s: PortState, p: seq<byte>, bLen: nat)
    requires Valid(s)
    ensures Valid(WriteStep(s, p).next) && Valid(AwaitAckStep(s, p).next) && Valid(CloseStep(s).1)
    ensures Valid(ReadStep(s, bLen).next)
  {
  }

  lemma OnMessageValid(s: PortState, data: JsMessage, isWorker: bool)
    requires Valid(s)
    ensures Valid(OnMessage(s, data, isWorker).next)
  {
    if Classify(data, isWorker) == DataKind {
      assert OnMessage(s, data, isWorker) == DataStep(s, Get(data, "arr"));
    }
  }

  lemma FreshValid()
    ensures Valid(Fresh)
  {
  }

  /** `Write` fails exactly when one of the flags is set, and a remote EOF
      wins over a local close; an error changes nothing. */
  lemma WriteFlags(s: PortState, p: seq<byte>)
    ensures var w := WriteStep(s, p);
      (s.isEOF ==> w == Step(Returned(IoReturn(0, Some(EOF))), s))
      && (!s.isEOF && s.isClosed ==> w == Step(Returned(IoReturn(0, Some(ErrClosedPipe))), s))
      && (!s.isEOF && !s.isClosed ==>
            w.next.posted == s.posted + [PostMessage(ArrMessage(p), [Buffer(p)])]
            && (w.result.Returned? <==> s.acks > 0)
            && (w.result.Returned? ==> w.result.value == IoReturn(|p|, None)))
  {
  }

  /** `Close` errs on an EOF'd or closed port without changing it; a
      successful close sets `isClosed` and leaves `isEOF` alone, posts `EOF`,
      closes the JS port, and releases every write waiting on the pipe. */
  lemma CloseResults(s: PortState)
    ensures var (e, t) := CloseStep(s);
      (s.isEOF ==> e == Some(EOF) && t == s)
      && (!s.isEOF && s.isClosed ==> e == Some(ErrClosedPipe) && t == s)
      && (!s.isEOF && !s.isClosed ==>
            e == None && t.isClosed && !t.isEOF && t.writes == []
            && t.posted == s.posted + [EofMessage, ClosePort] + Released(|s.writes|))
  {
  }

  /** A second `Close` always fails: with `io.EOF` if the remote end had
      closed, with `io.ErrClosedPipe` otherwise. */
  lemma CloseTwice(s: PortState)
    ensures var t := CloseStep(s).1;
      CloseStep(t).0.Some? && CloseStep(t).1 == t
  {
  }

  /** `Close` does not release a `Write` waiting for its `ack`: after it the
      wait still blocks until an `ack` message arrives. */
  lemma CloseKeepsWriteBlocked(s: PortState, p: seq<byte>)
    requires s.acks == 0
    ensures AwaitAckStep(CloseStep(s).1, p).result == Blocked
    ensures var t := OnMessage(CloseStep(s).1, Flag("ack"), false).next;
      AwaitAckStep(t, p).result == Returned(IoReturn(|p|, None))
  {
  }

  /** An `EOF` message sets `isEOF`; from then on `Write` and `Close`
      answer `io.EOF`. */
  lemma EofMessageLatches(s: PortState, isWorker: bool, p: seq<byte>)
    ensures var t := OnMessage(s, Flag("EOF"), isWorker).next;
      t.isEOF && WriteStep(t, p).result == Returned(IoReturn(0, Some(EOF)))
      && CloseStep(t).0 == Some(EOF)
  {
  }

  /** Neither flag is ever cleared. */
  lemma FlagsStick(s: PortState, p: seq<byte>, data: JsMessage, isWorker: bool, bLen: nat)
    ensures s.isEOF ==> WriteStep(s, p).next.isEOF && AwaitAckStep(s, p).next.isEOF
    ensures s.isEOF ==> CloseStep(s).1.isEOF && ReadStep(s, bLen).next.isEOF
    ensures s.isEOF ==> OnMessage(s, data, isWorker).next.isEOF
    ensures s.isClosed ==> WriteStep(s, p).next.isClosed && AwaitAckStep(s, p).next.isClosed
    ensures s.isClosed ==> CloseStep(s).1.isClosed && ReadStep(s, bLen).next.isClosed
    ensures s.isClosed ==> OnMessage(s, data, isWorker).next.isClosed
  {
    OnMessageFlags(s, data, isWorker);
  }

  /** `onmessage` sets `isEOF` exactly for an `EOF` message and never
      touches `isClosed`. */
  lemma OnMessageFlags(s: PortState, data: JsMessage, isWorker: bool)
    ensures var t := OnMessage(s, data, isWorker).next;
      t.isEOF == (s.isEOF || Classify(data, isWorker) == EofKind) && t.isClosed == s.isClosed
  {
    if Classify(data, isWorker) == DataKind {
      assert OnMessage(s, data, isWorker) == DataStep(s, Get(data, "arr"));
    }
  }

  /** `onmessage` tries the keys in a fixed order: a message is taken for
      the first kind whose key it carries. */
  lemma ClassifyOrder(data: JsMessage, isWorker: bool)
    ensures var k := Classify(data, isWorker);
      (k == ReadyKind <==> Carries(data, "ready"))
      && (k == AckKind <==> !Carries(data, "ready") && Carries(data, "ack"))
      && (k == EofKind <==> !Carries(data, "ready") && !Carries(data, "ack") && Carries(data, "EOF"))
      && (k == RemoteCallKind <==> !Carries(data, "ready") && !Carries(data, "ack") && !Carries(data, "EOF")
                                   && isWorker && Carries(data, "rc"))
      && (k == DataKind <==> !Carries(data, "ready") && !Carries(data, "ack") && !Carries(data, "EOF")
                             && !(isWorker && Carries(data, "rc")) && Carries(data, "arr"))
  {
  }

  /** A data message on an open pipe waits, unacknowledged, behind the
      writes already there, and its bytes follow what is still to be read;
      on a closed pipe it tells the remote end `EOF` and is acknowledged. */
  lemma DataMessageDelivers(s: PortState, b: seq<byte>)
    requires b != []
    ensures var r := DataStep(s, Buffer(b));
      (!s.readerClosed && !s.writerClosed ==>
            r.result == Blocked && r.next.writes == s.writes + [b]
            && Unread(r.next.writes) == Unread(s.writes) + b && r.next.posted == s.posted)
      && (s.readerClosed || s.writerClosed ==>
            r.result == Returned(()) && r.next.writes == s.writes
            && r.next.posted == s.posted + [EofMessage, AckMessage])
  {
    UnreadAppend(s.writes, [b]);
    assert Unread([b]) == b + Unread([]);
  }

  lemma {:induction false} UnreadAppend(a: seq<seq<byte>>, b: seq<seq<byte>>)
    ensures Unread(a + b) == Unread(a) + Unread(b)
    decreases |a|
  {
    if a == [] {
      assert a + b == b;
    } else {
      assert (a + b)[1..] == a[1..] + b;
      UnreadAppend(a[1..], b);
    }
  }

  /** An empty or non-ArrayBuffer `arr` panics, after the `ack` is posted. */
  lemma DataMessagePanics(s: PortState, arr: JsValue)
    requires !arr.Buffer? || arr.bytes == []
    ensures var r := DataStep(s, arr);
      r.result.Panicked? && r.next == s.(posted := s.posted + [AckMessage])
  {
  }

  /** `Read` returns the front of the unread bytes, at most len(p) of them
      and at least one when there is room, and keeps the rest in order. It
      never reads past the first waiting write, so one `Read` returns bytes
      of one data message only. */
  lemma ReadTakesFront(s: PortState, bLen: nat)
    requires Valid(s)
    ensures var r := ReadStep(s, bLen);
      Unread(s.writes) == r.data + Unread(r.next.writes)
      && (s.writes != [] ==> r.data <= s.writes[0])
      && (r.result.Returned? && r.result.value.err.None? ==>
            r.result.value.n == |r.data| <= bLen && (bLen > 0 ==> r.data != []))
  {
    if !s.readerClosed && !s.writerClosed && s.writes != [] {
      var w := s.writes[0];
      if bLen < |w| {
        var rest := [w[bLen..]] + s.writes[1..];
        assert rest[1..] == s.writes[1..];
        assert w == w[..bLen] + w[bLen..];
      }
    }
  }

  /** A write returns, and its `ack` is posted, exactly when a `Read` takes
      its last byte; no other read posts anything. */
  lemma ReadAcksCompletedWrite(s: PortState, bLen: nat)
    ensures var r := ReadStep(s, bLen);
      var completes := !s.readerClosed && !s.writerClosed && s.writes != [] && bLen >= |s.writes[0]|;
      (completes ==> r.next.posted == s.posted + [AckMessage] && r.next.writes == s.writes[1..])
      && (!completes ==> r.next.posted == s.posted && |r.next.writes| == |s.writes|)
  {
  }

  lemma ReadValid(s: PortState, bLen: nat)
    requires Valid(s)
    ensures Valid(ReadStep(s, bLen).next)
  {
    ValidPreserved(s, [], bLen);
  }

  /** Two data messages of one byte each: a `Read` with room for eight
      bytes returns only the first, and the next `Read` the second. */
  lemma ReadOneMessageAtATime()
    ensures var s1 := OnMessage(Fresh, ArrMessage([1]), false).next;
      var s2 := OnMessage(s1, ArrMessage([2]), false).next;
      var r := ReadStep(s2, 8);
      r.result == Returned(IoReturn(1, None)) && r.data == [1]
      && ReadStep(r.next, 8).data == [2]
  {
    var m1 := ArrMessage([1]);
    assert Classify(m1, false) == DataKind && Get(m1, "arr") == Buffer([1]);
    var m2 := ArrMessage([2]);
    assert Classify(m2, false) == DataKind && Get(m2, "arr") == Buffer([2]);
  }

  /** A remote `EOF` closes the pipe's writing end under the writes still
      waiting on it: each fails, posts `EOF` back and then its `ack`, and
      later reads answer `io.EOF`. */
  lemma EofReleasesWrites(s: PortState, isWorker: bool, bLen: nat)
    ensures var t := OnMessage(s, Flag("EOF"), isWorker).next;
      t.writes == [] && t.posted == s.posted + [ClosePort] + Released(|s.writes|)
      && ReadStep(t, bLen).result == Returned(IoReturn(0, Some(if s.readerClosed then ErrClosedPipe else EOF)))
  {
  }

  lemma Regroup(x: seq<byte>, a: seq<byte>, y: seq<byte>, b: seq<byte>, z: seq<byte>)
    requires x == a + y && y == b + z
    ensures x == (a + b) + z
  {
  }

  /** Reads one after another into buffers of the given lengths: the bytes
      they return, in order, and the port afterwards. */
  function Reads(s: PortState, lens: seq<nat>): (seq<byte>, PortState)
    decreases |lens|
  {
    if lens == [] then ([], s)
    else
      var r := ReadStep(s, lens[0]);
      var rest := Reads(r.next, lens[1..]);
      (r.data + rest.0, rest.1)
  }

  function Acks(k: nat): (a: seq<HostCall>)
    ensures |a| == k && forall i :: 0 <= i < k ==> a[i] == AckMessage
  {
    seq(k, _ => AckMessage)
  }

  /** Over any run of reads, the bytes come out in the order the data
      messages arrived, none lost or repeated. */
  lemma {:induction false} ReadsInOrder(s: PortState, lens: seq<nat>)
    requires Valid(s)
    ensures Unread(s.writes) == Reads(s, lens).0 + Unread(Reads(s, lens).1.writes)
    decreases |lens|
  {
    if lens != [] {
      var r := ReadStep(s, lens[0]);
      ReadValid(s, lens[0]);
      ReadTakesFront(s, lens[0]);
      ReadsInOrder(r.next, lens[1..]);
      var rest := Reads(r.next, lens[1..]);
      Regroup(Unread(s.writes), r.data, Unread(r.next.writes), rest.0, Unread(rest.1.writes));
    }
  }

  /** Over any run of reads, one `ack` is posted for each message whose
      bytes have all been read, and nothing else. */
  lemma {:induction false} ReadsAckCompleted(s: PortState, lens: seq<nat>)
    ensures var t := Reads(s, lens).1;
      |t.writes| <= |s.writes| && t.posted == s.posted + Acks(|s.writes| - |t.writes|)
    decreases |lens|
  {
    if lens == [] {
      assert s.posted + Acks(0) == s.posted;
    } else {
      var r := ReadStep(s, lens[0]);
      ReadAcksCompletedWrite(s, lens[0]);
      ReadsAckCompleted(r.next, lens[1..]);
      var t := Reads(r.next, lens[1..]).1;
      AcksAdd(s.posted, r.next.posted, t.posted, |s.writes|, |r.next.writes|, |t.writes|);
    }
  }

  /** One read's ack, if any, followed by the acks of the reads after it. */
  lemma AcksAdd(p0: seq<HostCall>, p1: seq<HostCall>, p2: seq<HostCall>, n0: nat, n1: nat, n2: nat)
    requires (p1 == p0 && n1 == n0) || (p1 == p0 + [AckMessage] && n1 + 1 == n0)
    requires n2 <= n1 && p2 == p1 + Acks(n1 - n2)
    ensures p2 == p0 + Acks(n0 - n2)
  {
    if p1 != p0 {
      assert p0 + [AckMessage] + Acks(n1 - n2) == p0 + Acks(n0 - n2);
    }
  }

  /** The JS object behind the port. */
  class MessagePort {
    const value: JsValue
    var isEOF: bool
    var isClosed: bool
    var canceled: bool
    var writerClosed: bool
    var readerClosed: bool
    var readySignals: nat
    var acks: nat
    var writes: seq<seq<byte>>
    var posted: seq<HostCall>

    function State(): PortState
      reads this
    {
      PortState(isEOF, isClosed, canceled, writerClosed, readerClosed, readySignals, acks, writes, posted)
    }

    /** `NewMessagePort(value)`. */
    constructor (value: JsValue)
      ensures this.value == value && State() == Fresh
    {
      this.value := value;
      isEOF, isClosed, canceled := false, false, false;
      writerClosed, readerClosed := false, false;
      readySignals, acks, writes := 0, 0, [];
      posted := [ReadyMessage];
    }

    method Write(p: seq<byte>) returns (r: Completion<IoReturn>)
      modifies this
      ensures Step(r, State()) == WriteStep(old(State()), p)
    {
      if isEOF {
        return Returned(IoReturn(0, Some(EOF)));
      } else if isClosed {
        return Returned(IoReturn(0, Some(ErrClosedPipe)));
      }
      posted := posted + [PostMessage(ArrMessage(p), [Buffer(p)])];
      r := AwaitAck(p);
    }

    method AwaitAck(p: seq<byte>) returns (r: Completion<IoReturn>)
      modifies this
      ensures Step(r, State()) == AwaitAckStep(old(State()), p)
    {
      if acks == 0 {
        return Blocked;
      }
      acks := acks - 1;
      return Returned(IoReturn(|p|, None));
    }

    method Close() returns (e: Option<GoError>)
      modifies this
      ensures (e, State()) == CloseStep(old(State()))
    {
      if isEOF {
        return Some(EOF);
      } else if isClosed {
        return Some(ErrClosedPipe);
      }
      isClosed := true;
      canceled := true;
      readerClosed := true;
      writerClosed := true;
      posted := posted + [EofMessage, ClosePort] + Released(|writes|);
      writes := [];
      return None;
    }

    method Read(b: array<byte>) returns (r: Completion<IoReturn>)
      modifies this, b
      ensures var out := ReadStep(old(State()), b.Length);
        r == out.result && State() == out.next
        && b[..|out.data|] == out.data && b[|out.data|..] == old(b[|out.data|..])
    {
      if readerClosed {
        return Returned(IoReturn(0, Some(ErrClosedPipe)));
      } else if writerClosed {
        return Returned(IoReturn(0, Some(EOF)));
      } else if writes == [] {
        return Blocked;
      }
      var w := writes[0];
      if b.Length >= |w| {
        TA.CopyInto(b, w);
        writes := writes[1..];
        posted := posted + [AckMessage];
        return Returned(IoReturn(|w|, None));
      }
      TA.CopyInto(b, w[..b.Length]);
      writes := [w[b.Length..]] + writes[1..];
      return Returned(IoReturn(b.Length, None));
    }

    method HandleMessage(data: JsMessage, isWorker: bool) returns (r: Completion<()>)
      modifies this
      ensures Step(r, State()) == OnMessage(old(State()), data, isWorker)
    {
      var kind := Classify(data, isWorker);
      match kind
      case ReadyKind =>
        readySignals := readySignals + 1;
        return Returned(());
      case AckKind =>
        acks := acks + 1;
        return Returned(());
      case EofKind =>
        isEOF := true;
        canceled := true;
        writerClosed := true;
        posted := posted + [ClosePort] + Released(|writes|);
        writes := [];
        return Returned(());
      case RemoteCallKind =>
        return Returned(());
      case OtherKind =>
        return Returned(());
      case DataKind =>
        r := HandleData(Get(data, "arr"));
    }

    /** The goroutine started for a data message. */
    method HandleData(arr: JsValue) returns (r: Completion<()>)
      modifies this
      ensures Step(r, State()) == DataStep(old(State()), arr)
    {
      if !arr.Buffer? {
        posted := posted + [AckMessage];
        return Panicked("copyBytes: error");
      } else if arr.bytes == [] {
        posted := posted + [AckMessage];
        return Panicked("copyBytes: 0 bytes");
      }
      if readerClosed || writerClosed {
        posted := posted + [EofMessage, AckMessage];
        return Returned(());
      }
      writes := writes + [arr.bytes];
      return Blocked;
    }
  }

  /** `JSValue`: JS null for a nil port, the port's object otherwise. */
  function JSValueOf(port: MessagePort?): (v: JsValue)
    ensures port == null ==> v == Null
    ensures port != null ==> v == port.value
  {
    if port == null then Null else port.value
  }
}
