/** internal/jsutil/wrpc/call.go: a remote call, and the message that ships
    it to a worker.

    A call has a writer the remote function writes its output to and, when
    it takes input, a reader. A port wrapper passed as either is sent as it
    is; any other `io.Writer` or `io.Reader` is bridged by a fresh
    MessageChannel, whose far port is sent and whose near port is copied
    to or from the local stream. Port wrappers are compared by pointer, so
    the model gives each one a handle; `next` is the first handle not yet
    used. */
module JsCall {
  import opened Common

  /** An `io.Writer` or `io.Reader` handed to `NewCall`: a port wrapper, or
      some other stream. */
  datatype Endpoint = PortEnd(port: PortRef) | OtherEnd(id: nat)

  /** The fields of a `Call`. */
  datatype Call = Call(
    w: Option<Endpoint>,
    r: Option<Endpoint>,
    localWriter: Option<PortRef>,
    localReader: Option<PortRef>,
    remoteWriter: PortRef,
    remoteReader: Option<PortRef>,
    name: string)

  /** `Pipe()`: the two ports of a new MessageChannel, each a fresh JS
      object in a fresh wrapper. */
  function Pipe(next: nat): (r: (PortRef, PortRef, nat))
    ensures r.0.handle == next && r.1.handle == next + 1 && r.2 == next + 2
  {
    (PortRef(next, Object(next)), PortRef(next + 1, Object(next + 1)), next + 2)
  }

  /** `NewCall(w, r, name)`, returning the call and the next free handle. */
  function NewCall(w: Endpoint, r: Option<Endpoint>, name: string, next: nat): (Call, nat)
  {
    var (remoteWriter, localReader, n1) :=
      if w.PortEnd? then (w.port, None, next)
      else var (p1, p2, n) := Pipe(next); (p1, Some(p2), n);
    var (remoteReader, localWriter, n2) :=
      if r.None? then (None, None, n1)
      else if r.value.PortEnd? then (Some(r.value.port), None, n1)
      else var (q1, q2, n) := Pipe(n1); (Some(q1), Some(q2), n);
    (Call(Some(w), r, localWriter, localReader, remoteWriter, remoteReader, name), n2)
  }

  /** `JSMessage`: the call's name and ports, and the ports to transfer. */
  function JSMessage(c: Call): (JsMessage, seq<JsValue>)
  {
    var messages := map["call" := Str(c.name), "writer" := c.remoteWriter.value];
    var transferables := [c.remoteWriter.value];
    if c.remoteReader.None? then (messages, transferables)
    else
      var rr := c.remoteReader.value;
      (messages["reader" := rr.value],
       if rr.handle != c.remoteWriter.handle then transferables + [rr.value] else transferables)
  }

  /** `NewCallFromJS(data)`: wraps the ports the message carries, the
      reader's first. */
  function NewCallFromJS(data: JsMessage, next: nat): (Call, nat)
  {
    var reader := Get(data, "reader");
    var (r, n1) := if reader.Undefined? then (None, next) else (Some(PortRef(next, reader)), next + 1);
    (Call(None, None, None, None, PortRef(n1, Get(data, "writer")), r, JsString(Get(data, "call"))), n1 + 1)
  }

  /** What `Execute` does, in order. */
  datatype Effect = Invoke(fn: nat, w: PortRef, r: Option<PortRef>) | CloseWriter(port: PortRef)

  /** `Execute` with the package's registry of functions: an unknown name
      panics; otherwise the function runs on the call's ports and the
      deferred `Close` of the writer follows. */
  function Execute(calls: map<string, nat>, c: Call): Outcome<seq<Effect>>
  {
    if c.name !in calls then Panic("call '" + c.name + "' not found")
    else Ok([Invoke(calls[c.name], c.remoteWriter, c.remoteReader), CloseWriter(c.remoteWriter)])
  }

  /** A `go mustCopyAll(dst, src)` that `BeginRemote` starts. */
  datatype CopyTask = CopyTask(dst: Option<Endpoint>, src: Option<Endpoint>)

  /** `BeginRemote`: copy the near end of the writer's pipe into w, and r
      into the near end of the reader's pipe. */
  function BeginRemote(c: Call): seq<CopyTask>
  {
    (if c.localReader.Some? then [CopyTask(c.w, Some(PortEnd(c.localReader.value)))] else [])
    + (if c.localWriter.Some? then [CopyTask(Some(PortEnd(c.localWriter.value)), c.r)] else [])
  }

  // ---------------------------------------------------------------------
  // Properties

  /** A port wrapper passed as w becomes the remote writer and no local
      reader is made; any other writer gets a fresh pipe whose two ports
      are new. */
  lemma NewCallWriter(w: Endpoint, r: Option<Endpoint>, name: string, next: nat)
    ensures var (c, n) := NewCall(w, r, name, next);
      c.name == name && c.w == Some(w) && c.r == r && n >= next
      && (w.PortEnd? ==> c.remoteWriter == w.port && c.localReader.None?)
      && (w.OtherEnd? ==>
            c.localReader.Some? && next <= c.remoteWriter.handle < n
            && next <= c.localReader.value.handle < n
            && c.remoteWriter.handle != c.localReader.value.handle)
  {
  }

  /** No reader means neither a remote reader nor a local writer; a port
      wrapper becomes the remote reader; any other reader gets a fresh
      pipe. */
  lemma NewCallReader(w: Endpoint, r: Option<Endpoint>, name: string, next: nat)
    ensures var (c, n) := NewCall(w, r, name, next);
      (r.None? ==> c.remoteReader.None? && c.localWriter.None?)
      && (r.Some? && r.value.PortEnd? ==> c.remoteReader == Some(r.value.port) && c.localWriter.None?)
      && (r.Some? && r.value.OtherEnd? ==>
            c.remoteReader.Some? && c.localWriter.Some?
            && next <= c.remoteReader.value.handle < n && next <= c.localWriter.value.handle < n
            && c.remoteReader.value.handle != c.localWriter.value.handle)
  {
  }

  /** Fresh pipes never reuse a handle: the writer's pipe and the reader's
      pipe are four different ports. */
  lemma NewCallPipesDistinct(w: Endpoint, r: Endpoint, name: string, next: nat)
    requires w.OtherEnd? && r.OtherEnd?
    ensures var (c, _) := NewCall(w, Some(r), name, next);
      var hs := [c.remoteWriter.handle, c.localReader.value.handle,
                 c.remoteReader.value.handle, c.localWriter.value.handle];
      forall i, j :: 0 <= i < j < 4 ==> hs[i] != hs[j]
  {
  }

  /** The message always names the call and the writer, and carries a
      reader exactly when the call has a remote reader; the writer is the
      first port transferred, and the reader is added only when it is a
      different port. */
  lemma JSMessageShape(c: Call)
    ensures var (m, t) := JSMessage(c);
      Get(m, "call") == Str(c.name) && Get(m, "writer") == c.remoteWriter.value
      && ("reader" in m <==> c.remoteReader.Some?)
      && (c.remoteReader.Some? ==> Get(m, "reader") == c.remoteReader.value.value)
      && m.Keys <= {"call", "writer", "reader"}
      && 1 <= |t| <= 2 && t[0] == c.remoteWriter.value
      && (|t| == 2 <==> c.remoteReader.Some? && c.remoteReader.value.handle != c.remoteWriter.handle)
      && (|t| == 2 ==> t[1] == c.remoteReader.value.value)
  {
  }

  /** Ports are told apart by pointer, and two wrappers never share a JS
      object: then no port is transferred twice. */
  lemma JSMessageNoDuplicates(c: Call)
    requires c.remoteReader.Some? ==>
      (c.remoteReader.value.handle == c.remoteWriter.handle <==> c.remoteReader.value.value == c.remoteWriter.value)
    ensures var t := JSMessage(c).1;
      forall i, j :: 0 <= i < j < |t| ==> t[i] != t[j]
  {
  }

  /** A reader key that reads as undefined means no remote reader. */
  lemma NewCallFromJSReader(data: JsMessage, next: nat)
    ensures var (c, _) := NewCallFromJS(data, next);
      (c.remoteReader.None? <==> Get(data, "reader") == Undefined)
      && (c.remoteReader.Some? ==> c.remoteReader.value.value == Get(data, "reader"))
      && c.remoteWriter.value == Get(data, "writer")
      && c.localReader.None? && c.localWriter.None?
  {
  }

  /** The receiving side rebuilds what was sent: the same name, writer
      object and reader object. */
  lemma JSMessageRoundTrip(c: Call, next: nat)
    requires c.remoteReader.Some? ==> c.remoteReader.value.value != Undefined
    ensures var (d, _) := NewCallFromJS(JSMessage(c).0, next);
      d.name == c.name && d.remoteWriter.value == c.remoteWriter.value
      && (d.remoteReader.None? <==> c.remoteReader.None?)
      && (c.remoteReader.Some? ==> d.remoteReader.value.value == c.remoteReader.value.value)
  {
  }

  /** `Execute` panics exactly for an unregistered name; otherwise it runs
      that function on the call's ports and then closes the writer. */
  lemma ExecuteRuns(calls: map<string, nat>, c: Call)
    ensures var e := Execute(calls, c);
      (e.Panic? <==> c.name !in calls)
      && (e.Ok? ==> |e.value| == 2 && e.value[0] == Invoke(calls[c.name], c.remoteWriter, c.remoteReader)
                    && e.value[1] == CloseWriter(c.remoteWriter))
  {
  }

  /** A copy goroutine is started exactly for each stream that needed a
      pipe: none when both ends are port wrappers. */
  lemma BeginRemoteTasks(w: Endpoint, r: Option<Endpoint>, name: string, next: nat)
    ensures var (c, _) := NewCall(w, r, name, next);
      var tasks := BeginRemote(c);
      |tasks| == (if w.OtherEnd? then 1 else 0) + (if r.Some? && r.value.OtherEnd? then 1 else 0)
      && (w.OtherEnd? ==> tasks[0] == CopyTask(Some(w), Some(PortEnd(c.localReader.value))))
      && (r.Some? && r.value.OtherEnd? ==> tasks[|tasks| - 1] == CopyTask(Some(PortEnd(c.localWriter.value)), r))
  {
  }
}
