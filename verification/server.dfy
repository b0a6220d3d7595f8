/** pkg/wrpc/server.go: the worker-side server, a registry of functions by
    name and a loop that reads call messages from the worker's port.

    A registered `WorkerFunc` is known to the model by an identifier; what
    it does with its ports is not modelled, only that it is invoked and on
    which ports. The port the server opens on the worker's global scope is
    given, with whatever events it has received so far. */
module WrpcServer {
  import opened Common
  import Port = WrpcPort

  /** What the server does for a message, in order. */
  datatype Effect =
    | Invoke(fn: nat, w: JsValue, r: JsValue)   // f(w, r)
    | NotFound(name: string)                    // "WorkerFunc '%s' not found" logged
    | CloseWriter(w: JsValue)                   // the deferred w.Close()
    | Invalid(data: JsMessage)                  // "invalid message" logged

  predicate Carries(data: JsMessage, key: string)
  {
    Get(data, key) != Undefined
  }

  /** `execute`: looks the name up; a known function runs on the message's
      w and r ports, an unknown name is logged; the writer is closed in
      both cases. */
  function Execute(funcs: map<string, nat>, data: JsMessage): seq<Effect>
  {
    var name := JsString(Get(data, "call"));
    var w := Get(data, "w");
    if name in funcs then [Invoke(funcs[name], w, Get(data, "r")), CloseWriter(w)]
    else [NotFound(name), CloseWriter(w)]
  }

  /** The switch of the serving loop: a `call` message is executed, a
      `__ping` ignored, anything else logged. */
  function Dispatch(funcs: map<string, nat>, data: JsMessage): seq<Effect>
  {
    if Carries(data, "call") then Execute(funcs, data)
    else if Carries(data, "__ping") then []
    else [Invalid(data)]
  }

  function DispatchAll(funcs: map<string, nat>, ms: seq<JsMessage>): seq<Effect>
  {
    if ms == [] then [] else Dispatch(funcs, ms[0]) + DispatchAll(funcs, ms[1..])
  }

  /** How far the serving loop gets: it waits for a message, or it ends
      with the read error wrapped and the port closed. */
  datatype Served = Served(result: Completion<GoError>, effects: seq<Effect>, next: Port.PortState)

  const ReadFailed: string := "server: error reading from port"
  const InitFailed: string := "server: error sending worker init ACK"
  const NotWorker: string := "server: must run in webworker environment"

  /** The `for` loop of `ListenAndServe` on a port in state s. */
  function Serve(funcs: map<string, nat>, s: Port.PortState): Served
    requires Port.Valid(s)
    decreases |s.pending|
  {
    var m := Port.ReadMessageStep(s);
    Port.ReadMessageValid(s);
    match m.result
    case Blocked => Served(Blocked, [], m.next)
    case Panicked(why) => Served(Panicked(why), [], m.next)
    case Returned(Failed(e)) => Served(Returned(Wrapped(ReadFailed, e)), [], Port.CloseStep(m.next))
    case Returned(Message(d)) =>
      var rest := Serve(funcs, m.next);
      Served(rest.result, Dispatch(funcs, d) + rest.effects, rest.next)
  }

  /** The effects e, then what the rest of the loop does. */
  function After(e: seq<Effect>, rest: Served): Served
  {
    Served(rest.result, e + rest.effects, rest.next)
  }

  /** `ListenAndServe`: outside a worker it panics; it sends the initial
      message and, once that is acknowledged, serves; an error ends it
      wrapped, and the port is closed on the way out. */
  function ListenAndServeStep(funcs: map<string, nat>, isWorker: bool, s: Port.PortState): Served
    requires Port.Valid(s)
  {
    if !isWorker then Served(Panicked(NotWorker), [], s)
    else
      var w := Port.WriteMessageStep(s, map[], []);
      match w.result
      case Blocked => Served(Blocked, [], w.next)
      case Panicked(why) => Served(Panicked(why), [], w.next)
      case Returned(Some(e)) => Served(Returned(Wrapped(InitFailed, e)), [], Port.CloseStep(w.next))
      case Returned(None) => Serve(funcs, w.next)
  }

  // ---------------------------------------------------------------------
  // Properties

  /** `execute` closes the writer on every path; it invokes exactly the
      registered function, on (w, r), and nothing for an unknown name. */
  lemma ExecuteEffects(funcs: map<string, nat>, data: JsMessage)
    ensures var e := Execute(funcs, data);
      var name := JsString(Get(data, "call"));
      |e| == 2 && e[1] == CloseWriter(Get(data, "w"))
      && (name in funcs ==> e[0] == Invoke(funcs[name], Get(data, "w"), Get(data, "r")))
      && (name !in funcs ==> forall i :: 0 <= i < |e| ==> !e[i].Invoke?)
  {
  }

  /** How many functions the effects invoke, and how many writers they
      close. */
  function Invocations(e: seq<Effect>): nat
  {
    if e == [] then 0 else (if e[0].Invoke? then 1 else 0) + Invocations(e[1..])
  }

  function Closes(e: seq<Effect>): nat
  {
    if e == [] then 0 else (if e[0].CloseWriter? then 1 else 0) + Closes(e[1..])
  }

  lemma {:induction false} CountsAppend(a: seq<Effect>, b: seq<Effect>)
    ensures Invocations(a + b) == Invocations(a) + Invocations(b)
    ensures Closes(a + b) == Closes(a) + Closes(b)
    decreases |a|
  {
    if a != [] {
      assert (a + b)[1..] == a[1..] + b;
      CountsAppend(a[1..], b);
    } else {
      assert a + b == b;
    }
  }

  /** The messages that carry a `call`, and those among them whose name
      is registered. */
  function CallCount(ms: seq<JsMessage>): nat
  {
    if ms == [] then 0 else (if Carries(ms[0], "call") then 1 else 0) + CallCount(ms[1..])
  }

  function KnownCallCount(funcs: map<string, nat>, ms: seq<JsMessage>): nat
  {
    if ms == [] then 0
    else (if Carries(ms[0], "call") && JsString(Get(ms[0], "call")) in funcs then 1 else 0)
         + KnownCallCount(funcs, ms[1..])
  }

  /** Over any run of messages, the loop invokes one function per `call`
      whose name is registered and closes one writer per `call`: a
      `__ping` or any other message invokes and closes nothing. */
  lemma {:induction false} DispatchAllCounts(funcs: map<string, nat>, ms: seq<JsMessage>)
    ensures Invocations(DispatchAll(funcs, ms)) == KnownCallCount(funcs, ms)
    ensures Closes(DispatchAll(funcs, ms)) == CallCount(ms)
    decreases |ms|
  {
    if ms != [] {
      var d := Dispatch(funcs, ms[0]);
      CountsAppend(d, DispatchAll(funcs, ms[1..]));
      DispatchAllCounts(funcs, ms[1..]);
      if Carries(ms[0], "call") {
        var e := Execute(funcs, ms[0]);
        assert e[1..][1..] == [];
      } else if !Carries(ms[0], "__ping") {
        assert d[1..] == [];
      }
    }
  }

  function Acks(k: nat): seq<HostCall>
  {
    seq(k, _ => Port.AckMessage)
  }

  /** While nothing has latched, the loop handles every message waiting,
      in arrival order, acknowledges each, and then waits. */
  lemma {:induction false} ServeInOrder(funcs: map<string, nat>, s: Port.PortState)
    requires Port.Valid(s) && !s.done
    ensures Serve(funcs, s) ==
      Served(Blocked, DispatchAll(funcs, s.pending), s.(pending := [], posted := s.posted + Acks(|s.pending|)))
    decreases |s.pending|
  {
    if s.pending != [] {
      var next := s.(pending := s.pending[1..], posted := s.posted + [Port.AckMessage]);
      assert Port.ReadMessageStep(s).next == next;
      ServeInOrder(funcs, next);
      assert next.posted + Acks(|next.pending|) == s.posted + Acks(|s.pending|);
    }
  }

  /** Once the port has latched an error, the loop ends at once with that
      error wrapped, and handles nothing. */
  lemma ServeEndsOnError(funcs: map<string, nat>, s: Port.PortState)
    requires Port.Valid(s) && s.done
    ensures Serve(funcs, s) == Served(Returned(Wrapped(ReadFailed, s.err.value)), [], s)
  {
  }

  /** Outside a worker nothing is sent; inside one the initial message is
      posted first, and a failed one ends the server with the error wrapped. */
  lemma ListenAndServeStarts(funcs: map<string, nat>, isWorker: bool, s: Port.PortState)
    requires Port.Valid(s)
    ensures var r := ListenAndServeStep(funcs, isWorker, s);
      (!isWorker ==> r == Served(Panicked(NotWorker), [], s))
      && (isWorker && s.done ==> r.result == Returned(Wrapped(InitFailed, s.err.value)) && r.effects == [])
      && (isWorker ==> |r.next.posted| > |s.posted| && r.next.posted[|s.posted|] == PostMessage(map[], []))
  {
    if isWorker {
      var w := Port.WriteMessageStep(s, map[], []);
      if w.result == Returned(None) {
        Port.ValidPreserved(w.next, Undefined, map[], 0, []);
        if w.next.done {
          ServeEndsOnError(funcs, w.next);
        } else {
          ServeInOrder(funcs, w.next);
        }
      }
    }
  }

  /** The Go object. */
  class Server {
    var funcs: map<string, nat>

    /** `NewServer`: an empty registry. */
    constructor ()
      ensures funcs == map[]
    {
      funcs := map[];
    }

    /** `WithFunc`: registers f under name, replacing any earlier one, and
        returns the same server. */
    method WithFunc(name: string, f: nat) returns (s: Server)
      modifies this
      ensures funcs == old(funcs)[name := f] && s == this
    {
      funcs := funcs[name := f];
      s := this;
    }

    /** `ListenAndServe` on the given port, up to the point where it waits
        or returns. */
    method ListenAndServe(port: Port.MessagePort, isWorker: bool) returns (r: Completion<GoError>, effects: seq<Effect>)
      requires Port.Valid(port.State())
      modifies port
      ensures Served(r, effects, port.State()) == ListenAndServeStep(funcs, isWorker, old(port.State()))
    {
      if !isWorker {
        return Panicked(NotWorker), [];
      }
      var init := port.WriteMessage(map[], []);
      if init.Blocked? {
        return Blocked, [];
      } else if init.Panicked? {
        return Panicked(init.reason), [];
      } else if init.value.Some? {
        var _ := port.Close();
        return Returned(Wrapped(InitFailed, init.value.value)), [];
      }
      r, effects := ServeLoop(port);
    }

    /** The `for` loop of `ListenAndServe`: reads and handles messages until
        it has to wait or a read fails. */
    method ServeLoop(port: Port.MessagePort) returns (r: Completion<GoError>, effects: seq<Effect>)
      requires Port.Valid(port.State())
      modifies port
      ensures Served(r, effects, port.State()) == Serve(funcs, old(port.State()))
    {
      effects := [];
      while true
        invariant Port.Valid(port.State())
        invariant Serve(funcs, old(port.State())) == After(effects, Serve(funcs, port.State()))
        decreases |port.pending|
      {
        Port.ReadMessageValid(port.State());
        var m := port.ReadMessage();
        match m
        case Blocked => return Blocked, effects;
        case Panicked(why) => return Panicked(why), effects;
        case Returned(Failed(e)) =>
          var _ := port.Close();
          return Returned(Wrapped(ReadFailed, e)), effects;
        case Returned(Message(d)) =>
          effects := effects + Dispatch(funcs, d);
      }
    }
  }
}
