/** pkg/wrpc/worker.go: a Web Worker spoken to through a pkg/wrpcnet port.

    `Call` sends the call's name and its two ports in one message and waits
    for the worker to acknowledge it; `NewWorker` waits for the worker's
    first message before handing the worker out. */
module WrpcWorker {
  import opened Common
  import Net = WrpcNet

  /** The message and transferables of `Call(w, r, name)`: both ports are
      named, but a port used as both w and r is transferred once. */
  function CallMessage(w: PortRef, r: PortRef, name: string): (JsMessage, seq<JsValue>)
  {
    var messages := map["call" := Str(name), "w" := w.value, "r" := r.value];
    if r.handle == w.handle then (messages, [w.value]) else (messages, [w.value, r.value])
  }

  /** What `NewWorker` makes of the first `ReadMessage` on the new port:
      any message means ready; the latched error comes back wrapped. */
  function ReadyStep(s: Net.PortState): Net.Step<Option<GoError>>
    requires Net.Valid(s)
  {
    var m := Net.ReadMessageStep(s);
    match m.result
    case Blocked => Net.Step(Blocked, m.next)
    case Panicked(why) => Net.Step(Panicked(why), m.next)
    case Returned(Message(_)) => Net.Step(Returned(None), m.next)
    case Returned(Failed(e)) =>
      Net.Step(Returned(Some(Wrapped("error waiting for worker to become ready", e))), m.next)
  }

  /** The message carries the name and both ports' objects; the
      transferables are [w] when r is w, and [w, r] otherwise. */
  lemma CallMessageShape(w: PortRef, r: PortRef, name: string)
    ensures var (m, t) := CallMessage(w, r, name);
      m.Keys == {"call", "w", "r"} && m["call"] == Str(name) && m["w"] == w.value && m["r"] == r.value
      && (r.handle == w.handle ==> t == [w.value])
      && (r.handle != w.handle ==> t == [w.value, r.value])
  {
  }

  /** `NewWorker` fails exactly when the port has latched an error, and
      the error it returns wraps that one; a ready worker's message is
      acknowledged. */
  lemma ReadyResult(s: Net.PortState)
    requires Net.Valid(s)
    ensures var r := ReadyStep(s);
      (s.done ==> r.result == Returned(Some(Wrapped("error waiting for worker to become ready", s.err.value))))
      && (!s.done && s.notify > 0 ==> r.result == Returned(None) && r.next.posted == s.posted + [Net.AckMessage])
      && (!s.done && s.notify == 0 ==> r.result == Blocked && r.next == s)
  {
  }

  /** A fresh port has nothing to read: `NewWorker` waits for the worker. */
  lemma FreshPortWaits()
    ensures ReadyStep(Net.Fresh).result == Blocked
  {
  }

  /** The Go object: the JS Worker and the port wrapped around it. */
  class Worker {
    const worker: JsValue
    const port: Net.MessagePort

    constructor (worker: JsValue, port: Net.MessagePort)
      ensures this.worker == worker && this.port == port
    {
      this.worker := worker;
      this.port := port;
    }

    /** `Call`: returns exactly what `WriteMessage` of the call's message
        returns. */
    method Call(w: PortRef, r: PortRef, name: string) returns (result: Completion<Option<GoError>>)
      requires Net.Valid(port.State())
      modifies port
      ensures var (m, t) := CallMessage(w, r, name);
        Net.Step(result, port.State()) == Net.WriteMessageStep(old(port.State()), m, t)
    {
      var messages := map["call" := Str(name), "w" := w.value, "r" := r.value];
      var transferables: seq<JsValue>;
      if r.handle == w.handle {
        transferables := [w.value];
      } else {
        transferables := [w.value, r.value];
      }
      result := port.WriteMessage(messages, transferables);
    }

    /** The wait at the end of `NewWorker`. */
    method AwaitReady() returns (result: Completion<Option<GoError>>)
      requires Net.Valid(port.State())
      modifies port
      ensures Net.Step(result, port.State()) == ReadyStep(old(port.State()))
    {
      var m := port.ReadMessage();
      match m
      case Blocked => return Blocked;
      case Panicked(why) => return Panicked(why);
      case Returned(Message(_)) => return Returned(None);
      case Returned(Failed(e)) => return Returned(Some(Wrapped("error waiting for worker to become ready", e)));
    }
  }

  /** `NewWorker(url)` with the new JS Worker given: wraps it in a fresh
      port, which then waits for the worker's first message. */
  method NewWorker(worker: JsValue) returns (wk: Worker)
    ensures fresh(wk) && fresh(wk.port) && wk.worker == worker && wk.port.State() == Net.Fresh
  {
    var port := new Net.MessagePort();
    wk := new Worker(worker, port);
  }
}
