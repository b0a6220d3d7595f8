/** Vocabulary shared by the whole model: bytes, the JavaScript values that
    cross the Go/JS boundary, the Go errors the ports return, and the calls a
    port makes on its JavaScript host object. */
module Common {

  /** A Go `byte`. */
  type byte = x: int | 0 <= x < 256

  datatype Option<+T> = None | Some(value: T)

  /** The result of a Go function that may panic instead of returning. */
  datatype Outcome<+T> = Ok(value: T) | Panic(reason: string)

  /** The part of a JavaScript value that the model needs. `Object` stands
      for any host object (a MessagePort, a Worker, the global scope), told
      apart by an identity. */
  datatype JsValue =
    | Undefined
    | Null
    | Bool(b: bool)
    | Num(n: int)
    | Str(s: string)
    | Buffer(bytes: seq<byte>)
    | Object(id: nat)

  /** A Go pointer to a port wrapper: the identity the pointer compares by,
      and the JS object the wrapper holds. */
  datatype PortRef = PortRef(handle: nat, value: JsValue)

  /** A message posted over a MessagePort: a plain JS object whose absent
      keys read as `undefined`. */
  type JsMessage = map<string, JsValue>

  /** `data.Get(key)` of syscall/js. */
  function Get(m: JsMessage, key: string): (v: JsValue)
    ensures key !in m ==> v == Undefined
    ensures key in m ==> v == m[key]
  {
    if key in m then m[key] else Undefined
  }

  /** `value.String()` of syscall/js: the string itself; for any other
      value a tag in angle brackets, which names a boolean's or a number's
      value too. */
  function JsString(v: JsValue): (t: string)
    ensures v.Str? ==> t == v.s
    ensures !v.Str? ==> |t| >= 2 && t[0] == '<' && t[|t| - 1] == '>'
    ensures v.Bool? ==> t == if v.b then "<boolean: true>" else "<boolean: false>"
    ensures v.Num? ==> t == "<number: " + IntText(v.n) + ">"
  {
    match v
    case Str(s) => s
    case Undefined => "<undefined>"
    case Null => "<null>"
    case Bool(b) => "<boolean: " + (if b then "true" else "false") + ">"
    case Num(n) => "<number: " + IntText(n) + ">"
    case Buffer(_) => "<object>"
    case Object(_) => "<object>"
  }

  /** A string made only of ASCII digits (the empty string included). */
  predicate AllDigits(s: string)
  {
    forall i :: 0 <= i < |s| ==> '0' <= s[i] <= '9'
  }

  /** The number a string of decimal digits spells. */
  function DecimalValue(s: string): nat
    requires AllDigits(s)
  {
    if s == [] then 0
    else 10 * DecimalValue(s[..|s| - 1]) + (s[|s| - 1] as int - '0' as int)
  }

  function Digit(d: nat): (c: char)
    requires d < 10
    ensures '0' <= c <= '9' && c as int - '0' as int == d
  {
    ('0' as int + d) as char
  }

  /** The decimal digits of n, without leading zeros. */
  function NatText(n: nat): (t: string)
    ensures t != [] && AllDigits(t)
    ensures |t| > 1 ==> t[0] != '0'
    decreases n
  {
    if n < 10 then [Digit(n)] else NatText(n / 10) + [Digit(n % 10)]
  }

  /** How JavaScript writes an integer: a minus sign, then the digits. */
  function IntText(x: int): (t: string)
    ensures t != [] && (x < 0 <==> t[0] == '-')
    ensures x < 0 ==> AllDigits(t[1..]) && DecimalValue(t[1..]) == -x
    ensures x >= 0 ==> AllDigits(t) && DecimalValue(t) == x
  {
    NatTextValue(if x < 0 then -x else x);
    if x < 0 then "-" + NatText(-x) else NatText(x)
  }

  /** Reading back the digits of n gives n. */
  lemma {:induction false} NatTextValue(n: nat)
    ensures DecimalValue(NatText(n)) == n
    decreases n
  {
    var t := NatText(n);
    if n >= 10 {
      NatTextValue(n / 10);
      assert t[..|t| - 1] == NatText(n / 10);
    } else {
      assert t[..|t| - 1] == [];
    }
  }

  /** The Go errors the model's operations return. */
  datatype GoError =
    | EOF                         // io.EOF
    | ErrClosedPipe               // io.ErrClosedPipe
    | ErrShortBuffer              // io.ErrShortBuffer
    | ErrUnexpectedEOF            // io.ErrUnexpectedEOF
    | JsError(event: JsValue)     // js.Error wrapping an error event
    | Remote(text: string)        // errors.New of a text sent by the remote end
    | NotArrayBuffer              // "expected an ArrayBuffer message"
    | Wrapped(context: string, inner: GoError)  // fmt.Errorf("...: %w", err)

  /** How a call that may wait on a channel ends in the model: it would
      still be waiting (`Blocked`), it panicked, or it returned a value. A
      blocked call is retried by calling it again once the event it waits
      for has been delivered. */
  datatype Completion<+T> = Blocked | Panicked(reason: string) | Returned(value: T)

  /** The `(n int, err error)` pair of `Read` and `Write`. */
  datatype IoReturn = IoReturn(n: nat, err: Option<GoError>)

  /** A call a port makes on its JavaScript object: `postMessage(data,
      transferables)` or `close()`. */
  datatype HostCall =
    | PostMessage(data: JsMessage, transfer: seq<JsValue>)
    | ClosePort

  /** `map[string]any{key: true}`, the shape of every control message. */
  function Flag(key: string): (m: JsMessage)
    ensures key in m && m[key] == Bool(true) && |m| == 1
  {
    map[key := Bool(true)]
  }

  /** `js.CopyBytesToGo` and `js.CopyBytesToJS`: as documented by syscall/js,
      they copy min(len(dst), len(src)) bytes and return that count. */
  function CopyCount(dstLen: nat, srcLen: nat): nat
  {
    Min(dstLen, srcLen)
  }

  /** What `bytes.Buffer.Read(p)` returns: the count, the bytes placed in
      p, what is left in the buffer, and the error. */
  datatype BufferRead = BufferRead(n: nat, data: seq<byte>, rest: seq<byte>, err: Option<GoError>)

  /** `bytes.Buffer.Read` with a destination of length pLen: it moves the
      first min(pLen, len) bytes out; an empty buffer answers io.EOF unless
      pLen is 0. */
  function ReadBuffer(buf: seq<byte>, pLen: nat): (r: BufferRead)
    ensures r.n == |r.data| <= pLen
    ensures r.data + r.rest == buf
    ensures r.err.Some? <==> buf == [] && pLen > 0
    ensures r.err.Some? ==> r.err.value == EOF
    ensures buf != [] && pLen > 0 ==> r.n > 0
  {
    if buf == [] && pLen > 0 then BufferRead(0, [], [], Some(EOF))
    else
      var n := Min(pLen, |buf|);
      BufferRead(n, buf[..n], buf[n..], None)
  }

  function Min(a: int, b: int): (m: int)
    ensures m <= a && m <= b && (m == a || m == b)
  {
    if a <= b then a else b
  }
}
