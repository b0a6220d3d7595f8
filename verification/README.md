# go-wasm-demos in Dafny

A model of the core of go-wasm-demos. The repository runs Go compiled to
WebAssembly in the browser and in Web Workers. It moves data between Go and
JavaScript through typed arrays and ArrayBuffers, and it talks to workers
through MessagePort wrappers that present a port as an `io.Reader`/`io.Writer`.

The model covers these parts of the core:

- **Go slices and their byte encoding** (`Slice`, pkg/array/slice.go). Every
  numeric element type is written little-endian in its native width:
  two's complement for signed types, IEEE-754 bit patterns for floats.
- **Typed arrays and ArrayBuffers**. The newer wrappers are in `TypedArrays`
  (pkg/array/typedarray.go). The older ones are in `JsArray`
  (internal/jsutil/array). Each has its ArrayBuffer `io.Reader`.
- **The three MessagePort wrappers**:
  - `WrpcNet` (pkg/wrpcnet/port.go): message queue, acknowledgements, latched
    errors;
  - `WrpcPort` (pkg/wrpc/port.go): the same design with a read buffer;
  - `JsutilPort` (internal/jsutil/wrpc/messageport.go): built on an
    `io.Pipe`, with EOF/closed flags.
- **Calls and the worker/server handshake**:
  - `JsCall` (internal/jsutil/wrpc/call.go);
  - `WrpcWorker` (pkg/wrpc/worker.go);
  - `WrpcServer` (pkg/wrpc/server.go).
- **The audio helpers**:
  - the PCM player's block scheduling (`PcmPlayer`, template/index.js);
  - the producer-side time buffer (`TimeBuffers`, pkg/audio/util.go);
  - the stereo de-interleaving, `mustWrite` and chunk trimming of the
    audio-track demo (`AudioTrack`).
- **Smaller pieces**:
  - the `factorial`/`cnr` helpers (`Network`);
  - the line-reversing worker of the streaming demo (`Streaming`).

## How the model is built

- **Stateful objects.** Each Go object whose fields change in place (the port
  wrappers, the readers, the player, the time buffer, the server) is a
  `class`. Its state is summarised by a `State()` value, and each method is
  specified by a pure step function on that value. The properties the source
  promises are lemmas about the step functions.
- **Blocking.** Goroutines that block on a channel are modelled by the result
  `Blocked`. A panic is `Panicked(reason)`. A normal return is
  `Returned(value)`.
- **Waiting on two channels.** When a `select` waits both on `done` and on
  another channel, the model takes `done` whenever it is ready.
- **The JavaScript side.** It is represented by:
  - the events the port receives (`HandleMessage`, `HandleError`);
  - the calls the port makes on the host (`posted`: `postMessage` and
    `close`);
  - plain values: `JsValue`, and `JsMessage` as a map from keys to values.

## Model

| member | source | states |
|---|---|---|
| Common.JsString | pkg/wrpc/server.go:61 | `String()` of a JS value: a string itself; anything else a tag in angle brackets, `<boolean: true>` or `<boolean: false>` for a boolean, `<number: ` and the number's decimal text for a number |
| Common.IntText | pkg/wrpc/server.go:61 | the decimal text of an integer: a `-` exactly for a negative one, then digits that read back as its magnitude |
| Common.NatTextValue | pkg/wrpc/server.go:61 | reading back the digits written for n gives n |
| Common.ReadBuffer | pkg/wrpc/port.go:91-98 | `bytes.Buffer.Read`: the first min(len(p), len) bytes move out, the rest stays; an empty buffer answers io.EOF unless p is empty |
| Slice.Encode | pkg/array/slice.go:11-56 | panics exactly for a non-numeric slice; otherwise the encoding is len(s) times the element width long |
| Slice.Decode | pkg/array/slice.go:59-116 | panics exactly for a non-numeric target; otherwise it yields a slice of that element type with len(b)/width elements, each in its type's range |
| Slice.DecodeElems | pkg/array/slice.go:59-116 | the element count is len(b)/width, and every element is within its type's range |
| Slice.FromBitsBits | pkg/array/slice.go:11-56 | reading back a value's bit pattern gives the value, for every value in range (two's complement) |
| Slice.BitsFromBits | pkg/array/slice.go:59-116 | the bit pattern of a decoded value is the pattern it was read from |
| Slice.ValueOfLittleEndian | pkg/array/slice.go:11-56 | the little-endian bytes of x, read back, give x |
| Slice.LittleEndianValueOf | pkg/array/slice.go:59-116 | writing back the value of a group of bytes gives the same bytes |
| Slice.EncodeBytesIdentity | pkg/array/slice.go:28-29 | a `[]byte` encodes to itself |
| Slice.EncodeIsLittleEndian | pkg/array/slice.go:11-56 | the encoding of a numeric slice is its elements' little-endian bit patterns, in order |
| Slice.DecodeEncode | pkg/array/slice.go:11-116 | decoding the encoding of a slice gives the slice back |
| Slice.EncodeDecode | pkg/array/slice.go:59-116 | decoding and re-encoding gives the input truncated to whole elements |
| Slice.EncodeSingleton | pkg/array/slice.go:11-56 | a one-element slice encodes to its bit pattern, little-endian, in its width |
| Slice.SignedTestVectors | pkg/array/slice_test.go:18-21 | -1 in each signed width encodes to all 0xff bytes |
| Slice.UnsignedTestVectors | pkg/array/slice_test.go:22-24 | 1 in each unsigned width encodes to 1 followed by zeros |
| Slice.FloatTestVectors | pkg/array/slice_test.go:25-26 | -1.0 encodes to 00 00 80 bf as float32 and to 00 .. f0 bf as float64 |
| TypedArrays.ReadFirst | pkg/array/typedarray.go:18-52 | a fresh reader's first read returns the first min(len(b), len) bytes |
| TypedArrays.ReadAfterEof | pkg/array/typedarray.go:19-21 | after EOF, every read returns (0, io.EOF) and changes nothing |
| TypedArrays.ReadWhole | pkg/array/typedarray.go:30-40 | a slice that can hold the whole ArrayBuffer gets all of it, and the reader reaches EOF |
| TypedArrays.ReadBuffered | pkg/array/typedarray.go:42-51 | a shorter slice gets a prefix, and the rest is kept in the reader's buffer |
| TypedArrays.ReadNeverShort | pkg/array/typedarray.go:18-52 | `io.ErrUnexpectedEOF` is never returned, because the host copies in full |
| TypedArrays.ReadConsumes | pkg/array/typedarray.go:18-52 | a read returns a prefix of the remaining bytes, at most len(b) of them, and keeps the rest |
| TypedArrays.ReadProgress | pkg/array/typedarray.go:18-52 | a read into a non-empty slice that returns no error makes progress |
| TypedArrays.ReadSeqDelivers | pkg/array/typedarray.go:18-52 | any sequence of reads returns the ArrayBuffer's bytes in order, none lost or repeated |
| TypedArrays.Reader.constructor | pkg/array/typedarray.go:55-59 | a new reader has nothing buffered and its remaining bytes are the ArrayBuffer |
| TypedArrays.Reader.Read | pkg/array/typedarray.go:18-52 | writes exactly what the read step delivers to the front of b, and leaves the rest of b alone |
| TypedArrays.CopyInto | pkg/array/typedarray.go:30-40 | `copy(b, data)`: the front of b holds data, and the rest of b is unchanged |
| TypedArrays.ArrayTypeNameInjective | pkg/array/typedarray.go:117-150 | different element types map to different JS constructor names |
| TypedArrays.NewView | pkg/array/typedarray.go:67-115 | a view exists exactly when the buffer length is a multiple of the width; it then has len/width elements |
| TypedArrays.NewFromSlice | pkg/array/typedarray.go:117-150 | the typed array has the slice's element type and length, and its buffer is the slice's encoding |
| TypedArrays.NewFromSliceElements | pkg/array/typedarray.go:117-150 | the typed array shows exactly the slice's elements |
| TypedArrays.Bytes | pkg/array/typedarray.go:158-164 | returns the first `ByteLength()` bytes of the buffer |
| TypedArrays.BytesOfNewFromSlice | pkg/array/typedarray.go:117-164 | converting a slice to a typed array and taking its bytes gives the slice's encoding |
| TypedArrays.ReaderRead | pkg/array/typedarray.go:18-52 | defines the reader's `Read`; ReadConsumes and ReadSeqDelivers state it |
| TypedArrays.Len | pkg/array/typedarray.go:166-169 | the element count of a typed array; NewView and NewFromSlice state it |
| TypedArrays.ByteLength | pkg/array/typedarray.go:171-174 | the byte length of a typed array; Bytes states it |
| TypedArrays.Type | pkg/array/typedarray.go:176-179 | the constructor name of a typed array; ArrayTypeNameInjective states it |
| JsArray.ReadAfterEof | internal/jsutil/array/typedarray.go:19-48 | after EOF, every read returns (0, io.EOF) and changes nothing |
| JsArray.ReadDirect | internal/jsutil/array/typedarray.go:19-48 | a slice that can hold the buffer receives all of it directly, and the reader reaches EOF |
| JsArray.ReadBuffered | internal/jsutil/array/typedarray.go:28-40 | a shorter slice gets a prefix, and the rest is buffered |
| JsArray.ReaderReadAgrees | internal/jsutil/array/typedarray.go:19-48 | this reader answers every read as the pkg/array reader does |
| JsArray.ReadContinues | internal/jsutil/array/typedarray.go:19-48 | each read continues where the previous one stopped |
| JsArray.Reader.constructor | internal/jsutil/array/typedarray.go:50-55 | a new reader has nothing buffered and is not at EOF |
| JsArray.Reader.Read | internal/jsutil/array/typedarray.go:19-48 | writes what the read step delivers into b |
| JsArray.KindOfName | internal/jsutil/array/typedarray.go:57-76 | a recognised name is the constructor name of the kind it returns |
| JsArray.KindOfNameExact | internal/jsutil/array/typedarray.go:57-76 | the ten constants, and nothing else, are recognised |
| JsArray.New | internal/jsutil/array/typedarray.go:82-98 | an unknown type panics; otherwise a view exists exactly when the length is a multiple of the width, over the given buffer |
| JsArray.NewFromSlice | internal/jsutil/array/typedarray.go:101-134 | panics exactly for a non-numeric slice; otherwise it has the slice's type and length, and its buffer is the encoding |
| JsArray.NewFromSliceAgrees | internal/jsutil/array/typedarray.go:101-134 | builds the same typed array as pkg/array |
| JsArray.Bytes | internal/jsutil/array/typedarray.go:147-153 | returns the first `ByteLength()` bytes of the buffer |
| JsArray.Type | internal/jsutil/array/typedarray.go:166-168 | the name returned maps back to the array's element type |
| JsArray.NewArrayBuffer | internal/jsutil/array/arraybuffer.go:41-45 | succeeds exactly for a size of at least 0, with that many zero bytes |
| JsArray.NewArrayBufferLen129 | internal/jsutil/array/arraybuffer_test.go:17-21 | a buffer made with 129 bytes reports 129 |
| JsArray.NewArrayBufferFromSlice | internal/jsutil/array/arraybuffer.go:17-38 | panics exactly for a non-numeric slice; otherwise the buffer is the encoding, len times width bytes long |
| JsArray.BufferBytes | internal/jsutil/array/arraybuffer.go:128-134 | returns all `Len()` bytes of the buffer |
| JsArray.BytesFromSlice | internal/jsutil/array/arraybuffer.go:17-38 | the bytes of a buffer made from a `[]byte` are that slice |
| JsArray.View | internal/jsutil/array/arraybuffer.go:53-120 | a view has Len()/width elements over the whole buffer, and any trailing partial element is dropped |
| JsArray.ViewElements | internal/jsutil/array/arraybuffer.go:53-120 | a view shows what `Decode` reads from the same bytes |
| JsArray.BytesRoundTrip | internal/jsutil/array/typedarray.go:101-153 | slice to typed array, to bytes, and decoded again gives the original slice |
| JsArray.ReaderRead | internal/jsutil/array/typedarray.go:19-48 | defines the reader's `Read`; ReaderReadAgrees states it |
| JsArray.Len | internal/jsutil/array/arraybuffer.go:123-125 | the byte length of an ArrayBuffer; BufferBytes states it |
| JsArray.DecodeElemsPrefix | internal/jsutil/array/arraybuffer.go:53-120 | decoding ignores the bytes after the last whole element, as a view over the buffer does |
| PcmPlayer.SetChannel | template/index.js:24-25 | a channel is as long as the buffer, holds the given samples first, and is zero after them |
| PcmPlayer.PlayNextThrows | template/index.js:19-25 | `playNext` throws exactly for an empty left block or a right block longer than the left one (NotSupported or RangeError) |
| PcmPlayer.PlayNextSchedules | template/index.js:27-35 | the block starts at max(startTime, currentTime), and the cursor moves to the block's end |
| PcmPlayer.PlayNextChannels | template/index.js:19-25 | two channels: the left samples, and the right ones padded with zeros |
| PcmPlayer.CursorAhead | template/index.js:27-35 | after a block the cursor is past both the clock and the previous cursor |
| PcmPlayer.BlocksAbut | template/index.js:27-35 | while the clock is behind the cursor, each block starts where the previous one ended |
| PcmPlayer.RunCoversPlayed | template/index.js:18-36 | over any run of calls, the cursor advances at least the played duration |
| PcmPlayer.RunGapless | template/index.js:18-36 | when the clock never overtakes, the cursor advances exactly the played duration |
| PcmPlayer.TwoSecondsExample | template/index.js:18-36 | two one-second blocks start at 0 and at 1 |
| PcmPlayer.Player.constructor | template/index.js:11-16 | the cursor starts at 0 and nothing is scheduled |
| PcmPlayer.Player.PlayNextBlock | template/index.js:18-36 | performs the `playNext` step: the error, or the new cursor and the scheduled block |
| PcmPlayer.PlayNext | template/index.js:18-36 | defines `playNext`; PlayNextThrows, PlayNextSchedules and PlayNextChannels state it |
| TimeBuffers.AddWithinMax | pkg/audio/util.go:44-46 | within max, `Add` only accumulates elapsed |
| TimeBuffers.AddPastMax | pkg/audio/util.go:46-55 | past max, a positive wait is slept and the count restarts; otherwise it keeps accumulating |
| TimeBuffers.AddKeepsMax | pkg/audio/util.go:44-56 | max never changes, and it sleeps only for a positive wait, of the stated length |
| TimeBuffers.AddBoundsLead | pkg/audio/util.go:44-56 | after `Add`, the producer is at most max ahead of the clock |
| TimeBuffers.TimeBuffer.constructor | pkg/audio/util.go:34-39 | max is kept, start is now, and elapsed is 0 |
| TimeBuffers.TimeBuffer.Add | pkg/audio/util.go:44-56 | performs the `Add` step: the sleep and the new fields |
| TimeBuffers.AddSpec | pkg/audio/util.go:44-56 | defines `Add`; AddWithinMax, AddPastMax, AddKeepsMax and AddBoundsLead state it |
| WrpcNet.ValidPreserved | pkg/wrpcnet/port.go:60-188 | every event and call keeps `done` tied to the latched error; a second close panics (closing a closed channel) |
| WrpcNet.NotifiedPreserved | pkg/wrpcnet/port.go:60-188 | with the corrected `Read`, there is one notification per queued message |
| WrpcNet.OnMessageQueues | pkg/wrpcnet/port.go:176-185 | a data message is queued at the back with one notification, and nothing else changes |
| WrpcNet.ErrorLatch | pkg/wrpcnet/port.go:141-167 | the first of `__eof`, `__err` or an error event latches io.EOF, the `String()` text of the `__err` value (`<boolean: true>` for `true`, `<number: 5>` for 5) or the event, and closes `done`; later ones change nothing |
| WrpcNet.ReadMessageFront | pkg/wrpcnet/port.go:60-72 | returns and removes the front message and posts `__ack`; once done, it returns the error |
| WrpcNet.ReadMessagesFifo | pkg/wrpcnet/port.go:60-72 | k reads return the first k messages in order |
| WrpcNet.ReadShortBuffer | pkg/wrpcnet/port.go:100-105 | corrected: a message longer than b gives (0, io.ErrShortBuffer) and leaves the port exactly as it was, queue, notification and posted calls alike |
| WrpcNet.ReadCopies | pkg/wrpcnet/port.go:89-108 | a successful read returns the whole `Uint8Array` of the front message, at most len(b) bytes, removes the message and posts one `__ack` |
| WrpcNet.WriteResults | pkg/wrpcnet/port.go:111-121 | posts `arr`, then returns (len(b), nil) on an ack, (0, err) once done, or blocks |
| WrpcNet.CloseLatches | pkg/wrpcnet/port.go:124-130 | close posts `__eof`, closes the port and latches io.ErrClosedPipe for every later read and write |
| WrpcNet.ShortBufferRetryBlocks | pkg/wrpcnet/port.go:100-105 | as written, a read into too short a buffer has already posted `__ack`, and the retry blocks although the message is queued |
| WrpcNet.ShortBufferRetryReads | pkg/wrpcnet/port.go:100-105 | corrected, a retry with room for the message returns its bytes, and the message is acknowledged once |
| WrpcNet.NewUint8Array | pkg/array/typedarray.go:86-89 | `new Uint8Array(v)`: the buffer's bytes for an ArrayBuffer; otherwise zero bytes, one for `true`, none for `null`, `false` or a host object, n for a number n ≥ 0; it panics only for a negative number or a string |
| WrpcNet.NewUint8ArrayOfText | pkg/array/typedarray.go:86-89 | the decimal text of an integer makes the same array as the integer, or the same panic |
| WrpcNet.ReadNonBuffer | pkg/wrpcnet/port.go:95-107 | an `arr` of `true` reads as one zero byte (ErrShortBuffer into zero bytes), `null` as none, `"5"` as five zero bytes, and `"-1"` panics with a RangeError |
| WrpcNet.ReadNumber | pkg/wrpcnet/port.go:95-107 | a numeric `arr` of 5 reads as five zero bytes (ErrShortBuffer into four), and -1 panics with a RangeError |
| WrpcNet.ReadAcksTaken | pkg/wrpcnet/port.go:60-107 | a corrected read either leaves queue and posted calls alone or takes the front message and posts one `__ack` |
| WrpcNet.ReadsAckOnce | pkg/wrpcnet/port.go:60-107 | over any run of corrected reads, the messages taken are the front of the queue and exactly one `__ack` is posted for each |
| WrpcNet.OnError | pkg/wrpcnet/port.go:141-147 | defines `onerror`; ErrorLatch states it |
| WrpcNet.OnMessage | pkg/wrpcnet/port.go:149-188 | defines `onmessage`; ErrorLatch and OnMessageQueues state it |
| WrpcNet.ReadMessageStep | pkg/wrpcnet/port.go:60-72 | defines `ReadMessage`; ReadMessageFront states it |
| WrpcNet.AwaitAckStep | pkg/wrpcnet/port.go:78-85 | defines the wait of `WriteMessage`; WriteResults states it |
| WrpcNet.WriteMessageStep | pkg/wrpcnet/port.go:76-86 | defines `WriteMessage`; WriteResults states it |
| WrpcNet.ReadStepAsWritten | pkg/wrpcnet/port.go:89-108 | defines `Read` as written; ShortBufferRetryBlocks states its defect |
| WrpcNet.ReadStep | pkg/wrpcnet/port.go:89-108 | defines the corrected `Read`; ReadCopies, ReadShortBuffer and ReadsAckOnce state it |
| WrpcNet.WriteStep | pkg/wrpcnet/port.go:111-121 | defines `Write`; WriteResults states it |
| WrpcNet.CloseStep | pkg/wrpcnet/port.go:124-130 | defines `Close`; CloseLatches and ValidPreserved state it |
| WrpcNet.CloseWithErrorStep | pkg/wrpcnet/port.go:134-139 | defines `CloseWithError`; ValidPreserved states that a second close panics |
| WrpcNet.MessagePort.constructor | pkg/wrpcnet/port.go:33-57 | a new port is empty, with no error |
| WrpcNet.MessagePort.HandleError | pkg/wrpcnet/port.go:141-147 | performs the `onerror` step |
| WrpcNet.MessagePort.HandleMessage | pkg/wrpcnet/port.go:149-188 | performs the `onmessage` step |
| WrpcNet.MessagePort.ReadMessage | pkg/wrpcnet/port.go:60-72 | performs the `ReadMessage` step |
| WrpcNet.MessagePort.AwaitAck | pkg/wrpcnet/port.go:78-85 | performs the wait for an ack |
| WrpcNet.MessagePort.WriteMessage | pkg/wrpcnet/port.go:76-86 | performs the `WriteMessage` step |
| WrpcNet.MessagePort.Read | pkg/wrpcnet/port.go:89-108 | performs the corrected `Read` step and copies its bytes into b |
| WrpcNet.MessagePort.Write | pkg/wrpcnet/port.go:111-121 | performs the `Write` step |
| WrpcNet.MessagePort.Close | pkg/wrpcnet/port.go:124-130 | performs the `Close` step |
| WrpcNet.MessagePort.CloseWithError | pkg/wrpcnet/port.go:134-139 | performs the `CloseWithError` step |
| WrpcPort.ValidPreserved | pkg/wrpc/port.go:62-186 | every event and call keeps `done` tied to the latched error |
| WrpcPort.CloseOnce | pkg/wrpc/port.go:137-144 | close is idempotent, posts `__eof` once, and latches io.ErrClosedPipe unless an error came first |
| WrpcPort.ErrorFixed | pkg/wrpc/port.go:146-186 | once latched, the error never changes |
| WrpcPort.ReadFromBuffer | pkg/wrpc/port.go:91-98 | with bytes buffered, `Read` serves from the buffer alone |
| WrpcPort.ReadFetches | pkg/wrpc/port.go:100-120 | with the buffer empty, it fetches one message, buffers all of its bytes, returns a prefix and acks |
| WrpcPort.ReadNotArrayBuffer | pkg/wrpc/port.go:106-113 | a message without `arr` gives the "expected an ArrayBuffer message" error; any other non-ArrayBuffer `arr` panics in syscall/js (`Value.Get` on a non-object such as null or a number, `Value.Int` on a host object's missing `byteLength`) |
| WrpcPort.ReadEofOnlyFromRemote | pkg/wrpc/port.go:90-121 | io.EOF is returned only after the remote `__eof`, with nothing buffered; a count never exceeds len(b) |
| WrpcPort.OnMessageExtends | pkg/wrpc/port.go:156-186 | a data message adds its payload to the end of the stream still to be read |
| WrpcPort.ReadTakesFront | pkg/wrpc/port.go:90-121 | a read takes its bytes from the front of the stream and keeps the rest |
| WrpcPort.ReadAllInOrder | pkg/wrpc/port.go:90-121 | successive reads deliver the received payloads in order, none skipped or repeated |
| WrpcPort.WriteResults | pkg/wrpc/port.go:124-134 | posts `arr`, then returns (len(b), nil) on an ack, (0, err) once done, or blocks |
| WrpcPort.Copy | pkg/wrpc/port.go:111 | the `io.Copy` loop collects everything the ArrayBuffer reader still had to deliver |
| WrpcPort.OnError | pkg/wrpc/port.go:146-154 | defines `onerror`; ErrorFixed states it |
| WrpcPort.OnMessage | pkg/wrpc/port.go:156-186 | defines `onmessage`; OnMessageExtends and ErrorFixed state it |
| WrpcPort.ReadMessageStep | pkg/wrpc/port.go:61-70 | defines `ReadMessage`; ReadFetches states it |
| WrpcPort.WriteMessageStep | pkg/wrpc/port.go:72-82 | defines `WriteMessage`; WriteResults states it |
| WrpcPort.AwaitAckStep | pkg/wrpc/port.go:76-81 | defines the wait of `WriteMessage`; WriteResults states it |
| WrpcPort.ByteLengthPanic | pkg/array/typedarray.go:171-174 | the panic of `byteLength` lookup on a non-ArrayBuffer; ReadNotArrayBuffer states it |
| WrpcPort.WriteErrorStep | pkg/wrpc/port.go:84-87 | defines `WriteError`: `WriteMessage` of the error text under `__err` |
| WrpcPort.ReadStep | pkg/wrpc/port.go:89-121 | defines `Read`; ReadFromBuffer, ReadFetches, ReadTakesFront and ReadAllInOrder state it |
| WrpcPort.WriteStep | pkg/wrpc/port.go:123-134 | defines `Write`; WriteResults states it |
| WrpcPort.CloseStep | pkg/wrpc/port.go:136-144 | defines `Close`; CloseOnce states it |
| WrpcPort.MessagePort.constructor | pkg/wrpc/port.go:35-59 | a new port is empty, with no error |
| WrpcPort.MessagePort.HandleError | pkg/wrpc/port.go:146-154 | performs the `onerror` step |
| WrpcPort.MessagePort.HandleMessage | pkg/wrpc/port.go:156-186 | performs the `onmessage` step |
| WrpcPort.MessagePort.ReadMessage | pkg/wrpc/port.go:62-70 | performs the `ReadMessage` step |
| WrpcPort.MessagePort.AwaitAck | pkg/wrpc/port.go:76-81 | performs the wait for an ack |
| WrpcPort.MessagePort.WriteMessage | pkg/wrpc/port.go:74-82 | performs the `WriteMessage` step |
| WrpcPort.MessagePort.WriteError | pkg/wrpc/port.go:85-87 | posts the error text under `__err` and waits for an ack |
| WrpcPort.MessagePort.CopyIn | pkg/wrpc/port.go:111-113 | appends the whole ArrayBuffer to the read buffer, and changes nothing else |
| WrpcPort.MessagePort.Read | pkg/wrpc/port.go:90-121 | performs the `Read` step and copies its bytes into b |
| WrpcPort.MessagePort.Write | pkg/wrpc/port.go:124-134 | performs the `Write` step |
| WrpcPort.MessagePort.Close | pkg/wrpc/port.go:137-144 | performs the `Close` step and returns nil |
| JsutilPort.ValidPreserved | internal/jsutil/wrpc/messageport.go:80-124 | `Write`, `Close` and `Read` keep the flags consistent with the pipe's ends |
| JsutilPort.OnMessageValid | internal/jsutil/wrpc/messageport.go:157-248 | `onmessage` keeps the flags consistent with the pipe's ends |
| JsutilPort.FreshValid | internal/jsutil/wrpc/messageport.go:49-77 | a new port is consistent |
| JsutilPort.WriteFlags | internal/jsutil/wrpc/messageport.go:85-104 | io.EOF before io.ErrClosedPipe; otherwise it posts `arr` and returns (len(p), nil) once acked |
| JsutilPort.CloseResults | internal/jsutil/wrpc/messageport.go:107-124 | close fails on an EOF'd or closed port; otherwise it marks the port closed, posts EOF, closes it, and releases every write waiting on the pipe |
| JsutilPort.CloseTwice | internal/jsutil/wrpc/messageport.go:107-124 | a second close always fails and changes nothing |
| JsutilPort.CloseKeepsWriteBlocked | internal/jsutil/wrpc/messageport.go:101-124 | close does not release a write that waits for its ack |
| JsutilPort.EofMessageLatches | internal/jsutil/wrpc/messageport.go:176-184 | an EOF message makes later writes and closes return io.EOF |
| JsutilPort.FlagsStick | internal/jsutil/wrpc/messageport.go:80-248 | the EOF and closed flags are never cleared |
| JsutilPort.OnMessageFlags | internal/jsutil/wrpc/messageport.go:157-248 | `onmessage` sets the EOF flag exactly for an `EOF` message and never touches the closed flag |
| JsutilPort.ClassifyOrder | internal/jsutil/wrpc/messageport.go:161-221 | `onmessage` tests ready, ack, EOF, rc (in a worker) and arr, in that order |
| JsutilPort.DataMessageDelivers | internal/jsutil/wrpc/messageport.go:219-245 | data on an open pipe waits, unacknowledged, behind the earlier writes and its bytes follow the unread ones; on a closed pipe, EOF and then ack are posted |
| JsutilPort.DataMessagePanics | internal/jsutil/wrpc/messageport.go:219-231 | an empty or non-ArrayBuffer `arr` panics after the ack |
| JsutilPort.ReadTakesFront | internal/jsutil/wrpc/messageport.go:80-82 | `Read` returns at most len(p) bytes from the front of the pipe, at least one when there is room, all from the first waiting write |
| JsutilPort.ReadAcksCompletedWrite | internal/jsutil/wrpc/messageport.go:222-243 | a data message's `ack` is posted exactly when a read takes its last byte; no other read posts anything |
| JsutilPort.ReadOneMessageAtATime | internal/jsutil/wrpc/messageport.go:80-82 | after data messages [1] and [2], a read with room for eight bytes returns [1], and the next one [2] |
| JsutilPort.EofReleasesWrites | internal/jsutil/wrpc/messageport.go:176-184 | a remote EOF fails every waiting write, each posting EOF back and then its ack, and later reads answer io.EOF |
| JsutilPort.ReleasedPairs | internal/jsutil/wrpc/messageport.go:233-235 | the i-th released write posts EOF and then ack |
| JsutilPort.ReadsInOrder | internal/jsutil/wrpc/messageport.go:80-82 | over any run of reads, the bytes come out in the order the data messages arrived, none lost or repeated |
| JsutilPort.ReadsAckCompleted | internal/jsutil/wrpc/messageport.go:222-224 | over any run of reads, one `ack` is posted per message whose bytes have all been read, and nothing else |
| JsutilPort.WriteStep | internal/jsutil/wrpc/messageport.go:85-104 | defines `Write`; WriteFlags states it |
| JsutilPort.AwaitAckStep | internal/jsutil/wrpc/messageport.go:102-103 | defines the `<-port.ack` wait of `Write`; WriteFlags states it |
| JsutilPort.Unread | internal/jsutil/wrpc/messageport.go:80-82 | the bytes waiting in the pipe, write after write; ReadTakesFront and ReadsInOrder state it |
| JsutilPort.Released | internal/jsutil/wrpc/messageport.go:233-235 | what the released writes post; ReleasedPairs states it |
| JsutilPort.CloseStep | internal/jsutil/wrpc/messageport.go:107-124 | defines `Close`; CloseResults and CloseTwice state it |
| JsutilPort.ReadStep | internal/jsutil/wrpc/messageport.go:80-82 | defines the pipe read; ReadTakesFront and ReadsInOrder state it |
| JsutilPort.Classify | internal/jsutil/wrpc/messageport.go:161-221 | defines the order of `onmessage`'s tests; ClassifyOrder states it |
| JsutilPort.DataStep | internal/jsutil/wrpc/messageport.go:222-243 | defines the data goroutine; DataMessageDelivers and DataMessagePanics state it |
| JsutilPort.OnMessage | internal/jsutil/wrpc/messageport.go:157-248 | defines `onmessage`; OnMessageFlags, EofMessageLatches and EofReleasesWrites state it |
| JsutilPort.MessagePort.constructor | internal/jsutil/wrpc/messageport.go:49-77 | a new port has posted `ready` |
| JsutilPort.MessagePort.Write | internal/jsutil/wrpc/messageport.go:85-104 | performs the `Write` step |
| JsutilPort.MessagePort.AwaitAck | internal/jsutil/wrpc/messageport.go:101-103 | performs the wait for an ack |
| JsutilPort.MessagePort.Close | internal/jsutil/wrpc/messageport.go:107-124 | performs the `Close` step |
| JsutilPort.MessagePort.Read | internal/jsutil/wrpc/messageport.go:80-82 | performs the pipe read on the first waiting write and copies its bytes into p |
| JsutilPort.MessagePort.HandleMessage | internal/jsutil/wrpc/messageport.go:157-248 | performs the `onmessage` step |
| JsutilPort.MessagePort.HandleData | internal/jsutil/wrpc/messageport.go:222-243 | performs the data-message goroutine's step: it waits on an open pipe, or posts EOF and ack on a closed one |
| JsutilPort.JSValueOf | internal/jsutil/wrpc/messageport.go:127-132 | null for a nil port, otherwise the port's JS value |
| JsCall.Pipe | internal/jsutil/wrpc/messageport.go:43-46 | a pipe is two new ports with fresh handles |
| JsCall.NewCallWriter | internal/jsutil/wrpc/call.go:28-50 | a port writer becomes the remote writer; any other writer gets a fresh pipe |
| JsCall.NewCallReader | internal/jsutil/wrpc/call.go:28-50 | no reader means neither remote reader nor local writer; a port reader is used directly; any other reader gets a fresh pipe |
| JsCall.NewCallPipesDistinct | internal/jsutil/wrpc/call.go:28-50 | the two fresh pipes use four different ports |
| JsCall.JSMessageShape | internal/jsutil/wrpc/call.go:88-102 | the message names the call and the writer, and the reader when there is one; the writer is transferred first, and the reader only when it is a different port |
| JsCall.JSMessageNoDuplicates | internal/jsutil/wrpc/call.go:88-102 | no port is transferred twice |
| JsCall.NewCallFromJSReader | internal/jsutil/wrpc/call.go:53-64 | an undefined `reader` means no remote reader; the writer is the message's |
| JsCall.JSMessageRoundTrip | internal/jsutil/wrpc/call.go:53-102 | the receiving side rebuilds the same name, writer and reader |
| JsCall.ExecuteRuns | internal/jsutil/wrpc/call.go:67-74 | panics exactly for an unregistered name; otherwise it runs the function and then closes the writer |
| JsCall.BeginRemoteTasks | internal/jsutil/wrpc/call.go:77-85 | one copy goroutine for each end that got a pipe, and none otherwise |
| JsCall.NewCall | internal/jsutil/wrpc/call.go:28-50 | defines `NewCall`; NewCallWriter, NewCallReader and NewCallPipesDistinct state it |
| JsCall.JSMessage | internal/jsutil/wrpc/call.go:88-102 | defines `JSMessage`; JSMessageShape and JSMessageNoDuplicates state it |
| JsCall.NewCallFromJS | internal/jsutil/wrpc/call.go:53-64 | defines `NewCallFromJS`; NewCallFromJSReader and JSMessageRoundTrip state it |
| JsCall.Execute | internal/jsutil/wrpc/call.go:67-74 | defines `Execute`; ExecuteRuns states it |
| JsCall.BeginRemote | internal/jsutil/wrpc/call.go:77-85 | defines `BeginRemote`; BeginRemoteTasks states it |
| WrpcWorker.CallMessageShape | pkg/wrpc/worker.go:23-39 | the message carries the name and both ports; r is transferred only when it differs from w |
| WrpcWorker.ReadyResult | pkg/wrpc/worker.go:50-53 | `NewWorker` fails exactly on a latched error (wrapped); a ready message is acked |
| WrpcWorker.FreshPortWaits | pkg/wrpc/worker.go:42-60 | a fresh port waits for the worker |
| WrpcWorker.Worker.constructor | pkg/wrpc/worker.go:42-60 | holds the JS worker and its port |
| WrpcWorker.Worker.Call | pkg/wrpc/worker.go:23-39 | returns what `WriteMessage` of the call's message returns |
| WrpcWorker.Worker.AwaitReady | pkg/wrpc/worker.go:50-53 | performs the wait for the first message |
| WrpcWorker.NewWorker | pkg/wrpc/worker.go:42-60 | wraps the worker in a fresh port |
| WrpcWorker.CallMessage | pkg/wrpc/worker.go:23-36 | defines the call message; CallMessageShape states it |
| WrpcWorker.ReadyStep | pkg/wrpc/worker.go:50-53 | defines the ready wait; ReadyResult and FreshPortWaits state it |
| WrpcServer.ExecuteEffects | pkg/wrpc/server.go:60-73 | the writer is always closed; the function registered under the `call` value's `String()` text runs on (w, r); an unknown name runs nothing |
| WrpcServer.DispatchAllCounts | pkg/wrpc/server.go:45-73 | over any run of messages, one function is invoked per `call` whose name is registered and one writer closed per `call`; `__ping` and any other message invoke and close nothing |
| WrpcServer.ServeInOrder | pkg/wrpc/server.go:45-57 | with no error latched, every waiting message is handled in order and acked, and then the loop waits |
| WrpcServer.ServeEndsOnError | pkg/wrpc/server.go:37-49 | a latched error ends the loop, wrapped, with nothing handled |
| WrpcServer.ListenAndServeStarts | pkg/wrpc/server.go:31-43 | outside a worker it panics; inside one the init message is posted first, and its failure is wrapped |
| WrpcServer.Server.constructor | pkg/wrpc/server.go:18-22 | an empty registry |
| WrpcServer.Server.WithFunc | pkg/wrpc/server.go:25-28 | registers f under name, replacing any earlier one, and returns the same server |
| WrpcServer.Server.ListenAndServe | pkg/wrpc/server.go:31-58 | performs the serving loop up to its wait or its return |
| WrpcServer.Server.ServeLoop | pkg/wrpc/server.go:45-57 | performs the serving loop: the effects and the result `Serve` gives for the port's state |
| WrpcServer.Execute | pkg/wrpc/server.go:60-73 | defines `execute`; ExecuteEffects states it |
| WrpcServer.Dispatch | pkg/wrpc/server.go:50-56 | defines the loop's switch; DispatchAllCounts states it |
| WrpcServer.DispatchAll | pkg/wrpc/server.go:45-57 | the switch over a run of messages; DispatchAllCounts and ServeInOrder state it |
| WrpcServer.Serve | pkg/wrpc/server.go:45-57 | defines the serving loop; ServeInOrder and ServeEndsOnError state it |
| WrpcServer.ListenAndServeStep | pkg/wrpc/server.go:31-58 | defines `ListenAndServe`; ListenAndServeStarts states it |
| Network.Factorial | internal/jsutil/wrpc/network.go:52-57 | every factorial is at least 1 |
| Network.FactorialDivisible | internal/jsutil/wrpc/network.go:52-57 | n! is divisible by every k with 1 ≤ k ≤ n |
| Network.BinomialFactorials | internal/jsutil/wrpc/network.go:59-64 | C(n, r)·r!·(n-r)! = n! |
| Network.CnrExact | internal/jsutil/wrpc/network.go:59-64 | for 0 ≤ r ≤ n the division is exact, and `cnr` is the binomial coefficient |
| Network.CnrEnds | internal/jsutil/wrpc/network.go:59-64 | cnr(n, 0) = cnr(n, n) = 1 |
| Network.CnrSymmetric | internal/jsutil/wrpc/network.go:59-64 | cnr(n, r) = cnr(n, n-r) |
| Network.Factorial20Fits | internal/jsutil/wrpc/network.go:52-57 | 20! fits in int64 and 21! does not |
| Network.Cnr | internal/jsutil/wrpc/network.go:59-64 | defines `cnr`; CnrExact, CnrEnds and CnrSymmetric state it |
| AudioTrack.Left | cmdwasm/audiotrack/main.go:184 | the left channel has len(samples)/2 samples |
| AudioTrack.Right | cmdwasm/audiotrack/main.go:185 | the right channel has len(samples)/2 samples |
| AudioTrack.Deinterleave | cmdwasm/audiotrack/main.go:184-190 | the loop fills left with the even samples and right with the odd ones |
| AudioTrack.SplitThenInterleave | cmdwasm/audiotrack/main.go:184-190 | re-interleaving the channels gives back every sample up to the last full pair |
| AudioTrack.InterleaveThenSplit | cmdwasm/audiotrack/main.go:184-190 | splitting an interleaved stream gives back its channels |
| AudioTrack.ChunkPlays | cmdwasm/audiotrack/main.go:184-202 | a chunk of at least one pair plays its left and right samples on channels 0 and 1; a shorter one throws |
| AudioTrack.MustWriteChecks | cmdwasm/audiotrack/main.go:77-85 | succeeds exactly with no error and a full, non-empty write; the zero-write panic is reached only for an empty p |
| AudioTrack.StripLastDropsOne | cmdwasm/audiotrack/main.go:64-75 | drops exactly the final byte, and panics on an empty block |
| AudioTrack.MustWrite | cmdwasm/audiotrack/main.go:77-85 | defines `mustWrite`; MustWriteChecks states it |
| AudioTrack.StripLast | cmdwasm/audiotrack/main.go:71-72 | defines `b[:len(b)-1]`; StripLastDropsOne states it |
| Streaming.Reverse | cmdwasm/streaming/main.go:107-113 | the runes are reversed in place |
| Streaming.ReverseString | cmdwasm/streaming/main.go:107-113 | `reverse(s)` is the reversal of s |
| Streaming.ReversedIndex | cmdwasm/streaming/main.go:107-113 | same length, and rune i is rune len-1-i of the input |
| Streaming.ReversedTwice | cmdwasm/streaming/main.go:107-113 | reversing twice gives back the string |
| Streaming.ReversedConcat | cmdwasm/streaming/main.go:107-113 | reversal turns a concatenation around |
| Streaming.ReversedShort | cmdwasm/streaming/main.go:107-113 | empty and one-rune strings are their own reversal, the loop not running |
| Streaming.ReverseWorker | cmdwasm/streaming/main.go:115-123 | the output is each line reversed and followed by a newline, in order |
| Streaming.OutputAppend | cmdwasm/streaming/main.go:115-123 | the output of a run of lines is the outputs of its parts, one after the other |
| Streaming.OutputOfOne | cmdwasm/streaming/main.go:115-123 | a reversed line fed back is written as the original line |

## Findings

| source | as written | input that shows it | evidently intended | confidence | as-written member | corrected member |
|---|---|---|---|---|---|---|
| pkg/wrpcnet/port.go:100-105 | on `io.ErrShortBuffer`, `Read` pushes the message back onto the queue but does not re-offer the notification it consumed, and the `__ack` that `ReadMessage` posted for it stands | a queued message of four bytes; `Read` into 2 bytes returns ErrShortBuffer after posting `__ack`, then `Read` into 8 bytes blocks forever although the message is queued | a retry with a large enough buffer returns the pushed-back message, which is acknowledged once, when it is read | high; not executed | WrpcNet.ShortBufferRetryBlocks | WrpcNet.ShortBufferRetryReads |

`WrpcNet.ReadStepAsWritten` is the code as written. `WrpcNet.ReadStep`
re-offers the notification and posts no `__ack` for a message it gives back,
so the port is left exactly as it was (`WrpcNet.ReadShortBuffer`); the class
and the other lemmas use it, and `WrpcNet.ReadsAckOnce` proves one `__ack`
per message read.

## Left out

- Goroutines and `select`. The model is sequential. When `done` and another
  channel are both ready, Go picks one at random; the model always takes
  `done`.
- A `Write`/`WriteMessage` that blocks resumes through `AwaitAck`. The model
  does not represent the goroutine that waits.
- pkg/wrpcnet `Read`: `new Uint8Array(arr)` for an `arr` that is not an
  ArrayBuffer follows the JavaScript length conversion (`WrpcNet.NewUint8Array`).
  It throws only for a negative length, which syscall/js turns into a panic.
- Common.JsValue: a JS number is an integer (`Num`). Fractions, `NaN`,
  infinities and `-0` are not modelled, nor the exponent form JavaScript
  writes for integers of 10^21 and more, nor the engine's limit on a typed
  array's length.
- WrpcNet.NewUint8Array: a string is read as a length only when it is all
  decimal digits, or `-` and digits; other numeric spellings (`+`, white
  space, fractions, exponents, hexadecimal, `Infinity`) are read as 0, and the
  engine's limit on a typed array's size is not modelled.
- pkg/wrpc `Read`: a non-ArrayBuffer `arr` reaches `array.NewReader`, whose
  `byteLength` lookup panics in syscall/js (`WrpcPort.ByteLengthPanic`). The
  panic text is modelled; a host object that has a numeric `byteLength` of
  its own is not.
- A port value that is not a MessagePort, such as an ArrayBuffer passed where
  a port is expected, is not modelled.
- The internal helpers are not part of this model. The model uses their
  documented effect:
  - internal/jsutil/array's `Encode`, `CreateBufferFromSlice` and
    `SliceToByteSlice` produce the little-endian encoding;
  - the one-argument `ack` helper posts `{"ack": true}`;
  - `array.Buffer(arr).CopyBytes` copies the ArrayBuffer's bytes.
- `io.Copy` chunk sizes: `CopyIn` copies in 512-byte chunks. Only the bytes
  copied are specified, which do not depend on the chunk size.
- `io.Pipe` in internal/jsutil/wrpc: each data message's goroutine is a write
  waiting on the pipe. The model takes the waiting writes in the order the
  messages arrived; Go makes no such promise between goroutines. A write's
  deferred `ack` is posted in the same step as the read that completes it.
- The remote-call (`rc`) branch of internal/jsutil/wrpc `onmessage` and the
  worker scheduler it feeds: they are classified, then left out.
- Deadlines and contexts of the internal port wrappers are left out.
- Network.Factorial: unbounded integers. Go's `int` overflows past 20!
  (`Factorial20Fits`); beyond that the model does not wrap.
- TimeBuffers.TimeBuffer.Add: `time.Duration` is unbounded here. int64
  nanosecond overflow is not modelled.
- PcmPlayer: float32 sample arithmetic is left out. Samples are opaque
  values, and times are exact reals rather than doubles.
- AudioTrack: samples are binary32 bit patterns. No float arithmetic is done.
- The WASM loader in template/index.js is left out.
- Streaming: UTF-8 decoding and `bufio.Scanner` line splitting are left out.
  A line is given as its runes.
- The textproto dot encoding (`ReadDotBytes`, `DotWriter`) and protobuf
  marshalling are left out. A chunk is given as its decoded bytes.
- Finalizers and `Release` of JS callbacks are left out.
- `WorkerFunc` bodies are opaque. The model records only that one is invoked,
  and on which ports.
- Console logging is modelled only as the `NotFound`/`Invalid` effects.
- JsCall.NewCallWriter: a nil `w` is not modelled, because `NewCall` always
  gets a writer.
- pkg/array `NewReader` is modelled by the `Reader` constructor. The
  `io.Reader` interface wrapper itself is not.
