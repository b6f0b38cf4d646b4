# discord-rpc: frames, handshake and activity status in Dafny

This project models the core of a Deno client for the Discord desktop
application's local RPC interface. The client reaches the application over
a local socket (`discord-ipc-0` … `discord-ipc-9` in the runtime directory,
or named pipes on Windows). It performs a handshake and publishes the
user's activity ("Playing …") with a `SET_ACTIVITY` command.

The model covers:

- **Wire codec** (module `Wire`). Every frame is an 8-byte header followed
  by the body unchanged. The header holds the opcode and the body length,
  each a little-endian uint32. Encoding fills a fresh byte array in place,
  as `DataView.setUint32` and `Uint8Array.set` do. Decoding reads the
  header, then a body of the declared length. The lemmas prove the header
  codec is a bijection, that written frames read back exactly, and the
  frame layout.
- **Endpoint discovery** (modules `Endpoint`, `Sockets`). This covers the
  platform prefix, the ten candidates, and the connect loop as it is
  written.
- **The two client revisions.** `Ipc.IPCClient` (transports/ipc.ts) and
  `Rpc.RPCClient` (rpc.ts) are classes holding an optional connection.
  They talk to a `Sockets.Peer`. The peer stands for the desktop
  application: which endpoints accept, the bytes it sends back, and a log
  of every connect, write and close. Each method's postcondition states
  the new connection, the exact bytes appended to the write log, and the
  outcome. Handshake replies are classified by the specification
  functions `Ipc.HandshakeVerdict` and `Rpc.HandshakeVerdict`.
- **Payloads** (module `Payloads`). These are the five payload shapes as
  one datatype, the `RPCCommand` enumeration, and the nonce's
  five-segment shape.
- **Legacy frames** (module `Frames`). This is the five per-opcode frame
  classes of frame.ts, which are what `RPCClient` sends.
- **Activity status** (module `Status`). `ActivityStatus` is a class whose
  setters each overwrite one field. It includes the `setFlags` bit
  accumulator (a loop over `bv32`) and the append-only button list.

The foreign calls become parameters:
- `JSON.stringify` with `TextEncoder`, and `TextDecoder` with `JSON.parse`,
  are the two functions of a `Json` value. `parse` gives `None` where
  `JSON.parse` throws.
- `Deno.build.os`, `Deno.env` and `Deno.pid` become an `Env` value.
- `Date.now()` becomes a `now` argument.
- `crypto.randomUUID()` becomes a `Nonce` argument.

JavaScript values are the datatype `JsValues.JsVal`. A property read on
`undefined` or `null` gives a `TypeError`.

### Behaviour as written

The model follows the code as written, including where it does something
a reader might not expect:

- **The scan keeps the last endpoint that accepted.** The connect loop
  does not stop at the first accepting endpoint. It tries all ten in
  ascending order and assigns `conn` on every success, so it ends on the
  highest-index endpoint that accepted. Earlier connections are dropped
  without being closed. See `Sockets.Scan`, `Endpoint.ScanKeepsLast` and
  `Endpoint.ScanEndsOnHighest`.
- **The home-directory fallback is never taken.**
  `XDG_RUNTIME_DIR + "/" || …` is never falsy. With the variable unset,
  the prefix is the string `"undefined/"` (`Endpoint.RuntimeDir`).
- **Reads are never checked for length.** A short read leaves zero bytes
  in the buffer. There is no "connection closed" error (`Wire.Fill`).
- **A rejected handshake leaves the connection set.** After a failed
  `init`, a second `init` returns at once without connecting
  (`Ipc.IPCClient.Init`, `Rpc.RPCClient.IpcInit`).
- **`RPCClient` reads `payload.data.evt` before it looks at the opcode.**
  A reply without `data`, such as a CLOSE carrying only `message`, fails
  with a `TypeError` rather than an `IPCSocketError`. A top-level
  `evt: "ERROR"` is not looked at. `Rpc.HandshakeDiffersFromIpc` shows
  both against `IPCClient`.
- **The HandshakeFrame's nonce is never sent.** The nonce that
  `HandshakeFrame` generates does not reach the wire
  (`Frames.HandshakeFrameOmitsNonce`).

## Model

| member | source | states |
|---|---|---|
| JsValues.Get | src/rpc.ts:45 | reading a property fails with a TypeError exactly when the value is `undefined` or `null` |
| Wire.OpCodeValues | src/frame.ts:33-39 | the opcodes are HANDSHAKE 0, FRAME 1, CLOSE 2, PING 3, PONG 4; the reverse mapping exists exactly for values below 5 and inverts `Value` |
| Wire.GetUint32OfLittleEndian32 | src/transports/ipc.ts:155-157 | a little-endian uint32 stored at an offset within any bytes reads back as the same value |
| Wire.LittleEndian32OfGetUint32 | src/transports/ipc.ts:155-157 | storing the value read at an offset gives back the same four bytes, so the header codec is a bijection |
| Wire.FrameLayout | src/transports/ipc.ts:127-134 | a frame is 8 + n bytes; offset 0 reads the opcode, offset 4 reads the body length modulo 2^32 (exactly the length below 2^32), and bytes 8.. are the body unchanged |
| Wire.SetUint32 | src/transports/ipc.ts:132-133 | the in-place store replaces exactly the four bytes at the offset with the little-endian value modulo 2^32 and leaves all other bytes alone |
| Wire.SetBytes | src/transports/ipc.ts:134 | the in-place copy puts the source at the offset and leaves all other bytes alone |
| Wire.EncodeFrame | src/transports/ipc.ts:129-134 | the freshly allocated buffer holds exactly the frame layout for the opcode and body |
| Wire.Fill | src/transports/ipc.ts:153-154 | a read into an n-byte buffer yields n bytes: the next stream bytes, then zeros where the stream ends |
| Wire.ReadRawLength | src/transports/ipc.ts:157-160 | the body read has exactly the declared length; when the stream holds the whole frame, the body and the unread rest are the stream slices after the header |
| Wire.ReadRawOfFrameBytes | src/transports/ipc.ts:151-160 | a written frame followed by anything reads back as the same opcode (unknown opcodes included) and body, with the rest left unread |
| Wire.ParseOfWrittenFrame | src/transports/ipc.ts:151-168 | when JSON parsing undoes stringifying, a value written as a frame is read back as that value with the same opcode |
| Endpoint.RuntimeDir | src/transports/ipc.ts:36-37 | the runtime directory is `XDG_RUNTIME_DIR + "/"`, or `"undefined/"` when unset; the home fallback never applies |
| Endpoint.Prefix | src/transports/ipc.ts:31-40 | the prefix is the named-pipe namespace on Windows and the runtime directory otherwise |
| Endpoint.Candidates | src/transports/ipc.ts:83-88 | there are ten candidates, the i-th being prefix + `discord-ipc-i` |
| Endpoint.CandidateInjective | src/transports/ipc.ts:87 | distinct indices give distinct endpoint paths |
| Endpoint.ScanKeepsLast | src/transports/ipc.ts:83-92 | the scan ends on the highest-index candidate that accepted, and keeps its starting value only when none did |
| Endpoint.ScanConnects | src/transports/ipc.ts:83-93 | starting unconnected, the scan connects exactly when some candidate accepts, and then to an accepting endpoint |
| Endpoint.ScanEndsOnHighest | src/transports/ipc.ts:83-92 | with endpoints 3 and 5 accepting, the scan ends connected to `discord-ipc-5` |
| Sockets.Peer.Connect | src/transports/ipc.ts:85-88 | a connect succeeds exactly when something listens at the path, and is logged |
| Sockets.Peer.Write | src/transports/ipc.ts:138 | a write appends the endpoint and the bytes to the write log |
| Sockets.Peer.Read | src/transports/ipc.ts:154 | a read returns the next n stream bytes, zero-filled, and consumes them |
| Sockets.Peer.Close | src/rpc.ts:101 | a close is logged |
| Sockets.Scan | src/rpc.ts:31-40 | all ten candidates are attempted in ascending order, and the connection is the scan's result, i.e. the last that accepted |
| Payloads.CommandNameRoundTrip | src/playloads.ts:1-21 | looking up a command's string value gives back that command |
| Payloads.CommandNamesDistinct | src/playloads.ts:1-21 | no two commands share a string value |
| Payloads.SegmentsIffDashes | src/playloads.ts:24 | the five-segment template accepts a string exactly when it has at least four dashes |
| Payloads.NonceShape | src/playloads.ts:24 | every nonce has the five-segment dash-separated shape |
| Payloads.UuidIsNonce | src/transports/ipc.ts:95-98 | a UUID in `randomUUID` format is a valid nonce |
| Payloads.HandshakeFields | src/playloads.ts:29-46 | a new handshake serialises `v = 1`, the client id, the nonce exactly when given, and no access token or scopes |
| Payloads.CommandFields | src/playloads.ts:49-71 | a new command serialises cmd, args and nonce as given, and no `evt` or `data` |
| Payloads.CloseFields | src/playloads.ts:74-85 | a new close payload serialises only the message given, with no code or nonce |
| Payloads.PingPongFields | src/playloads.ts:88-109 | ping and pong payloads serialise the optional nonce and nothing else |
| Frames.LegacyFrame.Encode | src/frame.ts:57-161 | each class's `encode()` returns a fresh buffer holding the frame layout for its own opcode and its serialised body |
| Frames.EncodedLayout | src/frame.ts:59-159 | the opcodes written are Handshake 0, Command 1, Close 2, Ping 3, Pong 4; every encoding is 8 + n bytes with the length at offset 4 and the body at offset 8 |
| Frames.FrameNonces | src/frame.ts:48-150 | every frame class except CloseFrame carries a nonce from construction |
| Frames.HandshakeFrameOmitsNonce | src/frame.ts:52-58 | the handshake body is exactly `{ v: 1, client_id }`, the same as a nonce-less HandshakePayload, so the generated nonce is not sent |
| Frames.CommandFrameBody | src/frame.ts:78-98 | a command frame serialises cmd, args and its nonce as given, matching the CommandPayload with the same fields |
| Frames.ControlFrameBodies | src/frame.ts:101-165 | a close frame serialises as `{}`, and ping and pong frames as `{ nonce }`, matching the corresponding payloads |
| Status.ActivityTypeValues | src/status.ts:7-13 | activity types are 0, 1, 2, 3 and 5, distinct, with PLAYING 0 and COMPETING 5 |
| Status.FlagBits | src/status.ts:63-73 | each flag is a single bit below `1 << 9`, and distinct flags share no bit |
| Status.MaskBit | src/status.ts:181-184 | the OR of the given flags holds a flag's bit exactly when that flag was given, and leaves it clear exactly when it was not |
| Status.WithFlagsBits | src/status.ts:179-186 | with no flags `flags` is unchanged, even if absent; otherwise a bit is set afterwards exactly when it was set before or its flag was given, so no bit is cleared |
| Status.WithFlagsIdempotent | src/status.ts:179-186 | repeating `setFlags` with the same flags changes nothing |
| Status.WithFlagsBound | src/status.ts:179-186 | flags built only by `setFlags` stay below `1 << 9` |
| Status.WithButtonAppends | src/status.ts:192-198 | `addButton` gives a list one longer, with the earlier buttons in place and the new one last; an absent list becomes a one-element list |
| Status.ActivityJsCore | src/status.ts:86-104 | a serialised activity always carries its name, its type's number, and `created_at` |
| Status.ActivityStatus.constructor | src/status.ts:86-113 | a new status has the given name and type (PLAYING by default), `created_at` set to the current time, and every other field absent |
| Status.ActivityStatus.SetName | src/status.ts:115-117 | only `name` changes, to the argument |
| Status.ActivityStatus.SetType | src/status.ts:119-121 | only `type` changes, to the argument |
| Status.ActivityStatus.SetUrl | src/status.ts:123-125 | only `url` changes, to the argument |
| Status.ActivityStatus.SetCreatedAt | src/status.ts:127-129 | only `created_at` changes, to the timestamp |
| Status.ActivityStatus.SetTimestamps | src/status.ts:131-133 | only `timestamps` changes, to the argument |
| Status.ActivityStatus.SetApplicationId | src/status.ts:135-137 | only `application_id` changes, to the argument |
| Status.ActivityStatus.SetStatusDisplayType | src/status.ts:139-141 | only `status_display_type` changes, to the argument |
| Status.ActivityStatus.SetDetails | src/status.ts:143-145 | only `details` changes, to the argument |
| Status.ActivityStatus.SetDetailsUrl | src/status.ts:147-149 | only `details_url` changes, to the argument |
| Status.ActivityStatus.SetState | src/status.ts:151-153 | only `state` changes, to the argument |
| Status.ActivityStatus.SetStateUrl | src/status.ts:155-157 | only `state_url` changes, to the argument |
| Status.ActivityStatus.SetEmoji | src/status.ts:159-161 | only `emoji` changes, to the argument |
| Status.ActivityStatus.SetParty | src/status.ts:163-165 | only `party` changes, to the argument |
| Status.ActivityStatus.SetAssets | src/status.ts:167-169 | only `assets` changes, to the argument |
| Status.ActivityStatus.SetSecrets | src/status.ts:171-173 | only `secrets` changes, to the argument |
| Status.ActivityStatus.SetInstance | src/status.ts:175-177 | only `instance` changes, to the argument |
| Status.OrFlags | src/status.ts:180-185 | the loop ORs every given flag into the old value (absent or 0 read as 0), giving the closed form `WithFlags`; with no flags the value is returned unchanged |
| Status.ActivityStatus.SetFlags | src/status.ts:179-186 | only `flags` changes, to the OR of its old value (absent or 0 as 0) with every given flag, and it is left untouched when no flags are given |
| Status.ActivityStatus.SetButtons | src/status.ts:188-190 | only `buttons` changes, to the list given |
| Status.ActivityStatus.AddButton | src/status.ts:192-198 | only `buttons` changes: the button is appended, or it becomes the only button when the list was absent |
| Ipc.HandshakeVerdicts | src/transports/ipc.ts:101-111 | every CLOSE reply fails, an object reply with its own `message`; any other reply passes exactly when its `evt` can be read and is not "ERROR", and "ERROR" fails with "Unknown error" |
| Ipc.IPCClient.constructor | src/transports/ipc.ts:29-41 | the client starts unconnected with the platform's endpoint prefix |
| Ipc.IPCClient.Init | src/transports/ipc.ts:80-117 | when connected, nothing happens and it succeeds. Otherwise all ten candidates are attempted, and the connection is the last that accepted. With none, it fails with "Could not connect to any discord-ipc socket" and nothing is written. With one, exactly one HANDSHAKE frame holding `HandshakePayload(clientId, nonce)` is written, one frame is read, and the outcome is the verdict on that reply |
| Ipc.IPCClient.Write | src/transports/ipc.ts:125-144 | without a connection it fails with "Socket not initialzied before attempting to write" and writes nothing; with one, it writes exactly one frame of the opcode and serialised payload, and returns its byte length |
| Ipc.IPCClient.Read | src/transports/ipc.ts:151-174 | without a connection it fails and consumes nothing; with one, it returns the next frame's opcode and parsed body (SyntaxError if unparseable), consuming exactly that frame |
| Rpc.HandshakeVerdicts | src/rpc.ts:41-45 | no CLOSE reply passes; a reply passes exactly when it is not CLOSE and `payload.data.evt` can be read and is not "ERROR"; a reply without `data` fails with a TypeError, and every other failure is "Unknown error" |
| Rpc.HandshakeDiffersFromIpc | src/rpc.ts:45 | a CLOSE `{ message: "invalid client" }` fails with that message in IPCClient but with a TypeError here; a FRAME with top-level `evt: "ERROR"` and an empty `data` fails in IPCClient but passes here |
| Rpc.ActivityCommandBody | src/rpc.ts:86-90 | the command frame sent serialises `cmd` as SET_ACTIVITY, the given nonce, and the `{ pid, activity }` arguments unchanged |
| Rpc.ActivityArgsFields | src/rpc.ts:89 | the arguments carry the process id and the serialised activity, which holds the activity's name, its type's number and its `created_at` |
| Rpc.RPCClient.constructor | src/rpc.ts:11-14 | the client records its id, its creation time and the mode, and starts unconnected |
| Rpc.NewRPCClient | src/rpc.ts:11-21 | `websocketMode` defaults to false; construction fails with the websockets UnimplementedError exactly in websocket mode; otherwise it gives a fresh unconnected client, not in websocket mode, with the id and creation time recorded |
| Rpc.RPCClient.IpcInit | src/rpc.ts:23-51 | when connected, nothing happens. Otherwise all ten candidates are attempted and the last that accepted is kept. With none, it fails and nothing is written. With one, exactly one encoded HandshakeFrame is written and the outcome is the verdict on the frame read |
| Rpc.RPCClient.ReadFrame | src/rpc.ts:54-70 | without a connection it fails with "Failed to read incomming frame" and consumes nothing; with one, it returns the next frame's opcode and parsed body, consuming exactly that frame |
| Rpc.RPCClient.Init | src/rpc.ts:72-84 | websocket mode fails with UnimplementedError before any connect, write or read; when connected, nothing happens; otherwise all ten candidates are attempted and the last that accepted is kept. With none, it fails and nothing is written or read. With one, exactly one encoded HandshakeFrame is written, exactly one frame is consumed, and the outcome is the verdict on that frame |
| Rpc.RPCClient.SetActivity | src/rpc.ts:86-96 | without a connection it fails with "Socket not intialized" and changes neither the activity nor the write log. With one, it changes only the activity's `created_at`, to the client's fixed creation time, and writes exactly one FRAME-opcode SET_ACTIVITY frame whose args are `{ pid, activity }` |
| Rpc.RPCClient.Close | src/rpc.ts:98-106 | afterwards there is no connection. If there was one, exactly one CLOSE frame with body `{}` was written to it and then it was closed (the unawaited write taken as complete, see Left out); without one, nothing happens, so a second close is a no-op |

## Left out

- Socket I/O. `Deno.connect`, `conn.read`, `conn.write` and `conn.close` are modelled by `Sockets.Peer` as a fixed set of accepting paths, one inbound byte stream, and logs. Connection objects are identified by their endpoint path.
- Unawaited writes (src/transports/ipc.ts:99, src/rpc.ts:42, 90, 100). Each is modelled as completing before the statement after it. For `close()` (src/rpc.ts:100-101) this means the CLOSE frame is taken as sent before `conn.close()` runs, although closing the connection could cancel the pending write. Any reordering of asynchronous work is not modelled.
- Rpc.RPCClient.SetActivity: the reply read that is started but not awaited (src/rpc.ts:92) is not modelled. The inbound stream is left as it was, and a failure of that read is not reported.
- Ipc.IPCClient.Write: returns the whole buffer's length as the byte count of `conn.write`, because the peer model accepts every write in full.
- `pump`, `on`, `off`, `dispatchEvent` and the `console.log` calls (src/transports/ipc.ts:47-74, 136, 166). This is event and logging plumbing with no effect on the protocol state.
- `IPCClient.close` (src/transports/ipc.ts:43-45). It is a stub that throws "Method not implemented.".
- JSON and text encoding. They are the two functions of a `Json` value and are not defined here. The order of keys in a serialised object is not modelled, because objects are maps. A JSON round trip is a hypothesis of `Wire.ParseOfWrittenFrame`, not a proved fact.
- JsValues.LooseEqualsString: JavaScript's `==` between a non-string value and "ERROR" is taken as false. Coercion such as `["ERROR"] == "ERROR"` is not modelled.
- JavaScript numbers are modelled as unbounded integers. Fractions, NaN and float rounding are not represented. The bitwise OR of `setFlags` is a `bv32` operation, which matches JavaScript's 32-bit `|` for the flag values involved.
- Aliasing. The objects and arrays passed to the setters (for example the array passed to `setButtons`, which `addButton` later pushes onto) are stored as values. A caller's later mutation of its own array is not modelled.
- The `toString()` methods of the frame classes and of `ActivityStatus`. The encoders of `CommandFrame`, `CloseFrame`, `PingFrame` and `PongFrame` use them, and that serialisation is modelled by `Body()` and `ActivityJs`. `HandshakeFrame.toString` is never used by `encode()`.
- The types `Nonce`, `DisplayType` and `RPCCommand`:
  - The nonce's template-literal type is a TypeScript compile-time type. Here it is the subset type `Nonce`; nothing checks it at run time.
  - `DisplayType` is modelled only through its values.
  - The two identical `RPCCommand` and `OpCode` enumerations (frame.ts and playloads.ts; frame.ts and transports/ipc.ts) are each modelled once.
- Environment and nondeterminism. `crypto.randomUUID`, `Date.now`, `Deno.pid`, `Deno.env` and `Deno.build.os` are parameters.
- Out of scope:
  - src/transports/websocket.ts (stub methods);
  - src/transports/transport.ts (an interface only);
  - src/index.ts (re-exports).

  None of these is part of this model. The two error classes of src/errors.ts are constructors of `JsValues.Error`.
