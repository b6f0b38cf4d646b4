/**
 * The IPC transport of transports/ipc.ts: one optional connection, an
 * `init` that scans the ten endpoints and performs the handshake, and
 * `write`/`read` guarded on the connection being present.
 */
module Ipc {
  import opened JsValues
  import opened Wire
  import opened Endpoint
  import opened Payloads
  import opened Sockets

  const NO_SOCKET: string := "Could not connect to any discord-ipc socket"
  const WRITE_UNINITIALISED: string := "Socket not initialzied before attempting to write"
  const READ_UNINITIALISED: string := "Socket not initialzied before attempting to read"
  const UNKNOWN_ERROR: string := "Unknown error"

  /**
   * How `init` judges the reply to its handshake: a CLOSE frame fails with
   * the reply's `message`, a reply whose `evt` is "ERROR" fails with
   * "Unknown error", anything else succeeds.
   */
  function HandshakeVerdict(reply: IPCFrame): Outcome
  {
    if reply.opcode == CLOSE.Value() then
      match Get(reply.payload, "message")
      case Err(e) => Fail(e)
      case Ok(message) => Fail(IPCSocketError(message))
    else
      match Get(reply.payload, "evt")
      case Err(e) => Fail(e)
      case Ok(evt) =>
        if LooseEqualsString(evt, "ERROR") then Fail(IPCSocketError(Str(UNKNOWN_ERROR))) else Pass
  }

  /** The outcome of `init` once the reply has been read, or has failed to parse. */
  function HandshakeOutcome(reply: Result<IPCFrame>): Outcome
  {
    match reply
    case Err(e) => Fail(e)
    case Ok(f) => HandshakeVerdict(f)
  }

  /**
   * Every CLOSE reply fails the handshake, an object reply with the
   * message it carries; any other reply succeeds exactly when it is a
   * value whose `evt` is not "ERROR".
   */
  lemma HandshakeVerdicts(reply: IPCFrame)
    ensures reply.opcode == CLOSE.Value() ==> HandshakeVerdict(reply).Fail?
    ensures reply.opcode == CLOSE.Value() && reply.payload.Obj? ==>
              HandshakeVerdict(reply) == Fail(IPCSocketError(Get(reply.payload, "message").value))
    ensures reply.opcode != CLOSE.Value() ==>
              (HandshakeVerdict(reply) == Pass <==>
                 Get(reply.payload, "evt").Ok? && !LooseEqualsString(Get(reply.payload, "evt").value, "ERROR"))
    ensures reply.opcode != CLOSE.Value() && Get(reply.payload, "evt") == Ok(Str("ERROR")) ==>
              HandshakeVerdict(reply) == Fail(IPCSocketError(Str(UNKNOWN_ERROR)))
  {
  }

  class IPCClient {
    /** The desktop application behind the sockets. */
    const peer: Peer
    const json: Json
    const isWin: bool
    const ipcPath: string
    /** The endpoint of the open connection, if any. */
    var conn: Option<string>

    /** `new IPCClient()`: fixes the platform and the endpoint prefix. */
    constructor (env: Env, json: Json, peer: Peer)
      ensures this.peer == peer && this.json == json && conn.None?
      ensures isWin == env.isWindows && ipcPath == Prefix(env)
    {
      this.peer := peer;
      this.json := json;
      isWin := env.isWindows;
      ipcPath := if env.isWindows then PIPE_PREFIX else RuntimeDir(env);
      conn := None;
    }

    /**
     * `init(clientId)`: with a connection already present it returns at
     * once. Otherwise it tries all ten candidates in ascending order,
     * keeping the last that accepted; with none it fails, with one it
     * writes a handshake carrying `nonce` (`crypto.randomUUID()`) and
     * judges the reply. A rejected handshake leaves the connection set.
     */
    method Init(clientId: string, nonce: Nonce) returns (r: Outcome)
      modifies this, peer
      ensures peer.closed == old(peer.closed)
      ensures old(conn).Some? ==>
                && r == Pass && conn == old(conn)
                && peer.attempts == old(peer.attempts)
                && peer.written == old(peer.written)
                && peer.inbound == old(peer.inbound)
      ensures old(conn).None? ==>
                && peer.attempts == old(peer.attempts) + Candidates(ipcPath)
                && conn == ScanFrom(ipcPath, peer.listening, CANDIDATE_COUNT, None)
      ensures old(conn).None? && conn.None? ==>
                && r == Fail(IPCSocketError(Str(NO_SOCKET)))
                && peer.written == old(peer.written)
                && peer.inbound == old(peer.inbound)
      ensures old(conn).None? && conn.Some? ==>
                && peer.written == old(peer.written) +
                     [Sent(conn.value, FrameBytes(HANDSHAKE.Value(),
                                                  json.stringify(ToJs(NewHandshake(clientId, Some(nonce))))))]
                && peer.inbound == ReadRaw(old(peer.inbound)).1
                && r == HandshakeOutcome(ParseFrame(ReadRaw(old(peer.inbound)).0, json))
    {
      if conn.Some? {
        return Pass;
      }
      conn := Scan(peer, ipcPath);
      if conn.Some? {
        var _ := Write(NewHandshake(clientId, Some(nonce)), HANDSHAKE);
        var reply := Read();
        r := HandshakeOutcome(reply);
      } else {
        r := Fail(IPCSocketError(Str(NO_SOCKET)));
      }
    }

    /**
     * `write(payload, opcode)`: with a connection, writes one frame
     * holding the serialised payload; without one, fails and writes nothing.
     */
    method Write(payload: Payload, opcode: OpCode := FRAME) returns (r: Result<nat>)
      modifies peer`written
      ensures conn.None? ==>
                r == Err(IPCSocketError(Str(WRITE_UNINITIALISED))) && peer.written == old(peer.written)
      ensures conn.Some? ==>
                var body := json.stringify(ToJs(payload));
                && r == Ok(8 + |body|)
                && peer.written == old(peer.written) + [Sent(conn.value, FrameBytes(opcode.Value(), body))]
    {
      if conn.Some? {
        var body := json.stringify(ToJs(payload));
        var buf := EncodeFrame(opcode.Value(), body);
        peer.Write(conn.value, buf[..]);
        r := Ok(buf.Length);
      } else {
        r := Err(IPCSocketError(Str(WRITE_UNINITIALISED)));
      }
    }

    /**
     * `read()`: with a connection, reads an 8-byte header, then a body of
     * the declared length, and parses it; without one, fails and reads nothing.
     */
    method Read() returns (r: Result<IPCFrame>)
      modifies peer`inbound
      ensures conn.None? ==>
                r == Err(IPCSocketError(Str(READ_UNINITIALISED))) && peer.inbound == old(peer.inbound)
      ensures conn.Some? ==>
                peer.inbound == ReadRaw(old(peer.inbound)).1 && r == ParseFrame(ReadRaw(old(peer.inbound)).0, json)
    {
      if conn.Some? {
        var header := peer.Read(8);
        var opcode := GetUint32(header, 0);
        var length := GetUint32(header, 4);
        var body := peer.Read(length as nat);
        match json.parse(body)
        case None =>
          r := Err(SyntaxError);
        case Some(payload) =>
          r := Ok(IPCFrame(opcode, payload));
      } else {
        r := Err(IPCSocketError(Str(READ_UNINITIALISED)));
      }
    }
  }
}
