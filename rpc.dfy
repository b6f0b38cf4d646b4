/**
 * The RPC client of rpc.ts: refuses websocket mode, connects over the
 * local IPC endpoints with the legacy frame classes, publishes a
 * SET_ACTIVITY command, and closes.
 */
module Rpc {
  import opened JsValues
  import opened Wire
  import opened Endpoint
  import opened Payloads
  import opened Frames
  import opened Status
  import opened Sockets
  import Ipc

  const UNIMPLEMENTED: string :=
    "Websockets are currently not supported and will be implemented at a leter date"
  const NO_SOCKET: string := "Could not connect to any discord-ipc socket"
  const READ_FAILED: string := "Failed to read incomming frame"
  const NOT_INITIALISED: string := "Socket not intialized"
  const UNKNOWN_ERROR: string := "Unknown error"

  /**
   * How `ipcInit` judges the reply to its handshake. It reads
   * `payload.data.evt` first, so a reply without `data` throws a TypeError
   * whatever its opcode; otherwise an `evt` of "ERROR" or a CLOSE opcode
   * fails with "Unknown error".
   */
  function HandshakeVerdict(reply: IPCFrame): Outcome
  {
    match Get(reply.payload, "data")
    case Err(e) => Fail(e)
    case Ok(data) =>
      match Get(data, "evt")
      case Err(e) => Fail(e)
      case Ok(evt) =>
        if LooseEqualsString(evt, "ERROR") || reply.opcode == CLOSE.Value() then
          Fail(IPCSocketError(Str(UNKNOWN_ERROR)))
        else
          Pass
  }

  function HandshakeOutcome(reply: Result<IPCFrame>): Outcome
  {
    match reply
    case Err(e) => Fail(e)
    case Ok(f) => HandshakeVerdict(f)
  }

  /**
   * No CLOSE reply passes; a reply passes exactly when it is not CLOSE,
   * `payload.data.evt` can be read, and it is not "ERROR". A reply whose
   * `data` is missing fails with a TypeError, and every other failure is
   * "Unknown error".
   */
  lemma HandshakeVerdicts(reply: IPCFrame)
    ensures reply.opcode == CLOSE.Value() ==> HandshakeVerdict(reply).Fail?
    ensures HandshakeVerdict(reply) == Pass <==>
              && reply.opcode != CLOSE.Value()
              && Get(reply.payload, "data").Ok?
              && Get(Get(reply.payload, "data").value, "evt").Ok?
              && !LooseEqualsString(Get(Get(reply.payload, "data").value, "evt").value, "ERROR")
    ensures Get(reply.payload, "data") == Ok(Undefined) ==> HandshakeVerdict(reply) == Fail(TypeError)
    ensures HandshakeVerdict(reply).Fail? ==>
              HandshakeVerdict(reply).error in {TypeError, IPCSocketError(Str(UNKNOWN_ERROR))}
  {
  }

  /**
   * The two clients judge the same replies differently: a CLOSE reply
   * `{ message }` is rejected by IPCClient with its message but makes this
   * client throw a TypeError, and a FRAME reply whose top-level `evt` is
   * "ERROR" is rejected by IPCClient but accepted here when `data` is an
   * object without `evt`.
   */
  lemma HandshakeDiffersFromIpc()
    ensures var close := IPCFrame(CLOSE.Value(), Obj(map["message" := Str("invalid client")]));
            && Ipc.HandshakeVerdict(close) == Fail(IPCSocketError(Str("invalid client")))
            && HandshakeVerdict(close) == Fail(TypeError)
    ensures var error := IPCFrame(FRAME.Value(), Obj(map["evt" := Str("ERROR"), "data" := Obj(map[])]));
            && Ipc.HandshakeVerdict(error) == Fail(IPCSocketError(Str(Ipc.UNKNOWN_ERROR)))
            && HandshakeVerdict(error) == Pass
  {
    var close := IPCFrame(CLOSE.Value(), Obj(map["message" := Str("invalid client")]));
    assert Get(close.payload, "data") == Ok(Undefined);
    var error := IPCFrame(FRAME.Value(), Obj(map["evt" := Str("ERROR"), "data" := Obj(map[])]));
    assert Get(error.payload, "data") == Ok(Obj(map[]));
    assert Get(Obj(map[]), "evt") == Ok(Undefined);
  }

  /** The `args` of the SET_ACTIVITY command: `{ pid: Deno.pid, activity }`. */
  function ActivityArgs(pid: int, a: Activity): JsVal
  {
    Obj(map["pid" := Num(pid), "activity" := ActivityJs(a)])
  }

  /**
   * The command `setActivity` sends names SET_ACTIVITY and carries its
   * nonce and the args `{ pid, activity }`.
   */
  lemma ActivityCommandBody(pid: int, a: Activity, nonce: Nonce)
    ensures var body := CommandFrame(SET_ACTIVITY, ActivityArgs(pid, a), nonce).Body();
            && Get(body, "cmd") == Ok(Str("SET_ACTIVITY"))
            && Get(body, "nonce") == Ok(Str(nonce))
            && Get(body, "args") == Ok(ActivityArgs(pid, a))
  {
    CommandFrameBody(SET_ACTIVITY, ActivityArgs(pid, a), nonce);
  }

  /**
   * The args carry the process id and the serialised activity, with its
   * own name, type and `created_at`.
   */
  lemma ActivityArgsFields(pid: int, a: Activity)
    ensures Get(ActivityArgs(pid, a), "pid") == Ok(Num(pid))
    ensures Get(ActivityArgs(pid, a), "activity") == Ok(ActivityJs(a))
    ensures var activity := ActivityJs(a);
            && Get(activity, "created_at") == Ok(Num(a.createdAt))
            && Get(activity, "name") == Ok(Str(a.name))
            && Get(activity, "type") == Ok(Num(a.activityType.Value()))
  {
    ActivityJsCore(a);
  }

  class RPCClient {
    const clientId: string
    /** Date.now() when the client was built. */
    const createdAt: int
    const websocketMode: bool
    const env: Env
    const json: Json
    /** The desktop application behind the sockets. */
    const peer: Peer
    /** The endpoint of the open connection, if any. */
    var conn: Option<string>

    constructor (clientId: string, websocketMode: bool, now: int, env: Env, json: Json, peer: Peer)
      ensures this.clientId == clientId && createdAt == now && this.websocketMode == websocketMode
      ensures this.env == env && this.json == json && this.peer == peer && conn.None?
    {
      this.clientId := clientId;
      createdAt := now;
      this.websocketMode := websocketMode;
      this.env := env;
      this.json := json;
      this.peer := peer;
      conn := None;
    }

    /**
     * `ipcInit()`: with a connection present it returns at once; otherwise
     * it scans the ten candidates, keeping the last that accepted, and
     * with one writes a HandshakeFrame (whose generated `nonce` is not
     * sent) and judges the reply. A rejected handshake leaves the
     * connection set.
     */
    method IpcInit(nonce: Nonce) returns (r: Outcome)
      modifies this`conn, peer`attempts, peer`written, peer`inbound
      ensures old(conn).Some? ==>
                && r == Pass && conn == old(conn)
                && peer.attempts == old(peer.attempts)
                && peer.written == old(peer.written)
                && peer.inbound == old(peer.inbound)
      ensures old(conn).None? ==>
                && peer.attempts == old(peer.attempts) + Candidates(Prefix(env))
                && conn == ScanFrom(Prefix(env), peer.listening, CANDIDATE_COUNT, None)
      ensures old(conn).None? && conn.None? ==>
                && r == Fail(IPCSocketError(Str(NO_SOCKET)))
                && peer.written == old(peer.written)
                && peer.inbound == old(peer.inbound)
      ensures old(conn).None? && conn.Some? ==>
                && peer.written == old(peer.written) +
                     [Sent(conn.value, FrameBytes(HANDSHAKE.Value(),
                                                  json.stringify(HandshakeFrame(clientId, nonce).Body())))]
                && peer.inbound == ReadRaw(old(peer.inbound)).1
                && r == HandshakeOutcome(ParseFrame(ReadRaw(old(peer.inbound)).0, json))
    {
      if conn.Some? {
        return Pass;
      }
      var ipcPath := if env.isWindows then PIPE_PREFIX else RuntimeDir(env);
      conn := Scan(peer, ipcPath);
      if conn.Some? {
        var buf := HandshakeFrame(clientId, nonce).Encode(json);
        peer.Write(conn.value, buf[..]);
        var reply := ReadFrame();
        r := HandshakeOutcome(reply);
      } else {
        r := Fail(IPCSocketError(Str(NO_SOCKET)));
      }
    }

    /**
     * `readFrame()`: with a connection, an 8-byte header and then a body of
     * the declared length, parsed; without one, fails and reads nothing.
     */
    method ReadFrame() returns (r: Result<IPCFrame>)
      modifies peer`inbound
      ensures conn.None? ==>
                r == Err(IPCSocketError(Str(READ_FAILED))) && peer.inbound == old(peer.inbound)
      ensures conn.Some? ==>
                peer.inbound == ReadRaw(old(peer.inbound)).1 && r == ParseFrame(ReadRaw(old(peer.inbound)).0, json)
    {
      if conn.Some? {
        var header := peer.Read(8);
        var opcode := GetUint32(header, 0);
        var length := GetUint32(header, 4);
        var body := peer.Read(length as nat);
        match json.parse(body)
        case None =>
          r := Err(SyntaxError);
        case Some(payload) =>
          r := Ok(IPCFrame(opcode, payload));
      } else {
        r := Err(IPCSocketError(Str(READ_FAILED)));
      }
    }

    /**
     * `init()`: websocket mode is refused before anything else; with a
     * connection present nothing happens; otherwise `ipcInit`.
     */
    method Init(nonce: Nonce) returns (r: Outcome)
      modifies this`conn, peer`attempts, peer`written, peer`inbound
      ensures websocketMode ==>
                && r == Fail(UnimplementedError(Str(UNIMPLEMENTED)))
                && conn == old(conn)
                && peer.attempts == old(peer.attempts)
                && peer.written == old(peer.written)
                && peer.inbound == old(peer.inbound)
      ensures !websocketMode && old(conn).Some? ==>
                && r == Pass && conn == old(conn)
                && peer.attempts == old(peer.attempts)
                && peer.written == old(peer.written)
                && peer.inbound == old(peer.inbound)
      ensures !websocketMode && old(conn).None? ==>
                && peer.attempts == old(peer.attempts) + Candidates(Prefix(env))
                && conn == ScanFrom(Prefix(env), peer.listening, CANDIDATE_COUNT, None)
      ensures !websocketMode && old(conn).None? && conn.None? ==>
                && r == Fail(IPCSocketError(Str(NO_SOCKET)))
                && peer.written == old(peer.written)
                && peer.inbound == old(peer.inbound)
      ensures !websocketMode && old(conn).None? && conn.Some? ==>
                && peer.written == old(peer.written) +
                     [Sent(conn.value, FrameBytes(HANDSHAKE.Value(),
                                                  json.stringify(HandshakeFrame(clientId, nonce).Body())))]
                && peer.inbound == ReadRaw(old(peer.inbound)).1
                && r == HandshakeOutcome(ParseFrame(ReadRaw(old(peer.inbound)).0, json))
    {
      if websocketMode {
        return Fail(UnimplementedError(Str(UNIMPLEMENTED)));
      }
      if conn.Some? {
        return Pass;
      }
      r := IpcInit(nonce);
    }

    /**
     * `setActivity(activity)`: with a connection, stamps the activity with
     * the client's creation time and writes one SET_ACTIVITY command frame
     * holding the process id and the activity; without one, throws and
     * changes neither the activity nor the log.
     */
    method SetActivity(activity: ActivityStatus, nonce: Nonce) returns (r: Outcome)
      modifies activity, peer`written
      ensures conn.None? ==>
                && r == Fail(IPCSocketError(Str(NOT_INITIALISED)))
                && activity.Value() == old(activity.Value())
                && peer.written == old(peer.written)
      ensures conn.Some? ==>
                && r == Pass
                && activity.Value() == old(activity.Value()).(createdAt := createdAt)
                && peer.written == old(peer.written) +
                     [Sent(conn.value,
                           FrameBytes(FRAME.Value(),
                                      json.stringify(CommandFrame(SET_ACTIVITY,
                                                                  ActivityArgs(env.pid, activity.Value()),
                                                                  nonce).Body())))]
    {
      if conn.Some? {
        activity.SetCreatedAt(createdAt);
        var frame := CommandFrame(SET_ACTIVITY, ActivityArgs(env.pid, activity.Value()), nonce);
        var buf := frame.Encode(json);
        peer.Write(conn.value, buf[..]);
        r := Pass;
      } else {
        r := Fail(IPCSocketError(Str(NOT_INITIALISED)));
      }
    }

    /**
     * `close()`: with a connection, writes a CloseFrame, closes the
     * connection and forgets it; without one, does nothing. Either way no
     * connection is left, so a second call is a no-op.
     */
    method Close()
      modifies this`conn, peer`written, peer`closed
      ensures conn.None?
      ensures old(conn).None? ==> peer.written == old(peer.written) && peer.closed == old(peer.closed)
      ensures old(conn).Some? ==>
                && peer.written == old(peer.written) +
                     [Sent(old(conn).value, FrameBytes(CLOSE.Value(), json.stringify(Obj(map[]))))]
                && peer.closed == old(peer.closed) + [old(conn).value]
    {
      if conn.Some? {
        var buf := CloseFrame.Encode(json);
        peer.Write(conn.value, buf[..]);
        peer.Close(conn.value);
        conn := None;
      }
    }
  }

  /**
   * `new RPCClient(clientId, websocketMode)`: records the client id and
   * the creation time, and throws when websocket mode is asked for
   * (`websocketMode` defaults to false, as in the source).
   */
  method NewRPCClient(clientId: string, now: int, env: Env, json: Json, peer: Peer, websocketMode: bool := false)
    returns (r: Result<RPCClient>)
    ensures r.Err? <==> websocketMode
    ensures r.Err? ==> r.error == UnimplementedError(Str(UNIMPLEMENTED))
    ensures r.Ok? ==>
              && fresh(r.value)
              && r.value.clientId == clientId && r.value.createdAt == now
              && r.value.env == env && r.value.json == json && r.value.peer == peer
              && !r.value.websocketMode && r.value.conn.None?
  {
    var client := new RPCClient(clientId, websocketMode, now, env, json, peer);
    if websocketMode {
      r := Err(UnimplementedError(Str(UNIMPLEMENTED)));
    } else {
      r := Ok(client);
    }
  }
}
