/**
 * The per-opcode frame classes of frame.ts. Each is built once and never
 * changed; its `encode()` allocates `8 + n` bytes and fills header and
 * body in place with its own fixed opcode.
 */
module Frames {
  import opened JsValues
  import opened Wire
  import opened Payloads

  /** The five classes; the nonce fields hold what `crypto.randomUUID()` returned at construction. */
  datatype LegacyFrame =
    | HandshakeFrame(clientId: string, nonce: Nonce)
    | CommandFrame(cmd: RPCCommand, args: JsVal, nonce: Nonce)
    | CloseFrame
    | PingFrame(nonce: Nonce)
    | PongFrame(nonce: Nonce)
  {
    /** The opcode the class's `encode()` writes. */
    function Op(): OpCode
    {
      match this
      case HandshakeFrame(_, _) => HANDSHAKE
      case CommandFrame(_, _, _) => FRAME
      case CloseFrame => CLOSE
      case PingFrame(_) => PING
      case PongFrame(_) => PONG
    }

    /**
     * The object `encode()` serialises: `{ v: 1, client_id }` for a
     * handshake, the frame object itself (`JSON.stringify(this)`) otherwise.
     */
    function Body(): JsVal
    {
      match this
      case HandshakeFrame(clientId, _) => Obj(map["v" := Num(1), "client_id" := Str(clientId)])
      case CommandFrame(cmd, args, nonce) =>
        Obj(Prop("cmd", Str(cmd.Name())) + Prop("args", args) + Prop("nonce", Str(nonce)))
      case CloseFrame => Obj(map[])
      case PingFrame(nonce) => Obj(map["nonce" := Str(nonce)])
      case PongFrame(nonce) => Obj(map["nonce" := Str(nonce)])
    }

    /** The nonce the frame carries; a CloseFrame has none. */
    function FrameNonce(): Option<Nonce>
    {
      match this
      case CloseFrame => None
      case HandshakeFrame(_, n) => Some(n)
      case CommandFrame(_, _, n) => Some(n)
      case PingFrame(n) => Some(n)
      case PongFrame(n) => Some(n)
    }

    /** `encode()`. */
    method Encode(json: Json) returns (buf: array<byte>)
      ensures fresh(buf)
      ensures buf[..] == FrameBytes(Op().Value(), json.stringify(Body()))
    {
      var body := json.stringify(Body());
      buf := EncodeFrame(Op().Value(), body);
    }
  }

  /**
   * Each class writes its own opcode: handshake 0, command 1, close 2,
   * ping 3, pong 4; every encoded frame is 8 + n bytes with the body
   * length at offset 4 and the body from offset 8.
   */
  lemma EncodedLayout(f: LegacyFrame, json: Json)
    ensures var bytes := FrameBytes(f.Op().Value(), json.stringify(f.Body()));
            var body := json.stringify(f.Body());
            && |bytes| == 8 + |body|
            && GetUint32(bytes, 0) == (match f
                                       case HandshakeFrame(_, _) => 0
                                       case CommandFrame(_, _, _) => 1
                                       case CloseFrame => 2
                                       case PingFrame(_) => 3
                                       case PongFrame(_) => 4)
            && GetUint32(bytes, 4) == ToUint32(|body|)
            && bytes[8..] == body
  {
    FrameLayout(f.Op().Value(), json.stringify(f.Body()));
  }

  /** Every frame but CloseFrame gets a nonce at construction. */
  lemma FrameNonces(f: LegacyFrame)
    ensures f.FrameNonce().None? <==> f.CloseFrame?
  {
  }

  /**
   * A handshake frame's body is exactly what a HandshakePayload without a
   * nonce serialises to: the nonce it generated never reaches the wire.
   */
  lemma HandshakeFrameOmitsNonce(clientId: string, nonce: Nonce)
    ensures HandshakeFrame(clientId, nonce).Body() == ToJs(NewHandshake(clientId, None))
    ensures "nonce" !in HandshakeFrame(clientId, nonce).Body().fields
    ensures HandshakeFrame(clientId, nonce).Body().fields.Keys == {"v", "client_id"}
  {
  }

  /**
   * A command frame keeps cmd and args as given and serialises all of
   * itself, nonce included: the body is that of the CommandPayload with
   * the same command, args and nonce.
   */
  lemma CommandFrameBody(cmd: RPCCommand, args: JsVal, nonce: Nonce)
    ensures CommandFrame(cmd, args, nonce).Body() == ToJs(NewCommand(cmd, args, Some(nonce)))
    ensures Get(CommandFrame(cmd, args, nonce).Body(), "nonce") == Ok(Str(nonce))
    ensures Get(CommandFrame(cmd, args, nonce).Body(), "cmd") == Ok(Str(cmd.Name()))
    ensures Get(CommandFrame(cmd, args, nonce).Body(), "args") == Ok(args)
  {
  }

  /** A close frame serialises as `{}`, a ping or pong as `{ nonce }`, as the matching payloads do. */
  lemma ControlFrameBodies(nonce: Nonce)
    ensures CloseFrame.Body() == ToJs(NewClose(None))
    ensures PingFrame(nonce).Body() == ToJs(NewPing(Some(nonce)))
    ensures PongFrame(nonce).Body() == ToJs(NewPong(Some(nonce)))
  {
  }
}
