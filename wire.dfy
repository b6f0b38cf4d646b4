/**
 * The frame wire format shared by `IPCClient.write`/`read`, every
 * `encode()` of frame.ts and `RPCClient.readFrame`: an 8-byte header
 * holding the opcode and the body length as little-endian uint32 values,
 * then the body bytes unchanged.
 */
module Wire {
  import opened JsValues

  const TWO_32: int := 0x1_0000_0000

  newtype u32 = x: int | 0 <= x < 0x1_0000_0000

  /** The opcodes of a frame header. */
  datatype OpCode = HANDSHAKE | FRAME | CLOSE | PING | PONG
  {
    /** The number a numeric TypeScript enum gives each member, in declaration order. */
    function Value(): u32
    {
      match this
      case HANDSHAKE => 0
      case FRAME => 1
      case CLOSE => 2
      case PING => 3
      case PONG => 4
    }
  }

  /**
   * The enum's reverse mapping `OpCode[v]`. The readers never consult it
   * (a header's opcode is taken as a bare number), so it is here only to
   * state which header values are known opcodes.
   */
  function OpCodeOf(v: u32): Option<OpCode>
  {
    if v == 0 then Some(HANDSHAKE)
    else if v == 1 then Some(FRAME)
    else if v == 2 then Some(CLOSE)
    else if v == 3 then Some(PING)
    else if v == 4 then Some(PONG)
    else None
  }

  lemma OpCodeValues()
    ensures HANDSHAKE.Value() == 0 && FRAME.Value() == 1 && CLOSE.Value() == 2
    ensures PING.Value() == 3 && PONG.Value() == 4
    ensures forall op: OpCode :: OpCodeOf(op.Value()) == Some(op)
    ensures forall v: u32 :: OpCodeOf(v).Some? <==> v < 5
    ensures forall v: u32 :: OpCodeOf(v).Some? ==> OpCodeOf(v).value.Value() == v
  {
  }

  /** ToUint32, the conversion DataView.setUint32 applies to its value argument. */
  function ToUint32(v: nat): u32
  {
    (v % TWO_32) as u32
  }

  /** The four bytes `setUint32(off, v, true)` stores, least significant first. */
  function LittleEndian32(v: u32): (r: seq<byte>)
    ensures |r| == 4
  {
    var v1 := v as int / 256;
    var v2 := v1 / 256;
    [(v as int % 256) as byte, (v1 % 256) as byte, (v2 % 256) as byte, (v2 / 256) as byte]
  }

  /** `getUint32(off, true)` over the bytes `b`. */
  function GetUint32(b: seq<byte>, off: nat): u32
    requires off + 4 <= |b|
  {
    (b[off] as int + 256 * (b[off + 1] as int + 256 * (b[off + 2] as int + 256 * b[off + 3] as int))) as u32
  }

  /** Reading back what was stored gives the stored value. */
  lemma {:induction false} GetUint32OfLittleEndian32(v: u32, pre: seq<byte>, post: seq<byte>)
    ensures GetUint32(pre + LittleEndian32(v) + post, |pre|) == v
  {
    var b := pre + LittleEndian32(v) + post;
    var n := |pre|;
    var v1 := v as int / 256;
    var v2 := v1 / 256;
    assert b[n] as int == v as int % 256 && b[n + 1] as int == v1 % 256;
    assert b[n + 2] as int == v2 % 256 && b[n + 3] as int == v2 / 256;
    assert v2 == v2 % 256 + 256 * (v2 / 256);
    assert v1 == v1 % 256 + 256 * v2;
    assert v as int == v as int % 256 + 256 * v1;
  }

  /** Storing what was read back gives the same four bytes: the header codec is a bijection. */
  lemma {:induction false} LittleEndian32OfGetUint32(b: seq<byte>, off: nat)
    requires off + 4 <= |b|
    ensures LittleEndian32(GetUint32(b, off)) == b[off..off + 4]
  {
    var b0, b1, b2, b3 := b[off] as int, b[off + 1] as int, b[off + 2] as int, b[off + 3] as int;
    var v := GetUint32(b, off) as int;
    var w2 := b2 + 256 * b3;
    var w1 := b1 + 256 * w2;
    assert v == b0 + 256 * w1;
    assert v / 256 == w1 && v % 256 == b0;
    assert w1 / 256 == w2 && w1 % 256 == b1;
    assert w2 / 256 == b3 && w2 % 256 == b2;
  }

  /** The buffer every `write`/`encode()` produces for an opcode and a body. */
  function FrameBytes(opcode: u32, body: seq<byte>): seq<byte>
  {
    LittleEndian32(opcode) + LittleEndian32(ToUint32(|body|)) + body
  }

  /**
   * A written frame is 8 + n bytes; offsets 0 and 4 read back the opcode
   * and the body length (modulo 2^32, as setUint32 stores it); the body
   * follows verbatim from offset 8.
   */
  lemma {:induction false} FrameLayout(opcode: u32, body: seq<byte>)
    ensures |FrameBytes(opcode, body)| == 8 + |body|
    ensures GetUint32(FrameBytes(opcode, body), 0) == opcode
    ensures GetUint32(FrameBytes(opcode, body), 4) == ToUint32(|body|)
    ensures |body| < TWO_32 ==> GetUint32(FrameBytes(opcode, body), 4) as int == |body|
    ensures FrameBytes(opcode, body)[8..] == body
  {
    var f := FrameBytes(opcode, body);
    var len := ToUint32(|body|);
    GetUint32OfLittleEndian32(opcode, [], LittleEndian32(len) + body);
    assert f == [] + LittleEndian32(opcode) + (LittleEndian32(len) + body);
    GetUint32OfLittleEndian32(len, LittleEndian32(opcode), body);
  }

  /** `view.setUint32(off, v, true)` on the buffer `buf`. */
  method SetUint32(buf: array<byte>, off: nat, v: nat)
    requires off + 4 <= buf.Length
    modifies buf
    ensures buf[..] == old(buf[..off]) + LittleEndian32(ToUint32(v)) + old(buf[off + 4..])
  {
    var le := LittleEndian32(ToUint32(v));
    buf[off], buf[off + 1], buf[off + 2], buf[off + 3] := le[0], le[1], le[2], le[3];
  }

  /** `buf.set(src, off)`: copies `src` into `buf` from offset `off`. */
  method SetBytes(buf: array<byte>, src: seq<byte>, off: nat)
    requires off + |src| <= buf.Length
    modifies buf
    ensures buf[..] == old(buf[..off]) + src + old(buf[off + |src|..])
  {
    for i := 0 to |src|
      invariant buf[..off] == old(buf[..off])
      invariant buf[off..off + i] == src[..i]
      invariant buf[off + |src|..] == old(buf[off + |src|..])
      invariant forall k :: off + i <= k < off + |src| ==> buf[k] == old(buf[k])
    {
      buf[off + i] := src[i];
      assert buf[off..off + i + 1] == buf[off..off + i] + [src[i]];
    }
    assert buf[..] == buf[..off] + buf[off..off + |src|] + buf[off + |src|..];
  }

  /**
   * Allocates `8 + |body|` bytes and fills header and body in place, as
   * `IPCClient.write` and every `encode()` do.
   */
  method EncodeFrame(opcode: u32, body: seq<byte>) returns (buf: array<byte>)
    ensures fresh(buf)
    ensures buf[..] == FrameBytes(opcode, body)
  {
    buf := new byte[8 + |body|];
    SetUint32(buf, 0, opcode as nat);
    SetUint32(buf, 4, |body|);
    SetBytes(buf, body, 8);
  }

  /**
   * What `conn.read(buf)` leaves in a fresh `n`-byte Uint8Array when
   * `stream` holds the bytes the peer has sent and not yet been read:
   * the next bytes of the stream, with zeros past its end.
   */
  function Fill(stream: seq<byte>, n: nat): (r: seq<byte>)
    ensures |r| == n
    ensures forall i :: 0 <= i < n ==> r[i] == if i < |stream| then stream[i] else 0
  {
    if n <= |stream| then stream[..n] else stream + seq(n - |stream|, _ => 0)
  }

  /** The unread rest of `stream` after a read of `n` bytes. */
  function Consumed(stream: seq<byte>, n: nat): seq<byte>
  {
    if n <= |stream| then stream[n..] else []
  }

  /** A frame as the readers return it: the opcode is not checked against OpCode. */
  datatype IPCFrame = IPCFrame(opcode: u32, payload: JsVal)

  /** Header opcode and body bytes of the next frame, and the stream left unread. */
  datatype RawFrame = RawFrame(opcode: u32, body: seq<byte>)

  /**
   * The two-stage read of `read`/`readFrame`: an 8-byte header decoded at
   * offsets 0 and 4, then a body of exactly the declared length.
   */
  function ReadRaw(stream: seq<byte>): (RawFrame, seq<byte>)
  {
    var header := Fill(stream, 8);
    var rest := Consumed(stream, 8);
    var length := GetUint32(header, 4);
    (RawFrame(GetUint32(header, 0), Fill(rest, length as nat)), Consumed(rest, length as nat))
  }

  /** The body handed to JSON.parse, or the SyntaxError it throws. */
  function ParseFrame(raw: RawFrame, json: Json): Result<IPCFrame>
  {
    match json.parse(raw.body)
    case None => Err(SyntaxError)
    case Some(payload) => Ok(IPCFrame(raw.opcode, payload))
  }

  /**
   * Every read consumes exactly 8 + the declared length bytes of a stream
   * that holds them, and the body has exactly the declared length.
   */
  lemma {:induction false} ReadRawLength(stream: seq<byte>)
    ensures |ReadRaw(stream).0.body| == GetUint32(Fill(stream, 8), 4) as int
    ensures 8 + GetUint32(Fill(stream, 8), 4) as int <= |stream| ==>
              ReadRaw(stream).0.body == stream[8..8 + GetUint32(stream, 4) as int] &&
              ReadRaw(stream).1 == stream[8 + GetUint32(stream, 4) as int..]
  {
    if 8 <= |stream| {
      assert Fill(stream, 8) == stream[..8];
      assert GetUint32(Fill(stream, 8), 4) == GetUint32(stream, 4);
    }
  }

  /**
   * Write then read: a frame written to the stream is read back with the
   * opcode and body that were written, and the bytes after it stay unread.
   * Unknown opcodes pass through unchanged.
   */
  lemma {:induction false} ReadRawOfFrameBytes(opcode: u32, body: seq<byte>, rest: seq<byte>)
    requires |body| < TWO_32
    ensures ReadRaw(FrameBytes(opcode, body) + rest) == (RawFrame(opcode, body), rest)
  {
    var f := FrameBytes(opcode, body);
    var s := f + rest;
    FrameLayout(opcode, body);
    assert Fill(s, 8) == f[..8];
    assert GetUint32(f[..8], 0) == GetUint32(f, 0);
    assert GetUint32(f[..8], 4) == GetUint32(f, 4);
    assert Consumed(s, 8) == body + rest;
    assert Fill(body + rest, |body|) == body;
    assert Consumed(body + rest, |body|) == rest;
  }

  /**
   * A value written as a frame is read back as that value with the same
   * opcode, whenever JSON.parse undoes JSON.stringify on it.
   */
  lemma {:induction false} ParseOfWrittenFrame(opcode: u32, v: JsVal, json: Json, rest: seq<byte>)
    requires json.parse(json.stringify(v)) == Some(v)
    requires |json.stringify(v)| < TWO_32
    ensures var (raw, unread) := ReadRaw(FrameBytes(opcode, json.stringify(v)) + rest);
            ParseFrame(raw, json) == Ok(IPCFrame(opcode, v)) && unread == rest
  {
    ReadRawOfFrameBytes(opcode, json.stringify(v), rest);
  }
}
