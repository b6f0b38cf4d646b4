/**
 * The desktop application on the far side of the local sockets, as the
 * clients observe it: which endpoint paths accept a connection, the bytes
 * it sends back, and a log of every connect, write and close the clients
 * perform. It stands in for Deno.connect and the Deno.Conn methods.
 */
module Sockets {
  import opened JsValues
  import opened Wire
  import opened Endpoint

  /** One `conn.write(buf)`: the endpoint written to and the bytes. */
  datatype Sent = Sent(conn: string, bytes: seq<byte>)

  class Peer {
    /** The endpoint paths at which a connection is accepted. */
    const listening: set<string>
    /** The bytes sent to the client and not yet read. */
    var inbound: seq<byte>
    /** Every `Deno.connect` call, in order. */
    var attempts: seq<string>
    /** Every `conn.write` call, in order. */
    var written: seq<Sent>
    /** Every `conn.close` call, in order. */
    var closed: seq<string>

    constructor (listening: set<string>, inbound: seq<byte>)
      ensures this.listening == listening && this.inbound == inbound
      ensures attempts == [] && written == [] && closed == []
    {
      this.listening := listening;
      this.inbound := inbound;
      attempts, written, closed := [], [], [];
    }

    /** `Deno.connect({ transport: "unix", path })`: succeeds when something listens at `path`. */
    method Connect(path: string) returns (ok: bool)
      modifies this`attempts
      ensures ok <==> path in listening
      ensures attempts == old(attempts) + [path]
    {
      attempts := attempts + [path];
      ok := path in listening;
    }

    /** `conn.write(buf)` on the connection to `conn`. */
    method Write(conn: string, buf: seq<byte>)
      modifies this`written
      ensures written == old(written) + [Sent(conn, buf)]
    {
      written := written + [Sent(conn, buf)];
    }

    /** `conn.read(buf)` into a fresh `n`-byte buffer; the byte count it returns is not used. */
    method Read(n: nat) returns (buf: seq<byte>)
      modifies this`inbound
      ensures buf == Fill(old(inbound), n)
      ensures inbound == Consumed(old(inbound), n)
    {
      buf := Fill(inbound, n);
      inbound := Consumed(inbound, n);
    }

    /** `conn.close()`. */
    method Close(conn: string)
      modifies this`closed
      ensures closed == old(closed) + [conn]
    {
      closed := closed + [conn];
    }
  }

  /**
   * The connect loop both clients run: each of the ten candidates is
   * tried in ascending order, and every one that accepts replaces the
   * connection held before (the loop does not stop at the first).
   */
  method Scan(peer: Peer, prefix: string) returns (conn: Option<string>)
    modifies peer`attempts
    ensures peer.attempts == old(peer.attempts) + Candidates(prefix)
    ensures conn == ScanFrom(prefix, peer.listening, CANDIDATE_COUNT, None)
  {
    conn := None;
    for i := 0 to CANDIDATE_COUNT
      invariant peer.attempts == old(peer.attempts) + Candidates(prefix)[..i]
      invariant conn == ScanFrom(prefix, peer.listening, i, None)
    {
      var path := prefix + "discord-ipc-" + [('0' as int + i) as char];
      var ok := peer.Connect(path);
      if ok {
        conn := Some(path);
      }
      assert Candidates(prefix)[..i + 1] == Candidates(prefix)[..i] + [path];
    }
    assert Candidates(prefix)[..CANDIDATE_COUNT] == Candidates(prefix);
  }
}
