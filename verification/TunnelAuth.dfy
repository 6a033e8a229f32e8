// The tunnel handshake: common/proto/tunnel.go and its second decoder in dataplane/server.go.
module TunnelAuth {
  import opened Wrappers
  import opened Bytes
  import opened Wire

  const MAX_TOKEN_LEN: nat := 256
  const TUNNEL_MAGIC: seq<byte> := [0x54, 0x55, 0x4E, 0x4C]

  function AuthBytes(token: seq<byte>): seq<byte>
    requires |token| <= MAX_TOKEN_LEN
  {
    TUNNEL_MAGIC + PutUint16(|token|) + token
  }

  /** The token at the head of a stream that ends after b, if there is an acceptable one. */
  function ParseAuth(b: seq<byte>, limit: nat): Option<seq<byte>> {
    if |b| < 6 || b[..4] != TUNNEL_MAGIC then None
    else
      var n := Uint16(b[4..6]);
      if n > limit || |b| < 6 + n then None else Some(b[6..6 + n])
  }

  /** io.Writer's promise for one call: whoever writes less than asked reports an error. */
  predicate Conforming(grants: seq<Grant>, length: nat) {
    grants != [] && grants[0].n < length ==> grants[0].err
  }

  /**
   * One Write of the whole header, without a retry loop: it succeeds exactly when that Write does not
   * fail, and on a conforming connection the whole header is out then.
   */
  method WriteTunnelAuth(conn: Conn, token: seq<byte>) returns (ok: bool, ghost sent: nat)
    modifies conn`wire, conn`grants
    ensures |token| > MAX_TOKEN_LEN ==> !ok && conn.wire == old(conn.wire) && conn.grants == old(conn.grants)
    ensures |token| <= MAX_TOKEN_LEN ==>
              && sent <= 6 + |token| && conn.wire == old(conn.wire) + AuthBytes(token)[..sent]
              && (ok <==> old(conn.grants) == [] || !old(conn.grants)[0].err)
              && (sent == 6 + |token| <==> old(conn.grants) == [] || old(conn.grants)[0].n >= 6 + |token|)
    ensures ok && Conforming(old(conn.grants), 6 + |token|) ==>
              sent == 6 + |token| && conn.wire == old(conn.wire) + AuthBytes(token)
  {
    if |token| > MAX_TOKEN_LEN {
      return false, 0;
    }
    var buf := new byte[6 + |token|](i => 0);
    forall i | 0 <= i < 4 { buf[i] := TUNNEL_MAGIC[i]; }
    assert buf[..4] == TUNNEL_MAGIC;
    PutUint16At(buf, 4, |token|);
    assert buf[..6] == TUNNEL_MAGIC + PutUint16(|token|);
    CopyAt(buf, 6, token);
    assert buf[..] == AuthBytes(token);
    var n, err := conn.Write(buf[..]);
    assert AuthBytes(token)[..6 + |token|] == AuthBytes(token);
    return !err, n;
  }

  /** ReadTunnelAuth rejects tokens above 256 bytes and reads not a byte beyond the token. */
  method ReadTunnelAuth(conn: Conn) returns (r: Option<seq<byte>>)
    modifies conn`input, conn`chunks
    ensures r == ParseAuth(old(conn.input), MAX_TOKEN_LEN)
    ensures r.Some? ==> conn.input == old(conn.input)[6 + |r.value|..]
  {
    ghost var b := conn.input;
    var header, ok := ReadFull(conn, 6);
    if !ok {
      return None;
    }
    assert header[4..6] == b[4..6] && header[..4] == b[..4];
    if header[0] != TUNNEL_MAGIC[0] || header[1] != TUNNEL_MAGIC[1]
       || header[2] != TUNNEL_MAGIC[2] || header[3] != TUNNEL_MAGIC[3] {
      assert header[..4] != TUNNEL_MAGIC;
      return None;
    }
    assert header[..4] == TUNNEL_MAGIC;
    var tokenLen := Uint16(header[4..6]);
    if tokenLen > MAX_TOKEN_LEN {
      return None;
    }
    var token;
    token, ok := ReadFull(conn, tokenLen);
    assert ok ==> token == b[6..6 + tokenLen];
    return if ok then Some(token) else None;
  }

  /** handleTunnelConn reads the same header in two steps and accepts any 16-bit length. */
  method HandleTunnelConn(conn: Conn) returns (r: Option<seq<byte>>)
    modifies conn`input, conn`chunks
    ensures r == ParseAuth(old(conn.input), 0xffff)
    ensures r.Some? ==> conn.input == old(conn.input)[6 + |r.value|..]
  {
    ghost var b := conn.input;
    var header, ok := ReadFull(conn, 4);
    if !ok || header != TUNNEL_MAGIC {
      return None;
    }
    var length;
    length, ok := ReadFull(conn, 2);
    if !ok {
      return None;
    }
    assert length == b[4..6];
    var token;
    token, ok := ReadFull(conn, Uint16(length));
    assert ok ==> token == b[6..6 + Uint16(length)];
    return if ok then Some(token) else None;
  }

  /** The bytes of a handshake: "TUNL", the length big-endian, the token. */
  lemma AuthLayout(token: seq<byte>)
    requires |token| <= 256
    ensures var b := AuthBytes(token);
            && b[0] as char == 'T' && b[1] as char == 'U' && b[2] as char == 'N' && b[3] as char == 'L'
            && b[4] as int * 0x100 + b[5] as int == |token| && b[6..] == token
  {
    assert AuthBytes(token)[6..] == token;
  }

  /** Both decoders read back every token that can be written, whatever follows it. */
  lemma AuthRoundTrip(token: seq<byte>, rest: seq<byte>, limit: nat)
    requires |token| <= MAX_TOKEN_LEN <= limit
    ensures ParseAuth(AuthBytes(token) + rest, limit) == Some(token)
    ensures (AuthBytes(token) + rest)[6 + |token|..] == rest
  {
    var b := AuthBytes(token) + rest;
    assert b[..4] == TUNNEL_MAGIC && b[4..6] == PutUint16(|token|) && b[6..6 + |token|] == token;
  }

  /** Cut anywhere, a handshake is not accepted by either decoder. */
  lemma TruncatedAuthRejected(token: seq<byte>, k: nat, limit: nat)
    requires |token| <= MAX_TOKEN_LEN && k < 6 + |token|
    ensures ParseAuth(AuthBytes(token)[..k], limit) == None
  {
    var b := AuthBytes(token)[..k];
    if k >= 6 {
      assert b[4..6] == PutUint16(|token|);
    }
  }

  /** The decoders differ exactly on complete handshakes whose token exceeds 256 bytes. */
  lemma DecodersDiffer(b: seq<byte>)
    ensures ParseAuth(b, MAX_TOKEN_LEN) != ParseAuth(b, 0xffff)
            <==> exists token :: ParseAuth(b, 0xffff) == Some(token) && |token| > 256
  {
    match ParseAuth(b, 0xffff)
    case None =>
    case Some(token) => assert |token| == Uint16(b[4..6]);
  }
}
