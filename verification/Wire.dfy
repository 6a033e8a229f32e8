// The frame format of common/mux/mux.go: three writers and one reader over a byte stream.
module Wire {
  import opened Bytes
  import opened Wrappers

  const MAGIC: nat := 0xAE01
  const FRAME_HEADER_SIZE: nat := 8
  const MAX_FRAME_SIZE: nat := 65535

  const PKT_DATA: uint16 := 0
  const PKT_OPEN: uint16 := 1
  const PKT_CLOSE: uint16 := 2
  const PKT_WINDOW_UPDATE: uint16 := 3

  type uint16 = n: nat | n < 0x1_0000

  datatype RawFrame = Frame(port: uint16, ptype: uint16, data: seq<byte>)

  /** A frame whose length fits the 16-bit length field. */
  type Frame = f: RawFrame | |f.data| <= MAX_FRAME_SIZE witness Frame(0, 0, [])

  // ---------------------------------------------------------------- the format

  function Header(port: uint16, len: uint16, ptype: uint16): (h: seq<byte>)
    ensures |h| == FRAME_HEADER_SIZE
  {
    PutUint16(MAGIC) + PutUint16(port) + PutUint16(len) + PutUint16(ptype)
  }

  function Encode(f: Frame): (b: seq<byte>)
    ensures |b| == FRAME_HEADER_SIZE + |f.data|
  {
    Header(f.port, |f.data|, f.ptype) + f.data
  }

  function EncodeAll(fs: seq<Frame>): seq<byte> {
    if fs == [] then [] else Encode(fs[0]) + EncodeAll(fs[1..])
  }

  /** The frames a reader obtains from a stream that ends after `b`. */
  function DecodeStream(b: seq<byte>): seq<Frame> {
    if |b| < FRAME_HEADER_SIZE || Uint16(b[0..2]) != MAGIC then []
    else
      var end := FRAME_HEADER_SIZE + Uint16(b[4..6]);
      if |b| < end then []
      else [Frame(Uint16(b[2..4]), Uint16(b[6..8]), b[FRAME_HEADER_SIZE..end])] + DecodeStream(b[end..])
  }

  /** Every byte of a frame: magic 0xAE01, port, length and type, each big-endian, then the data. */
  lemma Layout(f: Frame)
    ensures var b := Encode(f);
            && b[0] == 0xAE && b[1] == 0x01
            && b[2] as int * 0x100 + b[3] as int == f.port
            && b[4] as int * 0x100 + b[5] as int == |f.data|
            && b[6] as int * 0x100 + b[7] as int == f.ptype
            && b[8..] == f.data
  {
    assert Encode(f)[8..] == f.data;
  }

  // ---------------------------------------------------------------- round trip

  lemma {:induction false} DecodeFirst(f: Frame, rest: seq<byte>)
    ensures DecodeStream(Encode(f) + rest) == [f] + DecodeStream(rest)
  {
    var b := Encode(f) + rest;
    assert b[0..2] == PutUint16(MAGIC);
    assert b[2..4] == PutUint16(f.port);
    assert b[4..6] == PutUint16(|f.data|);
    assert b[6..8] == PutUint16(f.ptype);
    var end := FRAME_HEADER_SIZE + |f.data|;
    assert b[FRAME_HEADER_SIZE..end] == f.data;
    assert b[end..] == rest;
  }

  lemma {:induction false} EncodeAllAppend(fs: seq<Frame>, gs: seq<Frame>)
    ensures EncodeAll(fs + gs) == EncodeAll(fs) + EncodeAll(gs)
  {
    if fs == [] {
      assert fs + gs == gs;
    } else {
      EncodeAllAppend(fs[1..], gs);
      assert (fs + gs)[1..] == fs[1..] + gs;
      Assoc(Encode(fs[0]), EncodeAll(fs[1..]), EncodeAll(gs));
    }
  }

  /** Whatever follows them, written frames come out first, in order and unchanged. */
  lemma {:induction false} RoundTrip(fs: seq<Frame>, tail: seq<byte>)
    ensures DecodeStream(EncodeAll(fs) + tail) == fs + DecodeStream(tail)
  {
    if fs == [] {
      assert EncodeAll(fs) + tail == tail;
    } else {
      var rest := EncodeAll(fs[1..]) + tail;
      RoundTrip(fs[1..], tail);
      DecodeFirst(fs[0], rest);
      Assoc(Encode(fs[0]), EncodeAll(fs[1..]), tail);
      FirstApart(fs, DecodeStream(tail));
    }
  }

  lemma FirstApart<T>(q: seq<T>, more: seq<T>)
    requires q != []
    ensures q + more == [q[0]] + (q[1..] + more)
  {}

  /** How many leading frames fit completely in the first k bytes. */
  function CompleteFrames(fs: seq<Frame>, k: nat): (n: nat)
    ensures n <= |fs|
  {
    if fs == [] || k < |Encode(fs[0])| then 0
    else 1 + CompleteFrames(fs[1..], k - |Encode(fs[0])|)
  }

  /** A stream cut after any byte decodes to the frames that were complete, nothing else. */
  lemma {:induction false} CutStream(fs: seq<Frame>, k: nat)
    requires k <= |EncodeAll(fs)|
    ensures DecodeStream(EncodeAll(fs)[..k]) == fs[..CompleteFrames(fs, k)]
    ensures DecodeStream(EncodeAll(fs)[..k]) <= fs
  {
    if fs != [] {
      var first := Encode(fs[0]);
      var cut := EncodeAll(fs)[..k];
      if k < |first| {
        if k >= FRAME_HEADER_SIZE {
          assert cut[4..6] == first[4..6] == PutUint16(|fs[0].data|);
        }
      } else {
        CutStream(fs[1..], k - |first|);
        assert cut == first + EncodeAll(fs[1..])[..k - |first|];
        DecodeFirst(fs[0], EncodeAll(fs[1..])[..k - |first|]);
      }
    }
  }

  /** The decoder invents nothing: re-encoding its output gives back a prefix of its input. */
  lemma {:induction false} DecodeSound(b: seq<byte>)
    ensures EncodeAll(DecodeStream(b)) <= b
    decreases |b|
  {
    var fs := DecodeStream(b);
    if fs != [] {
      var end := FRAME_HEADER_SIZE + Uint16(b[4..6]);
      DecodeSound(b[end..]);
      Uint16Onto(b[0..2]); Uint16Onto(b[2..4]); Uint16Onto(b[4..6]); Uint16Onto(b[6..8]);
      assert b[..end] == b[0..2] + b[2..4] + b[4..6] + b[6..8] + b[FRAME_HEADER_SIZE..end];
      assert Encode(fs[0]) == b[..end];
      assert b == b[..end] + b[end..];
      assert fs[1..] == DecodeStream(b[end..]);
    }
  }

  // ---------------------------------------------------------------- the connection

  /** What one Write call of the connection does: how many bytes it takes, and whether it fails. */
  datatype Grant = Grant(n: nat, err: bool)

  class Conn {
    var wire: seq<byte>       // bytes accepted from the local writer
    var grants: seq<Grant>    // behaviour of the coming Write calls; complete writes afterwards
    var input: seq<byte>      // bytes the peer sent before closing
    var chunks: seq<nat>      // sizes of the coming Read calls; whole requests afterwards

    constructor (grants: seq<Grant>, input: seq<byte>, chunks: seq<nat>)
      ensures wire == [] && this.grants == grants && this.input == input && this.chunks == chunks
    {
      wire, this.grants, this.input, this.chunks := [], grants, input, chunks;
    }

    method Write(b: seq<byte>) returns (n: nat, err: bool)
      modifies this`wire, this`grants
      ensures n <= |b| && wire == old(wire) + b[..n]
      ensures old(grants) == [] ==> n == |b| && !err && grants == []
      ensures old(grants) != [] ==>
                && n == Min(old(grants)[0].n, |b|) && err == old(grants)[0].err && grants == old(grants)[1..]
    {
      if grants == [] {
        n, err := |b|, false;
      } else {
        n, err := if grants[0].n < |b| then grants[0].n else |b|, grants[0].err;
        grants := grants[1..];
      }
      wire := wire + b[..n];
    }

    method Read(max: nat) returns (b: seq<byte>, eof: bool)
      modifies this`input, this`chunks
      ensures eof <==> old(input) == [] && max > 0
      ensures |b| <= max && old(input) == b + input
      ensures old(chunks) == [] ==> chunks == [] && (b == [] ==> eof || max == 0)
      ensures old(chunks) != [] ==> chunks == old(chunks)[1..]
    {
      eof := input == [] && max > 0;
      var n := if max < |input| then max else |input|;
      if chunks != [] {
        n := if chunks[0] < n then chunks[0] else n;
        chunks := chunks[1..];
      }
      b, input := input[..n], input[n..];
    }
  }

  ghost predicate NoErrors(grants: seq<Grant>) {
    forall g :: g in grants ==> !g.err
  }

  /** The Write calls made used up grants from the front, and ok tells whether none of them failed. */
  ghost predicate Took(before: seq<Grant>, after: seq<Grant>, ok: bool) {
    && |after| <= |before| && after == before[|before| - |after|..]
    && (ok <==> NoErrors(before[..|before| - |after|]))
  }

  /** Success says that none of the Write calls made failed, failure that one did. */
  lemma TookMeans(before: seq<Grant>, after: seq<Grant>, ok: bool)
    requires Took(before, after, ok)
    ensures exists used: nat :: used <= |before| && after == before[used..]
                                && (ok <==> forall i :: 0 <= i < used ==> !before[i].err)
  {
    var used := |before| - |after|;
    assert after == before[used..];
    assert forall i :: 0 <= i < used ==> before[i] == before[..used][i];
    if !ok {
      var g :| g in before[..used] && g.err;
      var i :| 0 <= i < used && before[..used][i] == g;
    }
  }

  lemma TookFine(before: seq<Grant>, after: seq<Grant>, ok: bool)
    requires Took(before, after, ok) && NoErrors(before)
    ensures ok && NoErrors(after)
  {}

  lemma TookMore(a: seq<Grant>, b: seq<Grant>, c: seq<Grant>, ok: bool)
    requires Took(a, b, true) && Took(b, c, ok)
    ensures Took(a, c, ok)
  {
    var i, j := |a| - |b|, |a| - |c|;
    assert a[..j] == a[..i] + b[..j - i];
  }

  // ---------------------------------------------------------------- writers

  method PutUint16At(buf: array<byte>, at: nat, v: uint16)
    requires at + 2 <= buf.Length
    modifies buf
    ensures buf[..] == old(buf[..at]) + PutUint16(v) + old(buf[at + 2..])
  {
    buf[at] := (v / 256) as byte;
    buf[at + 1] := (v % 256) as byte;
  }

  /** The four PutUint16 calls at the head of every writer. */
  method FillHeader(buf: array<byte>, port: uint16, len: uint16, ptype: uint16)
    requires buf.Length >= FRAME_HEADER_SIZE
    modifies buf
    ensures buf[..FRAME_HEADER_SIZE] == Header(port, len, ptype)
  {
    PutUint16At(buf, 0, MAGIC);
    assert buf[..2] == PutUint16(MAGIC);
    PutUint16At(buf, 2, port);
    assert buf[..4] == PutUint16(MAGIC) + PutUint16(port);
    PutUint16At(buf, 4, len);
    assert buf[..6] == PutUint16(MAGIC) + PutUint16(port) + PutUint16(len);
    PutUint16At(buf, 6, ptype);
  }

  method CopyAt(buf: array<byte>, at: nat, data: seq<byte>)
    requires at + |data| == buf.Length
    modifies buf
    ensures buf[..at] == old(buf[..at]) && buf[at..] == data
  {
    for i := 0 to |data|
      invariant buf[..at] == old(buf[..at])
      invariant buf[at..at + i] == data[..i]
    {
      buf[at + i] := data[i];
    }
  }

  /**
   * The retry loop of all three writers: it succeeds exactly when no Write fails, however short the
   * writes are; on failure some prefix of the buffer is on the wire.
   */
  method WriteAll(conn: Conn, buf: array<byte>) returns (ok: bool, ghost sent: nat)
    modifies conn`wire, conn`grants
    ensures sent <= buf.Length && conn.wire == old(conn.wire) + buf[..sent]
    ensures ok ==> sent == buf.Length
    ensures Took(old(conn.grants), conn.grants, ok)
  {
    var written := 0;
    while written < buf.Length
      invariant written <= buf.Length
      invariant conn.wire == old(conn.wire) + buf[..written]
      invariant Took(old(conn.grants), conn.grants, true)
      decreases |conn.grants|, buf.Length - written
    {
      ghost var grants := conn.grants;
      var n, err := conn.Write(buf[written..]);
      assert buf[..written] + buf[written..][..n] == buf[..written + n];
      written := written + n;
      TookMore(old(conn.grants), grants, conn.grants, !err);
      if err {
        return false, written;
      }
    }
    return true, written;
  }

  method WriteFrame(conn: Conn, port: uint16, data: seq<byte>, ctrl: bool) returns (ok: bool, ghost sent: nat)
    modifies conn`wire, conn`grants
    ensures |data| > MAX_FRAME_SIZE ==> !ok && conn.wire == old(conn.wire) && sent == 0
    ensures |data| <= MAX_FRAME_SIZE ==>
              PartWritten(old(conn.wire), conn.wire, Frame(port, if ctrl then PKT_OPEN else PKT_DATA, data), ok, sent)
    ensures |data| <= MAX_FRAME_SIZE ==> Took(old(conn.grants), conn.grants, ok)
    ensures |data| > MAX_FRAME_SIZE ==> conn.grants == old(conn.grants)
    ensures NoErrors(old(conn.grants)) ==> (ok <==> |data| <= 65535)
  {
    if |data| > MAX_FRAME_SIZE {
      return false, 0;
    }
    var ptype := if ctrl then PKT_OPEN else PKT_DATA;
    var buf := new byte[FRAME_HEADER_SIZE + |data|];
    FillHeader(buf, port, |data|, ptype);
    CopyAt(buf, FRAME_HEADER_SIZE, data);
    assert buf[..] == Encode(Frame(port, ptype, data));
    ok, sent := WriteAll(conn, buf);
  }

  method WriteCtrl(conn: Conn, port: uint16, ptype: uint16) returns (ok: bool, ghost sent: nat)
    modifies conn`wire, conn`grants
    ensures PartWritten(old(conn.wire), conn.wire, Frame(port, ptype, []), ok, sent)
    ensures Took(old(conn.grants), conn.grants, ok)
  {
    var frame := new byte[FRAME_HEADER_SIZE];
    FillHeader(frame, port, 0, ptype);
    assert frame[..] == Encode(Frame(port, ptype, []));
    ok, sent := WriteAll(conn, frame);
  }

  method WriteWindowUpdate(conn: Conn, port: uint16, data: seq<byte>) returns (ok: bool, ghost sent: nat)
    requires |data| == 4
    modifies conn`wire, conn`grants
    ensures PartWritten(old(conn.wire), conn.wire, Frame(port, PKT_WINDOW_UPDATE, data), ok, sent)
    ensures Took(old(conn.grants), conn.grants, ok)
  {
    var buf := new byte[FRAME_HEADER_SIZE + 4];
    FillHeader(buf, port, 4, PKT_WINDOW_UPDATE);
    CopyAt(buf, FRAME_HEADER_SIZE, data);
    assert buf[..] == Encode(Frame(port, PKT_WINDOW_UPDATE, data));
    ok, sent := WriteAll(conn, buf);
  }

  /** `sent` bytes of f were added to the wire, all of them when the write succeeded. */
  ghost predicate PartWritten(before: seq<byte>, after: seq<byte>, f: Frame, ok: bool, sent: int) {
    && 0 <= sent <= |Encode(f)|
    && after == before + Encode(f)[..sent]
    && (ok ==> sent == |Encode(f)|)
  }

  // ---------------------------------------------------------------- reader

  /** io.ReadFull: all n bytes, however the stream is chunked, or an error at its end. */
  method ReadFull(conn: Conn, n: nat) returns (b: seq<byte>, ok: bool)
    modifies conn`input, conn`chunks
    ensures ok <==> n <= |old(conn.input)|
    ensures ok ==> b == old(conn.input)[..n] && conn.input == old(conn.input)[n..]
    ensures !ok ==> conn.input == []
  {
    b := [];
    while |b| < n
      invariant |b| <= n && old(conn.input) == b + conn.input
      decreases |conn.chunks|, n - |b|
    {
      var piece, eof := conn.Read(n - |b|);
      assert old(conn.input) == b + piece + conn.input;
      if eof {
        return b, false;
      }
      b := b + piece;
    }
    return b, true;
  }

  lemma DecodeStops(b: seq<byte>, header: seq<byte>)
    requires FRAME_HEADER_SIZE <= |b| && header == b[..FRAME_HEADER_SIZE]
    ensures Uint16(header[0..2]) != MAGIC || |b| < FRAME_HEADER_SIZE + Uint16(header[4..6]) ==> DecodeStream(b) == []
  {
    assert header[0..2] == b[0..2] && header[4..6] == b[4..6];
  }

  lemma DecodeStep(b: seq<byte>, header: seq<byte>, data: seq<byte>, rest: seq<byte>)
    requires |header| == FRAME_HEADER_SIZE && b == header + (data + rest)
    requires Uint16(header[0..2]) == MAGIC && Uint16(header[4..6]) == |data|
    ensures DecodeStream(b) == [Frame(Uint16(header[2..4]), Uint16(header[6..8]), data)] + DecodeStream(rest)
  {
    assert header[0..2] == b[0..2] && header[2..4] == b[2..4] && header[4..6] == b[4..6] && header[6..8] == b[6..8];
    assert b[FRAME_HEADER_SIZE..FRAME_HEADER_SIZE + |data|] == data;
    assert b[FRAME_HEADER_SIZE + |data|..] == rest;
  }

  /** readLoop: the frames handed to workChan until the stream ends or goes wrong. */
  method ReadLoop(conn: Conn) returns (frames: seq<Frame>)
    modifies conn`input, conn`chunks
    ensures frames == DecodeStream(old(conn.input))
  {
    frames := [];
    while true
      invariant frames + DecodeStream(conn.input) == DecodeStream(old(conn.input))
      decreases |conn.input|
    {
      ghost var b := conn.input;
      var header, ok := ReadFull(conn, FRAME_HEADER_SIZE);
      if !ok {
        return;
      }
      DecodeStops(b, header);
      if Uint16(header[0..2]) != MAGIC {
        return;
      }
      var port, dataLen, ptype := Uint16(header[2..4]), Uint16(header[4..6]), Uint16(header[6..8]);
      var data := [];
      if dataLen > 0 {
        data, ok := ReadFull(conn, dataLen);
        if !ok {
          return;
        }
      }
      DecodeStep(b, header, data, conn.input);
      Assoc(frames, [Frame(port, ptype, data)], DecodeStream(conn.input));
      frames := frames + [Frame(port, ptype, data)];
    }
  }

  // ---------------------------------------------------------------- whole sessions

  /** One call made under writeLock. */
  datatype WriteCall =
    | DataCall(port: uint16, data: seq<byte>, ctrl: bool)
    | CtrlCall(port: uint16, ptype: uint16)
    | WindowCall(port: uint16, credit: uint32)

  type uint32 = n: nat | n < 0x1_0000_0000

  /** writeFrame refuses longer data without writing a byte. */
  predicate Oversized(c: WriteCall) { c.DataCall? && |c.data| > MAX_FRAME_SIZE }

  /** Length of the call's frame. */
  function Size(c: WriteCall): nat {
    match c
    case DataCall(_, data, _) => FRAME_HEADER_SIZE + |data|
    case CtrlCall(_, _) => FRAME_HEADER_SIZE
    case WindowCall(_, _) => FRAME_HEADER_SIZE + 4
  }

  function FrameOf(c: WriteCall): (f: Frame)
    requires !Oversized(c)
    ensures FRAME_HEADER_SIZE + |f.data| == Size(c)
  {
    match c
    case DataCall(port, data, ctrl) => Frame(port, if ctrl then PKT_OPEN else PKT_DATA, data)
    case CtrlCall(port, ptype) => Frame(port, ptype, [])
    case WindowCall(port, credit) => Frame(port, PKT_WINDOW_UPDATE, PutUint32(credit))
  }

  /** The type bytes on the wire: 0 for data, 1 to open, 3 for a window update with its credit big-endian. */
  lemma CallLayout(c: WriteCall)
    requires !Oversized(c)
    ensures var b := Encode(FrameOf(c));
            match c
            case DataCall(port, data, ctrl) =>
              b[6] == 0 && b[7] == (if ctrl then 1 else 0) && b[8..] == data && FrameOf(c).port == port
            case CtrlCall(port, ptype) =>
              b[6] as int * 0x100 + b[7] as int == ptype && |b| == 8 && FrameOf(c).port == port
            case WindowCall(port, credit) =>
              && b[6] == 0 && b[7] == 3 && |b| == 12 && FrameOf(c).port == port
              && b[8] as int * 0x100_0000 + b[9] as int * 0x1_0000 + b[10] as int * 0x100 + b[11] as int == credit
  {
    Layout(FrameOf(c));
    if c.WindowCall? {
      BigEndian(c.credit);
      assert forall i :: 0 <= i < 4 ==> Encode(FrameOf(c))[8 + i] == PutUint32(c.credit)[i];
    }
  }

  /** A call that was made, whether it succeeded, and how many bytes of its frame it put on the wire. */
  datatype Attempt = Attempt(call: WriteCall, ok: bool, sent: nat)

  predicate ValidAttempt(a: Attempt) {
    if Oversized(a.call) then !a.ok && a.sent == 0
    else a.sent <= Size(a.call) && (a.ok ==> a.sent == Size(a.call))
  }

  function BytesOf(a: Attempt): seq<byte>
    requires ValidAttempt(a)
  {
    if Oversized(a.call) then [] else Encode(FrameOf(a.call))[..a.sent]
  }

  predicate Whole(a: Attempt) {
    !Oversized(a.call) && a.sent == Size(a.call)
  }

  /** Some but not all bytes of the frame are on the wire. */
  predicate Torn(a: Attempt) {
    !Oversized(a.call) && 0 < a.sent < Size(a.call)
  }

  /** The frames that went out completely, those of failed calls included. */
  function WholeFrames(attempts: seq<Attempt>): seq<Frame> {
    if attempts == [] then []
    else
      var last := attempts[|attempts| - 1];
      WholeFrames(attempts[..|attempts| - 1]) + if Whole(last) then [FrameOf(last.call)] else []
  }

  function WireOf(attempts: seq<Attempt>): seq<byte>
    requires AllValid(attempts)
  {
    if attempts == [] then []
    else WireOf(attempts[..|attempts| - 1]) + BytesOf(attempts[|attempts| - 1])
  }

  /** After this outcome writing goes on: a failed window update is only reported to its caller. */
  predicate GoesOn(a: Attempt) { a.ok || a.call.WindowCall? }

  /** A window update that waits for writeLock. */
  type Update = c: WriteCall | c.WindowCall? witness WindowCall(0, 0)

  /** The calls were attempted one after another. */
  ghost predicate Attempted(calls: seq<WriteCall>, attempts: seq<Attempt>) {
    && |attempts| == |calls|
    && forall i :: 0 <= i < |calls| ==> attempts[i].call == calls[i] && ValidAttempt(attempts[i])
  }

  /**
   * All calls were attempted, or those up to the first failed data or control frame. That one ends
   * writeLoop, but it gives writeLock back before it closes the multiplexer: the window updates that
   * pass the lock in between are still written.
   */
  ghost predicate IsSession(calls: seq<WriteCall>, late: seq<Update>, attempts: seq<Attempt>, done: nat) {
    && done <= |calls| && done <= |attempts| && AllGoOn(attempts, done - 1)
    && if done == 0 || GoesOn(attempts[done - 1]) then done == |calls| && Attempted(calls, attempts)
       else Attempted(calls[..done] + late, attempts)
  }

  /** Every call succeeded, unless its data was too long. */
  ghost predicate Unfailing(attempts: seq<Attempt>) {
    forall a :: a in attempts ==> a.ok == !Oversized(a.call)
  }

  function FramesOf(calls: seq<WriteCall>): (fs: seq<Frame>)
    requires forall c :: c in calls ==> !Oversized(c)
    ensures |fs| == |calls| && forall i :: 0 <= i < |calls| ==> fs[i] == FrameOf(calls[i])
  {
    seq(|calls|, i requires 0 <= i < |calls| => FrameOf(calls[i]))
  }

  method DoWrite(conn: Conn, c: WriteCall) returns (ok: bool, ghost sent: nat)
    modifies conn`wire, conn`grants
    ensures ValidAttempt(Attempt(c, ok, sent)) && conn.wire == old(conn.wire) + BytesOf(Attempt(c, ok, sent))
    ensures if Oversized(c) then conn.grants == old(conn.grants) else Took(old(conn.grants), conn.grants, ok)
  {
    match c
    case DataCall(port, data, ctrl) => ok, sent := WriteFrame(conn, port, data, ctrl);
    case CtrlCall(port, ptype) => ok, sent := WriteCtrl(conn, port, ptype);
    case WindowCall(port, credit) => ok, sent := WriteWindowUpdate(conn, port, PutUint32(credit));
  }

  /**
   * The calls in the order writeLock admits them, and the window updates waiting for it when a data or
   * control frame fails. A failed window update closes nothing, and writing goes on behind it. While
   * no Write fails, every call succeeds, however short the writes are.
   */
  method WriteSession(conn: Conn, calls: seq<WriteCall>, late: seq<Update>)
    returns (done: nat, ghost attempts: seq<Attempt>)
    requires conn.wire == []
    modifies conn`wire, conn`grants
    ensures IsSession(calls, late, attempts, done) && AllValid(attempts) && conn.wire == WireOf(attempts)
    ensures NoErrors(old(conn.grants)) ==> Unfailing(attempts)
    ensures NoErrors(old(conn.grants)) && (forall c :: c in calls ==> !Oversized(c)) ==>
              done == |calls| && DecodeStream(conn.wire) == FramesOf(calls)
    ensures (forall i :: 0 <= i < |attempts| - 1 ==> !Torn(attempts[i])) ==>
              DecodeStream(conn.wire) == WholeFrames(attempts)
  {
    var failed;
    done, failed, attempts := WriteUntilFailed(conn, calls);
    if failed {
      attempts := WriteLate(conn, calls[..done], attempts, late);
    } else {
      assert calls[..done] == calls;
    }
    SessionDecodes(calls, late, attempts, done);
  }

  /** What goes on until all is written or writeLoop ends. */
  method WriteUntilFailed(conn: Conn, calls: seq<WriteCall>)
    returns (done: nat, failed: bool, ghost attempts: seq<Attempt>)
    requires conn.wire == []
    modifies conn`wire, conn`grants
    ensures done == |attempts| <= |calls| && Written(conn, calls[..done], attempts) && AllGoOn(attempts, done - 1)
    ensures if failed then done > 0 && !GoesOn(attempts[done - 1])
            else done == |calls| && (done == 0 || GoesOn(attempts[done - 1]))
    ensures NoErrors(old(conn.grants)) ==> NoErrors(conn.grants) && Unfailing(attempts)
  {
    done, failed, attempts := 0, false, [];
    while done < |calls| && !failed
      invariant done == |attempts| <= |calls| && Written(conn, calls[..done], attempts)
      invariant AllGoOn(attempts, if failed then done - 1 else done)
      invariant failed ==> done > 0 && !GoesOn(attempts[done - 1])
      invariant NoErrors(old(conn.grants)) ==> NoErrors(conn.grants) && Unfailing(attempts)
    {
      var ok, sent := Made(conn, calls[..done], attempts, calls[done]);
      assert calls[..done] + [calls[done]] == calls[..done + 1];
      attempts := attempts + [Attempt(calls[done], ok, sent)];
      failed, done := !ok && !calls[done].WindowCall?, done + 1;
    }
  }

  ghost predicate AllGoOn(attempts: seq<Attempt>, n: int)
    requires n <= |attempts|
  {
    forall i :: 0 <= i < n ==> GoesOn(attempts[i])
  }

  /** The window updates behind a failed frame of writeLoop. */
  method WriteLate(conn: Conn, ghost calls: seq<WriteCall>, ghost before: seq<Attempt>, late: seq<Update>)
    returns (ghost attempts: seq<Attempt>)
    requires Written(conn, calls, before)
    modifies conn`wire, conn`grants
    ensures before <= attempts && Written(conn, calls + late, attempts)
    ensures NoErrors(old(conn.grants)) && Unfailing(before) ==> Unfailing(attempts)
  {
    attempts := before;
    ghost var all := calls;
    for k := 0 to |late|
      invariant all == calls + late[..k]
      invariant before <= attempts && Written(conn, all, attempts)
      invariant NoErrors(old(conn.grants)) && Unfailing(before) ==> NoErrors(conn.grants) && Unfailing(attempts)
    {
      var ok, sent := Made(conn, all, attempts, late[k]);
      all, attempts := Grown(calls, late, k), attempts + [Attempt(late[k], ok, sent)];
    }
    assert late[..|late|] == late;
  }

  function Grown(calls: seq<WriteCall>, late: seq<Update>, k: nat): (all: seq<WriteCall>)
    requires k < |late|
    ensures all == calls + late[..k] + [late[k]]
  {
    assert late[..k + 1] == late[..k] + [late[k]];
    calls + late[..k + 1]
  }

  ghost predicate Written(conn: Conn, calls: seq<WriteCall>, attempts: seq<Attempt>)
    reads conn
  {
    Attempted(calls, attempts) && AllValid(attempts) && conn.wire == WireOf(attempts)
  }

  /** One more call on top of those already made. */
  method Made(conn: Conn, ghost calls: seq<WriteCall>, ghost attempts: seq<Attempt>, c: WriteCall)
    returns (ok: bool, ghost sent: nat)
    requires Written(conn, calls, attempts)
    modifies conn`wire, conn`grants
    ensures Written(conn, calls + [c], attempts + [Attempt(c, ok, sent)])
    ensures NoErrors(old(conn.grants)) ==> NoErrors(conn.grants)
    ensures NoErrors(old(conn.grants)) && Unfailing(attempts) ==> Unfailing(attempts + [Attempt(c, ok, sent)])
  {
    ok, sent := DoWrite(conn, c);
    if NoErrors(old(conn.grants)) && !Oversized(c) { TookFine(old(conn.grants), conn.grants, ok); }
    WirePush(attempts, Attempt(c, ok, sent));
    AttemptedPush(calls, attempts, Attempt(c, ok, sent));
  }

  lemma AttemptedPush(calls: seq<WriteCall>, attempts: seq<Attempt>, a: Attempt)
    requires Attempted(calls, attempts) && ValidAttempt(a)
    ensures Attempted(calls + [a.call], attempts + [a])
    ensures Unfailing(attempts) && a.ok == !Oversized(a.call) ==> Unfailing(attempts + [a])
  {
    assert forall x :: x in attempts + [a] <==> x in attempts || x == a;
  }

  ghost predicate AllValid(attempts: seq<Attempt>) {
    forall a :: a in attempts ==> ValidAttempt(a)
  }

  lemma WirePush(attempts: seq<Attempt>, a: Attempt)
    requires AllValid(attempts) && ValidAttempt(a)
    ensures AllValid(attempts + [a]) && WireOf(attempts + [a]) == WireOf(attempts) + BytesOf(a)
  {
    assert (attempts + [a])[..|attempts|] == attempts;
  }

  lemma UnfailingDecodes(calls: seq<WriteCall>, late: seq<Update>, attempts: seq<Attempt>, done: nat)
    requires IsSession(calls, late, attempts, done) && Unfailing(attempts) && forall c :: c in calls ==> !Oversized(c)
    ensures done == |calls| == |attempts|
    ensures AllValid(attempts) && DecodeStream(WireOf(attempts)) == FramesOf(calls)
  {
    forall i | 0 <= i < done ensures attempts[i].ok {
      assert attempts[i] in attempts && attempts[i].call == calls[i] && calls[i] in calls;
    }
    AllWhole(calls, attempts);
    LastMayTear(attempts);
  }

  lemma SessionDecodes(calls: seq<WriteCall>, late: seq<Update>, attempts: seq<Attempt>, done: nat)
    requires IsSession(calls, late, attempts, done) && AllValid(attempts)
    ensures Unfailing(attempts) && (forall c :: c in calls ==> !Oversized(c)) ==>
              done == |calls| && DecodeStream(WireOf(attempts)) == FramesOf(calls)
    ensures (forall i :: 0 <= i < |attempts| - 1 ==> !Torn(attempts[i])) ==>
              DecodeStream(WireOf(attempts)) == WholeFrames(attempts)
  {
    if Unfailing(attempts) && forall c :: c in calls ==> !Oversized(c) {
      UnfailingDecodes(calls, late, attempts, done);
    }
    LastMayTear(attempts);
  }

  lemma {:induction false} AllWhole(calls: seq<WriteCall>, attempts: seq<Attempt>)
    requires |attempts| == |calls| && forall c :: c in calls ==> !Oversized(c)
    requires forall i :: 0 <= i < |attempts| ==> attempts[i].call == calls[i] && Whole(attempts[i])
    ensures WholeFrames(attempts) == FramesOf(calls)
  {
    if calls != [] {
      var n := |calls| - 1;
      AllWhole(calls[..n], attempts[..n]);
      assert FramesOf(calls) == FramesOf(calls[..n]) + [FrameOf(calls[n])];
    }
  }

  lemma PartialTail(fs: seq<Frame>, f: Frame, sent: nat)
    requires sent <= |Encode(f)|
    ensures DecodeStream(EncodeAll(fs) + Encode(f)[..sent]) == if sent == |Encode(f)| then fs + [f] else fs
  {
    RoundTrip(fs, Encode(f)[..sent]);
    assert EncodeAll([f]) == Encode(f);
    CutStream([f], sent);
  }

  /** Bytes of torn frames on the wire, beside those of the whole ones. */
  lemma {:induction false} WireLength(attempts: seq<Attempt>)
    requires AllValid(attempts)
    ensures |WireOf(attempts)| >= |EncodeAll(WholeFrames(attempts))|
    ensures |WireOf(attempts)| == |EncodeAll(WholeFrames(attempts))| <==> forall a :: a in attempts ==> !Torn(a)
    ensures (forall a :: a in attempts ==> !Torn(a)) ==> WireOf(attempts) == EncodeAll(WholeFrames(attempts))
  {
    if attempts != [] {
      var shorter, last := attempts[..|attempts| - 1], attempts[|attempts| - 1];
      assert attempts == shorter + [last] && last in attempts;
      WireLength(shorter);
      if Whole(last) {
        EncodeAllAppend(WholeFrames(shorter), [FrameOf(last.call)]);
        assert EncodeAll([FrameOf(last.call)]) == Encode(FrameOf(last.call)) == BytesOf(last);
      } else {
        assert WholeFrames(attempts) == WholeFrames(shorter);
        assert |BytesOf(last)| == last.sent;
      }
      assert forall a :: a in attempts <==> a in shorter || a == last;
    }
  }

  /** Only the last attempt may have torn its frame: then the peer decodes exactly the whole frames. */
  lemma LastMayTear(attempts: seq<Attempt>)
    requires AllValid(attempts)
    ensures (forall i :: 0 <= i < |attempts| - 1 ==> !Torn(attempts[i])) ==>
              DecodeStream(WireOf(attempts)) == WholeFrames(attempts)
  {
    if attempts != [] && forall i :: 0 <= i < |attempts| - 1 ==> !Torn(attempts[i]) {
      var shorter, last := attempts[..|attempts| - 1], attempts[|attempts| - 1];
      assert last in attempts;
      WireLength(shorter);
      LastDecodes(WholeFrames(shorter), last);
    }
  }

  lemma LastDecodes(fs: seq<Frame>, last: Attempt)
    requires ValidAttempt(last)
    ensures DecodeStream(EncodeAll(fs) + BytesOf(last)) == fs + if Whole(last) then [FrameOf(last.call)] else []
  {
    if Oversized(last.call) {
      RoundTrip(fs, []);
    } else {
      PartialTail(fs, FrameOf(last.call), last.sent);
    }
  }

  /** Whatever is written next reaches the peer: it stands at the beginning of a frame. */
  ghost predicate InStep(wire: seq<byte>, fs: seq<Frame>) {
    forall gs: seq<Frame> :: DecodeStream(wire + EncodeAll(gs)) == fs + gs
  }

  /** Behind any left-over bytes some next frame is not decoded as it was written. */
  lemma OutOfStep(r: seq<byte>) returns (g: Frame)
    requires r != []
    ensures DecodeStream(r + Encode(g)) != [g]
  {
    if |r| == 1 {
      g := Frame(0, 0, []);
      var b := r + Encode(g);
      assert b[1] == Encode(g)[0] == PutUint16(MAGIC)[0] == 0xAE;
      assert Uint16(b[0..2]) != MAGIC;
    } else {
      var seen := Uint16((r + PutUint16(MAGIC))[2..4]);
      g := Frame((seen + 1) % 0x1_0000, 0, []);
      var b := r + Encode(g);
      assert Encode(g)[..2] == PutUint16(MAGIC);
      assert b[2..4] == (r + PutUint16(MAGIC))[2..4];
      FirstPort(b);
    }
  }

  lemma FirstPort(b: seq<byte>)
    ensures DecodeStream(b) != [] ==> |b| >= FRAME_HEADER_SIZE && DecodeStream(b)[0].port == Uint16(b[2..4])
  {}

  /** The peer stays in step with the writers exactly as long as no frame has been torn. */
  lemma InStepIff(attempts: seq<Attempt>)
    requires AllValid(attempts)
    ensures InStep(WireOf(attempts), WholeFrames(attempts)) <==> forall a :: a in attempts ==> !Torn(a)
  {
    var wire, fs := WireOf(attempts), WholeFrames(attempts);
    WireLength(attempts);
    if forall a :: a in attempts ==> !Torn(a) {
      forall gs: seq<Frame> ensures DecodeStream(wire + EncodeAll(gs)) == fs + gs {
        EncodeAllAppend(fs, gs);
        RoundTrip(fs + gs, []);
        assert EncodeAll(fs + gs) + [] == wire + EncodeAll(gs);
      }
    } else if InStep(wire, fs) {
      TornNotInStep(wire, fs);
    }
  }

  /**
   * In a session each write finds the peer in step exactly when no frame before it was torn. Torn are
   * window updates that writers of any kind go on behind, and the one data or control frame that ends
   * writeLoop: only window updates are written behind it.
   */
  lemma SessionInStepIff(calls: seq<WriteCall>, late: seq<Update>, attempts: seq<Attempt>, done: nat, k: nat)
    requires IsSession(calls, late, attempts, done) && k < |attempts|
    ensures AllValid(attempts[..k])
    ensures InStep(WireOf(attempts[..k]), WholeFrames(attempts[..k])) <==>
              forall i :: 0 <= i < k ==> !Torn(attempts[i])
    ensures forall i :: 0 <= i < k && Torn(attempts[i]) && !attempts[i].call.WindowCall? ==>
              i == done - 1 && forall j :: i < j < |attempts| ==> attempts[j].call.WindowCall?
  {
    var before := attempts[..k];
    forall a | a in before ensures ValidAttempt(a) {
      var i :| 0 <= i < k && before[i] == a;
    }
    assert (forall a :: a in before ==> !Torn(a)) <==> (forall i :: 0 <= i < k ==> !Torn(before[i]));
    InStepIff(before);
    forall i | 0 <= i < k && Torn(attempts[i]) && !attempts[i].call.WindowCall?
      ensures i == done - 1 && forall j :: i < j < |attempts| ==> attempts[j].call.WindowCall?
    {
      OnlyUpdatesBehind(calls, late, attempts, done, i);
    }
  }

  lemma OnlyUpdatesBehind(calls: seq<WriteCall>, late: seq<Update>, attempts: seq<Attempt>, done: nat, i: nat)
    requires IsSession(calls, late, attempts, done) && i < |attempts| && !GoesOn(attempts[i])
    ensures i == done - 1 && forall j :: i < j < |attempts| ==> attempts[j].call.WindowCall?
  {
    forall j | i < j < |attempts| && j >= done ensures attempts[j].call.WindowCall? {
      assert attempts[j].call == (calls[..done] + late)[j] == late[j - done];
    }
  }

  lemma TornNotInStep(wire: seq<byte>, fs: seq<Frame>)
    requires |wire| > |EncodeAll(fs)|
    ensures !InStep(wire, fs)
  {
    if InStep(wire, fs) {
      assert DecodeStream(wire + EncodeAll([])) == fs + [];
      assert wire + EncodeAll([]) == wire && fs + [] == fs;
      DecodeSound(wire);
      var r := wire[|EncodeAll(fs)|..];
      assert wire == EncodeAll(fs) + r;
      var g := OutOfStep(r);
      NextLost(wire, fs, r, g);
    }
  }

  lemma NextLost(wire: seq<byte>, fs: seq<Frame>, r: seq<byte>, g: Frame)
    requires wire == EncodeAll(fs) + r && DecodeStream(r + Encode(g)) != [g]
    ensures DecodeStream(wire + EncodeAll([g])) != fs + [g]
  {
    assert EncodeAll([g]) == Encode(g);
    Assoc(EncodeAll(fs), r, Encode(g));
    RoundTrip(fs, r + Encode(g));
    SameFront(fs, DecodeStream(r + Encode(g)), [g]);
  }

  lemma SameFront(fs: seq<Frame>, gs: seq<Frame>, hs: seq<Frame>)
    requires gs != hs
    ensures fs + gs != fs + hs
  {
    assert (fs + gs)[|fs|..] == gs && (fs + hs)[|fs|..] == hs;
  }

  /**
   * Three bytes of a window update, then a complete data frame of 300 zero bytes: the peer decodes one
   * frame, on a port nobody wrote to, and the data is lost.
   */
  lemma TornWindowUpdateMisleads(credit: uint32) returns (attempts: seq<Attempt>)
    ensures |attempts| == 2 && IsSession([attempts[0].call, attempts[1].call], [], attempts, 2)
    ensures attempts[0].call == WindowCall(1, credit) && attempts[0].sent == 3
    ensures attempts[1].call.DataCall? && attempts[1].call.port == 1 && |attempts[1].call.data| == 300 && attempts[1].ok
    ensures var fs := DecodeStream(WireOf(attempts)); |fs| == 1 && fs[0].port == 0xAE
  {
    var data: seq<byte> := seq(300, i => 0);
    var update, call := WindowCall(1, credit), DataCall(1, data, false);
    var first, second := Encode(FrameOf(update))[..3], Encode(FrameOf(call));
    attempts := [Attempt(update, false, 3), Attempt(call, true, |second|)];
    assert second[..|second|] == second;
    TwoOnWire(attempts[0], attempts[1]);
    assert WireOf(attempts) == first + second;
    assert first == [0xAE, 0x01, 0x00];
    assert second == [0xAE, 0x01, 0x00, 0x01, 0x01, 0x2C, 0x00, 0x00] + data;
    Misread(first + second);
  }

  /**
   * A data frame fails twelve bytes before its end, then a window update that was waiting for the lock
   * goes out whole: the peer decodes one data frame on the right port, of the right length, that ends in
   * the bytes of the update.
   */
  lemma LateUpdateMisleads(port: uint16, data: seq<byte>, update: Update) returns (attempts: seq<Attempt>)
    requires 12 <= |data| <= MAX_FRAME_SIZE
    ensures |attempts| == 2 && IsSession([DataCall(port, data, false)], [update], attempts, 1) && AllValid(attempts)
    ensures attempts[0].sent == Size(attempts[0].call) - 12 && attempts[1].ok
    ensures DecodeStream(WireOf(attempts))
            == [Frame(port, PKT_DATA, data[..|data| - 12] + Encode(FrameOf(update)))]
  {
    var call := DataCall(port, data, false);
    var first, second := Attempt(call, false, Size(call) - 12), Attempt(update, true, 12);
    attempts := [first, second];
    TwoOnWire(first, second);
    assert BytesOf(second) == Encode(FrameOf(update));
    Filled(FrameOf(call), |data| - 12, Encode(FrameOf(update)));
    DecodeOne(Frame(port, PKT_DATA, data[..|data| - 12] + Encode(FrameOf(update))));
  }

  lemma TwoOnWire(first: Attempt, second: Attempt)
    requires ValidAttempt(first) && ValidAttempt(second)
    ensures AllValid([first, second]) && WireOf([first, second]) == BytesOf(first) + BytesOf(second)
  {
    assert [] + [first] == [first];
    WirePush([], first);
    assert WireOf([first]) == BytesOf(first);
    assert [first] + [second] == [first, second];
    WirePush([first], second);
  }

  /** A frame whose last bytes are replaced is a frame of the same header. */
  lemma Filled(f: Frame, n: nat, b: seq<byte>)
    requires |b| <= |f.data| && n == |f.data| - |b|
    ensures Encode(f)[..FRAME_HEADER_SIZE + n] + b == Encode(Frame(f.port, f.ptype, f.data[..n] + b))
  {
    SplitFront(Header(f.port, |f.data|, f.ptype), f.data, n, b);
  }

  lemma SplitFront(h: seq<byte>, data: seq<byte>, n: nat, b: seq<byte>)
    requires n <= |data|
    ensures (h + data)[..|h| + n] + b == h + (data[..n] + b)
  {
    assert (h + data)[..|h| + n] == h + data[..n];
  }

  lemma DecodeOne(f: Frame)
    ensures DecodeStream(Encode(f)) == [f]
  {
    DecodeFirst(f, []);
    assert Encode(f) + [] == Encode(f);
  }

  lemma Misread(b: seq<byte>)
    requires |b| == 311 && b[..11] == [0xAE, 0x01, 0x00, 0xAE, 0x01, 0x00, 0x01, 0x01, 0x2C, 0x00, 0x00]
    requires forall i :: 11 <= i < 311 ==> b[i] == 0
    ensures |DecodeStream(b)| == 1 && DecodeStream(b)[0].port == 0xAE
  {
    assert forall i :: 0 <= i < 11 ==> b[i] == b[..11][i];
    assert b[0..2] == [0xAE, 0x01] && b[2..4] == [0x00, 0xAE] && b[4..6] == [0x01, 0x00];
    assert Uint16(b[0..2]) == MAGIC && Uint16(b[2..4]) == 0xAE && Uint16(b[4..6]) == 256;
    var rest := b[264..];
    assert rest[0] == 0 && rest[1] == 0;
    assert Uint16(rest[0..2]) == 0;
    assert DecodeStream(rest) == [];
  }
}
