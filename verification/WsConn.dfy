// common/wsconn/wsconn.go: WebSocket messages read as one byte stream.
module WsConn {
  import opened Wrappers
  import opened Bytes

  datatype ReadError = NoError | ErrClosed | ErrSocket

  class WsConn {
    var incoming: seq<seq<byte>>   // messages ReadMessage will still return before it fails
    var hasReader: bool            // w.reader != nil
    var data: seq<byte>            // bytesReader.data
    var pos: nat                   // bytesReader.pos
    var closed: bool

    constructor (incoming: seq<seq<byte>>)
      ensures Valid() && !closed && Unread() == Flatten(incoming)
    {
      this.incoming, hasReader, data, pos, closed := incoming, false, [], 0, false;
    }

    ghost predicate Valid()
      reads this
    {
      pos <= |data|
    }

    /** Bytes of the current message not yet returned, then all later messages. */
    ghost function Unread(): seq<byte>
      reads this
      requires Valid()
    {
      (if hasReader then data[pos..] else []) + Flatten(incoming)
    }

    /** bytesReader.Read */
    method ReadCurrent(b: array<byte>) returns (n: nat, eof: bool)
      requires Valid() && hasReader
      modifies b, this`pos
      ensures Valid() && old(pos) <= pos
      ensures eof <==> old(pos) == |data|
      ensures n == if b.Length < |data| - old(pos) then b.Length else |data| - old(pos)
      ensures old(Unread()) == b[..n] + Unread() && b[n..] == old(b[..])[n..]
    {
      if pos >= |data| {
        return 0, true;
      }
      n := Copy(b, data[pos..]);
      assert data[pos..] == data[pos..pos + n] + data[pos + n..];
      pos := pos + n;
      return n, false;
    }

    /**
     * Read takes its bytes off the front of the message stream, skips empty messages, fails only
     * when closed or when every byte was returned, and otherwise makes progress.
     */
    method Read(b: array<byte>) returns (n: nat, err: ReadError)
      requires Valid()
      modifies b, this`pos, this`hasReader, this`data, this`incoming
      ensures Valid() && n <= b.Length && b[n..] == old(b[..])[n..]
      ensures err == ErrClosed <==> closed
      ensures err != NoError ==> n == 0
      ensures closed ==> Unread() == old(Unread())
      ensures old(Unread()) == b[..n] + Unread()
      ensures err == ErrSocket ==> old(Unread()) == []
      ensures err == NoError && b.Length > 0 ==> n > 0
    {
      if closed {
        return 0, ErrClosed;
      }
      while true
        invariant Valid() && Unread() == old(Unread())
        invariant b[..] == old(b[..])
        decreases |incoming|, hasReader
      {
        if hasReader {
          var eof;
          n, eof := ReadCurrent(b);
          if eof {
            assert b[..0] + Unread() == Unread();
            hasReader := false;
            continue;
          }
          return n, NoError;
        }
        if incoming == [] {
          return 0, ErrSocket;
        }
        data, pos, hasReader := incoming[0], 0, true;
        incoming := incoming[1..];
      }
    }
  }
}
