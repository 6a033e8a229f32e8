// The Multiplexer and Channel objects of common/mux/mux.go: their fields, and the methods that
// update them, each proved against the functions of module Flow.
module Mux {
  import opened Wrappers
  import opened Bytes
  import opened Wire
  import opened Flow

  type int32 = n: int | -0x8000_0000 <= n < 0x8000_0000

  /** Nanoseconds: ten milliseconds between window updates. */
  const WINDOW_INTERVAL: int := 10_000_000

  datatype ChannelView = ChannelView(
    dataChan: seq<seq<byte>>, closed: bool, sendQueue: seq<seq<byte>>,
    sendWindow: int32, pendingConsumed: int32, lastWUTime: int, reader: seq<byte>)

  class Channel {
    const port: uint16
    var dataChan: seq<seq<byte>>
    var closed: bool                // CloseChan has been closed
    var sendQueue: seq<seq<byte>>
    var sendWindow: int32
    var pendingConsumed: int32
    var lastWUTime: int
    var reader: seq<byte>           // rest of a partly read frame

    constructor (port: uint16, now: int)
      ensures this.port == port
      ensures View() == ChannelView([], false, [], WINDOW_SIZE, 0, now, [])
    {
      this.port := port;
      dataChan, closed, sendQueue := [], false, [];
      sendWindow, pendingConsumed, lastWUTime := WINDOW_SIZE, 0, now;
      reader := [];
    }

    ghost function View(): ChannelView
      reads this
    {
      ChannelView(dataChan, closed, sendQueue, sendWindow, pendingConsumed, lastWUTime, reader)
    }

    ghost function AsReader(): ReaderState
      reads this
    {
      ReaderState(reader, dataChan, closed)
    }
  }

  /** What closing locally does to a channel, the first time. */
  function ClosedView(v: ChannelView): ChannelView {
    if v.closed then v else v.(sendQueue := [], closed := true)
  }

  /**
   * Where writeLoop receives a control frame: first thing in a round, waiting with no channel open, or
   * waiting because no channel had anything to send.
   */
  datatype Site = RoundStart | WithoutChannels | Idle

  datatype SendResult = Sent | WaitsForWindow | WaitsForQueue | ChannelClosed | MuxClosed | NotFound
  datatype DispatchResult = Delivered | Created | Dropped | WaitsForReader | Ignored

  class Multiplexer {
    const conn: Conn
    const acceptsNew: bool               // OnNewChannel is set
    var channels: map<uint16, Channel>
    var closed: bool
    var announced: seq<Channel>          // channels passed to OnNewChannel
    var ctrl: seq<(uint16, uint16)>      // control frames waiting for writeLoop: port, type

    constructor (conn: Conn, acceptsNew: bool)
      ensures Valid() && channels == map[] && !closed && announced == [] && ctrl == []
      ensures this.conn == conn && this.acceptsNew == acceptsNew
    {
      this.conn, this.acceptsNew := conn, acceptsNew;
      channels, closed, announced, ctrl := map[], false, [], [];
    }

    /** Channels are filed under their own port, so distinct ports have distinct channels. */
    ghost predicate Valid()
      reads this
    {
      forall p :: p in channels ==> channels[p].port == p
    }

    ghost function At(port: uint16): set<Channel>
      reads this
    {
      if port in channels then {channels[port]} else {}
    }

    /** One channel per port: an open port returns its channel, a free one a new full-window channel. */
    method OpenChannel(port: uint16, now: int) returns (r: Option<Channel>)
      requires Valid()
      modifies this`channels, this`ctrl
      ensures Valid()
      ensures old(closed) || port in old(channels) ==> channels == old(channels) && ctrl == old(ctrl)
      ensures old(closed) ==> r == None
      ensures !old(closed) ==> port in channels && r == Some(channels[port])
      ensures !old(closed) && port !in old(channels) ==>
                && r.Some? && fresh(r.value) && channels == old(channels)[port := r.value]
                && r.value.View() == ChannelView([], false, [], WINDOW_SIZE, 0, now, [])
                && r.value.sendWindow == 1048576 && ctrl == old(ctrl) + [(port, 1)]
    {
      if closed {
        return None;
      }
      if port in channels {
        return Some(channels[port]);
      }
      var ch := new Channel(port, now);
      channels := channels[port := ch];
      ctrl := ctrl + [(port, PKT_OPEN)];
      return Some(ch);
    }

    /** Forget the port; queued frames are discarded the first time, delivered ones stay readable. */
    method CloseChannelLocal(port: uint16)
      requires Valid()
      modifies this`channels, At(port)
      ensures Valid() && channels == old(channels) - {port}
      ensures port in old(channels) ==>
                old(channels)[port].View() == ClosedView(old(channels[port].View()))
      ensures port in old(channels) ==>
                var ch := old(channels)[port];
                && ch.closed
                && ch.sendQueue == (if old(channels[port].closed) then old(channels[port].sendQueue) else [])
                && ch.View() == old(channels[port].View()).(closed := true, sendQueue := ch.sendQueue)
    {
      if port in channels {
        var ch := channels[port];
        channels := channels - {port};
        if !ch.closed {
          while ch.sendQueue != []
            modifies ch
            invariant ch.View() == old(ch.View()).(sendQueue := ch.sendQueue)
            decreases |ch.sendQueue|
          {
            ch.sendQueue := ch.sendQueue[1..];
          }
          ch.closed := true;
        }
      }
    }

    /**
     * writeLoop receives one control frame and writes it. A CLOSE frame closes the local channel only
     * when it was received at the start of a round; at the other two sites the channel stays open.
     */
    method WriteControl(site: Site) returns (ok: bool)
      requires Valid() && ctrl != []
      modifies this`channels, this`closed, this`ctrl, conn`wire, conn`grants, At(ctrl[0].0)
      ensures Valid() && ctrl == old(ctrl[1..]) && closed == !ok
      ensures old(closed) ==> !ok && conn.wire == old(conn.wire) && conn.grants == old(conn.grants)
      ensures !old(closed) ==>
                && Took(old(conn.grants), conn.grants, ok)
                && PartWritten(old(conn.wire), conn.wire, Frame(old(ctrl[0].0), old(ctrl[0].1), []), ok,
                               |conn.wire| - |old(conn.wire)|)
      ensures var port := old(ctrl[0].0);
              var closes := ok && old(ctrl[0].1) == PKT_CLOSE && site == RoundStart;
              && channels == (if closes then old(channels) - {port} else old(channels))
              && (port in old(channels) ==>
                    old(channels)[port].View()
                    == if closes then ClosedView(old(channels[port].View())) else old(channels[port].View()))
    {
      var port, ptype := ctrl[0].0, ctrl[0].1;
      ctrl := ctrl[1..];
      if closed {
        return false;
      }
      ghost var sent;
      ok, sent := WriteCtrl(conn, port, ptype);
      if !ok {
        closed := true;
        return;
      }
      match site {
        case RoundStart =>
          if ptype == PKT_CLOSE {
            CloseChannelLocal(port);
          }
        case WithoutChannels =>
        case Idle =>
      }
    }

    /** Add the peer's credit to the window of that port and of no other. */
    method HandleWindowUpdate(port: uint16, data: seq<byte>)
      requires Valid()
      modifies At(port)
      ensures port in channels ==>
                channels[port].View() ==
                old(channels[port].View()).(sendWindow := Wrap32(old(channels[port].sendWindow) + CreditOf(data)))
      ensures port in channels && |data| < 4 ==> channels[port].View() == old(channels[port].View())
      ensures port in channels && |data| >= 4 ==>
                var credit := data[0] as int * 0x100_0000 + data[1] as int * 0x1_0000 + data[2] as int * 0x100
                              + data[3] as int;
                channels[port].sendWindow == Wrap32(old(channels[port].sendWindow) + Wrap32(credit))
    {
      if |data| < 4 {
        return;
      }
      var addWindow := Wrap32(Uint32(data[..4]));
      if port in channels {
        var ch := channels[port];
        ch.sendWindow := Wrap32(ch.sendWindow + addWindow);
      }
    }

    /** A DATA frame reaches its own port, a port created for it, or nobody. */
    method DispatchData(port: uint16, data: seq<byte>, now: int) returns (r: DispatchResult)
      requires Valid()
      modifies this`channels, this`announced, At(port)
      ensures Valid() && !r.Ignored?
      ensures port in old(channels) ==>
                && channels == old(channels) && announced == old(announced)
                && (r.Delivered? || r.WaitsForReader?)
                && (r.Delivered? <==> |old(channels[port].dataChan)| < DATA_CHAN_SIZE)
                && channels[port].View() ==
                   old(channels[port].View()).(dataChan := old(channels[port].dataChan)
                                                           + if r.Delivered? then [data] else [])
      ensures port !in old(channels) && !acceptsNew ==>
                r == Dropped && channels == old(channels) && announced == old(announced)
      ensures port !in old(channels) && acceptsNew ==>
                && r == Created && port in channels && fresh(channels[port])
                && channels == old(channels)[port := channels[port]]
                && announced == old(announced) + [channels[port]]
                && channels[port].View() == ChannelView([data], false, [], WINDOW_SIZE, 0, now, [])
    {
      if port in channels {
        var ch := channels[port];
        if |ch.dataChan| < DATA_CHAN_SIZE {
          ch.dataChan := ch.dataChan + [data];
          return Delivered;
        }
        assert ch.dataChan + [] == ch.dataChan;
        return WaitsForReader;
      }
      if !acceptsNew {
        return Dropped;
      }
      var ch := new Channel(port, now);
      channels := channels[port := ch];
      announced := announced + [ch];
      ch.dataChan := ch.dataChan + [data];
      return Created;
    }

    /** What a worker does with one frame; ports other than the frame's are never touched. */
    method Dispatch(f: Frame, now: int) returns (r: DispatchResult)
      requires Valid()
      modifies this`channels, this`announced, At(f.port)
      ensures Valid()
      ensures forall p :: p in old(channels) && p != f.port ==> p in channels && channels[p] == old(channels[p])
      ensures forall p :: p in channels && p != f.port ==> p in old(channels)
      ensures f.ptype == PKT_DATA <==> r != Ignored
      ensures f.ptype == PKT_CLOSE ==>
                && channels == old(channels) - {f.port}
                && (f.port in old(channels) ==>
                      old(channels)[f.port].View() == ClosedView(old(channels[f.port].View())))
      ensures f.ptype != PKT_CLOSE && f.ptype != PKT_DATA ==> channels == old(channels)
      ensures f.ptype != PKT_CLOSE && f.ptype != PKT_DATA && f.port in channels ==>
                var before := old(channels[f.port].View());
                channels[f.port].View() ==
                if f.ptype == PKT_WINDOW_UPDATE
                then before.(sendWindow := Wrap32(before.sendWindow + CreditOf(f.data)))
                else before
      ensures f.ptype == PKT_DATA && f.port in old(channels) ==>
                && channels == old(channels) && (r == Delivered || r == WaitsForReader)
                && (r == Delivered <==> |old(channels[f.port].dataChan)| < DATA_CHAN_SIZE)
                && channels[f.port].View() ==
                   old(channels[f.port].View()).(dataChan := old(channels[f.port].dataChan)
                                                             + if r == Delivered then [f.data] else [])
      ensures f.ptype == PKT_DATA && f.port !in old(channels) ==>
                if acceptsNew
                then
                  && r == Created && f.port in channels
                  && channels[f.port].View() == ChannelView([f.data], false, [], WINDOW_SIZE, 0, now, [])
                else r == Dropped && channels == old(channels)
      ensures r != Created ==> announced == old(announced)
      ensures r == Created ==> f.port in channels && announced == old(announced) + [channels[f.port]]
    {
      r := Ignored;
      if f.ptype == PKT_DATA {
        r := DispatchData(f.port, f.data, now);
      } else if f.ptype == PKT_CLOSE {
        CloseChannelLocal(f.port);
      } else if f.ptype == PKT_WINDOW_UPDATE {
        HandleWindowUpdate(f.port, f.data);
      }
    }

    /**
     * Send, as far as it gets without waiting. `pickClose` decides the select in enqueueFrame when
     * both the queue and CloseChan are ready.
     */
    method Send(port: uint16, data: seq<byte>, pickClose: bool) returns (r: SendResult)
      requires Valid()
      modifies At(port)
      ensures closed <==> r == MuxClosed
      ensures closed ==> forall c :: c in At(port) ==> c.View() == old(c.View())
      ensures !closed && port !in channels <==> r == NotFound
      ensures !closed && port in channels ==>
                var before := old(channels[port].View());
                var enough := before.sendWindow >= Wrap32(|data|);
                var debited := before.(sendWindow := Wrap32(before.sendWindow - Wrap32(|data|)));
                && (r == Sent ==> enough && |before.sendQueue| < SEND_QUEUE_SIZE
                                  && channels[port].View() == debited.(sendQueue := before.sendQueue + [data]))
                && (r == WaitsForWindow <==> !enough && !before.closed)
                && (r == WaitsForQueue ==> enough && |before.sendQueue| >= SEND_QUEUE_SIZE && !before.closed)
                && (r == ChannelClosed ==> before.closed)
                && (r != Sent ==> channels[port].View() == if enough then debited else before)
    {
      if closed {
        return MuxClosed;
      }
      if port !in channels {
        return NotFound;
      }
      var ch := channels[port];
      var dataLen := Wrap32(|data|);
      if ch.sendWindow < dataLen {
        return if ch.closed then ChannelClosed else WaitsForWindow;
      }
      ch.sendWindow := Wrap32(ch.sendWindow - dataLen);
      if |ch.sendQueue| < SEND_QUEUE_SIZE && !(ch.closed && pickClose) {
        ch.sendQueue := ch.sendQueue + [data];
        return Sent;
      }
      return if ch.closed then ChannelClosed else WaitsForQueue;
    }

    /** Accumulate consumed bytes; once due, all of them go out in one WINDOW_UPDATE frame. */
    method SendWindowUpdate(port: uint16, consumed: nat, now: int) returns (ok: bool)
      requires Valid()
      modifies At(port), conn`wire, conn`grants
      ensures forall c :: c in At(port) ==>
                c.View() == old(c.View()).(pendingConsumed := c.pendingConsumed, lastWUTime := c.lastWUTime)
      ensures closed || port !in channels ==>
                && conn.wire == old(conn.wire) && (ok <==> !closed)
                && forall c :: c in At(port) ==> c.View() == old(c.View())
      ensures !closed && port in channels ==>
                var before := old(channels[port].View());
                var sum := Wrap32(before.pendingConsumed + Wrap32(consumed));
                if sum >= 16384 || now - before.lastWUTime >= 10_000_000
                then
                  && channels[port].pendingConsumed == 0 && channels[port].lastWUTime == now
                  && Took(old(conn.grants), conn.grants, ok)
                  && PartWritten(old(conn.wire), conn.wire,
                                 Frame(port, 3, PutUint32(if sum < 0 then sum + 0x1_0000_0000 else sum)),
                                 ok, |conn.wire| - |old(conn.wire)|)
                else
                  && channels[port].pendingConsumed == sum && channels[port].lastWUTime == before.lastWUTime
                  && ok && conn.wire == old(conn.wire) && conn.grants == old(conn.grants)
    {
      if closed {
        return false;
      }
      if port !in channels {
        return true;
      }
      var ch := channels[port];
      ch.pendingConsumed := Wrap32(ch.pendingConsumed + Wrap32(consumed));
      if ch.pendingConsumed >= WINDOW_THRESHOLD || now - ch.lastWUTime >= WINDOW_INTERVAL {
        var data := CreditBytes(ch.pendingConsumed);
        CreditBytesAre(ch.pendingConsumed);
        ch.pendingConsumed := 0;
        ch.lastWUTime := now;
        ghost var sent;
        ok, sent := WriteWindowUpdate(conn, port, data);
        return;
      }
      return true;
    }

    /**
     * Channel.Read into p. The bytes returned come off the front of the unread stream, the rest of p
     * is untouched, and only a frame taken whole returns credit.
     */
    method Read(ch: Channel, p: array<byte>, now: int) returns (n: nat, out: ReadOutcome)
      requires Valid()
      modifies p, ch`reader, ch`dataChan, At(ch.port), conn`wire, conn`grants
      ensures (ch.AsReader(), out) == ReadStep(old(ch.AsReader()), p.Length)
      ensures out.Got? ==> n == |out.data| && p[..] == out.data + old(p[..])[n..]
      ensures !out.Got? ==> n == 0 && p[..] == old(p[..])
      ensures old(Unread(ch.AsReader())) == (if out.Got? then out.data else []) + Unread(ch.AsReader())
      ensures out.Got? && out.finished.Some? && !closed && ch.port in channels ==>
                var before := old(channels[ch.port].View());
                var sum := Wrap32(before.pendingConsumed + Wrap32(out.finished.value));
                channels[ch.port].pendingConsumed
                == if sum >= 16384 || now - before.lastWUTime >= 10_000_000 then 0 else sum
      ensures out.Got? && out.finished.None? ==>
                conn.wire == old(conn.wire)
                && forall c :: c in At(ch.port) ==> c.pendingConsumed == old(c.pendingConsumed)
    {
      ghost var r0 := ch.AsReader();
      ReadTakesPrefix(r0, p.Length);
      if ch.reader != [] {
        n := Copy(p, ch.reader);
        out := Got(ch.reader[..n], None);
        ch.reader := ch.reader[n..];
        return;
      }
      if ch.dataChan == [] {
        return 0, if ch.closed then Eof else Blocks;
      }
      var data := ch.dataChan[0];
      ch.dataChan := ch.dataChan[1..];
      n := Copy(p, data);
      if n < |data| {
        ch.reader := data[n..];
        out := Got(data[..n], None);
      } else {
        assert data[..n] == data;
        out := Got(data, Some(|data|));
        ReturnCredit(ch, |data|, now);
      }
    }

    /** The frame was taken whole; what is still unread is not affected. */
    method ReturnCredit(ch: Channel, consumed: nat, now: int)
      requires Valid()
      modifies At(ch.port), conn`wire, conn`grants
      ensures ch.AsReader() == old(ch.AsReader())
      ensures !closed && ch.port in channels ==>
                var before := old(channels[ch.port].View());
                var sum := Wrap32(before.pendingConsumed + Wrap32(consumed));
                channels[ch.port].pendingConsumed
                == if sum >= 16384 || now - before.lastWUTime >= 10_000_000 then 0 else sum
    {
      var _ := SendWindowUpdate(ch.port, consumed, now);
      if ch in At(ch.port) {
        assert ch.View() == old(ch.View()).(pendingConsumed := ch.pendingConsumed, lastWUTime := ch.lastWUTime);
      }
    }
  }
}
