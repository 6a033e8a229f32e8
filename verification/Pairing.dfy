// Pairing of tunnel connections with the visitors waiting for them, and of the two ends of a relay
// (BBgrid_Server/session/server.go): a lock-protected map of one-shot channels, with accepting,
// expiring, giving up and registering again in any interleaving.
module Pairing {
  import opened Wrappers

  /** What goes through a channel: a connection, or the nil that expiry sends. */
  datatype Value = Nil | Conn(conn: nat)

  /** A channel of capacity one, and its waiter: what it received and whether it still waits. */
  datatype Channel = Channel(buffer: seq<Value>, received: seq<Value>, waiting: bool)

  /** Channels are named by their position in the list of all channels ever made. */
  datatype Entry = Entry(ch: nat, createdAt: int)

  // inHand: connections whose handler has taken an entry out of the map and not yet sent.
  // used: all connections that have arrived.
  datatype Table = Table(pending: map<string, Entry>, chans: seq<Channel>, inHand: map<nat, nat>, used: set<nat>)

  const NEW_TABLE := Table(map[], [], map[], {})
  const EXPIRY := 60

  function Contents(c: Channel): seq<Value> { c.received + c.buffer }

  function Sent(c: Channel, v: Value): Channel { c.(buffer := c.buffer + [v]) }

  // ---------------------------------------------------------------- atomic steps

  function Register(p: Table, token: string, now: int): Table {
    p.(chans := p.chans + [Channel([], [], true)], pending := p.pending[token := Entry(|p.chans|, now)])
  }

  function Unregister(p: Table, token: string): Table { p.(pending := p.pending - {token}) }

  /** The locked part of accepting: look the token up and take its entry out. */
  function Take(p: Table, token: string, conn: nat): Table {
    var arrived := p.(used := p.used + {conn});
    if token !in p.pending then arrived
    else arrived.(pending := p.pending - {token}, inHand := p.inHand[conn := p.pending[token].ch])
  }

  predicate Expired(p: Table, token: string, now: int) {
    token in p.pending && now - p.pending[token].createdAt > EXPIRY
  }

  ghost predicate ExpiredChannel(p: Table, ch: nat, now: int, left: set<string>) {
    exists token :: token !in left && Expired(p, token, now) && p.pending[token].ch == ch
  }

  /** cleanupExpired when the entries in `left` have not been visited yet. */
  ghost function CleanedUp(p: Table, now: int, left: set<string>): Table {
    p.(pending := map token | token in p.pending && (token in left || !Expired(p, token, now)) :: p.pending[token],
       chans := seq(|p.chans|, i requires 0 <= i < |p.chans| =>
                    if ExpiredChannel(p, i, now, left) then Sent(p.chans[i], Nil) else p.chans[i]))
  }

  /** All of it happens under the lock. */
  ghost function Cleanup(p: Table, now: int): Table { CleanedUp(p, now, {}) }

  datatype Op =
    | RegisterOp(token: string, now: int)
    | UnregisterOp(token: string)             // unregisterPending, and the delete of a timed-out relay end
    | TakeOp(token: string, conn: nat)
    | AckFails(conn: nat)
    | SendOp(conn: nat)
    | CleanupOp(now: int)
    | ReceiveOp(ch: nat)
    | GiveUp(ch: nat)                         // the timer or the stop channel wins the waiter's select

  ghost predicate Step(p: Table, op: Op, p': Table) {
    match op
    case RegisterOp(token, now) => p' == Register(p, token, now)
    case UnregisterOp(token) => p' == Unregister(p, token)
    case TakeOp(token, conn) => conn !in p.used && p' == Take(p, token, conn)
    case AckFails(conn) => conn in p.inHand && p' == p.(inHand := p.inHand - {conn})
    case SendOp(conn) =>
      && conn in p.inHand && p.inHand[conn] < |p.chans|
      && p' == p.(inHand := p.inHand - {conn},
                  chans := p.chans[p.inHand[conn] := Sent(p.chans[p.inHand[conn]], Conn(conn))])
    case CleanupOp(now) => p' == Cleanup(p, now)
    case ReceiveOp(ch) =>
      && ch < |p.chans| && p.chans[ch].waiting && p.chans[ch].buffer != []
      && var c := p.chans[ch];
         p' == p.(chans := p.chans[ch := Channel(c.buffer[1..], c.received + [c.buffer[0]], false)])
    case GiveUp(ch) =>
      && ch < |p.chans| && p.chans[ch].waiting && p' == p.(chans := p.chans[ch := p.chans[ch].(waiting := false)])
  }

  ghost predicate IsRun(ps: seq<Table>, ops: seq<Op>) {
    && |ps| == |ops| + 1 && ps[0] == NEW_TABLE
    && forall i :: 0 <= i < |ops| ==> Step(ps[i], ops[i], ps[i + 1])
  }

  // ---------------------------------------------------------------- the invariant

  /** Someone may still send on the channel. */
  ghost predicate InPending(p: Table, ch: nat) { exists token :: token in p.pending && p.pending[token].ch == ch }

  ghost predicate InHand(p: Table, ch: nat) { exists conn :: conn in p.inHand && p.inHand[conn] == ch }

  /** The right to send on a channel exists once at most ... */
  ghost predicate OneSender(p: Table) {
    && (forall s, t :: s in p.pending && t in p.pending && p.pending[s].ch == p.pending[t].ch ==> s == t)
    && (forall c, d :: c in p.inHand && d in p.inHand && p.inHand[c] == p.inHand[d] ==> c == d)
    && (forall t, c :: t in p.pending && c in p.inHand ==> p.pending[t].ch != p.inHand[c])
    && (forall t :: t in p.pending ==> p.pending[t].ch < |p.chans|)
    && (forall c :: c in p.inHand ==> p.inHand[c] < |p.chans|)
  }

  /** ... and not after a value was sent. */
  ghost predicate Unused(p: Table)
    requires OneSender(p)
  {
    && (forall t :: t in p.pending ==> Contents(p.chans[p.pending[t].ch]) == [])
    && (forall c :: c in p.inHand ==> Contents(p.chans[p.inHand[c]]) == [])
    && (forall i :: 0 <= i < |p.chans| ==> |Contents(p.chans[i])| <= 1)
  }

  ghost predicate OneShot(p: Table) { OneSender(p) && Unused(p) }

  /** Every connection is in one place. */
  ghost predicate OnePlace(p: Table) {
    && p.inHand.Keys <= p.used
    && (forall i, c :: 0 <= i < |p.chans| && Conn(c) in Contents(p.chans[i]) ==> c in p.used && c !in p.inHand)
    && (forall i, j, c :: (0 <= i < |p.chans| && 0 <= j < |p.chans|
          && Conn(c) in Contents(p.chans[i]) && Conn(c) in Contents(p.chans[j])) ==> i == j)
  }

  ghost predicate Inv(p: Table) { OneShot(p) && OnePlace(p) }

  lemma RegisterKeeps(p: Table, token: string, now: int)
    requires Inv(p)
    ensures Inv(Register(p, token, now))
  {
    RegisterOneShot(p, token, now);
    RegisterOnePlace(p, token, now);
  }

  lemma RegisterOneShot(p: Table, token: string, now: int)
    requires OneShot(p)
    ensures OneShot(Register(p, token, now))
  {
    RegisterOneSender(p, token, now);
    var p' := Register(p, token, now);
    assert Contents(p'.chans[|p.chans|]) == [];
    assert forall i :: 0 <= i < |p.chans| ==> p'.chans[i] == p.chans[i];
  }

  lemma RegisterOneSender(p: Table, token: string, now: int)
    requires OneSender(p)
    ensures OneSender(Register(p, token, now))
  {
    assert Register(p, token, now).pending[token].ch == |p.chans|;
  }

  lemma RegisterOnePlace(p: Table, token: string, now: int)
    requires OnePlace(p)
    ensures OnePlace(Register(p, token, now))
  {
    var p' := Register(p, token, now);
    assert Contents(p'.chans[|p.chans|]) == [];
    assert forall i :: 0 <= i < |p.chans| ==> p'.chans[i] == p.chans[i];
  }

  lemma TakeKeeps(p: Table, token: string, conn: nat)
    requires Inv(p) && conn !in p.used
    ensures Inv(Take(p, token, conn))
  {}

  lemma SendKeeps(p: Table, conn: nat, p': Table)
    requires Inv(p) && Step(p, SendOp(conn), p')
    ensures Inv(p')
  {
    var ch := p.inHand[conn];
    assert Contents(p'.chans[ch]) == [Conn(conn)];
    assert forall i :: 0 <= i < |p.chans| && i != ch ==> p'.chans[i] == p.chans[i];
  }

  lemma CleanupKeeps(p: Table, now: int)
    requires Inv(p)
    ensures Inv(Cleanup(p, now))
  {
    CleanupOneShot(p, now);
    CleanupOnePlace(p, now);
  }

  lemma CleanupContents(p: Table, now: int, i: nat)
    requires OneShot(p) && i < |p.chans|
    ensures Contents(Cleanup(p, now).chans[i]) == if ExpiredChannel(p, i, now, {}) then [Nil] else Contents(p.chans[i])
  {}

  lemma CleanupOneShot(p: Table, now: int)
    requires OneShot(p)
    ensures OneShot(Cleanup(p, now))
  {
    var p' := Cleanup(p, now);
    forall i: nat | i < |p.chans| ensures |Contents(p'.chans[i])| <= 1 { CleanupContents(p, now, i); }
    forall t | t in p'.pending ensures Contents(p'.chans[p'.pending[t].ch]) == [] {
      CleanupContents(p, now, p.pending[t].ch);
    }
    forall c | c in p.inHand ensures Contents(p'.chans[p.inHand[c]]) == [] {
      CleanupContents(p, now, p.inHand[c]);
    }
  }

  lemma CleanupOnePlace(p: Table, now: int)
    requires Inv(p)
    ensures OnePlace(Cleanup(p, now))
  {
    var p' := Cleanup(p, now);
    forall i: nat, c | i < |p.chans| && Conn(c) in Contents(p'.chans[i]) ensures Conn(c) in Contents(p.chans[i]) {
      CleanupContents(p, now, i);
    }
  }

  lemma WaiterKeeps(p: Table, op: Op, p': Table)
    requires Inv(p) && Step(p, op, p') && (op.ReceiveOp? || op.GiveUp?)
    ensures Inv(p')
  {
    assert Contents(p'.chans[op.ch]) == Contents(p.chans[op.ch]);
    assert forall i :: 0 <= i < |p.chans| ==> Contents(p'.chans[i]) == Contents(p.chans[i]);
  }

  lemma StepKeeps(p: Table, op: Op, p': Table)
    requires Inv(p) && Step(p, op, p')
    ensures Inv(p')
  {
    match op
    case RegisterOp(token, now) => RegisterKeeps(p, token, now);
    case TakeOp(token, conn) => TakeKeeps(p, token, conn);
    case SendOp(conn) => SendKeeps(p, conn, p');
    case CleanupOp(now) => CleanupKeeps(p, now);
    case ReceiveOp(_) => WaiterKeeps(p, op, p');
    case GiveUp(_) => WaiterKeeps(p, op, p');
    case _ =>
  }

  lemma {:induction false} RunKeeps(ps: seq<Table>, ops: seq<Op>)
    requires IsRun(ps, ops)
    ensures Inv(ps[|ops|])
  {
    if ops != [] {
      var n := |ops| - 1;
      RunKeeps(ps[..n + 1], ops[..n]);
      StepKeeps(ps[n], ops[n], ps[n + 1]);
    }
  }

  // ---------------------------------------------------------------- what holds over every run

  /**
   * Under every interleaving: whoever may send finds the channel empty, so no send blocks, not even
   * expiry's under the lock; a channel gets one value at most; no connection goes to two waiters.
   */
  lemma PairingSafe(ps: seq<Table>, ops: seq<Op>)
    requires IsRun(ps, ops)
    ensures var p := ps[|ops|];
            && (forall c :: c in p.inHand ==> p.inHand[c] < |p.chans| && p.chans[p.inHand[c]].buffer == [])
            && (forall t :: t in p.pending ==> p.pending[t].ch < |p.chans| && p.chans[p.pending[t].ch].buffer == [])
            && (forall i :: 0 <= i < |p.chans| ==> |Contents(p.chans[i])| <= 1)
            && (forall i, j, c :: (0 <= i < |p.chans| && 0 <= j < |p.chans|
                  && Conn(c) in p.chans[i].received && Conn(c) in p.chans[j].received) ==> i == j)
  {
    RunKeeps(ps, ops);
    var p := ps[|ops|];
    assert forall i, c :: 0 <= i < |p.chans| && Conn(c) in p.chans[i].received ==> Conn(c) in Contents(p.chans[i]);
  }

  /** Contents is the full history of a channel: it only ever grows, at its end. */
  lemma ContentsOnlyGrow(p: Table, op: Op, p': Table, ch: nat)
    requires Step(p, op, p') && ch < |p.chans|
    ensures ch < |p'.chans| && Contents(p.chans[ch]) <= Contents(p'.chans[ch])
    ensures !p.chans[ch].waiting ==> !p'.chans[ch].waiting && p'.chans[ch].received == p.chans[ch].received
  {}

  /** No one is left who could send on the channel, and nothing was sent. */
  ghost predicate Orphaned(p: Table, ch: nat) {
    ch < |p.chans| && Contents(p.chans[ch]) == [] && !InPending(p, ch) && !InHand(p, ch)
  }

  /** The operation takes away the only right to send on the channel without a value having been sent. */
  ghost predicate Orphans(p: Table, op: Op, ch: nat) {
    match op
    case UnregisterOp(token) => token in p.pending && p.pending[token].ch == ch
    case RegisterOp(token, _) => token in p.pending && p.pending[token].ch == ch
    case AckFails(conn) => conn in p.inHand && p.inHand[conn] == ch
    case _ => false
  }

  lemma OrphanedStepIff(p: Table, op: Op, p': Table, ch: nat)
    requires Inv(p) && Step(p, op, p') && ch < |p.chans|
    ensures Orphaned(p', ch) <==> Orphaned(p, ch) || Orphans(p, op, ch)
  {
    match op
    case RegisterOp(token, now) => RegisterOrphansIff(p, token, now, ch);
    case TakeOp(token, conn) => TakeOrphansNone(p, token, conn, ch);
    case SendOp(conn) => SendOrphansNone(p, conn, p', ch);
    case CleanupOp(now) => CleanupOrphansNone(p, now, ch);
    case AckFails(conn) => AckOrphansIff(p, conn, p', ch);
    case UnregisterOp(token) => UnregisterOrphansIff(p, token, ch);
    case _ => WaitingOrphansNone(p, op, p', ch);
  }

  lemma RegisterOrphansIff(p: Table, token: string, now: int, ch: nat)
    requires Inv(p) && ch < |p.chans|
    ensures Orphaned(Register(p, token, now), ch) <==>
              Orphaned(p, ch) || (token in p.pending && p.pending[token].ch == ch)
  {
    var p' := Register(p, token, now);
    assert p'.chans[ch] == p.chans[ch];
    assert InHand(p', ch) <==> InHand(p, ch);
    if t :| t in p.pending && p.pending[t].ch == ch {
      RegisteredElsewhere(p, token, now, ch, t);
      assert token in p.pending && p.pending[token].ch == ch <==> t == token;
      assert Contents(p.chans[ch]) == [] && !InHand(p, ch);
    } else {
      assert !InPending(p', ch) by {
        forall u | u in p'.pending ensures p'.pending[u].ch != ch {}
      }
    }
  }

  lemma RegisteredElsewhere(p: Table, token: string, now: int, ch: nat, t: string)
    requires OneSender(p) && t in p.pending && p.pending[t].ch == ch
    ensures InPending(Register(p, token, now), ch) <==> t != token
  {
    var p' := Register(p, token, now);
    if t != token {
      assert t in p'.pending && p'.pending[t].ch == ch;
    } else {
      forall u | u in p'.pending ensures p'.pending[u].ch != ch {}
    }
  }

  lemma TakeOrphansNone(p: Table, token: string, conn: nat, ch: nat)
    requires Inv(p) && conn !in p.used && ch < |p.chans|
    ensures Orphaned(Take(p, token, conn), ch) <==> Orphaned(p, ch)
  {
    var p' := Take(p, token, conn);
    if token in p.pending {
      MovedRight(p, token, conn, p', ch);
    }
  }

  lemma MovedRight(p: Table, token: string, conn: nat, p': Table, ch: nat)
    requires conn !in p.inHand && token in p.pending && p' == Take(p, token, conn)
    ensures InHand(p', ch) <==> InHand(p, ch) || p.pending[token].ch == ch
    ensures InPending(p, ch) <==> InPending(p', ch) || p.pending[token].ch == ch
  {
    assert forall c :: c in p.inHand ==> c in p'.inHand && p'.inHand[c] == p.inHand[c];
    assert p'.inHand[conn] == p.pending[token].ch;
    assert forall t :: t in p'.pending ==> t in p.pending && p'.pending[t] == p.pending[t];
    assert forall t :: t in p.pending && t != token ==> t in p'.pending && p'.pending[t] == p.pending[t];
  }

  lemma SendOrphansNone(p: Table, conn: nat, p': Table, ch: nat)
    requires Inv(p) && Step(p, SendOp(conn), p') && ch < |p.chans|
    ensures Orphaned(p', ch) <==> Orphaned(p, ch)
  {
    if ch == p.inHand[conn] {
      assert Contents(p'.chans[ch]) == [Conn(conn)];
      assert InHand(p, ch);
    } else {
      assert p'.chans[ch] == p.chans[ch];
      assert forall c :: c in p.inHand && c != conn ==> c in p'.inHand && p'.inHand[c] == p.inHand[c];
    }
  }

  lemma CleanupOrphansNone(p: Table, now: int, ch: nat)
    requires Inv(p) && ch < |p.chans|
    ensures Orphaned(Cleanup(p, now), ch) <==> Orphaned(p, ch)
  {
    var p' := Cleanup(p, now);
    CleanupContents(p, now, ch);
    if InPending(p, ch) && !ExpiredChannel(p, ch, now, {}) {
      var t :| t in p.pending && p.pending[t].ch == ch;
      assert t in p'.pending && p'.pending[t].ch == ch;
    }
  }

  lemma AckOrphansIff(p: Table, conn: nat, p': Table, ch: nat)
    requires Inv(p) && Step(p, AckFails(conn), p') && ch < |p.chans|
    ensures Orphaned(p', ch) <==> Orphaned(p, ch) || p.inHand[conn] == ch
  {
    assert forall c :: c in p.inHand && c != conn ==> c in p'.inHand && p'.inHand[c] == p.inHand[c];
  }

  lemma UnregisterOrphansIff(p: Table, token: string, ch: nat)
    requires Inv(p) && ch < |p.chans|
    ensures Orphaned(Unregister(p, token), ch) <==>
              Orphaned(p, ch) || (token in p.pending && p.pending[token].ch == ch)
  {
    var p' := Unregister(p, token);
    assert forall t :: t in p'.pending && t != token ==> t in p.pending && p.pending[t] == p'.pending[t];
    assert forall t :: t in p.pending && t != token ==> t in p'.pending && p'.pending[t] == p.pending[t];
  }

  lemma WaitingOrphansNone(p: Table, op: Op, p': Table, ch: nat)
    requires Step(p, op, p') && (op.ReceiveOp? || op.GiveUp?) && ch < |p.chans|
    ensures Orphaned(p', ch) <==> Orphaned(p, ch)
  {
    assert Contents(p'.chans[ch]) == Contents(p.chans[ch]);
    assert InPending(p', ch) <==> InPending(p, ch);
    assert InHand(p', ch) <==> InHand(p, ch);
  }

  /** Its waiter never receives anything. */
  lemma {:induction false} OrphanForever(ps: seq<Table>, ops: seq<Op>, from: nat, to: nat, ch: nat)
    requires IsRun(ps, ops) && from <= to <= |ops| && Orphaned(ps[from], ch)
    ensures Orphaned(ps[to], ch)
  {
    if from < to {
      OrphanForever(ps, ops, from, to - 1, ch);
      RunKeeps(ps[..to], ops[..to - 1]);
      OrphanedStepIff(ps[to - 1], ops[to - 1], ps[to], ch);
    }
  }

  /** Over every run a channel is without a sender exactly when some step took its only one away. */
  lemma {:induction false} OrphanedIff(ps: seq<Table>, ops: seq<Op>, n: nat, ch: nat)
    requires IsRun(ps, ops) && n <= |ops| && ch < |ps[n].chans|
    ensures Orphaned(ps[n], ch) <==> exists i :: 0 <= i < n && ch < |ps[i].chans| && Orphans(ps[i], ops[i], ch)
  {
    if n > 0 {
      RunKeeps(ps[..n], ops[..n - 1]);
      assert Step(ps[n - 1], ops[n - 1], ps[n]);
      if ch < |ps[n - 1].chans| {
        OrphanedIff(ps, ops, n - 1, ch);
        OrphanedStepIff(ps[n - 1], ops[n - 1], ps[n], ch);
      } else {
        NewChannelPending(ps[n - 1], ops[n - 1], ps[n], ch);
        ChannelsStay(ps, ops, n - 1);
      }
    }
  }

  lemma NewChannelPending(p: Table, op: Op, p': Table, ch: nat)
    requires Step(p, op, p') && |p.chans| <= ch < |p'.chans|
    ensures !Orphaned(p', ch)
  {
    assert op.RegisterOp? && p'.pending[op.token].ch == ch;
  }

  lemma {:induction false} ChannelsStay(ps: seq<Table>, ops: seq<Op>, n: nat)
    requires IsRun(ps, ops) && n <= |ops|
    ensures forall i :: 0 <= i <= n ==> |ps[i].chans| <= |ps[n].chans|
  {
    if n > 0 {
      ChannelsStay(ps, ops, n - 1);
      assert Step(ps[n - 1], ops[n - 1], ps[n]);
    }
  }

  /**
   * A relay's first end that has timed out deletes whatever its session ID leads to by then. That takes
   * some other waiter's sender away exactly when the entry is not its own.
   */
  lemma RelayDeleteOrphansIff(p: Table, token: string, own: nat, p': Table)
    requires Inv(p) && Step(p, UnregisterOp(token), p')
    ensures (exists other: nat :: other != own && !Orphaned(p, other) && Orphaned(p', other))
            <==> token in p.pending && p.pending[token].ch != own
  {
    forall ch: nat | ch < |p.chans|
      ensures Orphaned(p', ch) <==> Orphaned(p, ch) || Orphans(p, UnregisterOp(token), ch)
    {
      OrphanedStepIff(p, UnregisterOp(token), p', ch);
    }
    if token in p.pending && p.pending[token].ch != own {
      var other := p.pending[token].ch;
      assert InPending(p, other) && Orphans(p, UnregisterOp(token), other);
    }
  }

  /**
   * It happens: the first end's timer fires, a second end takes its entry, a third end registers, and
   * the first one's delete hits the third one's entry while it goes on waiting.
   */
  lemma RelayDeleteHitsOther(session: string, now: int, conn: nat) returns (ps: seq<Table>, ops: seq<Op>)
    ensures IsRun(ps, ops) && ops != [] && ops[|ops| - 1] == UnregisterOp(session)
    ensures Orphaned(ps[|ops|], 1) && ps[|ops|].chans[1].waiting && !Orphaned(ps[|ops| - 1], 1)
  {
    var waiting, gone := Channel([], [], true), Channel([], [], false);
    var p1 := Table(map[session := Entry(0, now)], [waiting], map[], {});
    var p2 := p1.(chans := [gone]);
    var p3 := Table(map[], [gone], map[conn := 0], {conn});
    var p4 := Table(map[session := Entry(1, now)], [gone, waiting], map[conn := 0], {conn});
    var p5 := p4.(pending := map[]);
    ps := [NEW_TABLE, p1, p2, p3, p4, p5];
    ops := [RegisterOp(session, now), GiveUp(0), TakeOp(session, conn), RegisterOp(session, now),
            UnregisterOp(session)];
    assert Step(ps[0], ops[0], ps[1]);
    assert Step(ps[1], ops[1], ps[2]);
    assert Step(ps[2], ops[2], ps[3]);
    assert Step(ps[3], ops[3], ps[4]);
    assert Step(ps[4], ops[4], ps[5]);
    assert p4.pending[session].ch == 1;
  }

  /** The connection stays in the channel of a waiter that has given up, neither received nor closed. */
  ghost predicate Stranded(p: Table, conn: nat, ch: nat) {
    ch < |p.chans| && !p.chans[ch].waiting && Conn(conn) in p.chans[ch].buffer
  }

  /** It is sent to a waiter that has given up, or its waiter gives up with the connection in the buffer. */
  ghost predicate Strands(p: Table, op: Op, conn: nat, ch: nat) {
    && ch < |p.chans|
    && (|| (op == SendOp(conn) && conn in p.inHand && p.inHand[conn] == ch && !p.chans[ch].waiting)
        || (op == GiveUp(ch) && Conn(conn) in p.chans[ch].buffer))
  }

  lemma StrandedStepIff(p: Table, op: Op, p': Table, conn: nat, ch: nat)
    requires Inv(p) && Step(p, op, p')
    ensures Stranded(p', conn, ch) <==> Stranded(p, conn, ch) || Strands(p, op, conn, ch)
  {
    if op.SendOp? && ch < |p.chans| && p.inHand[op.conn] == ch {
      assert p'.chans[ch].buffer == p.chans[ch].buffer + [Conn(op.conn)];
    }
  }

  /**
   * Over every run an accepted connection ends up stranded exactly when it was sent to a waiter that
   * had given up, or its waiter gave up after it had been sent and before receiving it.
   */
  lemma {:induction false} StrandedIff(ps: seq<Table>, ops: seq<Op>, n: nat, conn: nat, ch: nat)
    requires IsRun(ps, ops) && n <= |ops|
    ensures Stranded(ps[n], conn, ch) <==> exists i :: 0 <= i < n && Strands(ps[i], ops[i], conn, ch)
  {
    if n > 0 {
      StrandedIff(ps, ops, n - 1, conn, ch);
      RunKeeps(ps[..n], ops[..n - 1]);
      StrandedStepIff(ps[n - 1], ops[n - 1], ps[n], conn, ch);
    }
  }

  /** Both ways occur: the waiter gives up before the send, or after it. */
  lemma StrandedBothWays(token: string, now: int, conn: nat, early: bool) returns (ps: seq<Table>, ops: seq<Op>)
    ensures IsRun(ps, ops) && ops != [] && Stranded(ps[|ops|], conn, 0)
    ensures if early then Strands(ps[|ops| - 1], SendOp(conn), conn, 0) else Strands(ps[|ops| - 1], GiveUp(0), conn, 0)
    ensures ops[|ops| - 1] == if early then SendOp(conn) else GiveUp(0)
  {
    var p1 := Table(map[token := Entry(0, now)], [Channel([], [], true)], map[], {});
    var p2 := Table(map[], [Channel([], [], true)], map[conn := 0], {conn});
    var p3 := if early then p2.(chans := [Channel([], [], false)])
              else Table(map[], [Channel([Conn(conn)], [], true)], map[], {conn});
    var p4 := Table(map[], [Channel([Conn(conn)], [], false)], map[], {conn});
    ps := [NEW_TABLE, p1, p2, p3, p4];
    ops := [RegisterOp(token, now), TakeOp(token, conn)]
           + if early then [GiveUp(0), SendOp(conn)] else [SendOp(conn), GiveUp(0)];
    assert p2.inHand - {conn} == map[];
    assert Sent(p2.chans[0], Conn(conn)) == Channel([Conn(conn)], [], true);
    assert Sent(p3.chans[0], Conn(conn)) == Channel(p3.chans[0].buffer + [Conn(conn)], [], !early);
    assert forall c: Channel, d: Channel :: [c][0 := d] == [d];
    assert Step(ps[0], ops[0], ps[1]);
    assert Step(ps[1], ops[1], ps[2]);
    assert Step(ps[2], ops[2], ps[3]);
    assert Step(ps[3], ops[3], ps[4]);
  }

  lemma {:induction false} StrandedForever(ps: seq<Table>, ops: seq<Op>, from: nat, to: nat, conn: nat, ch: nat)
    requires IsRun(ps, ops) && from <= to <= |ops| && Stranded(ps[from], conn, ch)
    ensures Stranded(ps[to], conn, ch)
  {
    if from < to {
      StrandedForever(ps, ops, from, to - 1, conn, ch);
      assert Step(ps[to - 1], ops[to - 1], ps[to]);
    }
  }

  lemma EntryUnvisited(p: Table, now: int, left: set<string>, token: string)
    requires OneShot(p) && token in left && token in p.pending
    ensures var u, ch := CleanedUp(p, now, left), p.pending[token].ch;
            && token in u.pending && u.pending[token] == p.pending[token]
            && ch < |u.chans| && u.chans[ch] == p.chans[ch]
            && p.chans[ch].buffer == []
  {
    assert Contents(p.chans[p.pending[token].ch]) == [];
  }

  lemma ChannelVisited(p: Table, now: int, left: set<string>, token: string, i: nat)
    requires OneShot(p) && token in left && token in p.pending
    ensures ExpiredChannel(p, i, now, left - {token})
            <==> ExpiredChannel(p, i, now, left) || (i == p.pending[token].ch && Expired(p, token, now))
  {}

  /** One round of cleanupExpired's loop. */
  lemma CleanupNext(p: Table, now: int, left: set<string>, token: string)
    requires OneShot(p) && token in left && token in p.pending
    ensures var u, v, ch := CleanedUp(p, now, left), CleanedUp(p, now, left - {token}), p.pending[token].ch;
            && ch < |u.chans|
            && v == if Expired(p, token, now)
                    then u.(pending := u.pending - {token}, chans := u.chans[ch := Sent(u.chans[ch], Nil)])
                    else u
  {
    var u, v, ch := CleanedUp(p, now, left), CleanedUp(p, now, left - {token}), p.pending[token].ch;
    EntryUnvisited(p, now, left, token);
    forall i: nat | i < |p.chans|
      ensures v.chans[i] == if i == ch && Expired(p, token, now) then Sent(u.chans[ch], Nil) else u.chans[i]
    {
      ChannelVisited(p, now, left, token, i);
    }
    assert v.pending == if Expired(p, token, now) then u.pending - {token} else u.pending;
    assert v.chans == if Expired(p, token, now) then u.chans[ch := Sent(u.chans[ch], Nil)] else u.chans;
  }

  function Channels(pending: map<string, Entry>): set<nat> { set token | token in pending :: pending[token].ch }

  /** Older than 60 seconds: gone, and the waiter gets nil; all others stay as they were. */
  lemma CleanupOutcome(p: Table, now: int)
    requires OneShot(p)
    ensures var q := Cleanup(p, now);
            && |q.chans| == |p.chans| && q.pending.Keys <= p.pending.Keys
            && (forall token :: token in p.pending ==>
                  p.pending[token].ch < |p.chans|
                  && if now - p.pending[token].createdAt > 60
                     then token !in q.pending && q.chans[p.pending[token].ch].buffer == [Nil]
                     else token in q.pending && q.pending[token] == p.pending[token]
                          && q.chans[p.pending[token].ch] == p.chans[p.pending[token].ch])
            && forall i :: 0 <= i < |p.chans| && i !in Channels(p.pending) ==> q.chans[i] == p.chans[i]
  {
    var q := Cleanup(p, now);
    forall token | token in p.pending
      ensures p.chans[p.pending[token].ch].buffer == []
      ensures ExpiredChannel(p, p.pending[token].ch, now, {}) <==> now - p.pending[token].createdAt > 60
    {
      assert Contents(p.chans[p.pending[token].ch]) == [];
      if now - p.pending[token].createdAt > 60 { assert token !in {} && Expired(p, token, now); }
    }
    forall i | 0 <= i < |p.chans| && i !in Channels(p.pending) ensures q.chans[i] == p.chans[i] {
      assert !ExpiredChannel(p, i, now, {});
    }
  }

  // ---------------------------------------------------------------- the object

  /** pendingMap under pendingMu, or relayPending under relayMu, with the channels made so far. */
  class Rendezvous {
    var pending: map<string, Entry>
    var chans: seq<Channel>
    ghost var inHand: map<nat, nat>
    ghost var used: set<nat>

    constructor ()
      ensures View() == NEW_TABLE
    {
      pending, chans, inHand, used := map[], [], map[], {};
    }

    ghost function View(): Table
      reads this
    {
      Table(pending, chans, inHand, used)
    }

    method RegisterPending(token: string, now: int) returns (ch: nat)
      modifies this
      ensures ch == |old(chans)| && View() == Register(old(View()), token, now)
      ensures pending == old(pending)[token := Entry(ch, now)] && chans == old(chans) + [Channel([], [], true)]
    {
      ch := |chans|;
      chans := chans + [Channel([], [], true)];
      pending := pending[token := Entry(ch, now)];
    }

    method UnregisterPending(token: string)
      modifies this`pending
      ensures View() == Unregister(old(View()), token) && pending == old(pending) - {token}
    {
      pending := pending - {token};
    }

    /** ch <- v, which must find room. */
    method Put(ch: nat, v: Value)
      requires ch < |chans| && chans[ch].buffer == []
      modifies this`chans
      ensures chans == old(chans)[ch := Sent(old(chans)[ch], v)]
      ensures chans[ch] == Channel([v], old(chans)[ch].received, old(chans)[ch].waiting)
    {
      chans := chans[ch := Sent(chans[ch], v)];
    }

    /** AcceptTunnel up to the unlock. */
    method TakePending(token: string, conn: nat) returns (entry: Option<Entry>)
      requires Inv(View()) && conn !in used
      modifies this
      ensures View() == Take(old(View()), token, conn) && Inv(View())
      ensures entry == if token in old(pending) then Some(old(pending)[token]) else None
      ensures entry.Some? ==> conn in inHand && inHand[conn] == entry.value.ch
      ensures pending == old(pending) - {token} && chans == old(chans)
    {
      TakeKeeps(View(), token, conn);
      used := used + {conn};
      if token !in pending {
        return None;
      }
      entry := Some(pending[token]);
      pending := pending - {token};
      inHand := inHand[conn := entry.value.ch];
    }

    /** The rest of AcceptTunnel: the ACK, then the hand-over; other calls may have run in between. */
    method HandOver(conn: nat, ch: nat, ackOk: bool)
      requires Inv(View()) && conn in inHand && inHand[conn] == ch
      modifies this
      ensures Inv(View())
      ensures Step(old(View()), if ackOk then SendOp(conn) else AckFails(conn), View())
      ensures pending == old(pending) && inHand == old(inHand) - {conn}
      ensures if ackOk
              then |chans| == |old(chans)| && chans[ch].buffer == [Conn(conn)]
                   && chans[ch].received == old(chans)[ch].received && chans[ch].waiting == old(chans)[ch].waiting
                   && forall i :: 0 <= i < |chans| && i != ch ==> chans[i] == old(chans)[i]
              else chans == old(chans)
    {
      if !ackOk {
        inHand := inHand - {conn};
        return;
      }
      ghost var before := View();
      assert Contents(chans[ch]) == [];
      Put(ch, Conn(conn));
      inHand := inHand - {conn};
      SendKeeps(before, conn, View());
    }

    method AcceptTunnel(token: string, conn: nat, ackOk: bool) returns (closed: bool)
      requires Inv(View()) && conn !in used
      modifies this
      ensures Inv(View()) && pending == old(pending) - {token}
      ensures closed == (token !in old(pending) || !ackOk)
      ensures chans == if closed then old(chans)
                       else old(chans)[old(pending)[token].ch := Sent(old(chans)[old(pending)[token].ch], Conn(conn))]
    {
      var entry := TakePending(token, conn);
      if entry.Some? {
        HandOver(conn, entry.value.ch, ackOk);
        return !ackOk;
      }
      return true;
    }

    /** HandleRelay up to the unlock: the first end registers, the second takes the first one's channel. */
    method ArriveAtRelay(session: string, conn: nat, now: int) returns (ch: nat, first: bool)
      requires Inv(View()) && conn !in used
      modifies this
      ensures Inv(View()) && first == (session !in old(pending))
      ensures first ==> ch == |old(chans)| && View() == Register(old(View()), session, now)
      ensures first ==>
                pending == old(pending)[session := Entry(ch, now)] && chans == old(chans) + [Channel([], [], true)]
      ensures !first ==> pending == old(pending) - {session} && chans == old(chans)
      ensures !first ==> ch == old(pending)[session].ch && View() == Take(old(View()), session, conn)
      ensures !first ==> conn in inHand && inHand[conn] == ch
    {
      if session !in pending {
        RegisterKeeps(View(), session, now);
        ch := RegisterPending(session, now);
        return ch, true;
      }
      var entry := TakePending(session, conn);
      return entry.value.ch, false;
    }

    /** cleanupExpired: every entry older than a minute gets nil and goes. */
    method CleanupExpired(now: int)
      requires Inv(View())
      modifies this`pending, this`chans
      ensures View() == Cleanup(old(View()), now) && Inv(View())
      ensures forall token :: token in old(pending) ==>
                old(pending)[token].ch < |chans| == |old(chans)|
                && if now - old(pending)[token].createdAt > 60
                   then token !in pending && chans[old(pending)[token].ch].buffer == [Nil]
                   else token in pending && pending[token] == old(pending)[token]
                        && chans[pending[token].ch] == old(chans)[pending[token].ch]
      ensures pending.Keys <= old(pending).Keys
      ensures forall i :: 0 <= i < |chans| && i !in Channels(old(pending)) ==> chans[i] == old(chans)[i]
    {
      ghost var before := View();
      var todo := pending.Keys;
      assert View() == CleanedUp(before, now, todo);
      while todo != {}
        invariant todo <= before.pending.Keys
        invariant View() == CleanedUp(before, now, todo)
      {
        var token := Pick(todo);
        EntryUnvisited(before, now, todo, token);
        CleanupNext(before, now, todo, token);
        var entry := pending[token];
        if now - entry.createdAt > EXPIRY {
          Put(entry.ch, Nil);
          pending := pending - {token};
        }
        todo := todo - {token};
      }
      CleanupKeeps(before, now);
      CleanupOutcome(before, now);
    }
  }

  // ---------------------------------------------------------------- one accept loop per proxy

  // active: activeLoops. starting: claimed, listener not looked up yet. running: the goroutines.
  datatype Loops = Loops(active: set<string>, starting: multiset<string>, running: multiset<string>)

  datatype LoopOp = Claim(key: string) | Fail(key: string) | Launch(key: string) | End(key: string)

  /** Claiming an active key changes nothing; a start that fails returns without giving its claim back. */
  ghost predicate LoopStep(s: Loops, op: LoopOp, s': Loops) {
    match op
    case Claim(key) =>
      s' == if key in s.active then s
            else s.(active := s.active + {key}, starting := s.starting + multiset{key})
    case Fail(key) => key in s.starting && s' == s.(starting := s.starting - multiset{key})
    case Launch(key) =>
      key in s.starting && s' == s.(starting := s.starting - multiset{key}, running := s.running + multiset{key})
    case End(key) => key in s.running && s' == s.(running := s.running - multiset{key}, active := s.active - {key})
  }

  ghost predicate IsLoopRun(ss: seq<Loops>, ops: seq<LoopOp>) {
    && |ss| == |ops| + 1 && ss[0] == Loops({}, multiset{}, multiset{})
    && forall i :: 0 <= i < |ops| ==> LoopStep(ss[i], ops[i], ss[i + 1])
  }

  /** No proxy has two accept loops, counting one that is about to start. */
  lemma {:induction false} OneLoopPerProxy(ss: seq<Loops>, ops: seq<LoopOp>, key: string)
    requires IsLoopRun(ss, ops)
    ensures var s := ss[|ops|]; s.starting[key] + s.running[key] <= if key in s.active then 1 else 0
  {
    if ops != [] {
      var n := |ops| - 1;
      OneLoopPerProxy(ss[..n + 1], ops[..n], key);
      OneLoopPerProxy(ss[..n + 1], ops[..n], ops[n].key);
      assert LoopStep(ss[n], ops[n], ss[n + 1]);
    }
  }

  /** Claimed, but with no loop that could ever release it. */
  ghost predicate Blocked(s: Loops, key: string) {
    key in s.active && key !in s.starting && key !in s.running
  }

  /** A claimed key is blocked for good exactly when its start failed. */
  lemma StepBlocksIff(ss: seq<Loops>, ops: seq<LoopOp>, op: LoopOp, s': Loops, key: string)
    requires IsLoopRun(ss, ops) && LoopStep(ss[|ops|], op, s')
    ensures Blocked(s', key) <==> Blocked(ss[|ops|], key) || op == Fail(key)
  {
    OneLoopPerProxy(ss, ops, key);
    OneLoopPerProxy(ss, ops, op.key);
  }

  class TunnelLoops {
    var activeLoops: set<string>
    ghost var starting: multiset<string>
    ghost var running: multiset<string>

    constructor ()
      ensures View() == Loops({}, multiset{}, multiset{})
    {
      activeLoops, starting, running := {}, multiset{}, multiset{};
    }

    ghost function View(): Loops
      reads this
    {
      Loops(activeLoops, starting, running)
    }

    /** startTunnelLoop: claim the key, look the listener up, run the loop. */
    method StartTunnelLoop(key: string, providerFound: bool, listenerFound: bool) returns (launched: bool)
      modifies this
      ensures launched == (key !in old(activeLoops) && providerFound && listenerFound)
      ensures activeLoops == old(activeLoops) + {key}
      ensures View() == if launched then Loops(activeLoops, old(starting), old(running) + multiset{key})
                        else Loops(activeLoops, old(starting), old(running))
      ensures old(key !in activeLoops && key !in starting && key !in running) ==> (Blocked(View(), key) <==> !launched)
    {
      if key in activeLoops {
        assert activeLoops == activeLoops + {key};
        return false;
      }
      activeLoops := activeLoops + {key};
      if !providerFound || !listenerFound {
        return false;
      }
      running := running + multiset{key};
      return true;
    }

    /** The loop's deferred cleanup. */
    method Release(key: string)
      requires key in running
      modifies this
      ensures LoopStep(old(View()), End(key), View())
      ensures activeLoops == old(activeLoops) - {key} && running == old(running) - multiset{key}
    {
      activeLoops := activeLoops - {key};
      running := running - multiset{key};
    }
  }
}
