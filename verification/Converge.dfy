// The feedback loop of BBgrid_Server/runtime: reconcile passes (reconcile.go) publish repairs through
// the event bus (provider.go, eventbus.go), whose worker applies them to the state store. A full queue
// loses repairs; the loop converges all the same.
module Converge {
  import opened Wrappers
  import opened Keys
  import opened Events
  import opened EventBus
  import opened StateStore
  import opened StoreLaws
  import opened Core
  import opened Reconcile

  // ---------------------------------------------------------------- the difference to repair

  /** Keys of the desired entries that reconciling considers, and of the actual ones. */
  datatype Sides = Sides(desired: set<string>, actual: set<string>)

  function Gap(s: Sides): set<string> { (s.desired - s.actual) + (s.actual - s.desired) }

  function SidesOf(t: Tables, rtype: string): Sides {
    if rtype == PROXY then Sides(ValidKeys(t.desiredProxies), t.proxies.Keys)
    else Sides(NamedKeys(t.desiredRelays), t.relays.Keys)
  }

  ghost predicate DesiredProxiesKeyed(m: map<string, Proxy>) {
    forall k :: k in m && m[k].Valid() ==> m[k].Key() == k
  }

  ghost predicate DesiredRelaysKeyed(m: map<string, Relay>) {
    forall k :: k in m && m[k].id != "" ==> m[k].id == k
  }

  /** Actual entries, and the desired ones that count, are filed under the keys their fields spell. */
  ghost predicate Keyed(t: Tables, rtype: string) {
    if rtype == PROXY then ProxiesKeyed(t.proxies) && DesiredProxiesKeyed(t.desiredProxies)
    else RelaysKeyed(t.relays) && DesiredRelaysKeyed(t.desiredRelays)
  }

  // ---------------------------------------------------------------- the provider

  function ProxyRepair(c: Call<Proxy>, id: string): Event {
    match c
    case Create(p) => Event(id, 0, 0, DefaultKey(PROXY, p.Key()), Added, ProxyPayload(p))
    case Remove(k) => Event(id, 0, 0, DefaultKey(PROXY, k), Deleted, NoPayload)
  }

  /** reconcileRelays builds the session without the token. */
  function RelayRepair(c: Call<Relay>, id: string): Event {
    match c
    case Create(r) =>
      Event(id, 0, 0, DefaultKey(RELAY, r.id), Added, RelayPayload(RelaySession(r.(token := ""), "", "", "")))
    case Remove(k) => Event(id, 0, 0, DefaultKey(RELAY, k), Deleted, NoPayload)
  }

  /** Repairs are handled like everybody's events: they keep maps, disk and log in agreement. */
  lemma RepairsCanonical(p: Call<Proxy>, r: Call<Relay>, id: string)
    ensures ForResource(ProxyRepair(p, id)) && Canonical(ProxyRepair(p, id))
    ensures ForResource(RelayRepair(r, id)) && Canonical(RelayRepair(r, id))
    ensures Restorable(ProxyRepair(p, id)) <==> p.Remove? || p.item.Valid()
    ensures Restorable(RelayRepair(r, id)) <==> r.Remove? || r.item.id != ""
  {
    assert PROXY != RELAY;
  }

  /** A repaired relay is desired as it was before exactly when it had no token. */
  lemma RelayRepairFaithfulIff(t: Tables, k: string, id: string, now: int)
    requires Keyed(t, RELAY) && k in NamedKeys(t.desiredRelays)
    ensures Apply(t, RelayRepair(Create(t.desiredRelays[k]), id), now).desiredRelays == t.desiredRelays
            <==> t.desiredRelays[k].token == ""
  {
    var r := t.desiredRelays[k];
    var e := RelayRepair(Create(r), id);
    assert Apply(t, e, now).desiredRelays == t.desiredRelays[k := r.(token := "")];
    assert t.desiredRelays[k := r] == t.desiredRelays;
  }

  // ---------------------------------------------------------------- one repair

  /** e makes its key what is desired of it, whether or not that is still to be done. */
  ghost predicate Mends(t: Tables, rtype: string, e: Event) {
    && e.resource == DefaultKey(rtype, e.resource.name)
    && if e.resource.name in SidesOf(t, rtype).desired
       then e.etype == Added && Recreates(t, rtype, e.resource.name, e.payload)
       else e.etype == Deleted
  }

  /** e is the repair of one key in the gap. */
  ghost predicate Repairs(t: Tables, rtype: string, e: Event) {
    Mends(t, rtype, e) && e.resource.name in Gap(SidesOf(t, rtype))
  }

  ghost predicate Recreates(t: Tables, rtype: string, k: string, payload: Payload)
    requires k in SidesOf(t, rtype).desired
  {
    if rtype == PROXY then payload == ProxyPayload(t.desiredProxies[k])
    else payload.RelayPayload? && payload.session.spec == t.desiredRelays[k].(token := "")
  }

  /** The desired entries that count are the same, up to the tokens of relays. */
  ghost predicate Kept(t: Tables, t': Tables, rtype: string) {
    && SidesOf(t', rtype).desired == SidesOf(t, rtype).desired
    && forall k :: k in SidesOf(t, rtype).desired ==>
         if rtype == PROXY then t'.desiredProxies[k] == t.desiredProxies[k]
         else t'.desiredRelays[k].(token := "") == t.desiredRelays[k].(token := "")
  }

  ghost predicate Repaired(t: Tables, t': Tables, rtype: string, k: string) {
    Keyed(t', rtype) && Kept(t, t', rtype) && Gap(SidesOf(t', rtype)) == Gap(SidesOf(t, rtype)) - {k}
  }

  lemma ProxyCreated(t: Tables, k: string)
    requires Keyed(t, PROXY) && k in ValidKeys(t.desiredProxies)
    ensures Repaired(t, ProxyAdded(t, t.desiredProxies[k]), PROXY, k)
  {
    var p := t.desiredProxies[k];
    assert p.Key() == k;
    ProxyPutKeyed(t.proxies, p);
    assert t.desiredProxies[k := p] == t.desiredProxies;
  }

  lemma ProxyRemoved(t: Tables, k: string)
    requires Keyed(t, PROXY) && k !in ValidKeys(t.desiredProxies)
    ensures Repaired(t, ProxyDeleted(t, k), PROXY, k)
  {
    assert ValidKeys(t.desiredProxies - {k}) == ValidKeys(t.desiredProxies);
  }

  lemma RelayCreated(t: Tables, k: string, s: RelaySession)
    requires Keyed(t, RELAY) && k in NamedKeys(t.desiredRelays)
    requires s.spec == t.desiredRelays[k].(token := "")
    ensures Repaired(t, RelayAdded(t, s), RELAY, k)
  {
    assert s.spec.id == k;
    assert NamedKeys(t.desiredRelays[k := s.spec]) == NamedKeys(t.desiredRelays);
  }

  lemma RelayRemoved(t: Tables, k: string)
    requires Keyed(t, RELAY) && k !in NamedKeys(t.desiredRelays)
    ensures Repaired(t, t.(relays := t.relays - {k}, desiredRelays := t.desiredRelays - {k}), RELAY, k)
  {
    assert NamedKeys(t.desiredRelays - {k}) == NamedKeys(t.desiredRelays);
  }

  /**
   * Applying a repair, however late, closes the gap of its key if it is still open, opens none, and
   * leaves what is desired alone.
   */
  lemma RepairCloses(t: Tables, rtype: string, e: Event, now: int)
    requires (rtype == PROXY || rtype == RELAY) && Keyed(t, rtype) && Mends(t, rtype, e)
    ensures Repaired(t, Apply(t, e, now), rtype, e.resource.name)
  {
    var k := e.resource.name;
    if rtype == PROXY {
      assert Apply(t, e, now) == ApplyProxy(t, e);
      if e.etype == Added { ProxyCreated(t, k); } else { ProxyRemoved(t, k); }
    } else {
      assert Apply(t, e, now) == ApplyRelay(t, e);
      if e.etype == Added { RelayCreated(t, k, e.payload.session); } else { RelayRemoved(t, k); }
    }
  }

  /** Other repairs, of the same key or not, stay right. */
  lemma RepairsStand(t: Tables, t': Tables, rtype: string, e: Event)
    requires Kept(t, t', rtype) && Mends(t, rtype, e)
    ensures Mends(t', rtype, e)
  {}

  /** Repairs of distinct keys, still to be made. */
  ghost predicate ToDo(t: Tables, rtype: string, es: seq<Event>) {
    && (forall i :: 0 <= i < |es| ==> Repairs(t, rtype, es[i]))
    && DistinctNames(es)
  }

  ghost predicate DistinctNames(es: seq<Event>) {
    forall i, j :: 0 <= i < j < |es| ==> es[i].resource.name != es[j].resource.name
  }

  // ---------------------------------------------------------------- what a pass publishes

  predicate NeverFails<T>(c: Call<T>) { false }

  function ProxyRepairs(calls: seq<Call<Proxy>>, ids: string -> string): (r: seq<Event>)
    ensures |r| == |calls| && forall i :: 0 <= i < |calls| ==>
              r[i] == ProxyRepair(calls[i], ids(CallKey(calls[i], KeyOfProxy)))
  {
    seq(|calls|, i requires 0 <= i < |calls| => ProxyRepair(calls[i], ids(CallKey(calls[i], KeyOfProxy))))
  }

  function RelayRepairs(calls: seq<Call<Relay>>, ids: string -> string): (r: seq<Event>)
    ensures |r| == |calls| && forall i :: 0 <= i < |calls| ==>
              r[i] == RelayRepair(calls[i], ids(CallKey(calls[i], KeyOfRelay)))
  {
    seq(|calls|, i requires 0 <= i < |calls| => RelayRepair(calls[i], ids(CallKey(calls[i], KeyOfRelay))))
  }

  lemma KeysAre<T>(desired: seq<T>, key: T -> string, wanted: seq<string>, keys: set<string>)
    requires |desired| == |wanted| && (forall i :: 0 <= i < |desired| ==> key(desired[i]) == wanted[i])
    requires Enumerates(wanted, keys)
    ensures KeysOf(desired, key) == keys && DistinctKeys(desired, key)
  {
    forall k | k in keys ensures k in KeysOf(desired, key) {
      assert k in wanted;
      var i :| 0 <= i < |wanted| && wanted[i] == k;
      assert key(desired[i]) == k;
    }
    forall k | k in KeysOf(desired, key) ensures k in keys {
      var i :| 0 <= i < |desired| && key(desired[i]) == k;
      assert wanted[i] in wanted;
    }
  }

  /** Without failures a pass calls for every key in the gap, once, and records none. */
  lemma CallsAreGap<T>(desired: seq<T>, key: T -> string, wanted: seq<string>, actual: seq<string>, s: Sides, now: int)
    requires |desired| == |wanted| && (forall i :: 0 <= i < |desired| ==> key(desired[i]) == wanted[i])
    requires Enumerates(wanted, s.desired) && Enumerates(actual, s.actual)
    ensures var r := Pass(NO_FAILURES, desired, key, actual, NeverFails, now);
            && Enumerates(CallKeys(r.calls, key), Gap(s)) && r.failures == NO_FAILURES
            && forall c :: c in r.calls ==> if c.Create? then c.item in desired else c.key !in s.desired
  {
    KeysAre(desired, key, wanted, s.desired);
    assert Elements(actual) == s.actual;
    PassAccounts(NO_FAILURES, desired, key, actual, NeverFails, now);
    assert Skipped(NO_FAILURES, s.desired, s.actual, now) == {};
    var r := Pass(NO_FAILURES, desired, key, actual, NeverFails, now);
    NoneRecorded(r.failures, desired, key, s.actual, now);
    forall c | c in r.calls ensures CallKey(c, key) in Gap(s) {
      CallKeyListed(r.calls, c, key);
    }
  }

  lemma CallKeyListed<T>(calls: seq<Call<T>>, c: Call<T>, key: T -> string)
    requires c in calls
    ensures CallKey(c, key) in CallKeys(calls, key)
  {
    var i :| 0 <= i < |calls| && calls[i] == c;
    assert CallKeys(calls, key)[i] == CallKey(c, key);
  }

  lemma NoneRecorded<T>(g: Failures, desired: seq<T>, key: T -> string, have: set<string>, now: int)
    requires AllRecorded(NO_FAILURES, g, desired, key, have, NeverFails, now)
    ensures g == NO_FAILURES
  {
    forall k ensures k !in g.count && k !in g.time {
      if k in KeysOf(desired, key) {
        var i :| 0 <= i < |desired| && key(desired[i]) == k;
        assert Recorded(NO_FAILURES, g, desired[i], key(desired[i]), have, NeverFails, now);
      } else {
        assert SameAt(NO_FAILURES, g, k);
      }
    }
  }

  lemma ProxyCallRepairs(t: Tables, desired: seq<Proxy>, wanted: seq<string>, c: Call<Proxy>, id: string)
    requires Keyed(t, PROXY) && CallKey(c, KeyOfProxy) in Gap(SidesOf(t, PROXY))
    requires Enumerates(wanted, SidesOf(t, PROXY).desired) && desired == Listed(t.desiredProxies, wanted)
    requires if c.Create? then c.item in desired else c.key !in SidesOf(t, PROXY).desired
    ensures Repairs(t, PROXY, ProxyRepair(c, id)) && ProxyRepair(c, id).resource.name == CallKey(c, KeyOfProxy)
  {
    if c.Create? {
      var i :| 0 <= i < |desired| && desired[i] == c.item;
      assert wanted[i] in wanted;
      assert t.desiredProxies[wanted[i]].Key() == wanted[i];
    }
  }

  lemma RelayCallRepairs(t: Tables, desired: seq<Relay>, wanted: seq<string>, c: Call<Relay>, id: string)
    requires Keyed(t, RELAY) && CallKey(c, KeyOfRelay) in Gap(SidesOf(t, RELAY))
    requires Enumerates(wanted, SidesOf(t, RELAY).desired) && desired == Listed(t.desiredRelays, wanted)
    requires if c.Create? then c.item in desired else c.key !in SidesOf(t, RELAY).desired
    ensures Repairs(t, RELAY, RelayRepair(c, id)) && RelayRepair(c, id).resource.name == CallKey(c, KeyOfRelay)
  {
    if c.Create? {
      var i :| 0 <= i < |desired| && desired[i] == c.item;
      assert wanted[i] in wanted;
      assert t.desiredRelays[wanted[i]].id == wanted[i];
    }
  }

  lemma ProxyPassToDo(t: Tables, wanted: seq<string>, present: seq<string>, ids: string -> string, now: int)
    requires Keyed(t, PROXY) && ProxyOrders(t, wanted, present)
    ensures var r := ProxyPass(NO_FAILURES, t, wanted, present, NeverFails, now);
            && ToDo(t, PROXY, ProxyRepairs(r.calls, ids)) && |r.calls| == |Gap(SidesOf(t, PROXY))|
            && r.failures == NO_FAILURES
  {
    var desired, s := Listed(t.desiredProxies, wanted), SidesOf(t, PROXY);
    forall i | 0 <= i < |wanted| ensures KeyOfProxy(desired[i]) == wanted[i] { assert wanted[i] in wanted; }
    forall i | 0 <= i < |present| ensures t.proxies[present[i]].Key() == present[i] { assert present[i] in present; }
    assert ProxyKeys(Listed(t.proxies, present)) == present;
    CallsAreGap(desired, KeyOfProxy, wanted, present, s, now);
    var calls := ProxyPass(NO_FAILURES, t, wanted, present, NeverFails, now).calls;
    EnumerationSize(CallKeys(calls, KeyOfProxy), Gap(s));
    var events := ProxyRepairs(calls, ids);
    forall i | 0 <= i < |calls|
      ensures Repairs(t, PROXY, events[i]) && events[i].resource.name == CallKeys(calls, KeyOfProxy)[i]
    {
      assert CallKeys(calls, KeyOfProxy)[i] in CallKeys(calls, KeyOfProxy);
      ProxyCallRepairs(t, desired, wanted, calls[i], ids(CallKey(calls[i], KeyOfProxy)));
    }
  }

  lemma RelayPassToDo(t: Tables, wanted: seq<string>, present: seq<string>, ids: string -> string, now: int)
    requires Keyed(t, RELAY) && RelayOrders(t, wanted, present)
    ensures var r := RelayPass(NO_FAILURES, t, wanted, present, NeverFails, now);
            && ToDo(t, RELAY, RelayRepairs(r.calls, ids)) && |r.calls| == |Gap(SidesOf(t, RELAY))|
            && r.failures == NO_FAILURES
  {
    var desired, s := Listed(t.desiredRelays, wanted), SidesOf(t, RELAY);
    forall i | 0 <= i < |wanted| ensures KeyOfRelay(desired[i]) == wanted[i] { assert wanted[i] in wanted; }
    forall i | 0 <= i < |present| ensures t.relays[present[i]].spec.id == present[i] { assert present[i] in present; }
    assert SessionKeys(Listed(t.relays, present)) == present;
    CallsAreGap(desired, KeyOfRelay, wanted, present, s, now);
    var calls := RelayPass(NO_FAILURES, t, wanted, present, NeverFails, now).calls;
    EnumerationSize(CallKeys(calls, KeyOfRelay), Gap(s));
    var events := RelayRepairs(calls, ids);
    forall i | 0 <= i < |calls|
      ensures Repairs(t, RELAY, events[i]) && events[i].resource.name == CallKeys(calls, KeyOfRelay)[i]
    {
      assert CallKeys(calls, KeyOfRelay)[i] in CallKeys(calls, KeyOfRelay);
      RelayCallRepairs(t, desired, wanted, calls[i], ids(CallKey(calls[i], KeyOfRelay)));
    }
  }

  // ---------------------------------------------------------------- passes and the worker beside them

  /** Store, bus, and the repairs that the pass under way has still to publish. */
  datatype Loop = Loop(t: Tables, b: Bus, rest: seq<Event>)

  /** The map orders a pass meets, the IDs it draws, and its time. */
  datatype PassInput = PassInput(wanted: seq<string>, present: seq<string>, ids: string -> string, now: int)

  datatype LoopOp = BeginPass(c: PassInput) | PublishNext | HandleNext(now: int) | Elsewhere

  ghost predicate Open(b: Bus, rtype: string) { !b.closed && rtype in b.subs }

  ghost predicate SameMaps(t: Tables, t': Tables, rtype: string) {
    if rtype == PROXY then t'.proxies == t.proxies && t'.desiredProxies == t.desiredProxies
    else t'.relays == t.relays && t'.desiredRelays == t.desiredRelays
  }

  ghost predicate Orders(t: Tables, rtype: string, c: PassInput) {
    if rtype == PROXY then ProxyOrders(t, c.wanted, c.present) else RelayOrders(t, c.wanted, c.present)
  }

  /** What the pass publishes when no failures are on record. */
  ghost function EventsOf(t: Tables, rtype: string, c: PassInput): seq<Event>
    requires Orders(t, rtype, c)
  {
    if rtype == PROXY then ProxyRepairs(ProxyPass(NO_FAILURES, t, c.wanted, c.present, NeverFails, c.now).calls, c.ids)
    else RelayRepairs(RelayPass(NO_FAILURES, t, c.wanted, c.present, NeverFails, c.now).calls, c.ids)
  }

  /** Passes follow each other, however many of their repairs are still in the queue. */
  ghost predicate LoopStep(rtype: string, r: Loop, op: LoopOp, r': Loop) {
    match op
    case BeginPass(c) => r.rest == [] && Orders(r.t, rtype, c) && r' == r.(rest := EventsOf(r.t, rtype, c))
    case PublishNext => r.rest != [] && r' == Loop(r.t, Publish(r.b, r.rest[0]), r.rest[1..])
    case HandleNext(now) =>
      && Queue(r.b.queues, rtype) != []
      && r' == Loop(Apply(r.t, Queue(r.b.queues, rtype)[0], now), Deliver(r.b, rtype), r.rest)
    case Elsewhere =>       // whatever concerns other types only
      && r'.rest == r.rest && SameMaps(r.t, r'.t, rtype)
      && Queue(r'.b.queues, rtype) == Queue(r.b.queues, rtype) && Open(r'.b, rtype)
  }

  /** No pass is under way and nothing is queued. */
  ghost predicate Idle(r: Loop, rtype: string) { r.rest == [] && Queue(r.b.queues, rtype) == [] }

  ghost predicate IsLoop(rtype: string, rs: seq<Loop>, ops: seq<LoopOp>) {
    && (rtype == PROXY || rtype == RELAY)
    && |rs| == |ops| + 1 && Idle(rs[0], rtype) && Open(rs[0].b, rtype) && Keyed(rs[0].t, rtype)
    && forall i :: 0 <= i < |ops| ==> LoopStep(rtype, rs[i], ops[i], rs[i + 1])
  }

  function Names(es: seq<Event>): set<string> { set e | e in es :: e.resource.name }

  ghost function GapOf(r: Loop, rtype: string): set<string> { Gap(SidesOf(r.t, rtype)) }

  /** The part of the gap for which no repair is queued. */
  ghost function Uncovered(r: Loop, rtype: string): set<string> { GapOf(r, rtype) - Names(Queue(r.b.queues, rtype)) }

  ghost predicate AllMend(t: Tables, rtype: string, es: seq<Event>) {
    forall e :: e in es ==> Mends(t, rtype, e)
  }

  ghost predicate LoopInv(rtype: string, r: Loop) {
    && Open(r.b, rtype) && Keyed(r.t, rtype)
    && AllMend(r.t, rtype, Queue(r.b.queues, rtype)) && AllMend(r.t, rtype, r.rest) && DistinctNames(r.rest)
  }

  /** What no step undoes: the gap shrinks, with and without counting what is queued. */
  ghost predicate Shrinks(rtype: string, r: Loop, r': Loop) {
    && Kept(r.t, r'.t, rtype) && GapOf(r', rtype) <= GapOf(r, rtype)
    && Uncovered(r', rtype) <= Uncovered(r, rtype)
  }

  lemma MendAgain(t: Tables, t': Tables, rtype: string, es: seq<Event>)
    requires Kept(t, t', rtype) && AllMend(t, rtype, es)
    ensures AllMend(t', rtype, es)
  {
    forall e | e in es ensures Mends(t', rtype, e) { RepairsStand(t, t', rtype, e); }
  }

  /** Publishing appends the next repair to the queue, or drops it when 256 are there. */
  lemma PublishMoves(rtype: string, r: Loop, r': Loop)
    requires LoopStep(rtype, r, PublishNext, r') && Open(r.b, rtype) && r.rest[0].resource.rtype == rtype
    ensures var q, q' := Queue(r.b.queues, rtype), Queue(r'.b.queues, rtype);
            && Open(r'.b, rtype) && r'.t == r.t && r'.rest == r.rest[1..]
            && q' == if |q| < QUEUE_SIZE then q + [r.rest[0].(sequence := r.b.seqNo + 1)] else q
  {}

  lemma PublishStepKeeps(rtype: string, r: Loop, r': Loop)
    requires LoopInv(rtype, r) && LoopStep(rtype, r, PublishNext, r')
    ensures LoopInv(rtype, r') && Shrinks(rtype, r, r')
  {
    var e := r.rest[0];
    assert Mends(r.t, rtype, e);
    PublishMoves(rtype, r, r');
    assert Mends(r.t, rtype, e.(sequence := r.b.seqNo + 1));
    forall x | x in Queue(r.b.queues, rtype) ensures x in Queue(r'.b.queues, rtype) {}
    assert forall i :: 0 <= i < |r'.rest| ==> r'.rest[i] == r.rest[i + 1];
  }

  lemma HandleMoves(rtype: string, r: Loop, now: int, r': Loop)
    requires LoopStep(rtype, r, HandleNext(now), r') && Open(r.b, rtype)
    ensures var q := Queue(r.b.queues, rtype);
            && Open(r'.b, rtype) && r'.rest == r.rest && r'.t == Apply(r.t, q[0], now)
            && Queue(r'.b.queues, rtype) == q[1..]
  {}

  lemma HandleStepKeeps(rtype: string, r: Loop, now: int, r': Loop)
    requires rtype == PROXY || rtype == RELAY
    requires LoopInv(rtype, r) && LoopStep(rtype, r, HandleNext(now), r')
    ensures LoopInv(rtype, r') && Shrinks(rtype, r, r')
  {
    var q := Queue(r.b.queues, rtype);
    HandleMoves(rtype, r, now, r');
    assert Mends(r.t, rtype, q[0]);
    RepairCloses(r.t, rtype, q[0], now);
    MendAgain(r.t, r'.t, rtype, r.rest);
    MendAgain(r.t, r'.t, rtype, q);
    NamesTail(q);
  }

  lemma NamesTail(q: seq<Event>)
    requires q != []
    ensures Names(q) == Names(q[1..]) + {q[0].resource.name}
  {
    assert forall e :: e in q <==> e in q[1..] || e == q[0];
  }

  lemma ElsewhereKeeps(rtype: string, r: Loop, r': Loop)
    requires LoopInv(rtype, r) && LoopStep(rtype, r, Elsewhere, r')
    ensures LoopInv(rtype, r') && Shrinks(rtype, r, r')
  {
    assert SidesOf(r'.t, rtype) == SidesOf(r.t, rtype);
    MendAgain(r.t, r'.t, rtype, r.rest);
    MendAgain(r.t, r'.t, rtype, Queue(r.b.queues, rtype));
  }

  /** A pass publishes one repair for each key in the gap. */
  lemma PassRepairs(t: Tables, rtype: string, c: PassInput)
    requires (rtype == PROXY || rtype == RELAY) && Keyed(t, rtype) && Orders(t, rtype, c)
    ensures var es := EventsOf(t, rtype, c);
            && ToDo(t, rtype, es) && AllMend(t, rtype, es) && |es| == |Gap(SidesOf(t, rtype))|
            && Names(es) == Gap(SidesOf(t, rtype))
  {
    if rtype == PROXY {
      ProxyPassToDo(t, c.wanted, c.present, c.ids, c.now);
    } else {
      RelayPassToDo(t, c.wanted, c.present, c.ids, c.now);
    }
    var es := EventsOf(t, rtype, c);
    NamesSize(es);
    forall e | e in es ensures Repairs(t, rtype, e) {
      var i :| 0 <= i < |es| && es[i] == e;
    }
    SameSize(Names(es), Gap(SidesOf(t, rtype)));
  }

  lemma {:induction false} NamesSize(es: seq<Event>)
    requires DistinctNames(es)
    ensures |Names(es)| == |es|
  {
    if es != [] {
      NamesSize(es[1..]);
      NamesTail(es);
      forall e | e in es[1..] ensures e.resource.name != es[0].resource.name {
        var i :| 0 <= i < |es[1..]| && es[1..][i] == e;
        assert es[i + 1] == e;
      }
    }
  }

  lemma SameSize<T>(a: set<T>, b: set<T>)
    requires a <= b && |a| == |b|
    ensures a == b
  {
    assert |b - a| == |b| - |a|;
  }

  lemma BeginStepKeeps(rtype: string, r: Loop, c: PassInput, r': Loop)
    requires rtype == PROXY || rtype == RELAY
    requires LoopInv(rtype, r) && LoopStep(rtype, r, BeginPass(c), r')
    ensures LoopInv(rtype, r') && Shrinks(rtype, r, r')
  {
    PassRepairs(r.t, rtype, c);
  }

  lemma LoopStepKeeps(rtype: string, r: Loop, op: LoopOp, r': Loop)
    requires (rtype == PROXY || rtype == RELAY) && LoopInv(rtype, r) && LoopStep(rtype, r, op, r')
    ensures LoopInv(rtype, r') && Shrinks(rtype, r, r')
  {
    match op
    case BeginPass(c) => BeginStepKeeps(rtype, r, c, r');
    case PublishNext => PublishStepKeeps(rtype, r, r');
    case HandleNext(now) => HandleStepKeeps(rtype, r, now, r');
    case Elsewhere => ElsewhereKeeps(rtype, r, r');
  }

  lemma KeptTwice(t: Tables, u: Tables, v: Tables, rtype: string)
    requires Kept(t, u, rtype) && Kept(u, v, rtype)
    ensures Kept(t, v, rtype)
  {}

  lemma ShrinksTwice(rtype: string, r: Loop, u: Loop, v: Loop)
    requires Shrinks(rtype, r, u) && Shrinks(rtype, u, v)
    ensures Shrinks(rtype, r, v)
  {
    KeptTwice(r.t, u.t, v.t, rtype);
  }

  lemma {:induction false} LoopKeeps(rtype: string, rs: seq<Loop>, ops: seq<LoopOp>, i: nat)
    requires IsLoop(rtype, rs, ops) && i <= |ops|
    ensures LoopInv(rtype, rs[i])
  {
    if i > 0 {
      LoopKeeps(rtype, rs, ops, i - 1);
      LoopStepKeeps(rtype, rs[i - 1], ops[i - 1], rs[i]);
    }
  }

  /**
   * In every run of the loop, passes overlapping with the handling of older repairs, the gap never
   * grows, nor does the part of it that has no repair queued, and what is desired stays.
   */
  lemma {:induction false} GapNeverGrows(rtype: string, rs: seq<Loop>, ops: seq<LoopOp>, i: nat, j: nat)
    requires IsLoop(rtype, rs, ops) && i <= j <= |ops|
    ensures Shrinks(rtype, rs[i], rs[j])
  {
    if i < j {
      GapNeverGrows(rtype, rs, ops, i, j - 1);
      LoopKeeps(rtype, rs, ops, j - 1);
      LoopStepKeeps(rtype, rs[j - 1], ops[j - 1], rs[j]);
      ShrinksTwice(rtype, rs[i], rs[j - 1], rs[j]);
    }
  }

  // ---------------------------------------------------------------- what one pass gains

  /** The loop by its keys: to be repaired, queued (in so many events), still to be published. */
  datatype Backlog = Backlog(gap: set<string>, queued: set<string>, length: nat, rest: set<string>)

  function BacklogOf(r: Loop, rtype: string): Backlog {
    var q := Queue(r.b.queues, rtype);
    Backlog(Gap(SidesOf(r.t, rtype)), Names(q), |q|, Names(r.rest))
  }

  ghost predicate BacklogStep(y: Backlog, y': Backlog) {
    || (y.rest == {} && y' == y.(rest := y.gap))
    || (exists k :: k in y.rest && PublishedKey(y, k, y'))
    || (exists k :: HandledKey(y, k, y'))
    || y' == y
  }

  ghost predicate IsBacklog(ys: seq<Backlog>) {
    forall i :: 0 <= i < |ys| - 1 ==> BacklogStep(ys[i], ys[i + 1])
  }

  ghost predicate PublishedKey(y: Backlog, k: string, y': Backlog) {
    y' == if y.length < QUEUE_SIZE then Backlog(y.gap, y.queued + {k}, y.length + 1, y.rest - {k})
          else y.(rest := y.rest - {k})
  }

  ghost predicate HandledKey(y: Backlog, k: string, y': Backlog) {
    && y'.gap == y.gap - {k} && y.queued - {k} <= y'.queued <= y.queued
    && y'.length + 1 == y.length && y'.rest == y.rest
  }

  /** The room that a pass beginning now finds for keys not yet queued, whatever order it publishes in. */
  function Room(y: Backlog): int { QUEUE_SIZE - y.length - |y.gap * y.queued| }

  /** m less n, but not below zero, and not more for a negative n. */
  function Minus(m: int, n: int): int { if n >= m then 0 else if n < 0 then m else m - n }

  /** The pass that began at y has covered as much more as there was room for. */
  ghost predicate Gained(y: Backlog, z: Backlog) {
    z.gap - z.queued <= y.gap - y.queued && |z.gap - z.queued| <= Minus(|y.gap - y.queued|, Room(y))
  }

  /**
   * Midway through the pass that began at y: `taken` are the keys whose repairs the queue took. They are
   * all that were published, or at least as many as the queue had room for.
   */
  ghost predicate Midway(y: Backlog, taken: set<string>, z: Backlog) {
    && z.rest <= y.gap && taken <= y.gap - z.rest
    && taken !! z.gap - z.queued && z.gap - z.queued <= y.gap - y.queued
    && z.length <= y.length + |taken|
    && (taken == y.gap - z.rest || |taken| >= QUEUE_SIZE - y.length)
  }

  lemma MidwayPublished(y: Backlog, taken: set<string>, z: Backlog, k: string, z': Backlog)
    returns (taken': set<string>)
    requires Midway(y, taken, z) && k in z.rest && PublishedKey(z, k, z')
    ensures Midway(y, taken', z')
  {
    taken' := if z.length < QUEUE_SIZE then taken + {k} else taken;
  }

  /** At its end the pass has gained what it could. */
  lemma MidwayEnds(y: Backlog, taken: set<string>, z: Backlog)
    requires Midway(y, taken, z) && z.rest == {}
    ensures Gained(y, z)
  {
    var before, again, after := y.gap - y.queued, y.gap * y.queued, z.gap - z.queued;
    SubsetSize(after, before);
    if taken == y.gap {
      assert after == {};
    } else {
      assert taken == taken * before + (taken - before);
      SubsetSize(taken - before, again);
      SubsetSize(after, before - taken * before);
    }
  }

  lemma SubsetSize<T>(a: set<T>, b: set<T>)
    requires a <= b
    ensures |a| <= |b|
  {
    assert b == a + (b - a);
  }

  lemma GainedStays(y: Backlog, z: Backlog, z': Backlog)
    requires Gained(y, z) && BacklogStep(z, z')
    ensures Gained(y, z')
  {
    SubsetSize(z'.gap - z'.queued, z.gap - z.queued);
  }

  lemma MidwayStep(y: Backlog, taken: set<string>, z: Backlog, z': Backlog) returns (taken': set<string>)
    requires Midway(y, taken, z) && BacklogStep(z, z')
    ensures Gained(y, z') || Midway(y, taken', z')
  {
    taken' := taken;
    if z.rest == {} {
      MidwayEnds(y, taken, z);
      GainedStays(y, z, z');
    } else if k :| k in z.rest && PublishedKey(z, k, z') {
      taken' := MidwayPublished(y, taken, z, k, z');
    }
  }

  lemma {:induction false} GainingOn(y: Backlog, zs: seq<Backlog>) returns (taken: set<string>)
    requires zs != [] && zs[0] == y.(rest := y.gap) && y.rest == {}
    requires IsBacklog(zs)
    ensures Gained(y, zs[|zs| - 1]) || Midway(y, taken, zs[|zs| - 1])
  {
    var n := |zs| - 1;
    if n == 0 {
      taken := {};
    } else {
      taken := GainingOn(y, zs[..n]);
      assert BacklogStep(zs[n - 1], zs[n]);
      if Gained(y, zs[n - 1]) {
        GainedStays(y, zs[n - 1], zs[n]);
      } else {
        taken := MidwayStep(y, taken, zs[n - 1], zs[n]);
      }
    }
  }

  // ---------------------------------------------------------------- the loop keeps its backlog

  lemma NamesPush(es: seq<Event>, e: Event)
    ensures Names(es + [e]) == Names(es) + {e.resource.name}
  {
    assert forall x :: x in es + [e] <==> x in es || x == e;
  }

  lemma NextName(es: seq<Event>)
    requires DistinctNames(es) && es != []
    ensures Names(es[1..]) == Names(es) - {es[0].resource.name}
    ensures DistinctNames(es[1..])
  {
    NamesTail(es);
    forall e | e in es[1..] ensures e.resource.name != es[0].resource.name {
      var i :| 0 <= i < |es[1..]| && es[1..][i] == e;
      assert es[i + 1] == e;
    }
  }

  lemma PublishBacklog(rtype: string, r: Loop, r': Loop)
    requires LoopInv(rtype, r) && LoopStep(rtype, r, PublishNext, r')
    ensures DistinctNames(r'.rest)
    ensures r.rest[0].resource.name in BacklogOf(r, rtype).rest
    ensures PublishedKey(BacklogOf(r, rtype), r.rest[0].resource.name, BacklogOf(r', rtype))
  {
    var e, q := r.rest[0], Queue(r.b.queues, rtype);
    assert Mends(r.t, rtype, e);
    PublishMoves(rtype, r, r');
    NamesPush(q, e.(sequence := r.b.seqNo + 1));
    NextName(r.rest);
    NamesTail(r.rest);
  }

  lemma HandleBacklog(rtype: string, r: Loop, now: int, r': Loop)
    requires rtype == PROXY || rtype == RELAY
    requires LoopInv(rtype, r) && LoopStep(rtype, r, HandleNext(now), r')
    ensures HandledKey(BacklogOf(r, rtype), Queue(r.b.queues, rtype)[0].resource.name, BacklogOf(r', rtype))
  {
    var q := Queue(r.b.queues, rtype);
    HandleMoves(rtype, r, now, r');
    assert Mends(r.t, rtype, q[0]);
    RepairCloses(r.t, rtype, q[0], now);
    NamesTail(q);
  }

  lemma BeginBacklog(rtype: string, r: Loop, c: PassInput, r': Loop)
    requires rtype == PROXY || rtype == RELAY
    requires LoopInv(rtype, r) && LoopStep(rtype, r, BeginPass(c), r')
    ensures DistinctNames(r'.rest) && BacklogOf(r, rtype).rest == {}
    ensures BacklogOf(r', rtype) == BacklogOf(r, rtype).(rest := BacklogOf(r, rtype).gap)
  {
    PassRepairs(r.t, rtype, c);
  }

  lemma LoopBacklog(rtype: string, r: Loop, op: LoopOp, r': Loop)
    requires (rtype == PROXY || rtype == RELAY) && LoopInv(rtype, r) && LoopStep(rtype, r, op, r')
    ensures DistinctNames(r'.rest) && BacklogStep(BacklogOf(r, rtype), BacklogOf(r', rtype))
  {
    match op
    case BeginPass(c) => BeginBacklog(rtype, r, c, r');
    case PublishNext => PublishBacklog(rtype, r, r');
    case HandleNext(now) => HandleBacklog(rtype, r, now, r');
    case Elsewhere =>
      assert SidesOf(r'.t, rtype) == SidesOf(r.t, rtype);
      assert BacklogOf(r', rtype) == BacklogOf(r, rtype);
  }

  /** Backlogs of the run from i to j. */
  ghost function Backlogs(rtype: string, rs: seq<Loop>, i: nat, j: nat): (ys: seq<Backlog>)
    requires i <= j < |rs|
    ensures |ys| == j - i + 1 && ys[0] == BacklogOf(rs[i], rtype) && ys[|ys| - 1] == BacklogOf(rs[j], rtype)
  {
    seq(j - i + 1, k requires 0 <= k < j - i + 1 => BacklogOf(rs[i + k], rtype))
  }

  lemma RunBacklogs(rtype: string, rs: seq<Loop>, ops: seq<LoopOp>, i: nat, j: nat)
    requires IsLoop(rtype, rs, ops) && i <= j <= |ops|
    ensures IsBacklog(Backlogs(rtype, rs, i, j))
  {
    var ys := Backlogs(rtype, rs, i, j);
    forall k | 0 <= k < |ys| - 1 ensures BacklogStep(ys[k], ys[k + 1]) {
      LoopKeeps(rtype, rs, ops, i + k);
      LoopBacklog(rtype, rs[i + k], ops[i + k], rs[i + k + 1]);
    }
  }

  /**
   * What any pass gains, also one that begins while older repairs are queued: whenever later the loop is
   * idle, that many more gaps have been closed as the queue had room for when the pass began, or all.
   */
  lemma PassGains(rtype: string, rs: seq<Loop>, ops: seq<LoopOp>, i: nat, j: nat)
    requires IsLoop(rtype, rs, ops) && i < j <= |ops| && ops[i].BeginPass? && Idle(rs[j], rtype)
    ensures var y := BacklogOf(rs[i], rtype);
            |BacklogOf(rs[j], rtype).gap| <= Minus(|y.gap - y.queued|, Room(y))
  {
    var y, zs, z := PassBacklogs(rtype, rs, ops, i, j);
    BacklogGains(y, zs, z);
  }

  lemma PassBacklogs(rtype: string, rs: seq<Loop>, ops: seq<LoopOp>, i: nat, j: nat)
    returns (y: Backlog, zs: seq<Backlog>, z: Backlog)
    requires IsLoop(rtype, rs, ops) && i < j <= |ops| && ops[i].BeginPass? && Idle(rs[j], rtype)
    ensures y == BacklogOf(rs[i], rtype) && z == BacklogOf(rs[j], rtype) && IsBacklog(zs)
    ensures zs != [] && zs[0] == y.(rest := y.gap) && y.rest == {} && zs[|zs| - 1] == z
    ensures z.rest == {} && z.queued == {}
  {
    y, zs, z := BacklogOf(rs[i], rtype), Backlogs(rtype, rs, i + 1, j), BacklogOf(rs[j], rtype);
    PassBegins(rtype, rs, ops, i);
    RunBacklogs(rtype, rs, ops, i + 1, j);
    NothingLeft(rs[j], rtype);
  }

  lemma PassBegins(rtype: string, rs: seq<Loop>, ops: seq<LoopOp>, i: nat)
    requires IsLoop(rtype, rs, ops) && i < |ops| && ops[i].BeginPass?
    ensures BacklogOf(rs[i], rtype).rest == {}
    ensures BacklogOf(rs[i + 1], rtype) == BacklogOf(rs[i], rtype).(rest := BacklogOf(rs[i], rtype).gap)
  {
    LoopKeeps(rtype, rs, ops, i);
    assert LoopStep(rtype, rs[i], ops[i], rs[i + 1]);
    BeginBacklog(rtype, rs[i], ops[i].c, rs[i + 1]);
  }

  lemma NothingLeft(r: Loop, rtype: string)
    requires Idle(r, rtype)
    ensures BacklogOf(r, rtype).rest == {} && BacklogOf(r, rtype).queued == {}
  {}

  lemma NoNames(r: Loop, rtype: string)
    requires Idle(r, rtype)
    ensures BacklogOf(r, rtype) == Backlog(GapOf(r, rtype), {}, 0, {}) && Uncovered(r, rtype) == GapOf(r, rtype)
  {
    assert Names([]) == {};
  }

  lemma BacklogGains(y: Backlog, zs: seq<Backlog>, z: Backlog)
    requires zs != [] && zs[0] == y.(rest := y.gap) && y.rest == {} && zs[|zs| - 1] == z
    requires IsBacklog(zs)
    requires z.rest == {} && z.queued == {}
    ensures |z.gap| <= Minus(|y.gap - y.queued|, Room(y))
  {
    var taken := GainingOn(y, zs);
    if Midway(y, taken, z) { MidwayEnds(y, taken, z); }
    assert z.gap - z.queued == z.gap;
  }

  // ---------------------------------------------------------------- convergence

  /** What is left of a gap of m after n times, at most. */
  function Left(m: int, n: int): int { if QUEUE_SIZE * n >= m then 0 else m - QUEUE_SIZE * n }

  /** Moments of the run, in order, at which a pass begins with the queue empty. */
  ghost predicate IdleStarts(rtype: string, rs: seq<Loop>, ops: seq<LoopOp>, at: seq<nat>)
    requires IsLoop(rtype, rs, ops)
  {
    && (forall i :: 0 <= i < |at| ==> at[i] < |ops| && ops[at[i]].BeginPass? && Idle(rs[at[i]], rtype))
    && (forall i :: 0 <= i < |at| - 1 ==> at[i] < at[i + 1])
  }

  lemma IdleGain(rtype: string, rs: seq<Loop>, ops: seq<LoopOp>, i: nat, j: nat)
    requires IsLoop(rtype, rs, ops) && i < j <= |ops| && ops[i].BeginPass?
    requires Idle(rs[i], rtype) && Idle(rs[j], rtype)
    ensures |GapOf(rs[j], rtype)| <= Minus(|GapOf(rs[i], rtype)|, QUEUE_SIZE)
  {
    PassGains(rtype, rs, ops, i, j);
    NoNames(rs[i], rtype);
    NoNames(rs[j], rtype);
    assert GapOf(rs[i], rtype) * {} == {} && GapOf(rs[i], rtype) - {} == GapOf(rs[i], rtype);
  }

  lemma {:induction false} IdleGains(rtype: string, rs: seq<Loop>, ops: seq<LoopOp>, at: seq<nat>, n: nat, end: nat)
    requires IsLoop(rtype, rs, ops) && IdleStarts(rtype, rs, ops, at) && n < |at|
    requires at[n] <= end <= |ops| && Idle(rs[end], rtype)
    ensures |GapOf(rs[end], rtype)| <= Left(|GapOf(rs[at[0]], rtype)|, if end == at[n] then n else n + 1)
    decreases n, end
  {
    if end > at[n] {
      IdleGains(rtype, rs, ops, at, n, at[n]);
      IdleGain(rtype, rs, ops, at[n], end);
    } else if n > 0 {
      IdleGains(rtype, rs, ops, at, n - 1, at[n]);
    }
  }

  /**
   * In every run of the loop, from any tables with canonical keys: after ceil(m / 256) passes that began
   * with the queue empty, with any others begun while repairs were queued, the next time the loop is
   * idle actual and desired keys are equal, and the desired entries are what they were, up to the
   * tokens of relays.
   */
  lemma Converges(rtype: string, rs: seq<Loop>, ops: seq<LoopOp>, at: seq<nat>, end: nat)
    requires IsLoop(rtype, rs, ops) && IdleStarts(rtype, rs, ops, at) && at != []
    requires at[|at| - 1] < end <= |ops| && Idle(rs[end], rtype)
    ensures Kept(rs[0].t, rs[end].t, rtype)
    ensures |GapOf(rs[end], rtype)| <= Left(|GapOf(rs[at[0]], rtype)|, |at|)
    ensures QUEUE_SIZE * |at| >= |GapOf(rs[0], rtype)| ==>
              SidesOf(rs[end].t, rtype).actual == SidesOf(rs[0].t, rtype).desired
  {
    IdleGains(rtype, rs, ops, at, |at| - 1, end);
    GapNeverGrows(rtype, rs, ops, 0, end);
    GapNeverGrows(rtype, rs, ops, 0, at[0]);
    SubsetSize(GapOf(rs[at[0]], rtype), GapOf(rs[0], rtype));
    NoGapMeansEqual(SidesOf(rs[end].t, rtype));
  }

  lemma NoGapMeansEqual(s: Sides)
    ensures |Gap(s)| == 0 ==> s.actual == s.desired
  {
    if |Gap(s)| == 0 {
      assert Gap(s) == {};
      assert forall k :: k in s.actual && k !in s.desired ==> k in Gap(s);
      assert forall k :: k in s.desired && k !in s.actual ==> k in Gap(s);
    }
  }

  /**
   * Once the keys agree and the loop is idle, it stays idle: passes publish nothing, no event of the type
   * is handled, and so none triggers another pass.
   */
  lemma {:induction false} StaysQuiet(rtype: string, rs: seq<Loop>, ops: seq<LoopOp>, i: nat, j: nat)
    requires IsLoop(rtype, rs, ops) && i <= j <= |ops|
    requires Idle(rs[i], rtype) && SidesOf(rs[i].t, rtype).actual == SidesOf(rs[i].t, rtype).desired
    ensures Idle(rs[j], rtype) && GapOf(rs[j], rtype) == {}
    ensures forall k :: i <= k < j ==> ops[k].BeginPass? || ops[k].Elsewhere?
  {
    assert GapOf(rs[i], rtype) == {};
    if i < j {
      StaysQuiet(rtype, rs, ops, i, j - 1);
      LoopKeeps(rtype, rs, ops, j - 1);
      QuietStep(rtype, rs[j - 1], ops[j - 1], rs[j]);
    }
  }

  lemma QuietStep(rtype: string, r: Loop, op: LoopOp, r': Loop)
    requires (rtype == PROXY || rtype == RELAY) && LoopInv(rtype, r) && LoopStep(rtype, r, op, r')
    requires Idle(r, rtype) && GapOf(r, rtype) == {}
    ensures Idle(r', rtype) && GapOf(r', rtype) == {} && (op.BeginPass? || op.Elsewhere?)
  {
    LoopStepKeeps(rtype, r, op, r');
    if op.BeginPass? { PassRepairs(r.t, rtype, op.c); }
  }

  /** Where desired and actual state are in lockstep, only invalid entries are left to repair. */
  lemma LockstepGap(t: Tables)
    requires KeyedByFields(t) && Lockstep(t)
    ensures Keyed(t, PROXY) && Keyed(t, RELAY)
    ensures Gap(SidesOf(t, PROXY)) == set k | k in t.proxies && !t.proxies[k].Valid()
    ensures Gap(SidesOf(t, RELAY)) == set k | k in t.relays && k == ""
  {
    assert forall k :: k in t.relays ==> t.relays[k].spec == t.desiredRelays[k] && t.relays[k].spec.id == k;
  }
}
