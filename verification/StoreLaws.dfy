// What every run of the state store keeps (BBgrid_Server/runtime/statestore.go): the desired and the
// actual maps move in lockstep, and the port index never names a proxy that is not there.
module StoreLaws {
  import opened Wrappers
  import opened Keys
  import opened Events
  import opened StateStore

  // ---------------------------------------------------------------- invariants

  ghost predicate ProxiesKeyed(proxies: map<string, Proxy>) {
    forall k :: k in proxies ==> proxies[k].Key() == k
  }

  ghost predicate RelaysKeyed(relays: map<string, RelaySession>) {
    forall k :: k in relays ==> relays[k].spec.id == k
  }

  /** Every entry is filed under the key its fields spell. */
  ghost predicate KeyedByFields(t: Tables) {
    ProxiesKeyed(t.proxies) && RelaysKeyed(t.relays)
  }

  ghost predicate RelaysAgree(relays: map<string, RelaySession>, desired: map<string, Relay>) {
    relays.Keys == desired.Keys && forall k :: k in relays ==> relays[k].spec == desired[k]
  }

  /** Desired and actual hold the same keys with equal persisted fields. */
  ghost predicate Lockstep(t: Tables) {
    t.proxies == t.desiredProxies && RelaysAgree(t.relays, t.desiredRelays)
  }

  /** A port resolves only to a client that holds a proxy on it. */
  ghost predicate PortsSound(t: Tables) {
    PortsLead(t.portIndex, t.proxies)
  }

  ghost predicate PortsLead(portIndex: map<int, string>, proxies: map<string, Proxy>) {
    forall p :: p in portIndex ==>
      var key := ProxyKey(portIndex[p], p);
      key in proxies && proxies[key].clientID == portIndex[p] && proxies[key].remotePort == p
  }

  /** Each restorable entry of a snapshot section carries its canonical key. */
  ghost predicate CanonicalData(data: map<string, Json>) {
    && (forall k :: k in Section(data, "desired_proxies") ==>
        CanonicalProxyEntry(k, Section(data, "desired_proxies")[k]))
    && (forall k :: k in Section(data, "desired_relays") ==> CanonicalRelayEntry(k, Section(data, "desired_relays")[k]))
  }

  predicate CanonicalProxyEntry(key: string, val: Json) {
    val.JObj? && ProxyFromJson(val.fields).Valid() ==> ProxyFromJson(val.fields).Key() == key
  }

  predicate CanonicalRelayEntry(key: string, val: Json) {
    val.JObj? && RestoredRelay(val.fields).id != "" ==> RestoredRelay(val.fields).id == key
  }

  // ---------------------------------------------------------------- single steps

  lemma ApplyProxyKeeps(t: Tables, e: Event)
    requires ProxiesKeyed(t.proxies)
    ensures ProxiesKeyed(ApplyProxy(t, e).proxies)
    ensures t.proxies == t.desiredProxies ==> ApplyProxy(t, e).proxies == ApplyProxy(t, e).desiredProxies
  {
    match e.etype
    case Added =>
      if ProxyOf(e.payload).Some? {
        var p := ProxyOf(e.payload).value;
        assert ApplyProxy(t, e) == ProxyAdded(t, p);
        ProxyPutKeyed(t.proxies, p);
      }
    case Modified =>
    case Deleted => assert ApplyProxy(t, e) == ProxyDeleted(t, e.resource.name);
  }

  lemma ProxyPutKeyed(proxies: map<string, Proxy>, p: Proxy)
    requires ProxiesKeyed(proxies)
    ensures ProxiesKeyed(proxies[p.Key() := p])
  {}

  lemma RelayPutKeeps(relays: map<string, RelaySession>, desired: map<string, Relay>, s: RelaySession)
    requires RelaysKeyed(relays)
    ensures RelaysKeyed(relays[s.spec.id := s])
    ensures RelaysAgree(relays, desired) ==> RelaysAgree(relays[s.spec.id := s], desired[s.spec.id := s.spec])
  {}

  lemma RelayDropKeeps(relays: map<string, RelaySession>, desired: map<string, Relay>, id: string)
    requires RelaysKeyed(relays)
    ensures RelaysKeyed(relays - {id})
    ensures RelaysAgree(relays, desired) ==> RelaysAgree(relays - {id}, desired - {id})
  {}

  lemma ApplyRelayKeeps(t: Tables, e: Event)
    requires RelaysKeyed(t.relays)
    ensures RelaysKeyed(ApplyRelay(t, e).relays)
    ensures RelaysAgree(t.relays, t.desiredRelays) ==>
              RelaysAgree(ApplyRelay(t, e).relays, ApplyRelay(t, e).desiredRelays)
  {
    match e.etype
    case Added => if e.payload.RelayPayload? { RelayPutKeeps(t.relays, t.desiredRelays, e.payload.session); }
    case Modified =>
    case Deleted => RelayDropKeeps(t.relays, t.desiredRelays, e.resource.name);
  }

  lemma ApplyClientKeeps(t: Tables, e: Event, now: int)
    ensures var t' := ApplyClient(t, e, now);
            && t'.proxies == t.proxies && t'.desiredProxies == t.desiredProxies
            && t'.relays == t.relays && t'.desiredRelays == t.desiredRelays
            && forall p :: p in t'.portIndex ==> p in t.portIndex && t'.portIndex[p] == t.portIndex[p]
  {}

  lemma ProxyAddedKeepsPorts(t: Tables, p: Proxy)
    requires KeyedByFields(t) && PortsSound(t)
    ensures PortsSound(ProxyAdded(t, p))
  {
    forall q: int, c: string | ProxyKey(c, q) == p.Key() ensures c == p.clientID && q == p.remotePort {
      ProxyKeyInjective(c, q, p.clientID, p.remotePort);
    }
  }

  lemma ProxyDeletedKeepsPorts(t: Tables, key: string)
    requires KeyedByFields(t) && PortsSound(t)
    ensures PortsSound(ProxyDeleted(t, key))
  {
    if key in t.proxies {
      var p := t.proxies[key];
      assert p.Key() == key;
    }
  }

  lemma ApplyProxyKeepsPorts(t: Tables, e: Event)
    requires KeyedByFields(t) && PortsSound(t)
    ensures PortsSound(ApplyProxy(t, e))
  {
    match e.etype
    case Added => if ProxyOf(e.payload).Some? { ProxyAddedKeepsPorts(t, ProxyOf(e.payload).value); }
    case Modified =>
    case Deleted => ProxyDeletedKeepsPorts(t, e.resource.name);
  }

  ghost predicate Good(t: Tables) { KeyedByFields(t) && PortsSound(t) }

  lemma ClientEventKeeps(t: Tables, e: Event, now: int)
    requires Good(t)
    ensures Good(ApplyClient(t, e, now)) && (Lockstep(t) ==> Lockstep(ApplyClient(t, e, now)))
  {
    ApplyClientKeeps(t, e, now);
  }

  lemma ProxyEventKeeps(t: Tables, e: Event)
    requires Good(t)
    ensures Good(ApplyProxy(t, e)) && (Lockstep(t) ==> Lockstep(ApplyProxy(t, e)))
  {
    ApplyProxyKeeps(t, e);
    ApplyProxyKeepsPorts(t, e);
    assert ApplyProxy(t, e).relays == t.relays && ApplyProxy(t, e).desiredRelays == t.desiredRelays;
  }

  lemma RelayEventKeeps(t: Tables, e: Event)
    requires Good(t)
    ensures Good(ApplyRelay(t, e)) && (Lockstep(t) ==> Lockstep(ApplyRelay(t, e)))
  {
    ApplyRelayKeeps(t, e);
    var t' := ApplyRelay(t, e);
    assert t'.proxies == t.proxies && t'.desiredProxies == t.desiredProxies && t'.portIndex == t.portIndex;
  }

  lemma ApplyKeeps(t: Tables, e: Event, now: int)
    requires Good(t)
    ensures Good(Apply(t, e, now)) && (Lockstep(t) ==> Lockstep(Apply(t, e, now)))
  {
    ClientEventKeeps(t, e, now);
    ProxyEventKeeps(t, e);
    RelayEventKeeps(t, e);
  }

  lemma {:induction false} RestoreProxiesKeeps(t: Tables, m: map<string, Json>, order: seq<string>)
    requires forall k :: k in order ==> k in m
    requires KeyedByFields(t)
    ensures KeyedByFields(RestoreProxies(t, m, order))
    ensures PortsSound(t) ==> PortsSound(RestoreProxies(t, m, order))
    ensures Lockstep(t) && (forall k :: k in m ==> CanonicalProxyEntry(k, m[k])) ==>
              Lockstep(RestoreProxies(t, m, order))
  {
    if order != [] {
      var shorter, last := order[..|order| - 1], order[|order| - 1];
      RestoreProxiesKeeps(t, m, shorter);
      var before := RestoreProxies(t, m, shorter);
      if m[last].JObj? && PortsSound(t) {
        ProxyAddedKeepsPorts(before, ProxyFromJson(m[last].fields));
      }
    }
  }

  lemma {:induction false} RestoreRelaysKeeps(t: Tables, m: map<string, Json>, order: seq<string>)
    requires forall k :: k in order ==> k in m
    requires KeyedByFields(t)
    ensures KeyedByFields(RestoreRelays(t, m, order))
    ensures PortsSound(t) ==> PortsSound(RestoreRelays(t, m, order))
    ensures Lockstep(t) && (forall k :: k in m ==> CanonicalRelayEntry(k, m[k])) ==>
              Lockstep(RestoreRelays(t, m, order))
  {
    if order != [] {
      RestoreRelaysKeeps(t, m, order[..|order| - 1]);
    }
  }

  lemma RestoreKeeps(t: Tables, data: map<string, Json>, ps: seq<string>, rs: seq<string>, t': Tables)
    requires KeyedByFields(t) && IsRestore(t, data, ps, rs, t')
    ensures KeyedByFields(t')
    ensures PortsSound(t) ==> PortsSound(t')
    ensures Lockstep(t) && CanonicalData(data) ==> Lockstep(t')
  {
    RestoreProxiesKeeps(t, Section(data, "desired_proxies"), ps);
    RestoreRelaysKeeps(RestoreProxies(t, Section(data, "desired_proxies"), ps), Section(data, "desired_relays"), rs);
  }

  // ---------------------------------------------------------------- whole runs

  datatype StoreOp =
    | ApplyOp(e: Event, now: int)
    | RestoreOp(data: map<string, Json>, ps: seq<string>, rs: seq<string>)
    | ConnOp(clientID: string, conn: int, now: int)
    | StoreTokenOp(token: string, key: string)
    | RemoveTokenOp(token: string)

  ghost predicate StoreStep(t: Tables, op: StoreOp, t': Tables) {
    match op
    case ApplyOp(e, now) => t' == Apply(t, e, now)
    case RestoreOp(data, ps, rs) => IsRestore(t, data, ps, rs, t')
    case ConnOp(clientID, conn, now) => t' == WithConn(t, clientID, conn, now)
    case StoreTokenOp(token, key) => t' == t.(tunnelTokens := t.tunnelTokens[token := key])
    case RemoveTokenOp(token) => t' == t.(tunnelTokens := t.tunnelTokens - {token})
  }

  ghost predicate IsStoreRun(ts: seq<Tables>, ops: seq<StoreOp>) {
    && |ts| == |ops| + 1 && ts[0] == EMPTY_TABLES
    && forall i :: 0 <= i < |ops| ==> StoreStep(ts[i], ops[i], ts[i + 1])
  }

  /**
   * From NewStateStore on, over every sequence of calls: entries are filed under the keys their
   * fields spell, every indexed port leads to a proxy of the indexed client on that port, and, when
   * restored data carries canonical keys, desired and actual state agree.
   */
  lemma {:induction false} StoreRunLaws(ts: seq<Tables>, ops: seq<StoreOp>)
    requires IsStoreRun(ts, ops)
    ensures KeyedByFields(ts[|ops|]) && PortsSound(ts[|ops|])
    ensures (forall op :: op in ops && op.RestoreOp? ==> CanonicalData(op.data)) ==> Lockstep(ts[|ops|])
  {
    if ops != [] {
      var n := |ops| - 1;
      StoreRunLaws(ts[..n + 1], ops[..n]);
      assert StoreStep(ts[n], ops[n], ts[n + 1]);
      assert ops[n] in ops && forall op :: op in ops[..n] ==> op in ops;
      match ops[n]
      case ApplyOp(e, now) => ApplyKeeps(ts[n], e, now);
      case RestoreOp(data, ps, rs) => RestoreKeeps(ts[n], data, ps, rs, ts[n + 1]);
      case _ =>
    }
  }

  // ---------------------------------------------------------------- client removal

  /** After a client's DELETED event neither a port nor a tunnel token leads to it, and nobody else loses any. */
  lemma ClientGone(t: Tables, e: Event, now: int)
    requires e.resource.rtype == CLIENT && e.etype == Deleted
    ensures var c, t' := e.resource.name, Apply(t, e, now);
            && c !in t'.clients
            && (forall p :: p in t'.portIndex ==> t'.portIndex[p] != c)
            && (forall k :: k in t'.tunnelTokens ==> ClientOfKey(t'.tunnelTokens[k]) != c)
            && (forall k :: TokenOwner(t', k) ==
                            if TokenOwner(t, k).Some? && ClientOfKey(TokenOwner(t, k).value.1) != c
                            then TokenOwner(t, k) else None)
            && (forall p :: p in t.portIndex && t.portIndex[p] != c ==>
                p in t'.portIndex && t'.portIndex[p] == t.portIndex[p])
  {}
}
