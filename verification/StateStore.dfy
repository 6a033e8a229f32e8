// The event-driven state store of BBgrid_Server/runtime/statestore.go.
module StateStore {
  import opened Wrappers
  import opened Keys
  import opened Events

  datatype Client = Client(
    clientID: string, conn: Option<int>, remoteAddr: string, connectedAt: int, host: string, latency: int)

  /** The seven maps of the store. */
  datatype Tables = Tables(
    clients: map<string, Client>,
    proxies: map<string, Proxy>,
    relays: map<string, RelaySession>,
    portIndex: map<int, string>,
    desiredProxies: map<string, Proxy>,
    desiredRelays: map<string, Relay>,
    tunnelTokens: map<string, string>)

  const EMPTY_TABLES := Tables(map[], map[], map[], map[], map[], map[], map[])

  // ---------------------------------------------------------------- Apply

  function ClientAdded(clients: map<string, Client>, clientID: string, m: map<string, Json>,
                       now: int): map<string, Client> {
    var remoteAddr, host := StrField(m, "remote_addr"), StrField(m, "host");
    if clientID in clients && clients[clientID].conn.Some?
    then clients[clientID := clients[clientID].(remoteAddr := remoteAddr, host := host)]
    else clients[clientID := Client(clientID, None, remoteAddr, now, host, 0)]
  }

  function ClientModified(c: Client, m: map<string, Json>): Client {
    c.(host := if "host" in m && m["host"].JStr? then m["host"].s else c.host,
       latency := if "latency" in m && m["latency"].JNum? then m["latency"].n else c.latency)
  }

  function ClientsAfter(clients: map<string, Client>, e: Event, now: int): map<string, Client> {
    var clientID := e.resource.name;
    if e.etype == Deleted then clients - {clientID}
    else if !e.payload.JsonPayload? || !e.payload.json.JObj? then clients
    else if e.etype == Added then ClientAdded(clients, clientID, e.payload.json.fields, now)
    else if clientID in clients then clients[clientID := ClientModified(clients[clientID], e.payload.json.fields)]
    else clients
  }

  function PortsWithout(portIndex: map<int, string>, clientID: string): map<int, string> {
    map p | p in portIndex && portIndex[p] != clientID :: portIndex[p]
  }

  function TokensWithout(tokens: map<string, string>, clientID: string): map<string, string> {
    map k | k in tokens && ClientOfKey(tokens[k]) != clientID :: tokens[k]
  }

  function ApplyClient(t: Tables, e: Event, now: int): Tables {
    t.(clients := ClientsAfter(t.clients, e, now),
       portIndex := if e.etype == Deleted then PortsWithout(t.portIndex, e.resource.name) else t.portIndex,
       tunnelTokens := if e.etype == Deleted then TokensWithout(t.tunnelTokens, e.resource.name) else t.tunnelTokens)
  }

  function ProxyAdded(t: Tables, p: Proxy): Tables {
    t.(proxies := t.proxies[p.Key() := p], portIndex := t.portIndex[p.remotePort := p.clientID],
       desiredProxies := t.desiredProxies[p.Key() := p])
  }

  function ProxyDeleted(t: Tables, key: string): Tables {
    t.(portIndex := if key in t.proxies then t.portIndex - {t.proxies[key].remotePort} else t.portIndex,
       proxies := t.proxies - {key}, desiredProxies := t.desiredProxies - {key})
  }

  function ApplyProxy(t: Tables, e: Event): Tables {
    match e.etype
    case Added => (match ProxyOf(e.payload) case None => t case Some(p) => ProxyAdded(t, p))
    case Modified => t
    case Deleted => ProxyDeleted(t, e.resource.name)
  }

  function RelayAdded(t: Tables, s: RelaySession): Tables {
    t.(relays := t.relays[s.spec.id := s], desiredRelays := t.desiredRelays[s.spec.id := s.spec])
  }

  function ApplyRelay(t: Tables, e: Event): Tables {
    match e.etype
    case Added => if e.payload.RelayPayload? then RelayAdded(t, e.payload.session) else t
    case Modified => t
    case Deleted => t.(relays := t.relays - {e.resource.name}, desiredRelays := t.desiredRelays - {e.resource.name})
  }

  function Apply(t: Tables, e: Event, now: int): Tables {
    if e.resource.rtype == CLIENT then ApplyClient(t, e, now)
    else if e.resource.rtype == PROXY then ApplyProxy(t, e)
    else if e.resource.rtype == RELAY then ApplyRelay(t, e)
    else t
  }

  /** payload.(map[string]any) */
  function ObjectOf(payload: Payload): Option<map<string, Json>> {
    match payload case JsonPayload(JObj(m)) => Some(m) case _ => None
  }

  // ---------------------------------------------------------------- Restore

  /** One entry of "desired_proxies": filed in desiredProxies under its given key. */
  function RestoreProxy(t: Tables, key: string, val: Json): Tables {
    if !val.JObj? || !ProxyFromJson(val.fields).Valid() then t
    else
      var p := ProxyFromJson(val.fields);
      t.(desiredProxies := t.desiredProxies[key := p], proxies := t.proxies[p.Key() := p],
         portIndex := t.portIndex[p.remotePort := p.clientID])
  }

  function RestoreRelay(t: Tables, key: string, val: Json): Tables {
    if !val.JObj? || RestoredRelay(val.fields).id == "" then t
    else
      var r := RestoredRelay(val.fields);
      t.(desiredRelays := t.desiredRelays[key := r], relays := t.relays[r.id := RelaySession(r, "", "", "")])
  }

  /** The loop over the snapshot's proxies, in the order the map yields them. */
  function RestoreProxies(t: Tables, m: map<string, Json>, order: seq<string>): Tables
    requires forall k :: k in order ==> k in m
  {
    if order == [] then t
    else
      var last := order[|order| - 1];
      RestoreProxy(RestoreProxies(t, m, order[..|order| - 1]), last, m[last])
  }

  function RestoreRelays(t: Tables, m: map<string, Json>, order: seq<string>): Tables
    requires forall k :: k in order ==> k in m
  {
    if order == [] then t
    else
      var last := order[|order| - 1];
      RestoreRelay(RestoreRelays(t, m, order[..|order| - 1]), last, m[last])
  }

  /** data[name].(map[string]any), or nothing to iterate over. */
  function Section(data: map<string, Json>, name: string): map<string, Json> {
    if name in data && data[name].JObj? then data[name].fields else map[]
  }

  ghost predicate IsRestore(t: Tables, data: map<string, Json>, ps: seq<string>, rs: seq<string>, t': Tables) {
    && Enumerates(ps, Section(data, "desired_proxies").Keys)
    && Enumerates(rs, Section(data, "desired_relays").Keys)
    && t' == RestoreRelays(RestoreProxies(t, Section(data, "desired_proxies"), ps), Section(data, "desired_relays"), rs)
  }

  predicate ValidEntry(val: Json) {
    val.JObj? && ProxyFromJson(val.fields).clientID != "" && ProxyFromJson(val.fields).remotePort != 0
  }

  predicate NamedEntry(val: Json) { val.JObj? && RestoredRelay(val.fields).id != "" }

  /** Whatever else the snapshot holds, each usable entry is desired afterwards and no other key changes. */
  lemma {:induction false} RestoredProxyEntries(t: Tables, m: map<string, Json>, order: seq<string>, k: string)
    requires forall j :: j in order ==> j in m
    ensures var u := RestoreProxies(t, m, order);
            if k in order && ValidEntry(m[k])
            then k in u.desiredProxies && u.desiredProxies[k] == ProxyFromJson(m[k].fields)
            else (k in u.desiredProxies <==> k in t.desiredProxies)
                 && (k in u.desiredProxies ==> u.desiredProxies[k] == t.desiredProxies[k])
  {
    if order != [] {
      var shorter, last := order[..|order| - 1], order[|order| - 1];
      RestoredProxyEntries(t, m, shorter, k);
      assert k in order <==> k in shorter || k == last;
    }
  }

  lemma {:induction false} RestoredRelayEntries(t: Tables, m: map<string, Json>, order: seq<string>, k: string)
    requires forall j :: j in order ==> j in m
    ensures var u := RestoreRelays(t, m, order);
            if k in order && NamedEntry(m[k])
            then k in u.desiredRelays && u.desiredRelays[k] == RestoredRelay(m[k].fields)
            else (k in u.desiredRelays <==> k in t.desiredRelays)
                 && (k in u.desiredRelays ==> u.desiredRelays[k] == t.desiredRelays[k])
  {
    if order != [] {
      var shorter, last := order[..|order| - 1], order[|order| - 1];
      RestoredRelayEntries(t, m, shorter, k);
      assert k in order <==> k in shorter || k == last;
    }
  }

  // ---------------------------------------------------------------- the object

  class StateStoreImpl {
    var clients: map<string, Client>
    var proxies: map<string, Proxy>
    var relays: map<string, RelaySession>
    var portIndex: map<int, string>
    var desiredProxies: map<string, Proxy>
    var desiredRelays: map<string, Relay>
    var tunnelTokens: map<string, string>

    constructor ()
      ensures View() == EMPTY_TABLES
    {
      clients, proxies, relays, portIndex := map[], map[], map[], map[];
      desiredProxies, desiredRelays, tunnelTokens := map[], map[], map[];
    }

    ghost function View(): Tables
      reads this
    {
      Tables(clients, proxies, relays, portIndex, desiredProxies, desiredRelays, tunnelTokens)
    }

    method ApplyEvent(e: Event, now: int)
      modifies this
      ensures View() == Apply(old(View()), e, now)
      ensures e.resource.rtype == "client" ==> View() == ApplyClient(old(View()), e, now)
      ensures e.resource.rtype == "proxy" ==> View() == ApplyProxy(old(View()), e)
      ensures e.resource.rtype == "relay" ==> View() == ApplyRelay(old(View()), e)
      ensures e.resource.rtype !in {"client", "proxy", "relay"} ==> View() == old(View())
    {
      if e.resource.rtype == CLIENT {
        ApplyClientEvent(e, now);
      } else if e.resource.rtype == PROXY {
        ApplyProxyEvent(e);
      } else if e.resource.rtype == RELAY {
        ApplyRelayEvent(e);
      }
    }

    method ApplyClientEvent(e: Event, now: int)
      modifies this
      ensures View() == ApplyClient(old(View()), e, now)
      ensures View() == old(View()).(clients := clients, portIndex := portIndex, tunnelTokens := tunnelTokens)
      ensures forall c :: c != e.resource.name ==>
                (c in clients <==> c in old(clients)) && (c in clients ==> clients[c] == old(clients)[c])
      ensures e.etype == Added && ObjectOf(e.payload).Some? ==>
                && e.resource.name in clients
                && var m, c := ObjectOf(e.payload).value, clients[e.resource.name];
                   && c.remoteAddr == StrField(m, "remote_addr") && c.host == StrField(m, "host")
                   && if old(e.resource.name in clients && clients[e.resource.name].conn.Some?)
                      then c == old(clients)[e.resource.name].(remoteAddr := c.remoteAddr, host := c.host)
                      else c.clientID == e.resource.name && c.conn == None && c.connectedAt == now && c.latency == 0
      ensures e.etype == Modified && ObjectOf(e.payload).Some? && e.resource.name in old(clients) ==>
                && e.resource.name in clients
                && var m, c := ObjectOf(e.payload).value, clients[e.resource.name];
                   var before := old(clients)[e.resource.name];
                   && c == before.(host := c.host, latency := c.latency)
                   && c.host == (if "host" in m && m["host"].JStr? then m["host"].s else before.host)
                   && c.latency == (if "latency" in m && m["latency"].JNum? then m["latency"].n else before.latency)
      ensures e.etype != Deleted && ObjectOf(e.payload) == None ==> clients == old(clients)
      ensures e.etype == Modified && e.resource.name !in old(clients) ==> clients == old(clients)
      ensures e.etype != Deleted ==> portIndex == old(portIndex) && tunnelTokens == old(tunnelTokens)
      ensures e.etype == Deleted ==>
                && e.resource.name !in clients
                && (forall p :: p in portIndex <==> p in old(portIndex) && old(portIndex)[p] != e.resource.name)
                && (forall p :: p in portIndex ==> portIndex[p] == old(portIndex)[p])
                && (forall k :: k in tunnelTokens <==>
                      k in old(tunnelTokens) && ClientOfKey(old(tunnelTokens)[k]) != e.resource.name)
                && (forall k :: k in tunnelTokens ==> tunnelTokens[k] == old(tunnelTokens)[k])
    {
      var clientID := e.resource.name;
      match e.etype {
        case Added =>
          if !e.payload.JsonPayload? || !e.payload.json.JObj? {
            return;
          }
          var m := e.payload.json.fields;
          var remoteAddr, host := StrField(m, "remote_addr"), StrField(m, "host");
          if clientID in clients && clients[clientID].conn.Some? {
            clients := clients[clientID := clients[clientID].(remoteAddr := remoteAddr, host := host)];
          } else {
            clients := clients[clientID := Client(clientID, None, remoteAddr, now, host, 0)];
          }
        case Modified =>
          if clientID !in clients || !e.payload.JsonPayload? || !e.payload.json.JObj? {
            return;
          }
          var m := e.payload.json.fields;
          if "host" in m && m["host"].JStr? {
            clients := clients[clientID := clients[clientID].(host := m["host"].s)];
          }
          if "latency" in m && m["latency"].JNum? {
            clients := clients[clientID := clients[clientID].(latency := m["latency"].n)];
          }
          assert clients == old(clients)[clientID := ClientModified(old(clients)[clientID], m)];
        case Deleted =>
          DropPorts(clientID);
          DropTokens(clientID);
          clients := clients - {clientID};
      }
    }

    /** Deleting from the port index while ranging over it. */
    method DropPorts(clientID: string)
      modifies this`portIndex
      ensures portIndex == PortsWithout(old(portIndex), clientID)
    {
      var todo := portIndex.Keys;
      while todo != {}
        invariant todo <= old(portIndex).Keys
        invariant portIndex == map p | p in old(portIndex)
                  && (p in todo || old(portIndex)[p] != clientID) :: old(portIndex)[p]
      {
        var port := Pick(todo);
        if portIndex[port] == clientID {
          portIndex := portIndex - {port};
        }
        todo := todo - {port};
      }
    }

    method DropTokens(clientID: string)
      modifies this`tunnelTokens
      ensures tunnelTokens == TokensWithout(old(tunnelTokens), clientID)
    {
      var todo := tunnelTokens.Keys;
      while todo != {}
        invariant todo <= old(tunnelTokens).Keys
        invariant tunnelTokens ==
                  map k | k in old(tunnelTokens) && (k in todo || ClientOfKey(old(tunnelTokens)[k]) != clientID)
                    :: old(tunnelTokens)[k]
      {
        var token := Pick(todo);
        var id := ParseClientIDFromKey(tunnelTokens[token]);
        if id == clientID {
          tunnelTokens := tunnelTokens - {token};
        }
        todo := todo - {token};
      }
    }

    method ApplyProxyEvent(e: Event)
      modifies this
      ensures View() == ApplyProxy(old(View()), e)
      ensures View() == old(View()).(proxies := proxies, portIndex := portIndex, desiredProxies := desiredProxies)
      ensures match e.etype
              case Added =>
                (match ProxyOf(e.payload)
                 case None => View() == old(View())
                 case Some(p) =>
                   var key := p.clientID + ":" + FormatInt(p.remotePort);
                   && proxies == old(proxies)[key := p] && desiredProxies == old(desiredProxies)[key := p]
                   && portIndex == old(portIndex)[p.remotePort := p.clientID])
              case Modified => View() == old(View())
              case Deleted =>
                && proxies == old(proxies) - {e.resource.name}
                && desiredProxies == old(desiredProxies) - {e.resource.name}
                && portIndex == if e.resource.name in old(proxies)
                                then old(portIndex) - {old(proxies)[e.resource.name].remotePort} else old(portIndex)
    {
      match e.etype {
        case Added =>
          var proxy := ProxyOf(e.payload);
          if proxy.None? {
            return;
          }
          var p := proxy.value;
          var key := ProxyKey(p.clientID, p.remotePort);
          proxies := proxies[key := p];
          portIndex := portIndex[p.remotePort := p.clientID];
          desiredProxies := desiredProxies[key := p];
        case Modified =>
        case Deleted =>
          var key := e.resource.name;
          if key in proxies {
            portIndex := portIndex - {proxies[key].remotePort};
          }
          proxies := proxies - {key};
          desiredProxies := desiredProxies - {key};
      }
    }

    method ApplyRelayEvent(e: Event)
      modifies this
      ensures View() == ApplyRelay(old(View()), e)
      ensures View() == old(View()).(relays := relays, desiredRelays := desiredRelays)
      ensures match e.etype
              case Added =>
                (match e.payload
                 case RelayPayload(s) =>
                   && relays == old(relays)[s.spec.id := s]
                   && desiredRelays == old(desiredRelays)[s.spec.id := s.spec]
                 case _ => View() == old(View()))
              case Modified => View() == old(View())
              case Deleted =>
                && relays == old(relays) - {e.resource.name}
                && desiredRelays == old(desiredRelays) - {e.resource.name}
    {
      match e.etype {
        case Added =>
          if !e.payload.RelayPayload? {
            return;
          }
          var session := e.payload.session;
          relays := relays[session.spec.id := session];
          desiredRelays := desiredRelays[session.spec.id := session.spec];
        case Modified =>
        case Deleted =>
          relays := relays - {e.resource.name};
          desiredRelays := desiredRelays - {e.resource.name};
      }
    }

    /** Restore, with the orders in which the two maps happened to be traversed. */
    method Restore(data: map<string, Json>) returns (ghost ps: seq<string>, ghost rs: seq<string>)
      modifies this
      ensures IsRestore(old(View()), data, ps, rs, View())
    {
      ghost var t0 := View();
      var m := Section(data, "desired_proxies");
      ps := [];
      var todo := m.Keys;
      while todo != {}
        invariant todo <= m.Keys && Enumerates(ps, m.Keys - todo)
        invariant View() == RestoreProxies(t0, m, ps)
      {
        var key := Pick(todo);
        RestoreProxyEntry(key, m[key]);
        EnumeratesNext(ps, m.Keys, todo, key);
        assert (ps + [key])[..|ps|] == ps;
        ps, todo := ps + [key], todo - {key};
      }
      assert m.Keys - todo == m.Keys;
      ghost var t1 := View();
      m := Section(data, "desired_relays");
      rs := [];
      todo := m.Keys;
      while todo != {}
        invariant todo <= m.Keys && Enumerates(rs, m.Keys - todo)
        invariant View() == RestoreRelays(t1, m, rs)
      {
        var key := Pick(todo);
        RestoreRelayEntry(key, m[key]);
        EnumeratesNext(rs, m.Keys, todo, key);
        assert (rs + [key])[..|rs|] == rs;
        rs, todo := rs + [key], todo - {key};
      }
      assert m.Keys - todo == m.Keys;
    }

    method RestoreProxyEntry(key: string, val: Json)
      modifies this
      ensures View() == RestoreProxy(old(View()), key, val)
      ensures View() == old(View()).(proxies := proxies, portIndex := portIndex, desiredProxies := desiredProxies)
      ensures var p := if val.JObj? then ProxyFromJson(val.fields) else ProxyFromJson(map[]);
              if p.clientID == "" || p.remotePort == 0 then View() == old(View())
              else
                && desiredProxies == old(desiredProxies)[key := p]
                && proxies == old(proxies)[p.clientID + ":" + FormatInt(p.remotePort) := p]
                && portIndex == old(portIndex)[p.remotePort := p.clientID]
    {
      if !val.JObj? {
        return;
      }
      var proxy := ProxyFromJson(val.fields);
      if proxy.clientID == "" || proxy.remotePort == 0 {
        return;
      }
      desiredProxies := desiredProxies[key := proxy];
      proxies := proxies[ProxyKey(proxy.clientID, proxy.remotePort) := proxy];
      portIndex := portIndex[proxy.remotePort := proxy.clientID];
    }

    method RestoreRelayEntry(key: string, val: Json)
      modifies this
      ensures View() == RestoreRelay(old(View()), key, val)
      ensures View() == old(View()).(relays := relays, desiredRelays := desiredRelays)
      ensures var r := RestoredRelay(if val.JObj? then val.fields else map[]);
              if r.id == "" then View() == old(View())
              else
                && desiredRelays == old(desiredRelays)[key := r]
                && relays == old(relays)[r.id := RelaySession(r, "", "", "")]
    {
      if !val.JObj? {
        return;
      }
      var relay := RestoredRelay(val.fields);
      if relay.id == "" {
        return;
      }
      desiredRelays := desiredRelays[key := relay];
      relays := relays[relay.id := RelaySession(relay, "", "", "")];
    }

    method SetClientConn(clientID: string, conn: int, now: int)
      modifies this`clients
      ensures View() == WithConn(old(View()), clientID, conn, now)
      ensures clients == old(clients)[clientID :=
                           (if clientID in old(clients) then old(clients)[clientID].(conn := Some(conn))
                            else Client(clientID, Some(conn), "", now, "", 0))]
    {
      if clientID !in clients {
        clients := clients[clientID := Client(clientID, None, "", now, "", 0)];
      }
      clients := clients[clientID := clients[clientID].(conn := Some(conn))];
    }

    method StoreTunnelToken(token: string, key: string)
      modifies this`tunnelTokens
      ensures View() == old(View()).(tunnelTokens := old(tunnelTokens)[token := key])
    {
      tunnelTokens := tunnelTokens[token := key];
    }

    method RemoveTunnelToken(token: string)
      modifies this`tunnelTokens
      ensures View() == old(View()).(tunnelTokens := old(tunnelTokens) - {token})
    {
      tunnelTokens := tunnelTokens - {token};
    }

    /** FindTableByWSToken: the connected client a token belongs to, with the token's key. */
    method FindTableByWSToken(token: string) returns (r: Option<(Client, string)>)
      ensures r == TokenOwner(View(), token)
      ensures r.Some? <==> token in tunnelTokens && ClientOfKey(tunnelTokens[token]) in clients
      ensures r.Some? ==> r.value.1 == tunnelTokens[token] && r.value.0 == clients[ClientOfKey(r.value.1)]
    {
      if token !in tunnelTokens {
        return None;
      }
      var key := tunnelTokens[token];
      var clientID := ParseClientIDFromKey(key);
      return if clientID in clients then Some((clients[clientID], key)) else None;
    }

    /** GetDesiredProxies: the valid desired proxies, each once, in the order the map yields them. */
    method GetDesiredProxies() returns (result: seq<Proxy>, ghost order: seq<string>)
      ensures Enumerates(order, ValidKeys(desiredProxies))
      ensures AllValues(desiredProxies, ValidKeys(desiredProxies), result)
      ensures forall k :: k in order <==>
                k in desiredProxies && desiredProxies[k].clientID != "" && desiredProxies[k].remotePort != 0
      ensures |result| == |order| && forall i :: 0 <= i < |order| ==>
                order[i] in desiredProxies && result[i] == desiredProxies[order[i]]
    {
      result, order := [], [];
      var todo := desiredProxies.Keys;
      ghost var seen: set<string> := {};
      while todo != {}
        invariant todo <= desiredProxies.Keys && seen == desiredProxies.Keys - todo
        invariant Enumerates(order, ValidKeys(desiredProxies) * seen)
        invariant |result| == |order|
        invariant forall i :: 0 <= i < |order| ==> order[i] in desiredProxies && result[i] == desiredProxies[order[i]]
      {
        var key := Pick(todo);
        var d := desiredProxies[key];
        EnumeratesChosen(order, ValidKeys(desiredProxies), seen, key);
        todo, seen := todo - {key}, seen + {key};
        if d.clientID != "" && d.remotePort != 0 {
          result, order := result + [d], order + [key];
        }
      }
      assert ValidKeys(desiredProxies) * seen == ValidKeys(desiredProxies);
      ListedValues(desiredProxies, ValidKeys(desiredProxies), order, result);
    }

    /** GetDesiredRelays: the desired relays with an ID. */
    method GetDesiredRelays() returns (result: seq<Relay>, ghost order: seq<string>)
      ensures Enumerates(order, NamedKeys(desiredRelays))
      ensures AllValues(desiredRelays, NamedKeys(desiredRelays), result)
      ensures forall k :: k in order <==> k in desiredRelays && desiredRelays[k].id != ""
      ensures |result| == |order| && forall i :: 0 <= i < |order| ==>
                order[i] in desiredRelays && result[i] == desiredRelays[order[i]]
    {
      result, order := [], [];
      var todo := desiredRelays.Keys;
      ghost var seen: set<string> := {};
      while todo != {}
        invariant todo <= desiredRelays.Keys && seen == desiredRelays.Keys - todo
        invariant Enumerates(order, NamedKeys(desiredRelays) * seen)
        invariant |result| == |order|
        invariant forall i :: 0 <= i < |order| ==> order[i] in desiredRelays && result[i] == desiredRelays[order[i]]
      {
        var key := Pick(todo);
        var d := desiredRelays[key];
        EnumeratesChosen(order, NamedKeys(desiredRelays), seen, key);
        todo, seen := todo - {key}, seen + {key};
        if d.id != "" {
          result, order := result + [d], order + [key];
        }
      }
      assert NamedKeys(desiredRelays) * seen == NamedKeys(desiredRelays);
      ListedValues(desiredRelays, NamedKeys(desiredRelays), order, result);
    }

    method ListProxies() returns (result: seq<Proxy>, ghost order: seq<string>)
      ensures Enumerates(order, proxies.Keys)
      ensures AllValues(proxies, proxies.Keys, result)
      ensures |result| == |order| && forall i :: 0 <= i < |order| ==>
                order[i] in proxies && result[i] == proxies[order[i]]
    {
      result, order := Values(proxies);
    }

    method ListRelaySessions() returns (result: seq<RelaySession>, ghost order: seq<string>)
      ensures Enumerates(order, relays.Keys)
      ensures AllValues(relays, relays.Keys, result)
      ensures |result| == |order| && forall i :: 0 <= i < |order| ==>
                order[i] in relays && result[i] == relays[order[i]]
    {
      result, order := Values(relays);
    }
  }

  /** Ranging over a map: each value once, in some order of the keys. */
  method Values<V(!new)>(m: map<string, V>) returns (result: seq<V>, ghost order: seq<string>)
    ensures Enumerates(order, m.Keys)
    ensures AllValues(m, m.Keys, result)
    ensures |result| == |order| && forall i :: 0 <= i < |order| ==> order[i] in m && result[i] == m[order[i]]
  {
    result, order := [], [];
    var todo := m.Keys;
    while todo != {}
      invariant todo <= m.Keys && Enumerates(order, m.Keys - todo)
      invariant |result| == |order|
      invariant forall i :: 0 <= i < |order| ==> order[i] in m && result[i] == m[order[i]]
    {
      var key := Pick(todo);
      EnumeratesNext(order, m.Keys, todo, key);
      result, order, todo := result + [m[key]], order + [key], todo - {key};
    }
    assert m.Keys - todo == m.Keys;
    ListedValues(m, m.Keys, order, result);
  }

  function ValidKeys(m: map<string, Proxy>): set<string> {
    set k | k in m && m[k].Valid()
  }

  function NamedKeys(m: map<string, Relay>): set<string> {
    set k | k in m && m[k].id != ""
  }

  function WithConn(t: Tables, clientID: string, conn: int, now: int): Tables {
    var c := if clientID in t.clients then t.clients[clientID] else Client(clientID, None, "", now, "", 0);
    t.(clients := t.clients[clientID := c.(conn := Some(conn))])
  }

  function TokenOwner(t: Tables, token: string): Option<(Client, string)> {
    if token in t.tunnelTokens && ClientOfKey(t.tunnelTokens[token]) in t.clients
    then Some((t.clients[ClientOfKey(t.tunnelTokens[token])], t.tunnelTokens[token]))
    else None
  }
}
