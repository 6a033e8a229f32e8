// When the port index of BBgrid_Server/runtime/statestore.go leads to every proxy: it never leads to a
// wrong one (module StoreLaws), but several operations take a proxy's port away.
module PortIndex {
  import opened Wrappers
  import opened Keys
  import opened Events
  import opened StateStore
  import opened StoreLaws

  /** The proxy filed under k is found through the port index. */
  predicate Found(t: Tables, k: string)
    requires k in t.proxies
  {
    t.proxies[k].remotePort in t.portIndex && t.portIndex[t.proxies[k].remotePort] == t.proxies[k].clientID
  }

  /** Every proxy can be found through the port index. */
  ghost predicate PortsComplete(t: Tables) {
    forall k :: k in t.proxies ==> Found(t, k)
  }

  ghost predicate HeldByOther(t: Tables, p: Proxy) {
    exists k :: k in t.proxies && t.proxies[k].remotePort == p.remotePort && t.proxies[k].clientID != p.clientID
  }

  /** Adding a proxy keeps the index complete exactly when no other client holds its port. */
  lemma AddKeepsCompleteIff(t: Tables, p: Proxy)
    requires KeyedByFields(t) && PortsComplete(t)
    ensures PortsComplete(ProxyAdded(t, p)) <==> !HeldByOther(t, p)
  {
    var t' := ProxyAdded(t, p);
    if HeldByOther(t, p) {
      var k :| k in t.proxies && t.proxies[k].remotePort == p.remotePort && t.proxies[k].clientID != p.clientID;
      if k == p.Key() {
        ProxyKeyInjective(t.proxies[k].clientID, t.proxies[k].remotePort, p.clientID, p.remotePort);
      } else {
        assert t'.proxies[k] == t.proxies[k];
        assert !Found(t', k);
      }
    }
  }

  /** Deleting from a complete index keeps it complete. */
  lemma DeleteKeepsComplete(t: Tables, key: string)
    requires KeyedByFields(t) && PortsComplete(t)
    ensures PortsComplete(ProxyDeleted(t, key))
  {
    if key in t.proxies {
      var p := t.proxies[key];
      forall k | k in t.proxies && t.proxies[k].remotePort == p.remotePort ensures k == key {
        assert Found(t, k) && Found(t, key);
        assert t.proxies[k].Key() == k && p.Key() == key;
      }
    }
  }

  ghost predicate HoldsProxy(t: Tables, clientID: string) {
    exists k :: k in t.proxies && t.proxies[k].clientID == clientID
  }

  /** A client's DELETED event takes its ports and leaves its proxies: complete afterwards exactly when it had none. */
  lemma ClientGoneKeepsCompleteIff(t: Tables, e: Event, now: int)
    requires PortsComplete(t) && e.resource.rtype == CLIENT && e.etype == Deleted
    ensures PortsComplete(Apply(t, e, now)) <==> !HoldsProxy(t, e.resource.name)
  {
    var t' := Apply(t, e, now);
    assert t'.proxies == t.proxies && t'.portIndex == PortsWithout(t.portIndex, e.resource.name);
    if HoldsProxy(t, e.resource.name) {
      var k :| k in t.proxies && t.proxies[k].clientID == e.resource.name;
      assert Found(t, k) && !Found(t', k);
    } else {
      forall k | k in t'.proxies ensures Found(t', k) { assert Found(t, k); }
    }
  }

  // ---------------------------------------------------------------- restoring and whole runs

  /** Which client is on which port. */
  function Places(proxies: map<string, Proxy>): set<(int, string)> {
    set k | k in proxies :: (proxies[k].remotePort as int, proxies[k].clientID)
  }

  function Place(p: Proxy): (int, string) { (p.remotePort, p.clientID) }

  /** Where the restorable entries of a snapshot section belong. */
  function RestoredPlaces(m: map<string, Json>, keys: set<string>): set<(int, string)>
    requires keys <= m.Keys
  {
    set k | k in keys && m[k].JObj? && ProxyFromJson(m[k].fields).Valid() :: Place(ProxyFromJson(m[k].fields))
  }

  /** No port has two clients. */
  ghost predicate NoClash(places: set<(int, string)>) {
    forall a, b :: a in places && b in places && a.0 == b.0 ==> a.1 == b.1
  }

  lemma PlacesPut(proxies: map<string, Proxy>, p: Proxy)
    requires ProxiesKeyed(proxies)
    ensures Places(proxies[p.Key() := p]) == Places(proxies) + {Place(p)}
  {
    var key, put := p.Key(), proxies[p.Key() := p];
    if key in proxies {
      ProxyKeyInjective(proxies[key].clientID, proxies[key].remotePort, p.clientID, p.remotePort);
    }
    SamePlaces(proxies, put, key, p);
  }

  lemma SamePlaces(proxies: map<string, Proxy>, put: map<string, Proxy>, key: string, p: Proxy)
    requires put == proxies[key := p] && (key in proxies ==> Place(proxies[key]) == Place(p))
    ensures Places(put) == Places(proxies) + {Place(p)}
  {
    forall a | a in Places(proxies) + {Place(p)} ensures a in Places(put) {
      if a == Place(p) {
        assert put[key] == p;
      } else {
        var k :| k in proxies && a == (proxies[k].remotePort as int, proxies[k].clientID);
        assert put[k] == proxies[k];
      }
    }
  }

  lemma CompleteMeansNoClash(t: Tables)
    requires PortsComplete(t)
    ensures NoClash(Places(t.proxies))
  {
    forall a, b | a in Places(t.proxies) && b in Places(t.proxies) && a.0 == b.0 ensures a.1 == b.1 {
      var j :| j in t.proxies && a == (t.proxies[j].remotePort as int, t.proxies[j].clientID);
      var k :| k in t.proxies && b == (t.proxies[k].remotePort as int, t.proxies[k].clientID);
      assert Found(t, j) && Found(t, k);
    }
  }

  lemma HeldIffClash(t: Tables, p: Proxy)
    requires NoClash(Places(t.proxies))
    ensures HeldByOther(t, p) <==> !NoClash(Places(t.proxies) + {Place(p)})
  {
    var places := Places(t.proxies) + {Place(p)};
    if HeldByOther(t, p) {
      var k :| k in t.proxies && t.proxies[k].remotePort == p.remotePort && t.proxies[k].clientID != p.clientID;
      assert (t.proxies[k].remotePort as int, t.proxies[k].clientID) in places && Place(p) in places;
    }
    if !NoClash(places) {
      var a, b :| a in places && b in places && a.0 == b.0 && a.1 != b.1;
      var c := if a == Place(p) then b else a;
      assert c in Places(t.proxies) && c.0 == p.remotePort;
      var k :| k in t.proxies && c == (t.proxies[k].remotePort as int, t.proxies[k].clientID);
    }
  }

  /** u came from t by filing proxies at the given places. */
  ghost predicate Filled(t: Tables, u: Tables, places: set<(int, string)>) {
    Places(u.proxies) == Places(t.proxies) + places && (PortsComplete(u) <==> NoClash(Places(u.proxies)))
  }

  /** Restoring proxies into a complete index leaves it complete exactly when no port gets two clients. */
  lemma {:induction false} RestoreProxiesCompleteIff(t: Tables, m: map<string, Json>, order: seq<string>)
    requires KeyedByFields(t) && PortsComplete(t) && forall k :: k in order ==> k in m
    ensures Filled(t, RestoreProxies(t, m, order), RestoredPlaces(m, Elements(order)))
  {
    if order == [] {
      CompleteMeansNoClash(t);
      assert RestoredPlaces(m, Elements(order)) == {};
    } else {
      var shorter, last := order[..|order| - 1], order[|order| - 1];
      assert order == shorter + [last] && Elements(order) == Elements(shorter) + {last};
      RestoreProxiesCompleteIff(t, m, shorter);
      RestoreProxiesKeeps(t, m, shorter);
      PlacesGrow(m, Elements(shorter), last);
      FilledMore(t, RestoreProxies(t, m, shorter), RestoredPlaces(m, Elements(shorter)), last, m[last]);
    }
  }

  lemma FilledMore(t: Tables, u: Tables, places: set<(int, string)>, key: string, val: Json)
    requires KeyedByFields(u) && Filled(t, u, places)
    ensures Filled(t, RestoreProxy(u, key, val), places + EntryPlaces(val))
  {
    RestoreEntryCompleteIff(u, key, val);
    assert Places(t.proxies) + places + EntryPlaces(val) == Places(t.proxies) + (places + EntryPlaces(val));
  }

  function EntryPlaces(val: Json): set<(int, string)> {
    if val.JObj? && ProxyFromJson(val.fields).Valid() then {Place(ProxyFromJson(val.fields))} else {}
  }

  lemma PlacesGrow(m: map<string, Json>, keys: set<string>, last: string)
    requires keys <= m.Keys && last in m
    ensures RestoredPlaces(m, keys + {last}) == RestoredPlaces(m, keys) + EntryPlaces(m[last])
  {}

  lemma RestoreEntryCompleteIff(t: Tables, key: string, val: Json)
    requires KeyedByFields(t) && (PortsComplete(t) <==> NoClash(Places(t.proxies)))
    ensures var t' := RestoreProxy(t, key, val);
            && Places(t'.proxies) == Places(t.proxies) + EntryPlaces(val)
            && (PortsComplete(t') <==> NoClash(Places(t'.proxies)))
  {
    if val.JObj? && ProxyFromJson(val.fields).Valid() {
      var p, t' := ProxyFromJson(val.fields), RestoreProxy(t, key, val);
      PlacesPut(t.proxies, p);
      var added := ProxyAdded(t, p);
      assert added.proxies == t'.proxies && added.portIndex == t'.portIndex;
      assert PortsComplete(added) <==> PortsComplete(t') by {
        assert forall k :: k in t'.proxies ==> (Found(added, k) <==> Found(t', k));
      }
      if PortsComplete(t) {
        AddKeepsCompleteIff(t, p);
        HeldIffClash(t, p);
      } else if PortsComplete(t') {
        CompleteMeansNoClash(t');
      }
    }
  }

  /** The operation, on a complete index, takes no proxy's port away. */
  ghost predicate KeepsPorts(t: Tables, op: StoreOp) {
    match op
    case ApplyOp(e, _) =>
      && (e.resource.rtype == CLIENT && e.etype == Deleted ==> !HoldsProxy(t, e.resource.name))
      && (e.resource.rtype == PROXY && e.etype == Added && ProxyOf(e.payload).Some? ==>
            !HeldByOther(t, ProxyOf(e.payload).value))
    case RestoreOp(data, _, _) =>
      var m := Section(data, "desired_proxies");
      NoClash(Places(t.proxies) + RestoredPlaces(m, m.Keys))
    case _ => true
  }

  lemma SamePortsCompleteIff(t: Tables, t': Tables)
    requires t'.proxies == t.proxies && t'.portIndex == t.portIndex
    ensures PortsComplete(t') <==> PortsComplete(t)
  {
    assert forall k :: k in t.proxies ==> (Found(t, k) <==> Found(t', k));
  }

  lemma ApplyCompleteIff(t: Tables, e: Event, now: int)
    requires KeyedByFields(t) && PortsComplete(t)
    ensures PortsComplete(Apply(t, e, now)) <==> KeepsPorts(t, ApplyOp(e, now))
  {
    assert PROXY != CLIENT;
    if e.resource.rtype == CLIENT && e.etype == Deleted {
      ClientGoneKeepsCompleteIff(t, e, now);
    } else if e.resource.rtype == PROXY {
      ApplyProxyCompleteIff(t, e);
    } else {
      SamePortsCompleteIff(t, Apply(t, e, now));
    }
  }

  lemma ApplyProxyCompleteIff(t: Tables, e: Event)
    requires KeyedByFields(t) && PortsComplete(t)
    ensures PortsComplete(ApplyProxy(t, e)) <==>
              (e.etype == Added && ProxyOf(e.payload).Some? ==> !HeldByOther(t, ProxyOf(e.payload).value))
  {
    match e.etype
    case Added => if ProxyOf(e.payload).Some? { AddKeepsCompleteIff(t, ProxyOf(e.payload).value); }
    case Modified =>
    case Deleted => DeleteKeepsComplete(t, e.resource.name);
  }

  lemma RestoreCompleteIff(t: Tables, data: map<string, Json>, ps: seq<string>, rs: seq<string>, t': Tables)
    requires KeyedByFields(t) && PortsComplete(t) && IsRestore(t, data, ps, rs, t')
    ensures PortsComplete(t') <==> KeepsPorts(t, RestoreOp(data, ps, rs))
  {
    var m := Section(data, "desired_proxies");
    RestoreProxiesCompleteIff(t, m, ps);
    assert Elements(ps) == m.Keys;
    var between := RestoreProxies(t, m, ps);
    RestoreRelaysElsewhere(between, Section(data, "desired_relays"), rs);
    SamePortsCompleteIff(between, t');
  }

  lemma {:induction false} RestoreRelaysElsewhere(t: Tables, m: map<string, Json>, order: seq<string>)
    requires forall k :: k in order ==> k in m
    ensures RestoreRelays(t, m, order).proxies == t.proxies && RestoreRelays(t, m, order).portIndex == t.portIndex
  {
    if order != [] { RestoreRelaysElsewhere(t, m, order[..|order| - 1]); }
  }

  lemma StepCompleteIff(t: Tables, op: StoreOp, t': Tables)
    requires KeyedByFields(t) && PortsComplete(t) && StoreStep(t, op, t')
    ensures PortsComplete(t') <==> KeepsPorts(t, op)
  {
    match op
    case ApplyOp(e, now) => ApplyCompleteIff(t, e, now);
    case RestoreOp(data, ps, rs) => RestoreCompleteIff(t, data, ps, rs, t');
    case _ => SamePortsCompleteIff(t, t');
  }

  lemma RunKeyed(ts: seq<Tables>, ops: seq<StoreOp>, n: nat)
    requires IsStoreRun(ts, ops) && n <= |ops|
    ensures KeyedByFields(ts[n])
  {
    StoreRunLaws(ts[..n + 1], ops[..n]);
  }

  ghost predicate CompleteUpTo(ts: seq<Tables>, n: nat)
    requires n < |ts|
  {
    forall i :: 0 <= i <= n ==> PortsComplete(ts[i])
  }

  ghost predicate PortsKeptUpTo(ts: seq<Tables>, ops: seq<StoreOp>, n: nat)
    requires n <= |ops| <= |ts|
  {
    forall i :: 0 <= i < n ==> KeepsPorts(ts[i], ops[i])
  }

  /**
   * In every run the port index leads to all proxies all the time exactly when no client that still
   * has proxies is deleted and no port is given to a second client, by an event or by restoring.
   */
  lemma {:induction false} CompleteThroughoutIff(ts: seq<Tables>, ops: seq<StoreOp>, n: nat)
    requires IsStoreRun(ts, ops) && n <= |ops|
    ensures CompleteUpTo(ts, n) <==> PortsKeptUpTo(ts, ops, n)
  {
    if n > 0 {
      CompleteThroughoutIff(ts, ops, n - 1);
      assert CompleteUpTo(ts, n) <==> CompleteUpTo(ts, n - 1) && PortsComplete(ts[n]);
      assert PortsKeptUpTo(ts, ops, n) <==> PortsKeptUpTo(ts, ops, n - 1) && KeepsPorts(ts[n - 1], ops[n - 1]);
      if CompleteUpTo(ts, n - 1) {
        RunKeyed(ts, ops, n - 1);
        StepCompleteIff(ts[n - 1], ops[n - 1], ts[n]);
      }
    }
  }

  // ---------------------------------------------------------------- who cannot be found, operation by operation

  /** The filed proxies, and the keys of those that the port index does not lead to. */
  datatype Ledger = Ledger(proxies: map<string, Proxy>, lost: set<string>)

  function LedgerOf(t: Tables): Ledger {
    Ledger(t.proxies, set k | k in t.proxies && !Found(t, k))
  }

  /** A proxy takes its port from every other client and gives it back to its own. */
  function LedgerAdd(l: Ledger, p: Proxy): Ledger {
    var proxies := l.proxies[p.Key() := p];
    Ledger(proxies, set k | k in proxies && if proxies[k].remotePort == p.remotePort
                                            then proxies[k].clientID != p.clientID else k in l.lost)
  }

  /** A deleted proxy takes the port away from everyone on it. */
  function LedgerDelete(l: Ledger, key: string): Ledger {
    if key !in l.proxies then l
    else
      Ledger(l.proxies - {key},
             set k | k in l.proxies && k != key
                     && (l.proxies[k].remotePort == l.proxies[key].remotePort || k in l.lost))
  }

  /** A deleted client's proxies stay and cannot be found. */
  function LedgerClientGone(l: Ledger, clientID: string): Ledger {
    l.(lost := l.lost + set k | k in l.proxies && l.proxies[k].clientID == clientID)
  }

  function LedgerRestore(l: Ledger, m: map<string, Json>, order: seq<string>): Ledger
    requires forall k :: k in order ==> k in m
  {
    if order == [] then l
    else
      var before, val := LedgerRestore(l, m, order[..|order| - 1]), m[order[|order| - 1]];
      if val.JObj? && ProxyFromJson(val.fields).Valid() then LedgerAdd(before, ProxyFromJson(val.fields)) else before
  }

  function LedgerEvent(l: Ledger, e: Event): Ledger {
    if e.resource.rtype == CLIENT then if e.etype == Deleted then LedgerClientGone(l, e.resource.name) else l
    else if e.resource.rtype != PROXY then l
    else match e.etype
      case Added => (match ProxyOf(e.payload) case None => l case Some(p) => LedgerAdd(l, p))
      case Modified => l
      case Deleted => LedgerDelete(l, e.resource.name)
  }

  ghost function LedgerStep(l: Ledger, op: StoreOp): Ledger {
    match op
    case ApplyOp(e, _) => LedgerEvent(l, e)
    case RestoreOp(data, ps, _) =>
      var m := Section(data, "desired_proxies");
      if forall k :: k in ps ==> k in m then LedgerRestore(l, m, ps) else l
    case _ => l
  }

  lemma AddedLedger(t: Tables, p: Proxy)
    requires KeyedByFields(t)
    ensures LedgerOf(ProxyAdded(t, p)) == LedgerAdd(LedgerOf(t), p)
  {
    var t' := ProxyAdded(t, p);
    forall k | k in t'.proxies
      ensures Found(t', k) <==> if t'.proxies[k].remotePort == p.remotePort
                                then t'.proxies[k].clientID == p.clientID else k in t.proxies && Found(t, k)
    {
      assert k != p.Key() ==> t'.proxies[k] == t.proxies[k];
    }
  }

  lemma DeletedLedger(t: Tables, key: string)
    ensures LedgerOf(ProxyDeleted(t, key)) == LedgerDelete(LedgerOf(t), key)
  {
    var t' := ProxyDeleted(t, key);
    if key in t.proxies {
      forall k | k in t'.proxies
        ensures Found(t', k) <==> t.proxies[k].remotePort != t.proxies[key].remotePort && Found(t, k)
      {}
    } else {
      assert t' == t.(desiredProxies := t'.desiredProxies) && t'.proxies == t.proxies;
      assert forall k :: k in t.proxies ==> (Found(t', k) <==> Found(t, k));
    }
  }

  lemma ClientGoneLedger(t: Tables, e: Event, now: int)
    requires e.resource.rtype == CLIENT && e.etype == Deleted
    ensures LedgerOf(Apply(t, e, now)) == LedgerClientGone(LedgerOf(t), e.resource.name)
  {
    var t' := Apply(t, e, now);
    assert t'.proxies == t.proxies && t'.portIndex == PortsWithout(t.portIndex, e.resource.name);
    forall k | k in t.proxies ensures Found(t', k) <==> Found(t, k) && t.proxies[k].clientID != e.resource.name {}
  }

  lemma SameLedger(t: Tables, t': Tables)
    requires t'.proxies == t.proxies && t'.portIndex == t.portIndex
    ensures LedgerOf(t') == LedgerOf(t)
  {
    assert forall k :: k in t.proxies ==> (Found(t', k) <==> Found(t, k));
  }

  lemma EventLedger(t: Tables, e: Event, now: int)
    requires KeyedByFields(t)
    ensures LedgerOf(Apply(t, e, now)) == LedgerEvent(LedgerOf(t), e)
  {
    assert PROXY != CLIENT;
    if e.resource.rtype == CLIENT && e.etype == Deleted {
      ClientGoneLedger(t, e, now);
    } else if e.resource.rtype == PROXY {
      ProxyEventLedger(t, e);
    } else {
      SameLedger(t, Apply(t, e, now));
    }
  }

  lemma ProxyEventLedger(t: Tables, e: Event)
    requires KeyedByFields(t) && e.resource.rtype == PROXY
    ensures LedgerOf(ApplyProxy(t, e)) == LedgerEvent(LedgerOf(t), e)
  {
    assert PROXY != CLIENT;
    match e.etype
    case Added => if ProxyOf(e.payload).Some? { AddedLedger(t, ProxyOf(e.payload).value); }
    case Modified =>
    case Deleted => DeletedLedger(t, e.resource.name);
  }

  lemma {:induction false} RestoredLedger(t: Tables, m: map<string, Json>, order: seq<string>)
    requires KeyedByFields(t) && forall k :: k in order ==> k in m
    ensures LedgerOf(RestoreProxies(t, m, order)) == LedgerRestore(LedgerOf(t), m, order)
  {
    if order != [] {
      var shorter, last := order[..|order| - 1], order[|order| - 1];
      RestoredLedger(t, m, shorter);
      RestoreProxiesKeeps(t, m, shorter);
      EntryLedger(RestoreProxies(t, m, shorter), last, m[last]);
    }
  }

  lemma EntryLedger(t: Tables, key: string, val: Json)
    requires KeyedByFields(t)
    ensures LedgerOf(RestoreProxy(t, key, val)) ==
            if val.JObj? && ProxyFromJson(val.fields).Valid() then LedgerAdd(LedgerOf(t), ProxyFromJson(val.fields))
            else LedgerOf(t)
  {
    if val.JObj? && ProxyFromJson(val.fields).Valid() {
      AddedLedger(t, ProxyFromJson(val.fields));
      SameLedger(ProxyAdded(t, ProxyFromJson(val.fields)), RestoreProxy(t, key, val));
    }
  }

  lemma StepLedger(t: Tables, op: StoreOp, t': Tables)
    requires KeyedByFields(t) && StoreStep(t, op, t')
    ensures LedgerOf(t') == LedgerStep(LedgerOf(t), op)
  {
    match op
    case ApplyOp(e, now) => EventLedger(t, e, now);
    case RestoreOp(data, ps, rs) =>
      var m := Section(data, "desired_proxies");
      RestoredLedger(t, m, ps);
      RestoreRelaysElsewhere(RestoreProxies(t, m, ps), Section(data, "desired_relays"), rs);
      SameLedger(RestoreProxies(t, m, ps), t');
    case _ => SameLedger(t, t');
  }

  ghost function LedgerRun(ops: seq<StoreOp>): Ledger {
    if ops == [] then Ledger(map[], {}) else LedgerStep(LedgerRun(ops[..|ops| - 1]), ops[|ops| - 1])
  }

  /**
   * The operations alone, without the port index, determine which proxies cannot be found through it:
   * in every run the index is complete exactly when nothing is lost on the ledger of the operations.
   */
  lemma {:induction false} PortsCompleteIff(ts: seq<Tables>, ops: seq<StoreOp>)
    requires IsStoreRun(ts, ops)
    ensures LedgerOf(ts[|ops|]) == LedgerRun(ops)
    ensures PortsComplete(ts[|ops|]) <==> LedgerRun(ops).lost == {}
  {
    if ops != [] {
      var n := |ops| - 1;
      PortsCompleteIff(ts[..n + 1], ops[..n]);
      RunKeyed(ts, ops, n);
      StepLedger(ts[n], ops[n], ts[n + 1]);
    }
    LostIff(ts[|ops|]);
  }

  lemma LostIff(t: Tables)
    ensures PortsComplete(t) <==> LedgerOf(t).lost == {}
  {
    assert forall k :: k in LedgerOf(t).lost <==> k in t.proxies && !Found(t, k);
  }

  /** Two clients on one port: after the second one's proxy is deleted, the first cannot be found by port. */
  lemma SharedPortLosesEntry(localPort: JsonInt)
    ensures var a, b := Proxy("a", 80, localPort, "", "tcp", ""), Proxy("b", 80, localPort, "", "tcp", "");
            var t := ProxyDeleted(ProxyAdded(ProxyAdded(EMPTY_TABLES, a), b), b.Key());
            a.Key() in t.proxies && 80 !in t.portIndex
  {
    var a, b := Proxy("a", 80, localPort, "", "tcp", ""), Proxy("b", 80, localPort, "", "tcp", "");
    assert a.Key()[0] == 'a' && b.Key()[0] == 'b';
  }
}
