// A clean restart: StorageManager.Close, reloading from disk, and the restore steps of
// plugins/persist/persist.go interleaved with the event bus worker.
module Restart {
  import opened Wrappers
  import opened Keys
  import opened Events
  import opened EventBus
  import opened StateStore
  import opened StoreLaws
  import opened Snapshots
  import opened Storage
  import opened Core

  // ---------------------------------------------------------------- what comes back from disk

  function Reloaded(p: Payload): Payload {
    if p == NoPayload then NoPayload else JsonPayload(PayloadToJson(p))
  }

  function ReloadSection(m: map<string, Payload>): map<string, Payload> {
    map k | k in m :: Reloaded(m[k])
  }

  function ReloadResources(m: Resources): Resources {
    map t | t in m :: ReloadSection(m[t])
  }

  function ReloadLog(log: seq<Event>): (r: seq<Event>)
    ensures |r| == |log|
    ensures forall i :: 0 <= i < |log| ==> r[i] == log[i].(payload := Reloaded(log[i].payload))
  {
    seq(|log|, i requires 0 <= i < |log| => log[i].(payload := Reloaded(log[i].payload)))
  }

  /** The State of a snapshot file, as Restore receives it. */
  function SnapshotData(state: Resources): map<string, Json> {
    map s | s in state :: JObj(map k | k in state[s] :: PayloadToJson(state[s][k]))
  }

  // ---------------------------------------------------------------- the plugin

  /** The event restoreFromMetaStore publishes for a stored proxy, if any. */
  function ProxyEvent(metaKey: string, raw: Payload, id: string): Option<Event> {
    match ParseResourceKey(metaKey)
    case None => None
    case Some(rk) =>
      if raw.JsonPayload? && raw.json.JObj? && ProxyFromJson(raw.json.fields).Valid()
      then Some(Event(id, 0, 0, DefaultKey(PROXY, rk.name), Added, ProxyPayload(ProxyFromJson(raw.json.fields))))
      else None
  }

  function RelayEvent(metaKey: string, raw: Payload, id: string): Option<Event> {
    match ParseResourceKey(metaKey)
    case None => None
    case Some(rk) =>
      if raw.JsonPayload? && raw.json.JObj?
      then Some(Event(id, 0, 0, DefaultKey(RELAY, rk.name), Added,
                      RelayPayload(RelaySession(ParsedRelay(raw.json.fields), "", "", ""))))
      else None
  }

  predicate SameButNumbers(e: Event, f: Event) {
    e.resource == f.resource && e.etype == f.etype && e.payload == f.payload
  }

  /** e is, up to its ID and numbers, published for some stored resource. */
  ghost predicate Published(m: Resources, e: Event) {
    || (exists k :: k in TypeOf(m, PROXY) && ProxyEvent(k, TypeOf(m, PROXY)[k], "").Some?
                    && SameButNumbers(e, ProxyEvent(k, TypeOf(m, PROXY)[k], "").value))
    || (exists k :: k in TypeOf(m, RELAY) && RelayEvent(k, TypeOf(m, RELAY)[k], "").Some?
                    && SameButNumbers(e, RelayEvent(k, TypeOf(m, RELAY)[k], "").value))
  }

  /** Every event accepted since `before` was published for a stored resource. */
  ghost predicate OnlyPublished(m: Resources, before: seq<Event>, after: seq<Event>) {
    before <= after && forall i :: |before| <= i < |after| ==> Published(m, after[i])
  }

  function Listed(e: Option<Event>): seq<Event> {
    match e case None => [] case Some(event) => [event]
  }

  /** The events for the stored proxies in the order the map yields them; ids gives each a fresh ID. */
  function ProxyEvents(section: map<string, Payload>, order: seq<string>, ids: string -> string): seq<Event>
    requires forall k :: k in order ==> k in section
  {
    if order == [] then []
    else
      var last := order[|order| - 1];
      ProxyEvents(section, order[..|order| - 1], ids) + Listed(ProxyEvent(last, section[last], ids(last)))
  }

  function RelayEvents(section: map<string, Payload>, order: seq<string>, ids: string -> string): seq<Event>
    requires forall k :: k in order ==> k in section
  {
    if order == [] then []
    else
      var last := order[|order| - 1];
      RelayEvents(section, order[..|order| - 1], ids) + Listed(RelayEvent(last, section[last], ids(last)))
  }

  function PublishAll(b: Bus, es: seq<Event>): Bus {
    if es == [] then b else Publish(PublishAll(b, es[..|es| - 1]), es[|es| - 1])
  }

  lemma ProxyEventsPush(section: map<string, Payload>, order: seq<string>, k: string, ids: string -> string)
    requires k in section && forall x :: x in order ==> x in section
    ensures ProxyEvents(section, order + [k], ids)
              == ProxyEvents(section, order, ids) + Listed(ProxyEvent(k, section[k], ids(k)))
  {
    assert (order + [k])[..|order|] == order;
  }

  lemma RelayEventsPush(section: map<string, Payload>, order: seq<string>, k: string, ids: string -> string)
    requires k in section && forall x :: x in order ==> x in section
    ensures RelayEvents(section, order + [k], ids)
              == RelayEvents(section, order, ids) + Listed(RelayEvent(k, section[k], ids(k)))
  {
    assert (order + [k])[..|order|] == order;
  }

  lemma PublishAllPush(b: Bus, es: seq<Event>, e: Option<Event>)
    ensures PublishAll(b, es + Listed(e)) ==
            match e case None => PublishAll(b, es) case Some(event) => Publish(PublishAll(b, es), event)
  {
    if e.Some? {
      assert (es + [e.value])[..|es|] == es;
    } else {
      assert es + [] == es;
    }
  }

  /** restoreFromMetaStore: one event for every stored proxy, then one for every stored relay. */
  ghost predicate IsMetaRestore(m: Resources, ids: string -> string, b: Bus, ps: seq<string>, rs: seq<string>,
                                b': Bus) {
    && Enumerates(ps, TypeOf(m, PROXY).Keys) && Enumerates(rs, TypeOf(m, RELAY).Keys)
    && b' == PublishAll(PublishAll(b, ProxyEvents(TypeOf(m, PROXY), ps, ids)), RelayEvents(TypeOf(m, RELAY), rs, ids))
  }

  class PersistPlugin {
    const core: Core
    const bus: EventBusImpl

    constructor (core: Core, bus: EventBusImpl)
      ensures this.core == core && this.bus == bus
    {
      this.core, this.bus := core, bus;
    }

    /** Publish an ADDED event for every stored proxy and relay, in map order; a full queue drops some. */
    method RestoreFromMetaStore(ids: string -> string)
      returns (ghost ps: seq<string>, ghost rs: seq<string>, ghost flagged: bool)
      modifies bus
      ensures flagged == core.restoring
      ensures IsMetaRestore(core.storage.meta.resources, ids, old(bus.View()), ps, rs, bus.View())
    {
      ps := PublishProxies(TypeOf(core.storage.meta.resources, PROXY), ids);
      rs := PublishRelays(TypeOf(core.storage.meta.resources, RELAY), ids);
      flagged := core.restoring;
    }

    method PublishProxies(proxies: map<string, Payload>, ids: string -> string) returns (ghost ps: seq<string>)
      modifies bus
      ensures Enumerates(ps, proxies.Keys)
      ensures bus.View() == PublishAll(old(bus.View()), ProxyEvents(proxies, ps, ids))
    {
      ps := [];
      var todo := proxies.Keys;
      while todo != {}
        invariant todo <= proxies.Keys && Enumerates(ps, proxies.Keys - todo)
        invariant bus.View() == PublishAll(old(bus.View()), ProxyEvents(proxies, ps, ids))
      {
        var k := Pick(todo);
        var e := ProxyEvent(k, proxies[k], ids(k));
        PublishAllPush(old(bus.View()), ProxyEvents(proxies, ps, ids), e);
        if e.Some? {
          var _ := bus.PublishEvent(e.value);
        }
        EnumeratesNext(ps, proxies.Keys, todo, k);
        ProxyEventsPush(proxies, ps, k, ids);
        ps, todo := ps + [k], todo - {k};
      }
      assert proxies.Keys - todo == proxies.Keys;
    }

    method PublishRelays(relays: map<string, Payload>, ids: string -> string) returns (ghost rs: seq<string>)
      modifies bus
      ensures Enumerates(rs, relays.Keys)
      ensures bus.View() == PublishAll(old(bus.View()), RelayEvents(relays, rs, ids))
    {
      rs := [];
      var todo := relays.Keys;
      while todo != {}
        invariant todo <= relays.Keys && Enumerates(rs, relays.Keys - todo)
        invariant bus.View() == PublishAll(old(bus.View()), RelayEvents(relays, rs, ids))
      {
        var k := Pick(todo);
        var e := RelayEvent(k, relays[k], ids(k));
        PublishAllPush(old(bus.View()), RelayEvents(relays, rs, ids), e);
        if e.Some? {
          var _ := bus.PublishEvent(e.value);
        }
        EnumeratesNext(rs, relays.Keys, todo, k);
        RelayEventsPush(relays, rs, k, ids);
        rs, todo := rs + [k], todo - {k};
      }
      assert relays.Keys - todo == relays.Keys;
    }

    /**
     * Run up to the end of restoring, as far as this goroutine goes; the worker runs beside it. Without
     * a snapshot, as at the first start-up, only the events are published.
     */
    method Restore(ids: string -> string)
      returns (ghost listed: (seq<string>, seq<string>), ghost ps: seq<string>, ghost rs: seq<string>,
               ghost flagged: bool)
      modifies core, core.store, bus
      ensures flagged && !core.restoring        // the flag is set while the events are published
      ensures IsMetaRestore(core.storage.meta.resources, ids, old(bus.View()), listed.0, listed.1, bus.View())
      ensures match core.storage.snapshots.latest
              case None => core.store.View() == old(core.store.View())
              case Some(s) => IsRestore(old(core.store.View()), SnapshotData(s.state), ps, rs, core.store.View())
    {
      core.SetRestoring(true);
      ghost var a, b;
      a, b, flagged := RestoreFromMetaStore(ids);
      listed, ps, rs := (a, b), [], [];
      if core.storage.snapshots.latest.Some? {
        ps, rs := core.store.Restore(SnapshotData(core.storage.snapshots.latest.value.state));
      }
      core.SetRestoring(false);
    }
  }

  lemma {:induction false} ProxyEventsPublished(m: Resources, order: seq<string>, ids: string -> string)
    requires forall k :: k in order ==> k in TypeOf(m, PROXY)
    ensures forall e :: e in ProxyEvents(TypeOf(m, PROXY), order, ids) ==> Published(m, e)
  {
    if order != [] {
      var section, last := TypeOf(m, PROXY), order[|order| - 1];
      ProxyEventsPublished(m, order[..|order| - 1], ids);
      var e := ProxyEvent(last, section[last], ids(last));
      if e.Some? { assert SameButNumbers(e.value, ProxyEvent(last, section[last], "").value); }
    }
  }

  lemma {:induction false} RelayEventsPublished(m: Resources, order: seq<string>, ids: string -> string)
    requires forall k :: k in order ==> k in TypeOf(m, RELAY)
    ensures forall e :: e in RelayEvents(TypeOf(m, RELAY), order, ids) ==> Published(m, e)
  {
    if order != [] {
      var section, last := TypeOf(m, RELAY), order[|order| - 1];
      RelayEventsPublished(m, order[..|order| - 1], ids);
      var e := RelayEvent(last, section[last], ids(last));
      if e.Some? { assert SameButNumbers(e.value, RelayEvent(last, section[last], "").value); }
    }
  }

  lemma {:induction false} PublishAllGrows(m: Resources, before: seq<Event>, b: Bus, es: seq<Event>)
    requires OnlyPublished(m, before, b.accepted) && forall e :: e in es ==> Published(m, e)
    ensures OnlyPublished(m, before, PublishAll(b, es).accepted)
  {
    if es != [] {
      var e := es[|es| - 1];
      PublishAllGrows(m, before, b, es[..|es| - 1]);
      assert Published(m, e);
      assert Published(m, e.(sequence := PublishAll(b, es[..|es| - 1]).seqNo + 1));
    }
  }

  /** Only events for stored resources enter the queues. */
  lemma MetaRestorePublishes(m: Resources, ids: string -> string, b: Bus, ps: seq<string>, rs: seq<string>, b': Bus)
    requires IsMetaRestore(m, ids, b, ps, rs, b')
    ensures OnlyPublished(m, b.accepted, b'.accepted)
  {
    ProxyEventsPublished(m, ps, ids);
    RelayEventsPublished(m, rs, ids);
    PublishAllGrows(m, b.accepted, b, ProxyEvents(TypeOf(m, PROXY), ps, ids));
    PublishAllGrows(m, b.accepted, PublishAll(b, ProxyEvents(TypeOf(m, PROXY), ps, ids)),
                    RelayEvents(TypeOf(m, RELAY), rs, ids));
  }

  // ---------------------------------------------------------------- reloading keeps the meaning

  lemma {:induction false} ReloadReplay(log: seq<Event>)
    requires forall e :: e in log ==> ForResource(e) && Decodes(e)
    ensures Replay(ReloadLog(log)) == ReloadResources(Replay(log))
    ensures ReplayProxies(ReloadLog(log)) == ReplayProxies(log)
    ensures ReplayRelays(ReloadLog(log)) == ReplayRelays(log)
    ensures forall e :: e in ReloadLog(log) ==> ForResource(e) && Decodes(e)
  {
    if log != [] {
      var n := |log| - 1;
      var shorter, e := log[..n], log[n];
      var e' := e.(payload := Reloaded(e.payload));
      ReloadReplay(shorter);
      assert log == shorter + [e] && ReloadLog(log) == ReloadLog(shorter) + [e'];
      ReloadDecodes(e);
      ReplayPush(ReloadLog(shorter), e');
      ReplayProxiesPush(ReloadLog(shorter), e');
      ReplayRelaysPush(ReloadLog(shorter), e');
      ReloadPut(Replay(shorter), e);
    }
  }

  lemma ReloadDecodes(e: Event)
    requires ForResource(e) && Decodes(e)
    ensures var e' := e.(payload := Reloaded(e.payload));
            && ForResource(e') && Decodes(e')
            && (e.etype == Added && e.resource.rtype == PROXY ==> ProxyOf(e'.payload) == ProxyOf(e.payload))
            && (e.etype == Added && e.resource.rtype == RELAY ==> RelayOf(e'.payload) == RelayOf(e.payload))
  {
    if e.etype == Added {
      if e.resource.rtype == PROXY {
        PayloadJsonRoundTrip(e.payload);
      } else {
        RelayPayloadRoundTrip(e.payload);
      }
    }
  }

  lemma RelayPayloadRoundTrip(p: Payload)
    requires RelayOf(p).Some?
    ensures PayloadToJson(p).JObj? && RelayOf(JsonPayload(PayloadToJson(p))) == RelayOf(p)
  {
    if p.RelayPayload? { SessionJsonRoundTrip(p.session); }
  }

  lemma ReloadPut(m: Resources, e: Event)
    ensures ReloadResources(PutResource(m, e.resource, e.payload))
            == PutResource(ReloadResources(m), e.resource, Reloaded(e.payload))
    ensures ReloadResources(DropResource(m, e.resource)) == DropResource(ReloadResources(m), e.resource)
  {
    var key, t := e.resource.ToString(), e.resource.rtype;
    assert TypeOf(ReloadResources(m), t) == ReloadSection(TypeOf(m, t));
    assert ReloadSection(TypeOf(m, t)[key := e.payload]) == ReloadSection(TypeOf(m, t))[key := Reloaded(e.payload)];
    assert ReloadSection(TypeOf(m, t) - {key}) == ReloadSection(TypeOf(m, t)) - {key};
  }

  lemma ReloadStored(log: seq<Event>)
    requires WellFiled(log) && LogStored(log)
    ensures WellFiled(ReloadLog(log)) && LogStored(ReloadLog(log))
  {
    ReloadReplay(log);
    var ps, rs := TypeOf(Replay(log), PROXY), TypeOf(Replay(log), RELAY);
    assert TypeOf(ReloadResources(Replay(log)), PROXY) == ReloadSection(ps);
    assert TypeOf(ReloadResources(Replay(log)), RELAY) == ReloadSection(rs);
    ProxyDecodeStable();
    RelayDecodeStable();
    StoresReload(PROXY, ps, ReplayProxies(log), ProxyOf);
    StoresReload(RELAY, rs, ReplayRelays(log), RelayOf);
  }

  ghost predicate DecodeStable<V(!new)>(decode: Payload -> Option<V>) {
    forall p :: decode(p).Some? ==> decode(Reloaded(p)) == decode(p)
  }

  lemma ProxyDecodeStable()
    ensures DecodeStable(ProxyOf)
  {
    forall p | ProxyOf(p).Some? ensures ProxyOf(Reloaded(p)) == ProxyOf(p) { PayloadJsonRoundTrip(p); }
  }

  lemma RelayDecodeStable()
    ensures DecodeStable(RelayOf)
  {
    forall p | RelayOf(p).Some? ensures RelayOf(Reloaded(p)) == RelayOf(p) { RelayPayloadRoundTrip(p); }
  }

  lemma StoresReload<V(!new)>(rtype: string, section: map<string, Payload>, live: map<string, V>,
                              decode: Payload -> Option<V>)
    requires Stores(rtype, section, live, decode) && DecodeStable(decode)
    ensures Stores(rtype, ReloadSection(section), live, decode)
  {}

  // ---------------------------------------------------------------- start-up as interleaved steps

  datatype BootOp =
    | Taken(e: Event, now: int)                     // a worker applies a published event
    | Written(rtype: string)                        // its handler, with the flag cleared, writes it through
    | Skipped(rtype: string)                        // or, with the flag set, does not
    | RestoreNow(ps: seq<string>, rs: seq<string>)  // restoreSnapshot

  /** found: the state of the snapshot that was found on opening, if there was one. */
  ghost predicate BootStep(stored: Resources, found: Option<Resources>, w: Working, op: BootOp, w': Working) {
    match op
    case Taken(e, now) => Published(stored, e) && WorkStep(w, BeginOp(e, now), w')
    case Written(rtype) => WorkStep(w, FinishOp(rtype), w')
    case Skipped(rtype) => rtype in w.busy && w' == w.(busy := w.busy - {rtype})
    case RestoreNow(ps, rs) =>
      && found.Some? && w' == w.(s := w.s.(t := w'.s.t))
      && IsRestore(w.s.t, SnapshotData(found.value), ps, rs, w'.s.t)
  }

  /** What opening the storage finds when the program ended in state s. */
  function OnDisk(s: CoreState): CoreState {
    CoreState(EMPTY_TABLES, ReloadResources(s.resources), ReloadLog(s.log))
  }

  /** Start-up from there: the workers' steps and Restore in any order, with any published events lost. */
  ghost predicate IsBoot(start: CoreState, found: Option<Resources>, ws: seq<Working>, ops: seq<BootOp>) {
    && |ws| == |ops| + 1 && ws[0] == Working(start, map[])
    && forall i :: 0 <= i < |ops| ==> BootStep(start.resources, found, ws[i], ops[i], ws[i + 1])
  }

  predicate AddsProxy(e: Event, ps: map<string, Proxy>) {
    && e.etype == Added && e.resource == DefaultKey(PROXY, e.resource.name)
    && e.resource.name in ps && e.payload == ProxyPayload(ps[e.resource.name])
  }

  predicate AddsRelay(e: Event, rs: map<string, Relay>) {
    && e.etype == Added && e.resource == DefaultKey(RELAY, e.resource.name)
    && e.resource.name in rs && e.payload.RelayPayload? && e.payload.session.spec == rs[e.resource.name]
  }

  lemma NoEmptyKey(ps: map<string, Proxy>)
    requires ProxiesWellFiled(ps)
    ensures "" !in ps
  {
    assert forall p: Proxy :: p.Key() != "";
  }

  /** A stored key leads back to the name it was made from, and the payload to the live value. */
  lemma StoredEntry<V(!new)>(rtype: string, section: map<string, Payload>, live: map<string, V>,
                             decode: Payload -> Option<V>, k: string) returns (name: string)
    requires rtype != "" && '/' !in rtype && Stores(rtype, section, live, decode) && "" !in live && k in section
    ensures name in live && ParseResourceKey(k) == Some(DefaultKey(rtype, name))
    ensures decode(section[k]) == Some(live[name])
  {
    name :| name in live && k == Filed(rtype, name);
    FiledParses(rtype, name);
  }

  lemma FiledParses(rtype: string, name: string)
    requires rtype != "" && '/' !in rtype && name != ""
    ensures ParseResourceKey(Filed(rtype, name)) == Some(DefaultKey(rtype, name))
  {
    ParseResourceKeyInverts(DefaultKey(rtype, name));
  }

  lemma ProxyEventIsLive(section: map<string, Payload>, ps: map<string, Proxy>, k: string)
    requires Stores(PROXY, section, ps, ProxyOf) && "" !in ps
    requires k in section && ProxyEvent(k, section[k], "").Some?
    ensures AddsProxy(ProxyEvent(k, section[k], "").value, ps)
  {
    var name := StoredEntry(PROXY, section, ps, ProxyOf, k);
  }

  lemma RelayEventIsLive(section: map<string, Payload>, rs: map<string, Relay>, k: string)
    requires Stores(RELAY, section, rs, RelayOf) && "" !in rs
    requires k in section && RelayEvent(k, section[k], "").Some?
    ensures AddsRelay(RelayEvent(k, section[k], "").value, rs)
  {
    var name := StoredEntry(RELAY, section, rs, RelayOf, k);
  }

  /** A published event carries a resource the log leads to, under its own name. */
  lemma PublishedIsLive(m: Resources, ps: map<string, Proxy>, rs: map<string, Relay>, e: Event)
    requires Stores(PROXY, TypeOf(m, PROXY), ps, ProxyOf) && ProxiesWellFiled(ps)
    requires Stores(RELAY, TypeOf(m, RELAY), rs, RelayOf) && RelaysWellFiled(rs)
    requires Published(m, e)
    ensures AddsProxy(e, ps) || AddsRelay(e, rs)
  {
    NoEmptyKey(ps);
    if k :| k in TypeOf(m, PROXY) && ProxyEvent(k, TypeOf(m, PROXY)[k], "").Some?
            && SameButNumbers(e, ProxyEvent(k, TypeOf(m, PROXY)[k], "").value) {
      ProxyEventIsLive(TypeOf(m, PROXY), ps, k);
    } else {
      var k :| k in TypeOf(m, RELAY) && RelayEvent(k, TypeOf(m, RELAY)[k], "").Some?
               && SameButNumbers(e, RelayEvent(k, TypeOf(m, RELAY)[k], "").value);
      RelayEventIsLive(TypeOf(m, RELAY), rs, k);
    }
  }

  // ---------------------------------------------------------------- everything stored is published

  /** Read back from disk, a stored resource is a JSON value. */
  ghost predicate FromDisk(section: map<string, Payload>) {
    forall k :: k in section ==> section[k].JsonPayload? || section[k] == NoPayload
  }

  lemma ReloadedFromDisk(section: map<string, Payload>)
    ensures FromDisk(ReloadSection(section))
  {}

  /** One of the events is about this name, and no other is. */
  ghost predicate OnlyAt(es: seq<Event>, i: int, name: string) {
    && 0 <= i < |es| && es[i].resource.name == name
    && forall j :: 0 <= j < |es| && es[j].resource.name == name ==> j == i
  }

  lemma ProxyEventNumbers(k: string, raw: Payload, id: string)
    ensures ProxyEvent(k, raw, id).Some? <==> ProxyEvent(k, raw, "").Some?
    ensures ProxyEvent(k, raw, id).Some? ==> SameButNumbers(ProxyEvent(k, raw, id).value, ProxyEvent(k, raw, "").value)
  {}

  /** One event for each key, in order. */
  lemma {:induction false} ProxyEventsAre(section: map<string, Payload>, order: seq<string>, ids: string -> string)
    requires forall k :: k in order ==> k in section && ProxyEvent(k, section[k], "").Some?
    ensures var es := ProxyEvents(section, order, ids);
            |es| == |order| && forall i :: 0 <= i < |es| ==>
              SameButNumbers(es[i], ProxyEvent(order[i], section[order[i]], "").value)
  {
    if order != [] {
      var shorter, k := order[..|order| - 1], order[|order| - 1];
      ProxyEventsAre(section, shorter, ids);
      assert k in order && order == shorter + [k];
      ProxyEventsPush(section, shorter, k, ids);
      ProxyEventNumbers(k, section[k], ids(k));
      assert ProxyEvents(section, order, ids)
             == ProxyEvents(section, shorter, ids) + [ProxyEvent(k, section[k], ids(k)).value];
    }
  }

  lemma RelayEventNumbers(k: string, raw: Payload, id: string)
    ensures RelayEvent(k, raw, id).Some? <==> RelayEvent(k, raw, "").Some?
    ensures RelayEvent(k, raw, id).Some? ==> SameButNumbers(RelayEvent(k, raw, id).value, RelayEvent(k, raw, "").value)
  {}

  /** One event for each key, in order. */
  lemma {:induction false} RelayEventsAre(section: map<string, Payload>, order: seq<string>, ids: string -> string)
    requires forall k :: k in order ==> k in section && RelayEvent(k, section[k], "").Some?
    ensures var es := RelayEvents(section, order, ids);
            |es| == |order| && forall i :: 0 <= i < |es| ==>
              SameButNumbers(es[i], RelayEvent(order[i], section[order[i]], "").value)
  {
    if order != [] {
      var shorter, k := order[..|order| - 1], order[|order| - 1];
      RelayEventsAre(section, shorter, ids);
      assert k in order && order == shorter + [k];
      RelayEventsPush(section, shorter, k, ids);
      RelayEventNumbers(k, section[k], ids(k));
      assert RelayEvents(section, order, ids)
             == RelayEvents(section, shorter, ids) + [RelayEvent(k, section[k], ids(k)).value];
    }
  }

  /** Some event for k carries the resource that is stored there. */
  lemma ProxyIsPublished(section: map<string, Payload>, ps: map<string, Proxy>, k: string) returns (name: string)
    requires Stores(PROXY, section, ps, ProxyOf) && ProxiesWellFiled(ps) && FromDisk(section) && k in section
    ensures name in ps && k == Filed(PROXY, name)
    ensures ProxyEvent(k, section[k], "").Some? && AddsProxy(ProxyEvent(k, section[k], "").value, ps)
    ensures ProxyEvent(k, section[k], "").value.resource.name == name
  {
    NoEmptyKey(ps);
    name := StoredEntry(PROXY, section, ps, ProxyOf, k);
    var n :| n in ps && k == Filed(PROXY, n);
    FiledParses(PROXY, n);
  }

  lemma RelayIsPublished(section: map<string, Payload>, rs: map<string, Relay>, k: string) returns (name: string)
    requires Stores(RELAY, section, rs, RelayOf) && RelaysWellFiled(rs) && FromDisk(section) && k in section
    ensures name in rs && k == Filed(RELAY, name)
    ensures RelayEvent(k, section[k], "").Some? && AddsRelay(RelayEvent(k, section[k], "").value, rs)
    ensures RelayEvent(k, section[k], "").value.resource.name == name
  {
    name := StoredEntry(RELAY, section, rs, RelayOf, k);
    var n :| n in rs && k == Filed(RELAY, n);
    FiledParses(RELAY, n);
  }

  /** For every live proxy restoring publishes exactly one event, and that one creates it as it is. */
  lemma ProxiesPublished(section: map<string, Payload>, ps: map<string, Proxy>, order: seq<string>,
                         ids: string -> string)
    requires Stores(PROXY, section, ps, ProxyOf) && ProxiesWellFiled(ps) && FromDisk(section)
    requires Enumerates(order, section.Keys)
    ensures PublishesProxies(ProxyEvents(section, order, ids), ps)
  {
    forall k | k in order ensures k in section && ProxyEvent(k, section[k], "").Some? {
      assert k in section.Keys;
      var _ := ProxyIsPublished(section, ps, k);
    }
    ProxyEventsAre(section, order, ids);
    var es := ProxyEvents(section, order, ids);
    forall i | 0 <= i < |es| ensures AddsProxy(es[i], ps) && order[i] == Filed(PROXY, es[i].resource.name) {
      assert order[i] in order;
      var _ := ProxyIsPublished(section, ps, order[i]);
    }
    forall name | name in ps ensures exists i :: OnlyAt(es, i, name) {
      assert Filed(PROXY, name) in order;
      var i :| 0 <= i < |order| && order[i] == Filed(PROXY, name);
      FiledInjective(PROXY, es[i].resource.name, name);
      assert OnlyAt(es, i, name);
    }
  }

  lemma RelaysPublished(section: map<string, Payload>, rs: map<string, Relay>, order: seq<string>,
                        ids: string -> string)
    requires Stores(RELAY, section, rs, RelayOf) && RelaysWellFiled(rs) && FromDisk(section)
    requires Enumerates(order, section.Keys)
    ensures PublishesRelays(RelayEvents(section, order, ids), rs)
  {
    forall k | k in order ensures k in section && RelayEvent(k, section[k], "").Some? {
      assert k in section.Keys;
      var _ := RelayIsPublished(section, rs, k);
    }
    RelayEventsAre(section, order, ids);
    var es := RelayEvents(section, order, ids);
    forall i | 0 <= i < |es| ensures AddsRelay(es[i], rs) && order[i] == Filed(RELAY, es[i].resource.name) {
      assert order[i] in order;
      var _ := RelayIsPublished(section, rs, order[i]);
    }
    forall name | name in rs ensures exists i :: OnlyAt(es, i, name) {
      assert Filed(RELAY, name) in order;
      var i :| 0 <= i < |order| && order[i] == Filed(RELAY, name);
      FiledInjective(RELAY, es[i].resource.name, name);
      assert OnlyAt(es, i, name);
    }
  }

  /** The events of es, numbered from seqNo + 1 on. */
  ghost predicate NumberedOn(es: seq<Event>, fs: seq<Event>, seqNo: int) {
    |fs| == |es| && forall i :: 0 <= i < |es| ==> fs[i] == es[i].(sequence := seqNo + 1 + i)
  }

  ghost predicate TakesAll(b: Bus, es: seq<Event>, b': Bus) {
    && b.accepted <= b'.accepted && NumberedOn(es, b'.accepted[|b.accepted|..], b.seqNo)
    && b'.seqNo == b.seqNo + |es| && b'.closed == b.closed && b'.subs == b.subs
  }

  /** With room for all of them an open, subscribed bus takes them all. */
  lemma {:induction false} RoomForAll(b: Bus, es: seq<Event>, rtype: string, other: string)
    requires !b.closed && rtype in b.subs && |Queue(b.queues, rtype)| + |es| <= 256 && other != rtype
    requires forall e :: e in es ==> e.resource.rtype == rtype
    ensures var b' := PublishAll(b, es);
            && TakesAll(b, es, b') && Queue(b'.queues, other) == Queue(b.queues, other)
            && |Queue(b'.queues, rtype)| == |Queue(b.queues, rtype)| + |es|
  {
    if es != [] {
      var n := |es| - 1;
      RoomForAll(b, es[..n], rtype, other);
      assert es[n] in es;
      TakesOne(b, es[..n], PublishAll(b, es[..n]), es[n]);
      assert es[..n] + [es[n]] == es;
    }
  }

  lemma TakesOne(b: Bus, es: seq<Event>, u: Bus, e: Event)
    requires TakesAll(b, es, u) && Decide(u, e.resource.rtype) == Accepted
    ensures TakesAll(b, es + [e], Publish(u, e))
  {
    var v := Publish(u, e);
    assert v.accepted[|b.accepted|..] == u.accepted[|b.accepted|..] + [e.(sequence := u.seqNo + 1)];
  }

  /** Exactly one event for each of these proxies, creating it as it is, and no other event. */
  ghost predicate PublishesProxies(es: seq<Event>, ps: map<string, Proxy>) {
    && (forall e :: e in es ==> AddsProxy(e, ps))
    && forall name :: name in ps ==> exists i :: OnlyAt(es, i, name)
  }

  ghost predicate PublishesRelays(es: seq<Event>, rs: map<string, Relay>) {
    && (forall e :: e in es ==> AddsRelay(e, rs))
    && forall name :: name in rs ==> exists i :: OnlyAt(es, i, name)
  }

  /** Numbering events changes neither what they are about nor what they create. */
  lemma NumberedPublish(es: seq<Event>, fs: seq<Event>, seqNo: int, ps: map<string, Proxy>, rs: map<string, Relay>)
    requires NumberedOn(es, fs, seqNo)
    ensures PublishesProxies(es, ps) ==> PublishesProxies(fs, ps)
    ensures PublishesRelays(es, rs) ==> PublishesRelays(fs, rs)
  {
    forall e | e in fs ensures exists i :: 0 <= i < |es| && fs[i] == e && es[i] in es {
      var i :| 0 <= i < |fs| && fs[i] == e;
      assert es[i] in es;
    }
    forall i, name | OnlyAt(es, i, name) ensures OnlyAt(fs, i, name) {}
  }

  /** So many events for proxies, then so many for relays were accepted, one for each of these resources. */
  ghost predicate Announced(b: Bus, proxies: nat, relays: nat, b': Bus, ps: map<string, Proxy>,
                            rs: map<string, Relay>) {
    var middle := |b.accepted| + proxies;
    && |b'.accepted| == middle + relays && b.accepted <= b'.accepted
    && PublishesProxies(b'.accepted[|b.accepted|..middle], ps) && PublishesRelays(b'.accepted[middle..], rs)
  }

  /**
   * Start-up publishes everything stored: with room in both queues, exactly one event is accepted for each
   * proxy and each relay that the stored resources mean, and it creates that resource as it is.
   */
  lemma StoredArePublished(m: Resources, ids: string -> string, b: Bus, porder: seq<string>, rorder: seq<string>,
                           b': Bus, ps: map<string, Proxy>, rs: map<string, Relay>)
    requires IsMetaRestore(m, ids, b, porder, rorder, b')
    requires Stores(PROXY, TypeOf(m, PROXY), ps, ProxyOf) && ProxiesWellFiled(ps) && FromDisk(TypeOf(m, PROXY))
    requires Stores(RELAY, TypeOf(m, RELAY), rs, RelayOf) && RelaysWellFiled(rs) && FromDisk(TypeOf(m, RELAY))
    requires !b.closed && PROXY in b.subs && RELAY in b.subs
    requires |Queue(b.queues, PROXY)| + |TypeOf(m, PROXY)| <= 256
    requires |Queue(b.queues, RELAY)| + |TypeOf(m, RELAY)| <= 256
    ensures Announced(b, |TypeOf(m, PROXY)|, |TypeOf(m, RELAY)|, b', ps, rs)
  {
    var pes, res := StoredEvents(m, ids, b, porder, rorder, b', ps, rs);
    BothAccepted(b, pes, res, b', ps, rs);
  }

  lemma BothAccepted(b: Bus, pes: seq<Event>, res: seq<Event>, b': Bus, ps: map<string, Proxy>, rs: map<string, Relay>)
    requires b' == PublishAll(PublishAll(b, pes), res) && !b.closed && PROXY in b.subs && RELAY in b.subs
    requires |Queue(b.queues, PROXY)| + |pes| <= 256 && |Queue(b.queues, RELAY)| + |res| <= 256
    requires PublishesProxies(pes, ps) && PublishesRelays(res, rs)
    ensures Announced(b, |pes|, |res|, b', ps, rs)
  {
    var between := PublishAll(b, pes);
    ProxyBatch(b, pes, ps, between);
    RelayBatch(between, res, rs, b');
    AnnouncedInTwo(b, between, b', ps, rs);
  }

  lemma AnnouncedInTwo(b: Bus, u: Bus, b': Bus, ps: map<string, Proxy>, rs: map<string, Relay>)
    requires b.accepted <= u.accepted <= b'.accepted
    requires PublishesProxies(u.accepted[|b.accepted|..], ps) && PublishesRelays(b'.accepted[|u.accepted|..], rs)
    ensures Announced(b, |u.accepted| - |b.accepted|, |b'.accepted| - |u.accepted|, b', ps, rs)
  {
    TwoBatches(b.accepted, u.accepted, b'.accepted);
  }

  lemma StoredEvents(m: Resources, ids: string -> string, b: Bus, porder: seq<string>, rorder: seq<string>,
                     b': Bus, ps: map<string, Proxy>, rs: map<string, Relay>) returns (pes: seq<Event>, res: seq<Event>)
    requires IsMetaRestore(m, ids, b, porder, rorder, b')
    requires Stores(PROXY, TypeOf(m, PROXY), ps, ProxyOf) && ProxiesWellFiled(ps) && FromDisk(TypeOf(m, PROXY))
    requires Stores(RELAY, TypeOf(m, RELAY), rs, RelayOf) && RelaysWellFiled(rs) && FromDisk(TypeOf(m, RELAY))
    ensures |pes| == |TypeOf(m, PROXY)| && PublishesProxies(pes, ps)
    ensures |res| == |TypeOf(m, RELAY)| && PublishesRelays(res, rs)
    ensures b' == PublishAll(PublishAll(b, pes), res)
  {
    pes, res := ProxyEvents(TypeOf(m, PROXY), porder, ids), RelayEvents(TypeOf(m, RELAY), rorder, ids);
    EventCounts(m, porder, rorder, ids, ps, rs);
    ProxiesPublished(TypeOf(m, PROXY), ps, porder, ids);
    RelaysPublished(TypeOf(m, RELAY), rs, rorder, ids);
  }

  lemma ProxyBatch(b: Bus, es: seq<Event>, ps: map<string, Proxy>, b': Bus)
    requires b' == PublishAll(b, es) && !b.closed && PROXY in b.subs && |Queue(b.queues, PROXY)| + |es| <= 256
    requires PublishesProxies(es, ps)
    ensures b.accepted <= b'.accepted && |b'.accepted| == |b.accepted| + |es| && !b'.closed && b'.subs == b.subs
    ensures PublishesProxies(b'.accepted[|b.accepted|..], ps) && Queue(b'.queues, RELAY) == Queue(b.queues, RELAY)
  {
    assert PROXY != RELAY;
    RoomForAll(b, es, PROXY, RELAY);
    NumberedPublish(es, b'.accepted[|b.accepted|..], b.seqNo, ps, map[]);
  }

  lemma RelayBatch(b: Bus, es: seq<Event>, rs: map<string, Relay>, b': Bus)
    requires b' == PublishAll(b, es) && !b.closed && RELAY in b.subs && |Queue(b.queues, RELAY)| + |es| <= 256
    requires PublishesRelays(es, rs)
    ensures b.accepted <= b'.accepted && |b'.accepted| == |b.accepted| + |es|
    ensures PublishesRelays(b'.accepted[|b.accepted|..], rs)
  {
    assert PROXY != RELAY;
    RoomForAll(b, es, RELAY, PROXY);
    NumberedPublish(es, b'.accepted[|b.accepted|..], b.seqNo, map[], rs);
  }

  lemma TwoBatches<T>(a: seq<T>, b: seq<T>, c: seq<T>)
    requires a <= b <= c
    ensures a <= c && c[|a|..|b|] == b[|a|..]
  {}

  lemma EventCounts(m: Resources, porder: seq<string>, rorder: seq<string>, ids: string -> string,
                    ps: map<string, Proxy>, rs: map<string, Relay>)
    requires Enumerates(porder, TypeOf(m, PROXY).Keys) && Enumerates(rorder, TypeOf(m, RELAY).Keys)
    requires Stores(PROXY, TypeOf(m, PROXY), ps, ProxyOf) && ProxiesWellFiled(ps) && FromDisk(TypeOf(m, PROXY))
    requires Stores(RELAY, TypeOf(m, RELAY), rs, RelayOf) && RelaysWellFiled(rs) && FromDisk(TypeOf(m, RELAY))
    ensures |ProxyEvents(TypeOf(m, PROXY), porder, ids)| == |TypeOf(m, PROXY)|
    ensures |RelayEvents(TypeOf(m, RELAY), rorder, ids)| == |TypeOf(m, RELAY)|
  {
    forall k | k in porder ensures ProxyEvent(k, TypeOf(m, PROXY)[k], "").Some? {
      var _ := ProxyIsPublished(TypeOf(m, PROXY), ps, k);
    }
    forall k | k in rorder ensures RelayEvent(k, TypeOf(m, RELAY)[k], "").Some? {
      var _ := RelayIsPublished(TypeOf(m, RELAY), rs, k);
    }
    ProxyEventsAre(TypeOf(m, PROXY), porder, ids);
    RelayEventsAre(TypeOf(m, RELAY), rorder, ids);
    EnumerationSize(porder, TypeOf(m, PROXY).Keys);
    EnumerationSize(rorder, TypeOf(m, RELAY).Keys);
  }

  lemma AddsLiveIsCanonical(e: Event, ps: map<string, Proxy>, rs: map<string, Relay>)
    requires ProxiesWellFiled(ps) && RelaysWellFiled(rs) && (AddsProxy(e, ps) || AddsRelay(e, rs))
    ensures ForResource(e) && Canonical(e) && Restorable(e)
  {
    if AddsProxy(e, ps) { assert ps[e.resource.name].Key() == e.resource.name; }
  }

  /** Recording a published event again leaves the log's meaning as it is. */
  lemma QueuedMeaningKept(log: seq<Event>, e: Event, logged: Event)
    requires Records(e, logged) && (AddsProxy(e, ReplayProxies(log)) || AddsRelay(e, ReplayRelays(log)))
    ensures ReplayProxies(log + [logged]) == ReplayProxies(log) && ReplayRelays(log + [logged]) == ReplayRelays(log)
  {
    ReplayProxiesPush(log, logged);
    ReplayRelaysPush(log, logged);
    PutAgain(ReplayProxies(log), e.resource.name);
    PutAgain(ReplayRelays(log), e.resource.name);
  }

  lemma PutAgain<V>(m: map<string, V>, k: string)
    ensures k in m ==> m[k := m[k]] == m
  {}

  // ---------------------------------------------------------------- what the snapshot gives back

  /** The section decodes, entry by entry, to the live resources. */
  ghost predicate Gives<V(!new)>(section: map<string, Json>, live: map<string, V>, decode: Payload -> Option<V>) {
    section.Keys == live.Keys && forall k :: k in section ==> decode(JsonPayload(section[k])) == Some(live[k])
  }

  lemma SectionPlain<V(!new)>(rtype: string, m: map<string, Payload>, live: map<string, V>,
                              decode: Payload -> Option<V>)
    requires rtype != "" && '/' !in rtype && Stores(rtype, m, live, decode) && "" !in live
    ensures DefaultKeysOnly(rtype, m) && !Collides(rtype, m)
  {
    forall k | k in m ensures InDefault(rtype, k) {
      var name :| name in live && k == Filed(rtype, name);
    }
    forall name | name in live ensures Filed(rtype, name) != Filed(rtype, "") {
      if Filed(rtype, name) == Filed(rtype, "") { FiledInjective(rtype, name, ""); }
    }
  }

  lemma EntryNamed<V(!new)>(rtype: string, m: map<string, Payload>, n: map<string, Payload>,
                            live: map<string, V>, decode: Payload -> Option<V>, x: string)
    requires rtype != "" && '/' !in rtype && Stores(rtype, m, live, decode) && "" !in live && Normalized(m, n)
    requires x in n
    ensures x in live
  {
    var k :| k in m && NormalName(k) == x && n[x] == m[k];
    var name :| name in live && k == Filed(rtype, name);
    NormalOfDefault(rtype, name);
  }

  lemma EntryKept<V(!new)>(rtype: string, m: map<string, Payload>, n: map<string, Payload>,
                           live: map<string, V>, decode: Payload -> Option<V>, name: string)
    requires rtype != "" && '/' !in rtype && Stores(rtype, m, live, decode) && "" !in live && Normalized(m, n)
    requires name in live
    ensures name in n && decode(n[name]) == Some(live[name])
  {
    SectionPlain(rtype, m, live, decode);
    NamedEntryKept(rtype, m, n, name);
  }

  lemma SectionHolds<V(!new)>(rtype: string, m: map<string, Payload>, n: map<string, Payload>,
                              live: map<string, V>, decode: Payload -> Option<V>)
    requires rtype != "" && '/' !in rtype && Stores(rtype, m, live, decode) && "" !in live && Normalized(m, n)
    ensures Holds(n, live, decode)
  {
    forall x ensures HoldsAt(n, live, decode, x) { Entry(rtype, m, n, live, decode, x); }
    HoldsEverywhere(n, live, decode);
  }

  ghost predicate HoldsAt<V(!new)>(section: map<string, Payload>, live: map<string, V>, decode: Payload -> Option<V>,
                                   x: string) {
    (x in section <==> x in live) && (x in section ==> decode(section[x]) == Some(live[x]))
  }

  lemma HoldsEverywhere<V(!new)>(section: map<string, Payload>, live: map<string, V>, decode: Payload -> Option<V>)
    requires forall x :: HoldsAt(section, live, decode, x)
    ensures Holds(section, live, decode)
  {
    forall x ensures (x in section <==> x in live) && (x in section ==> decode(section[x]) == Some(live[x])) {
      assert HoldsAt(section, live, decode, x);
    }
  }

  lemma Entry<V(!new)>(rtype: string, m: map<string, Payload>, n: map<string, Payload>,
                       live: map<string, V>, decode: Payload -> Option<V>, x: string)
    requires rtype != "" && '/' !in rtype && Stores(rtype, m, live, decode) && "" !in live && Normalized(m, n)
    ensures HoldsAt(n, live, decode, x)
  {
    if x in live {
      EntryKept(rtype, m, n, live, decode, x);
    } else if x in n {
      EntryNamed(rtype, m, n, live, decode, x);
      assert false;
    }
  }

  ghost predicate Holds<V(!new)>(section: map<string, Payload>, live: map<string, V>, decode: Payload -> Option<V>) {
    section.Keys == live.Keys && forall k :: k in section ==> decode(section[k]) == Some(live[k])
  }

  /** Written to disk and read back, a section gives what it held. */
  lemma SectionReread<V(!new)>(n: map<string, Payload>, live: map<string, V>, decode: Payload -> Option<V>)
    requires Holds(n, live, decode)
    requires DecodeStable(decode) && decode(NoPayload) == None
    ensures Gives(map k | k in n :: PayloadToJson(n[k]), live, decode)
  {
    forall k | k in n ensures decode(JsonPayload(PayloadToJson(n[k]))) == Some(live[k]) {
      assert decode(Reloaded(n[k])) == decode(n[k]);
    }
  }

  lemma SnapshotSection(m: Resources, state: Resources, rtype: string)
    requires IsSnapshotOf(m, state) && m.Keys <= {PROXY, RELAY} && (rtype == PROXY || rtype == RELAY)
    ensures if rtype in m
            then StateName(rtype) in state && Normalized(m[rtype], state[StateName(rtype)])
            else StateName(rtype) !in state
  {
    assert StateName(PROXY) == "desired_proxies" && StateName(RELAY) == "desired_relays";
    assert StateName(PROXY)[8] != StateName(RELAY)[8];
  }

  lemma SnapshotDataSection(state: Resources, s: string)
    ensures Section(SnapshotData(state), s) ==
            if s in state then map k | k in state[s] :: PayloadToJson(state[s][k]) else map[]
  {}

  lemma NothingStored<V(!new)>(rtype: string, live: map<string, V>, decode: Payload -> Option<V>)
    requires Stores(rtype, map[], live, decode)
    ensures live == map[]
  {
    var empty: map<string, Payload> := map[];
    assert forall name :: name in live ==> Filed(rtype, name) in empty;
  }

  lemma SnapshotGives<V(!new)>(m: Resources, state: Resources, rtype: string, live: map<string, V>,
                               decode: Payload -> Option<V>)
    requires IsSnapshotOf(m, state) && m.Keys <= {PROXY, RELAY} && (rtype == PROXY || rtype == RELAY)
    requires Stores(rtype, TypeOf(m, rtype), live, decode) && "" !in live
    requires DecodeStable(decode) && decode(NoPayload) == None
    ensures Gives(Section(SnapshotData(state), StateName(rtype)), live, decode)
  {
    SnapshotSection(m, state, rtype);
    SnapshotDataSection(state, StateName(rtype));
    assert rtype != "" && '/' !in rtype;
    if rtype in m {
      SectionHolds(rtype, m[rtype], state[StateName(rtype)], live, decode);
      SectionReread(state[StateName(rtype)], live, decode);
    } else {
      NothingStored(rtype, live, decode);
    }
  }

  /** The entries of m with these keys. */
  function Chosen<V>(m: map<string, V>, keys: seq<string>): map<string, V> {
    map k | k in m && k in keys :: m[k]
  }

  lemma ChosenPush<V>(m: map<string, V>, keys: seq<string>)
    requires keys != [] && keys[|keys| - 1] in m
    ensures var last := keys[|keys| - 1]; Chosen(m, keys) == Chosen(m, keys[..|keys| - 1])[last := m[last]]
  {
    var shorter, last := keys[..|keys| - 1], keys[|keys| - 1];
    assert forall k :: k in keys <==> k in shorter || k == last;
  }

  lemma ChosenAll<V>(m: map<string, V>, keys: seq<string>)
    requires Enumerates(keys, m.Keys)
    ensures Chosen(m, keys) == m
  {}

  lemma MergePut<V>(m: map<string, V>, n: map<string, V>, k: string, v: V)
    ensures (m + n)[k := v] == m + n[k := v]
  {}

  lemma {:induction false} RestoreProxiesMerges(t: Tables, m: map<string, Json>, order: seq<string>,
                                                qs: map<string, Proxy>)
    requires Gives(m, qs, ProxyOf) && ProxiesWellFiled(qs) && (forall k :: k in order ==> k in m)
    ensures var t' := RestoreProxies(t, m, order);
            && t'.relays == t.relays && t'.desiredRelays == t.desiredRelays
            && t'.proxies == t.proxies + Chosen(qs, order)
            && t'.desiredProxies == t.desiredProxies + Chosen(qs, order)
  {
    if order != [] {
      var shorter, last := order[..|order| - 1], order[|order| - 1];
      RestoreProxiesMerges(t, m, shorter, qs);
      assert ProxyOf(JsonPayload(m[last])) == Some(qs[last]);
      assert qs[last].Key() == last;
      ChosenPush(qs, order);
      MergePut(t.proxies, Chosen(qs, shorter), last, qs[last]);
      MergePut(t.desiredProxies, Chosen(qs, shorter), last, qs[last]);
    }
  }

  lemma {:induction false} RestoreRelaysMerges(t: Tables, m: map<string, Json>, order: seq<string>,
                                               us: map<string, Relay>)
    requires Gives(m, us, RelayOf) && RelaysWellFiled(us) && (forall k :: k in order ==> k in m)
    ensures var t' := RestoreRelays(t, m, order);
            && t'.proxies == t.proxies && t'.desiredProxies == t.desiredProxies
            && t'.desiredRelays == t.desiredRelays + Chosen(us, order)
            && (RelaysAgree(t.relays, t.desiredRelays) ==> RelaysAgree(t'.relays, t'.desiredRelays))
  {
    if order != [] {
      var shorter, last := order[..|order| - 1], order[|order| - 1];
      RestoreRelaysMerges(t, m, shorter, us);
      assert RelayOf(JsonPayload(m[last])) == Some(us[last]);
      ChosenPush(us, order);
      MergePut(t.desiredRelays, Chosen(us, shorter), last, us[last]);
    }
  }

  /** Restore files every entry of the snapshot over what is there, in all four maps. */
  lemma RestoreMerges(t: Tables, data: map<string, Json>, porder: seq<string>, rorder: seq<string>, t': Tables,
                      qs: map<string, Proxy>, us: map<string, Relay>)
    requires IsRestore(t, data, porder, rorder, t')
    requires Gives(Section(data, "desired_proxies"), qs, ProxyOf) && ProxiesWellFiled(qs)
    requires Gives(Section(data, "desired_relays"), us, RelayOf) && RelaysWellFiled(us)
    ensures t'.proxies == t.proxies + qs && t'.desiredProxies == t.desiredProxies + qs
    ensures t'.desiredRelays == t.desiredRelays + us
    ensures RelaysAgree(t.relays, t.desiredRelays) ==> RelaysAgree(t'.relays, t'.desiredRelays)
  {
    RestoreProxiesMerges(t, Section(data, "desired_proxies"), porder, qs);
    var between := RestoreProxies(t, Section(data, "desired_proxies"), porder);
    RestoreRelaysMerges(between, Section(data, "desired_relays"), rorder, us);
    ChosenAll(qs, porder);
    ChosenAll(us, rorder);
  }

  // ---------------------------------------------------------------- what start-up rebuilds

  predicate Takes(op: BootOp, rtype: string, k: string) {
    op.Taken? && op.e.resource.rtype == rtype && op.e.resource.name == k
  }

  /** The map that these steps build up: `all` is what the log leads to, `snap` what the snapshot holds. */
  function Rebuilt<V>(rtype: string, ops: seq<BootOp>, all: map<string, V>, snap: map<string, V>): map<string, V> {
    if ops == [] then map[]
    else
      var m, op := Rebuilt(rtype, ops[..|ops| - 1], all, snap), ops[|ops| - 1];
      if op.Taken? && op.e.resource.rtype == rtype && op.e.resource.name in all
      then m[op.e.resource.name := all[op.e.resource.name]]
      else if op.RestoreNow? then m + snap
      else m
  }

  ghost predicate Restores(ops: seq<BootOp>) { exists op :: op in ops && op.RestoreNow? }

  /** The event for k was handled at some time. */
  ghost predicate TakenOnce(rtype: string, ops: seq<BootOp>, k: string) {
    exists i :: 0 <= i < |ops| && Takes(ops[i], rtype, k)
  }

  /** The event for k was handled and the snapshot not restored after that. */
  ghost predicate TakenLast(rtype: string, ops: seq<BootOp>, k: string) {
    exists i :: 0 <= i < |ops| && Takes(ops[i], rtype, k) && forall j :: i < j < |ops| ==> !ops[j].RestoreNow?
  }

  lemma TakenPush(rtype: string, ops: seq<BootOp>, op: BootOp, k: string)
    ensures Restores(ops + [op]) <==> Restores(ops) || op.RestoreNow?
    ensures TakenOnce(rtype, ops + [op], k) <==> TakenOnce(rtype, ops, k) || Takes(op, rtype, k)
    ensures TakenLast(rtype, ops + [op], k)
            <==> Takes(op, rtype, k) || (TakenLast(rtype, ops, k) && !op.RestoreNow?)
  {
    var longer := ops + [op];
    assert longer[|ops|] == op && forall i :: 0 <= i < |ops| ==> longer[i] == ops[i];
    if TakenOnce(rtype, ops, k) {
      var i :| 0 <= i < |ops| && Takes(ops[i], rtype, k);
      assert Takes(longer[i], rtype, k);
    }
    if TakenLast(rtype, ops, k) && !op.RestoreNow? {
      var i :| 0 <= i < |ops| && Takes(ops[i], rtype, k) && forall j :: i < j < |ops| ==> !ops[j].RestoreNow?;
      assert Takes(longer[i], rtype, k);
    }
    if TakenLast(rtype, longer, k) && !Takes(op, rtype, k) {
      var i :| 0 <= i < |longer| && Takes(longer[i], rtype, k)
               && forall j :: i < j < |longer| ==> !longer[j].RestoreNow?;
      assert Takes(ops[i], rtype, k);
    }
  }

  /** Who wrote k last decides what it is. */
  lemma {:induction false} RebuiltAt<V>(rtype: string, ops: seq<BootOp>, all: map<string, V>, snap: map<string, V>,
                                        k: string)
    ensures var m := Rebuilt(rtype, ops, all, snap);
            && (k in m <==> (k in all && TakenOnce(rtype, ops, k)) || (k in snap && Restores(ops)))
            && (k in m ==> m[k] == if k in all && TakenLast(rtype, ops, k) then all[k]
                                   else if k in snap && Restores(ops) then snap[k] else all[k])
  {
    if ops != [] {
      var shorter, op := ops[..|ops| - 1], ops[|ops| - 1];
      assert ops == shorter + [op];
      RebuiltAt(rtype, shorter, all, snap, k);
      TakenPush(rtype, shorter, op, k);
    }
  }

  /**
   * k ends up as the log has it: the snapshot does not bring it back from the dead, and it was handled
   * after the snapshot was restored, or the snapshot has it as the log does, or has not got it and it
   * was handled at all.
   */
  ghost predicate Recovered<V(!new)>(rtype: string, ops: seq<BootOp>, all: map<string, V>, snap: map<string, V>,
                                     k: string) {
    && (k in snap && Restores(ops) ==> k in all)
    && (k in all ==>
          || TakenLast(rtype, ops, k)
          || if k in snap && Restores(ops) then snap[k] == all[k] else TakenOnce(rtype, ops, k))
  }

  ghost predicate AllRecovered<V(!new)>(rtype: string, ops: seq<BootOp>, all: map<string, V>, snap: map<string, V>) {
    forall k :: Recovered(rtype, ops, all, snap, k)
  }

  lemma RebuiltIff<V(!new)>(rtype: string, ops: seq<BootOp>, all: map<string, V>, snap: map<string, V>)
    ensures Rebuilt(rtype, ops, all, snap) == all <==> AllRecovered(rtype, ops, all, snap)
  {
    var m := Rebuilt(rtype, ops, all, snap);
    forall k ensures Recovered(rtype, ops, all, snap, k) <==> (k in m <==> k in all) && (k in m ==> m[k] == all[k]) {
      RebuiltAt(rtype, ops, all, snap, k);
      LastIsOnce(rtype, ops, k);
    }
    if AllRecovered(rtype, ops, all, snap) {
      assert forall k :: Recovered(rtype, ops, all, snap, k) ==> (k in m <==> k in all) && (k in m ==> m[k] == all[k]);
      assert m.Keys == all.Keys;
    }
  }

  lemma LastIsOnce(rtype: string, ops: seq<BootOp>, k: string)
    ensures TakenLast(rtype, ops, k) ==> TakenOnce(rtype, ops, k)
  {}

  /** Restoring what the log leads to recovers everything, whatever else happens. */
  lemma RebuiltFresh<V(!new)>(rtype: string, ops: seq<BootOp>, all: map<string, V>)
    requires Restores(ops)
    ensures Rebuilt(rtype, ops, all, all) == all
  {
    forall k ensures Recovered(rtype, ops, all, all, k) {}
    RebuiltIff(rtype, ops, all, all);
  }

  // ---------------------------------------------------------------- the restart theorem

  /** Disk and log mean the given maps and agree with each other. */
  ghost predicate DiskHolds(b: CoreState, ps: map<string, Proxy>, rs: map<string, Relay>) {
    DiskAgrees(b) && WellFiled(b.log) && ReplayProxies(b.log) == ps && ReplayRelays(b.log) == rs
  }

  lemma ReloadHolds(s: CoreState)
    requires DiskAgrees(s) && WellFiled(s.log)
    ensures DiskHolds(OnDisk(s), ReplayProxies(s.log), ReplayRelays(s.log))
  {
    ReloadReplay(s.log);
    ReloadStored(s.log);
  }

  /** The snapshot, if there is one, holds these maps. */
  ghost predicate Holding(found: Option<Resources>, qs: map<string, Proxy>, us: map<string, Relay>) {
    && ProxiesWellFiled(qs) && RelaysWellFiled(us)
    && (found.Some? ==>
          && Gives(Section(SnapshotData(found.value), "desired_proxies"), qs, ProxyOf)
          && Gives(Section(SnapshotData(found.value), "desired_relays"), us, RelayOf))
  }

  predicate Adds(e: Event, ps: map<string, Proxy>, rs: map<string, Relay>) { AddsProxy(e, ps) || AddsRelay(e, rs) }

  /** Disk and log keep their meaning, and so will they with what the workers have still to write. */
  ghost predicate WorkersHold(w: Working, ps: map<string, Proxy>, rs: map<string, Relay>) {
    && DiskHolds(w.s, ps, rs)
    && forall rtype :: rtype in w.busy ==> w.busy[rtype].resource.rtype == rtype && Adds(w.busy[rtype], ps, rs)
  }

  /** The four maps are what these steps build up. */
  ghost predicate MapsRebuilt(t: Tables, ops: seq<BootOp>, ps: map<string, Proxy>, rs: map<string, Relay>,
                              qs: map<string, Proxy>, us: map<string, Relay>) {
    && t.proxies == t.desiredProxies == Rebuilt(PROXY, ops, ps, qs)
    && t.desiredRelays == Rebuilt(RELAY, ops, rs, us) && RelaysAgree(t.relays, t.desiredRelays)
  }

  lemma RebuiltPush<V>(rtype: string, ops: seq<BootOp>, op: BootOp, all: map<string, V>, snap: map<string, V>)
    ensures Rebuilt(rtype, ops + [op], all, snap) ==
            var m := Rebuilt(rtype, ops, all, snap);
            if op.Taken? && op.e.resource.rtype == rtype && op.e.resource.name in all
            then m[op.e.resource.name := all[op.e.resource.name]]
            else if op.RestoreNow? then m + snap
            else m
  {
    assert (ops + [op])[..|ops|] == ops;
  }

  lemma AddsApplies(t: Tables, ps: map<string, Proxy>, rs: map<string, Relay>, e: Event, now: int)
    requires ProxiesWellFiled(ps) && RelaysWellFiled(rs) && Adds(e, ps, rs)
    ensures var t', name := Apply(t, e, now), e.resource.name;
            if e.resource.rtype == PROXY
            then name in ps && t'.proxies == t.proxies[name := ps[name]]
                 && t'.desiredProxies == t.desiredProxies[name := ps[name]]
                 && t'.relays == t.relays && t'.desiredRelays == t.desiredRelays
            else e.resource.rtype == RELAY && name in rs && t'.desiredRelays == t.desiredRelays[name := rs[name]]
                 && t'.proxies == t.proxies && t'.desiredProxies == t.desiredProxies
                 && (RelaysAgree(t.relays, t.desiredRelays) ==> RelaysAgree(t'.relays, t'.desiredRelays))
  {
    assert PROXY != RELAY && CLIENT != PROXY && CLIENT != RELAY;
    if AddsProxy(e, ps) {
      assert Apply(t, e, now) == ProxyAdded(t, ps[e.resource.name]);
    } else {
      assert Apply(t, e, now) == RelayAdded(t, e.payload.session);
    }
  }

  lemma MapsStep(start: CoreState, found: Option<Resources>, w: Working, op: BootOp, w': Working,
                 ops: seq<BootOp>, ps: map<string, Proxy>, rs: map<string, Relay>,
                 qs: map<string, Proxy>, us: map<string, Relay>)
    requires ProxiesWellFiled(ps) && RelaysWellFiled(rs) && Holding(found, qs, us)
    requires MapsRebuilt(w.s.t, ops, ps, rs, qs, us) && BootStep(start.resources, found, w, op, w')
    requires op.Taken? ==> Adds(op.e, ps, rs)
    ensures MapsRebuilt(w'.s.t, ops + [op], ps, rs, qs, us)
  {
    RebuiltPush(PROXY, ops, op, ps, qs);
    RebuiltPush(RELAY, ops, op, rs, us);
    match op
    case Taken(e, now) => AddsApplies(w.s.t, ps, rs, e, now);
    case RestoreNow(porder, rorder) =>
      RestoreMerges(w.s.t, SnapshotData(found.value), porder, rorder, w'.s.t, qs, us);
    case _ => assert w'.s.t == w.s.t;
  }

  lemma WrittenStepHolds(w: Working, rtype: string, w': Working, ps: map<string, Proxy>, rs: map<string, Relay>)
    requires WorkersHold(w, ps, rs) && WorkStep(w, FinishOp(rtype), w')
    ensures WorkersHold(w', ps, rs)
  {
    var e := w.busy[rtype];
    AddsLiveIsCanonical(e, ps, rs);
    PersistedDisk(w.s, e, w'.s);
    PersistedMeaning(w.s, e, w'.s);
    QueuedMeaningKept(w.s.log, e, Meant(e));
  }

  lemma TakenStepHolds(w: Working, e: Event, now: int, w': Working, ps: map<string, Proxy>, rs: map<string, Relay>)
    requires WorkersHold(w, ps, rs) && Adds(e, ps, rs) && WorkStep(w, BeginOp(e, now), w')
    ensures WorkersHold(w', ps, rs)
  {
    assert PROXY != CLIENT && RELAY != CLIENT;
    assert e.resource.rtype != CLIENT;
    SameDisk(w.s, w'.s, ps, rs);
    forall rtype | rtype in w'.busy
      ensures w'.busy[rtype].resource.rtype == rtype && Adds(w'.busy[rtype], ps, rs)
    {
      assert rtype == e.resource.rtype || w'.busy[rtype] == w.busy[rtype];
    }
  }

  lemma SameDisk(s: CoreState, s': CoreState, ps: map<string, Proxy>, rs: map<string, Relay>)
    requires DiskHolds(s, ps, rs) && s'.resources == s.resources && s'.log == s.log
    ensures DiskHolds(s', ps, rs)
  {}

  /** What holds throughout start-up. */
  ghost predicate BootInv(w: Working, ops: seq<BootOp>, ps: map<string, Proxy>, rs: map<string, Relay>,
                          qs: map<string, Proxy>, us: map<string, Relay>) {
    WorkersHold(w, ps, rs) && MapsRebuilt(w.s.t, ops, ps, rs, qs, us)
  }

  lemma BootStepKeeps(start: CoreState, found: Option<Resources>, w: Working, op: BootOp, w': Working,
                      ops: seq<BootOp>, ps: map<string, Proxy>, rs: map<string, Relay>,
                      qs: map<string, Proxy>, us: map<string, Relay>)
    requires DiskHolds(start, ps, rs) && Holding(found, qs, us) && BootInv(w, ops, ps, rs, qs, us)
    requires BootStep(start.resources, found, w, op, w')
    ensures BootInv(w', ops + [op], ps, rs, qs, us)
  {
    if op.Taken? { PublishedIsLive(start.resources, ps, rs, op.e); }
    MapsStep(start, found, w, op, w', ops, ps, rs, qs, us);
    match op
    case Taken(e, now) => TakenStepHolds(w, e, now, w', ps, rs);
    case Written(rtype) => WrittenStepHolds(w, rtype, w', ps, rs);
    case _ =>
  }

  /**
   * Start-up from any snapshot: disk and log keep their meaning at every moment, and the four maps are
   * what the steps so far build up.
   */
  lemma {:induction false} BootKeeps(start: CoreState, found: Option<Resources>, ws: seq<Working>, ops: seq<BootOp>,
                                     ps: map<string, Proxy>, rs: map<string, Relay>,
                                     qs: map<string, Proxy>, us: map<string, Relay>)
    requires IsBoot(start, found, ws, ops) && start.t == EMPTY_TABLES
    requires DiskHolds(start, ps, rs) && Holding(found, qs, us)
    ensures BootInv(ws[|ops|], ops, ps, rs, qs, us)
  {
    if ops != [] {
      var n := |ops| - 1;
      BootKeeps(start, found, ws[..n + 1], ops[..n], ps, rs, qs, us);
      assert ops[..n] + [ops[n]] == ops;
      BootStepKeeps(start, found, ws[n], ops[n], ws[n + 1], ops[..n], ps, rs, qs, us);
    } else {
      NothingRebuilt(start, ps, rs, qs, us);
    }
  }

  lemma NothingRebuilt(start: CoreState, ps: map<string, Proxy>, rs: map<string, Relay>,
                       qs: map<string, Proxy>, us: map<string, Relay>)
    requires start.t == EMPTY_TABLES && DiskHolds(start, ps, rs)
    ensures BootInv(Working(start, map[]), [], ps, rs, qs, us)
  {}

  /** A snapshot of resources that agreed with a log holds the maps of that log. */
  lemma SnapshotHolds(s: CoreState, state: Resources)
    requires DiskAgrees(s) && WellFiled(s.log) && IsSnapshotOf(s.resources, state)
    ensures Holding(Some(state), ReplayProxies(s.log), ReplayRelays(s.log))
  {
    ProxyDecodeStable();
    RelayDecodeStable();
    var ps := ReplayProxies(s.log);
    NoEmptyKey(ps);
    SnapshotGives(s.resources, state, PROXY, ps, ProxyOf);
    SnapshotGives(s.resources, state, RELAY, ReplayRelays(s.log), RelayOf);
  }

  /** The four maps are exactly those that the log leads to. */
  ghost predicate MapsOf(t: Tables, log: seq<Event>) {
    && t.proxies == t.desiredProxies == ReplayProxies(log)
    && t.desiredRelays == ReplayRelays(log) && RelaysAgree(t.relays, t.desiredRelays)
  }

  /**
   * A restart from an older snapshot, as after a crash: the four maps are again those of the log
   * exactly when every key is recovered.
   */
  lemma BootRestoresIff(s: CoreState, early: CoreState, found: Option<Resources>, ws: seq<Working>, ops: seq<BootOp>)
    requires DiskAgrees(s) && WellFiled(s.log) && DiskAgrees(early) && WellFiled(early.log)
    requires found.Some? ==> IsSnapshotOf(early.resources, found.value)
    requires IsBoot(OnDisk(s), found, ws, ops)
    ensures MapsOf(ws[|ops|].s.t, s.log) <==>
              && AllRecovered(PROXY, ops, ReplayProxies(s.log), ReplayProxies(early.log))
              && AllRecovered(RELAY, ops, ReplayRelays(s.log), ReplayRelays(early.log))
    ensures DiskHolds(ws[|ops|].s, ReplayProxies(s.log), ReplayRelays(s.log))
  {
    var ps, rs, qs, us := ReplayProxies(s.log), ReplayRelays(s.log), ReplayProxies(early.log), ReplayRelays(early.log);
    ReloadHolds(s);
    if found.Some? { SnapshotHolds(early, found.value); }
    BootKeeps(OnDisk(s), found, ws, ops, ps, rs, qs, us);
    RebuiltIff(PROXY, ops, ps, qs);
    RebuiltIff(RELAY, ops, rs, us);
  }

  /** Without any snapshot the maps are those of the log as soon as every published event has been handled. */
  lemma FirstRestoreCompletes(s: CoreState, ws: seq<Working>, ops: seq<BootOp>)
    requires DiskAgrees(s) && WellFiled(s.log) && IsBoot(OnDisk(s), None, ws, ops)
    requires forall name :: name in ReplayProxies(s.log) ==> TakenOnce(PROXY, ops, name)
    requires forall name :: name in ReplayRelays(s.log) ==> TakenOnce(RELAY, ops, name)
    ensures MapsOf(ws[|ops|].s.t, s.log)
  {
    forall i | 0 <= i < |ops| ensures !ops[i].RestoreNow? {
      assert BootStep(OnDisk(s).resources, None, ws[i], ops[i], ws[i + 1]);
    }
    BootRestoresIff(s, s, None, ws, ops);
  }

  /**
   * From a snapshot of everything: in whatever order the workers and Restore run, and whichever events
   * a full queue dropped, start-up ends with exactly the desired and actual maps that the log replays
   * to, with disk and log still in agreement.
   */
  lemma BootRestores(s: CoreState, state: Resources, ws: seq<Working>, ops: seq<BootOp>)
    requires DiskAgrees(s) && WellFiled(s.log) && IsSnapshotOf(s.resources, state)
    requires IsBoot(OnDisk(s), Some(state), ws, ops) && Restores(ops)
    ensures MapsOf(ws[|ops|].s.t, s.log) && WorkInv(ws[|ops|]) && WellFiled(ws[|ops|].s.log)
    ensures forall rtype :: rtype in ws[|ops|].busy ==> Restorable(ws[|ops|].busy[rtype])
    ensures ReplayProxies(ws[|ops|].s.log) == ReplayProxies(s.log)
    ensures ReplayRelays(ws[|ops|].s.log) == ReplayRelays(s.log)
  {
    var w, ps, rs := ws[|ops|], ReplayProxies(s.log), ReplayRelays(s.log);
    ReloadHolds(s);
    SnapshotHolds(s, state);
    BootKeeps(OnDisk(s), Some(state), ws, ops, ps, rs, ps, rs);
    RebuiltFresh(PROXY, ops, ps);
    RebuiltFresh(RELAY, ops, rs);
    BusyMeansNothing(w, ps, rs);
  }

  /** Events still to be written by the workers after start-up are already in the log's meaning. */
  lemma BusyMeansNothing(w: Working, ps: map<string, Proxy>, rs: map<string, Relay>)
    requires WorkersHold(w, ps, rs)
    ensures ReplayProxies(LogFor(w, PROXY)) == ps && ReplayRelays(LogFor(w, RELAY)) == rs
    ensures forall rtype :: rtype in w.busy ==>
              ForResource(w.busy[rtype]) && Canonical(w.busy[rtype]) && Restorable(w.busy[rtype])
  {
    forall rtype | rtype in w.busy
      ensures ForResource(w.busy[rtype]) && Canonical(w.busy[rtype]) && Restorable(w.busy[rtype])
      ensures ReplayProxies(w.s.log + [Meant(w.busy[rtype])]) == ps
      ensures ReplayRelays(w.s.log + [Meant(w.busy[rtype])]) == rs
    {
      AddsLiveIsCanonical(w.busy[rtype], ps, rs);
      QueuedMeaningKept(w.s.log, w.busy[rtype], Meant(w.busy[rtype]));
    }
  }

  /** A clean shutdown: Close saves a snapshot of everything with the clock ahead of those on disk. */
  ghost predicate ShutDown(s: CoreState, before: map<string, Snapshot<Resources>>, last: Snapshot<Resources>,
                           after: map<string, Snapshot<Resources>>) {
    && IsSnapshotOf(s.resources, last.state)
    && WellNamed(before) && ClockAhead(before, last.timestamp) && SavedDisk(before, after, last)
  }

  function StateOf(found: Option<Snapshot<Resources>>): Option<Resources> {
    match found case None => None case Some(s) => Some(s.state)
  }

  /**
   * From shutting down to running again, through the disk: the snapshot found on opening is the one
   * that Close saved, and start-up from it rebuilds exactly the maps of before.
   */
  lemma CleanRestart(s: CoreState, before: map<string, Snapshot<Resources>>, last: Snapshot<Resources>,
                     after: map<string, Snapshot<Resources>>, found: Option<Snapshot<Resources>>,
                     ws: seq<Working>, ops: seq<BootOp>)
    requires StateAgrees(s) && WellFiled(s.log) && ShutDown(s, before, last, after) && IsLatest(after, found)
    requires IsBoot(OnDisk(s), StateOf(found), ws, ops) && (found.Some? ==> Restores(ops))
    ensures found == Some(last)
    ensures var w := ws[|ops|];
            && w.s.t.proxies == w.s.t.desiredProxies == ReplayProxies(s.log) == s.t.desiredProxies
            && w.s.t.desiredRelays == ReplayRelays(s.log) == s.t.desiredRelays
            && RelaysAgree(w.s.t.relays, s.t.desiredRelays)
            && WorkInv(w) && WellFiled(w.s.log)
            && forall rtype :: rtype in w.busy ==> Restorable(w.busy[rtype])
  {
    AheadIsFound(before, after, last);
    BootRestores(s, last.state, ws, ops);
  }

  // ---------------------------------------------------------------- a whole life, restarts included

  datatype Life =
    | Worker(op: WorkOp)
    | Restarted(before: map<string, Snapshot<Resources>>, last: Snapshot<Resources>,
                after: map<string, Snapshot<Resources>>, found: Option<Snapshot<Resources>>,
                ws: seq<Working>, ops: seq<BootOp>)

  /** Close waits for the workers before the storage is closed. */
  ghost predicate LifeStep(w: Working, step: Life, w': Working) {
    match step
    case Worker(op) => WorkStep(w, op, w') && (op.BeginOp? ==> Publishable(op.e) && Restorable(op.e))
    case Restarted(before, last, after, found, ws, ops) =>
      && w.busy == map[] && ShutDown(w.s, before, last, after) && IsLatest(after, found)
      && IsBoot(OnDisk(w.s), StateOf(found), ws, ops) && (found.Some? ==> Restores(ops)) && w' == ws[|ops|]
  }

  ghost predicate IsLife(ws: seq<Working>, steps: seq<Life>) {
    && |ws| == |steps| + 1 && ws[0] == Working(FRESH_CORE, map[])
    && forall i :: 0 <= i < |steps| ==> LifeStep(ws[i], steps[i], ws[i + 1])
  }

  ghost predicate LifeInv(w: Working) {
    && WorkInv(w) && WellFiled(w.s.log) && KeyedByFields(w.s.t) && Lockstep(w.s.t)
    && forall rtype :: rtype in w.busy ==> Restorable(w.busy[rtype])
  }

  /** Equal desired and actual maps, up to the fields of a session that are not persisted. */
  ghost predicate SameResources(before: Tables, after: Tables) {
    && after.proxies == before.proxies && after.desiredProxies == before.desiredProxies
    && after.desiredRelays == before.desiredRelays && after.relays.Keys == before.relays.Keys
    && forall k :: k in after.relays ==> after.relays[k].spec == before.relays[k].spec
  }

  /** Over every life, at every moment. */
  lemma {:induction false} LifeKeeps(ws: seq<Working>, steps: seq<Life>, i: nat)
    requires IsLife(ws, steps) && i <= |steps|
    ensures LifeInv(ws[i])
  {
    if i == 0 {
      FreshLife();
    } else {
      LifeKeeps(ws, steps, i - 1);
      LifeStepKeeps(ws[i - 1], steps[i - 1], ws[i]);
    }
  }

  /**
   * Over every life, with the workers of all types interleaved and any number of clean restarts: stored
   * resources and log agree; the live map of each type is what the log leads to whenever its worker is
   * idle, and otherwise what it will lead to once that worker has written; desired and actual state
   * agree; and a restart changes none of the four maps.
   */
  lemma LifeAgrees(ws: seq<Working>, steps: seq<Life>, i: nat)
    requires IsLife(ws, steps) && i <= |steps|
    ensures LifeInv(ws[i])
    ensures ws[i].busy == map[] ==> StateAgrees(ws[i].s)
    ensures i < |steps| && steps[i].Restarted? ==> SameResources(ws[i].s.t, ws[i + 1].s.t)
  {
    LifeKeeps(ws, steps, i);
    if ws[i].busy == map[] { IdleAgrees(ws[i]); }
    if i < |steps| { LifeStepKeeps(ws[i], steps[i], ws[i + 1]); }
  }

  lemma LifeStepKeeps(w: Working, step: Life, w': Working)
    requires LifeInv(w) && LifeStep(w, step, w')
    ensures LifeInv(w') && (step.Restarted? ==> SameResources(w.s.t, w'.s.t))
  {
    match step
    case Worker(op) => WorkerKeeps(w, op, w');
    case Restarted(_, _, _, _, _, _) => RestartedKeeps(w, step, w');
  }

  lemma FreshLife()
    ensures LifeInv(Working(FRESH_CORE, map[]))
  {}

  lemma WorkerKeeps(w: Working, op: WorkOp, w': Working)
    requires LifeInv(w) && LifeStep(w, Worker(op), w')
    ensures LifeInv(w')
  {
    WorkStepKeeps(w, op, w');
    if op.BeginOp? { EventInLockstep(w.s.t, op.e, op.now); }
  }

  lemma RestartedKeeps(w: Working, step: Life, w': Working)
    requires LifeInv(w) && step.Restarted? && LifeStep(w, step, w')
    ensures LifeInv(w') && SameResources(w.s.t, w'.s.t)
  {
    IdleAgrees(w);
    CleanRestart(w.s, step.before, step.last, step.after, step.found, step.ws, step.ops);
  }

  lemma EventInLockstep(t: Tables, e: Event, now: int)
    requires Publishable(e) && KeyedByFields(t) && Lockstep(t)
    ensures KeyedByFields(Apply(t, e, now)) && Lockstep(Apply(t, e, now))
  {
    if e.resource.rtype == PROXY {
      ApplyProxyKeeps(t, e);
    } else if e.resource.rtype == RELAY {
      ApplyRelayKeeps(t, e);
    } else {
      ApplyClientKeeps(t, e, now);
    }
  }

  /**
   * A crash at any moment of any life, and start-up from the snapshot of any earlier moment or from none:
   * exactly the keys that are not recovered differ from what the log leads to.
   */
  lemma CrashRestartIff(ws: seq<Working>, steps: seq<Life>, i: nat, found: Option<Resources>,
                        boot: seq<Working>, ops: seq<BootOp>)
    requires IsLife(ws, steps) && i <= |steps|
    requires found.Some? ==> IsSnapshotOf(ws[i].s.resources, found.value)
    requires IsBoot(OnDisk(ws[|steps|].s), found, boot, ops)
    ensures var log, early := ws[|steps|].s.log, ws[i].s.log;
            && DiskHolds(boot[|ops|].s, ReplayProxies(log), ReplayRelays(log))
            && (MapsOf(boot[|ops|].s.t, log) <==>
                  && AllRecovered(PROXY, ops, ReplayProxies(log), ReplayProxies(early))
                  && AllRecovered(RELAY, ops, ReplayRelays(log), ReplayRelays(early)))
  {
    LifeKeeps(ws, steps, |steps|);
    LifeKeeps(ws, steps, i);
    BootRestoresIff(ws[|steps|].s, ws[i].s, found, boot, ops);
  }
}
