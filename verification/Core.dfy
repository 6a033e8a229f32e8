// The handlers of BBgrid_Server/runtime/core.go: every proxy or relay event is applied to the state
// store and written through to the storage manager. Live maps, stored resources and the replay of
// the event log agree after each one.
module Core {
  import opened Wrappers
  import opened Keys
  import opened Events
  import opened StateStore
  import opened Snapshots
  import opened Storage
  import Reconcile

  // ---------------------------------------------------------------- what the log means

  /** Left-to-right replay of the proxy events, filed under their resource names. */
  function ReplayProxies(log: seq<Event>): map<string, Proxy> {
    if log == [] then map[]
    else
      var before, e := ReplayProxies(log[..|log| - 1]), log[|log| - 1];
      if e.resource.rtype != PROXY then before
      else if e.etype == Deleted then before - {e.resource.name}
      else if e.etype == Added && ProxyOf(e.payload).Some? then before[e.resource.name := ProxyOf(e.payload).value]
      else before
  }

  /**
   * The relay a stored payload stands for, before or after its trip through the disk. A restart reads
   * it with two decoders; an object they read differently stands for none.
   */
  function RelayOf(payload: Payload): Option<Relay> {
    match payload
    case RelayPayload(s) => Some(s.spec)
    case JsonPayload(JObj(m)) => if RestoredRelay(m) == ParsedRelay(m) then Some(ParsedRelay(m)) else None
    case _ => None
  }

  function ReplayRelays(log: seq<Event>): map<string, Relay> {
    if log == [] then map[]
    else
      var before, e := ReplayRelays(log[..|log| - 1]), log[|log| - 1];
      if e.resource.rtype != RELAY then before
      else if e.etype == Deleted then before - {e.resource.name}
      else if e.etype == Added && RelayOf(e.payload).Some? then before[e.resource.name := RelayOf(e.payload).value]
      else before
  }

  /**
   * What every publisher in the program produces: default namespace, and an ADDED event named after
   * the resource it carries.
   */
  predicate Canonical(e: Event) {
    && e.resource.namespace == DEFAULT
    && (e.resource.rtype == PROXY && e.etype == Added ==>
          ProxyOf(e.payload).Some? && e.resource.name == ProxyOf(e.payload).value.Key())
    && (e.resource.rtype == RELAY && e.etype == Added ==>
          e.payload.RelayPayload? && e.resource.name == e.payload.session.spec.id)
  }

  // ---------------------------------------------------------------- what the store means

  /** The key a resource of the default namespace is stored under. */
  function Filed(rtype: string, name: string): string { DefaultKey(rtype, name).ToString() }

  lemma FiledInjective(rtype: string, m: string, n: string)
    requires Filed(rtype, m) == Filed(rtype, n)
    ensures m == n
  {
    ToStringInjective(rtype, DEFAULT, m, n);
  }

  /** A section of the MetaStore holds exactly the live resources, each decoding to the live value. */
  ghost predicate Stores<V(!new)>(rtype: string, section: map<string, Payload>, live: map<string, V>,
                                  decode: Payload -> Option<V>) {
    && (forall k :: k in section ==> exists name :: name in live && k == Filed(rtype, name))
    && (forall name :: name in live ==>
          Filed(rtype, name) in section && decode(section[Filed(rtype, name)]) == Some(live[name]))
  }

  lemma StoresPut<V(!new)>(rtype: string, section: map<string, Payload>, live: map<string, V>,
                           decode: Payload -> Option<V>, name: string, payload: Payload, v: V)
    requires Stores(rtype, section, live, decode) && decode(payload) == Some(v)
    ensures Stores(rtype, section[Filed(rtype, name) := payload], live[name := v], decode)
  {
    forall n | n in live && Filed(rtype, n) == Filed(rtype, name) ensures n == name {
      FiledInjective(rtype, n, name);
    }
    assert name in live[name := v];
    forall k | k in section ensures exists n :: n in live[name := v] && k == Filed(rtype, n) {
      var n :| n in live && k == Filed(rtype, n);
      assert n in live[name := v];
    }
  }

  lemma StoresDrop<V(!new)>(rtype: string, section: map<string, Payload>, live: map<string, V>,
                            decode: Payload -> Option<V>, name: string)
    requires Stores(rtype, section, live, decode)
    ensures Stores(rtype, section - {Filed(rtype, name)}, live - {name}, decode)
  {
    forall n | n in live && Filed(rtype, n) == Filed(rtype, name) ensures n == name {
      FiledInjective(rtype, n, name);
    }
    forall k | k in section - {Filed(rtype, name)} ensures exists n :: n in live - {name} && k == Filed(rtype, n) {
      var n :| n in live && k == Filed(rtype, n);
      assert n in live - {name};
    }
  }

  // ---------------------------------------------------------------- the handlers

  /** The record that a handled event leaves in the log: the event itself, or a DELETED one of its own. */
  ghost predicate Records(e: Event, logged: Event) {
    && logged.resource == e.resource && logged.etype == e.etype
    && logged.payload == if e.etype == Deleted then NoPayload else e.payload
  }

  datatype CoreState = CoreState(t: Tables, resources: Resources, log: seq<Event>)

  const FRESH_CORE := CoreState(EMPTY_TABLES, map[], [])

  /** The second half of a handler, one operation of the locked storage: every write to disk succeeds. */
  ghost predicate Persists(s: CoreState, e: Event, s': CoreState) {
    && s'.t == s.t
    && if e.etype == Modified then s'.log == s.log && s'.resources == s.resources
       else
         && |s'.log| == |s.log| + 1 && s'.log[..|s.log|] == s.log && Records(e, s'.log[|s.log|])
         && s'.resources == (if e.etype == Deleted then DropResource(s.resources, e.resource)
                             else if e.payload == NoPayload then s.resources
                             else PutResource(s.resources, e.resource, e.payload))
  }

  /** HandleResource outside restoring, with nobody in between its two halves. */
  ghost predicate Handles(s: CoreState, e: Event, now: int, s': CoreState) {
    Persists(s.(t := Apply(s.t, e, now)), e, s')
  }

  /** One record with this content was added to the log, or none. */
  ghost predicate Logged(before: seq<Event>, after: seq<Event>, key: ResourceKey, etype: EventType, payload: Payload,
                         ok: bool) {
    if !ok then after == before
    else
      && |after| == |before| + 1 && before <= after
      && var r := after[|before|]; r.resource == key && r.etype == etype && r.payload == payload
  }

  class Core {
    const store: StateStoreImpl
    const storage: StorageManager
    const reconcile: Reconcile.ReconcileEngine
    var restoring: bool

    constructor (store: StateStoreImpl, storage: StorageManager)
      ensures this.store == store && this.storage == storage && !restoring
      ensures fresh(reconcile) && reconcile.store == store
    {
      this.store, this.storage, restoring := store, storage, false;
      reconcile := new Reconcile.ReconcileEngine(store);
    }

    method SetRestoring(v: bool)
      modifies this`restoring
      ensures restoring == v
    {
      restoring := v;
    }

    /**
     * The proxy handler and the relay handler: apply, persist unless restoring, trigger. A storage
     * error is logged and otherwise ignored; `id` is the ID of the DELETED record.
     */
    method HandleResource(e: Event, id: string, io: Io)
      requires storage.Valid()
      modifies reconcile`triggered, store, storage, storage.events, storage.snapshots, storage.meta
      ensures storage.Valid() && reconcile.triggered
      ensures store.View() == Apply(old(store.View()), e, io.now)
      ensures restoring ==> State() == old(State()).(t := store.View())
      ensures !restoring && io.append && io.save ==> Handles(old(State()), e, io.now, State())
      ensures !restoring && e.etype == Added ==>
                storage.meta.resources == (if io.append && e.payload != NoPayload
                                           then PutResource(old(storage.meta.resources), e.resource, e.payload)
                                           else old(storage.meta.resources))
      ensures !restoring && e.etype == Deleted ==>
                storage.meta.resources == DropResource(old(storage.meta.resources), e.resource)
      ensures !restoring && io.append && io.save && io.snapshot
              && storage.snapshots.attempts > old(storage.snapshots.attempts)
              && old(storage.meta.resources) == Replay(old(storage.events.events)) ==>
                && storage.snapshots.latest.Some?
                && IsSnapshotOf(
                     Replay(if e.etype == Deleted then storage.events.events else old(storage.events.events)),
                     storage.snapshots.latest.value.state)
    {
      store.ApplyEvent(e, io.now);
      if !restoring {
        Persist(e, id, io);
      }
      reconcile.Trigger();
    }

    /** What the handler writes through; a MODIFIED event leaves no record. */
    method Persist(e: Event, id: string, io: Io)
      requires storage.Valid()
      modifies storage, storage.events, storage.snapshots, storage.meta
      ensures storage.Valid()
      ensures io.append && io.save ==> Persists(old(State()), e, State())
      ensures State() == old(State()).(log := storage.events.events, resources := storage.meta.resources)
      ensures e.etype == Modified ==> State() == old(State())
      ensures e.etype == Added ==>
                && storage.meta.resources == (if io.append && e.payload != NoPayload
                                              then PutResource(old(storage.meta.resources), e.resource, e.payload)
                                              else old(storage.meta.resources))
                && Logged(old(storage.events.events), storage.events.events, e.resource, Added, e.payload, io.append)
      ensures e.etype == Deleted ==>
                && storage.meta.resources == DropResource(old(storage.meta.resources), e.resource)
                && Logged(old(storage.events.events), storage.events.events, e.resource, Deleted, NoPayload,
                          io.append && (io.save || e.resource.rtype !in old(storage.meta.resources)))
      ensures io.append && io.save && io.snapshot
              && storage.snapshots.attempts > old(storage.snapshots.attempts)
              && old(storage.meta.resources) == Replay(old(storage.events.events)) ==>
                && storage.snapshots.latest.Some?
                && IsSnapshotOf(
                     Replay(if e.etype == Deleted then storage.events.events else old(storage.events.events)),
                     storage.snapshots.latest.value.state)
    {
      if e.etype == Added {
        var _ := storage.AppendEventAndSave(e, e.payload, io);
      } else if e.etype == Deleted {
        var _ := storage.DeleteResource(e.resource, id, io);
        if io.append && io.save {
          ReplayPush(old(storage.events.events), storage.events.events[|old(storage.events.events)|]);
        }
      }
    }

    /** The client handler only applies. */
    method HandleClient(e: Event, now: int)
      modifies store
      ensures State() == old(State()).(t := Apply(old(store.View()), e, now))
    {
      store.ApplyEvent(e, now);
    }

    ghost function State(): CoreState
      reads this, store, storage, storage.events, storage.meta
    {
      CoreState(store.View(), storage.meta.resources, storage.events.events)
    }
  }

  // ---------------------------------------------------------------- write-through agreement

  /** The three representations of the control plane's state agree. */
  ghost predicate Agree(t: Tables, resources: Resources, log: seq<Event>) {
    && t.desiredProxies == ReplayProxies(log)
    && t.desiredRelays == ReplayRelays(log)
    && resources == Replay(log)
    && Stores(PROXY, TypeOf(resources, PROXY), ReplayProxies(log), ProxyOf)
    && Stores(RELAY, TypeOf(resources, RELAY), ReplayRelays(log), RelayOf)
  }

  ghost predicate LogStored(log: seq<Event>) {
    && Stores(PROXY, TypeOf(Replay(log), PROXY), ReplayProxies(log), ProxyOf)
    && Stores(RELAY, TypeOf(Replay(log), RELAY), ReplayRelays(log), RelayOf)
  }

  lemma ReplayProxiesPush(log: seq<Event>, e: Event)
    ensures ReplayProxies(log + [e]) ==
            (if e.resource.rtype != PROXY then ReplayProxies(log)
             else if e.etype == Deleted then ReplayProxies(log) - {e.resource.name}
             else if e.etype == Added && ProxyOf(e.payload).Some?
             then ReplayProxies(log)[e.resource.name := ProxyOf(e.payload).value]
             else ReplayProxies(log))
  {
    assert (log + [e])[..|log|] == log;
  }

  lemma ReplayRelaysPush(log: seq<Event>, e: Event)
    ensures ReplayRelays(log + [e]) ==
            (if e.resource.rtype != RELAY then ReplayRelays(log)
             else if e.etype == Deleted then ReplayRelays(log) - {e.resource.name}
             else if e.etype == Added && RelayOf(e.payload).Some?
             then ReplayRelays(log)[e.resource.name := RelayOf(e.payload).value]
             else ReplayRelays(log))
  {
    assert (log + [e])[..|log|] == log;
  }

  /** A section changes only by the events of its own type. */
  lemma SectionPush(log: seq<Event>, e: Event, rtype: string)
    requires e.etype == Added ==> e.payload != NoPayload
    ensures TypeOf(Replay(log + [e]), rtype) ==
            var before := TypeOf(Replay(log), rtype);
            if e.resource.rtype != rtype || e.etype == Modified then before
            else if e.etype == Deleted then before - {e.resource.ToString()}
            else before[e.resource.ToString() := e.payload]
  {
    ReplayPush(log, e);
  }

  /** Recording one more canonical event keeps the stored resources equal to the log's meaning. */
  lemma LogStoredPush(log: seq<Event>, e: Event)
    requires LogStored(log) && e.resource.namespace == DEFAULT
    requires e.resource.rtype == PROXY && e.etype == Added ==> ProxyOf(e.payload).Some?
    requires e.resource.rtype == RELAY && e.etype == Added ==> RelayOf(e.payload).Some?
    requires e.etype == Added ==> e.payload != NoPayload
    ensures LogStored(log + [e])
  {
    var rtype, name := e.resource.rtype, e.resource.name;
    assert e.resource == DefaultKey(rtype, name);
    SectionPush(log, e, PROXY);
    SectionPush(log, e, RELAY);
    ReplayProxiesPush(log, e);
    ReplayRelaysPush(log, e);
    if rtype == PROXY {
      ProxyRecordStored(log, e, name);
    } else if rtype == RELAY {
      RelayRecordStored(log, e, name);
    }
  }

  lemma ProxyRecordStored(log: seq<Event>, e: Event, name: string)
    requires LogStored(log) && e.resource == DefaultKey(PROXY, name)
    requires e.etype == Added ==> e.payload != NoPayload && ProxyOf(e.payload).Some?
    ensures Stores(PROXY, TypeOf(Replay(log + [e]), PROXY), ReplayProxies(log + [e]), ProxyOf)
  {
    SectionPush(log, e, PROXY);
    ReplayProxiesPush(log, e);
    var section, live := TypeOf(Replay(log), PROXY), ReplayProxies(log);
    match e.etype
    case Added => StoresPut(PROXY, section, live, ProxyOf, name, e.payload, ProxyOf(e.payload).value);
    case Deleted => StoresDrop(PROXY, section, live, ProxyOf, name);
    case Modified =>
  }

  lemma RelayRecordStored(log: seq<Event>, e: Event, name: string)
    requires LogStored(log) && e.resource == DefaultKey(RELAY, name)
    requires e.etype == Added ==> e.payload != NoPayload && RelayOf(e.payload).Some?
    ensures Stores(RELAY, TypeOf(Replay(log + [e]), RELAY), ReplayRelays(log + [e]), RelayOf)
  {
    SectionPush(log, e, RELAY);
    ReplayRelaysPush(log, e);
    var section, live := TypeOf(Replay(log), RELAY), ReplayRelays(log);
    match e.etype
    case Added => StoresPut(RELAY, section, live, RelayOf, name, e.payload, RelayOf(e.payload).value);
    case Deleted => StoresDrop(RELAY, section, live, RelayOf, name);
    case Modified =>
  }

  // ---------------------------------------------------------------- one handled event

  /** The record carries a resource of its type. */
  predicate Decodes(e: Event) {
    e.etype == Added ==>
      && e.payload != NoPayload
      && (e.resource.rtype == PROXY ==> ProxyOf(e.payload).Some?)
      && (e.resource.rtype == RELAY ==> RelayOf(e.payload).Some?)
  }

  ghost predicate ProxiesWellFiled(m: map<string, Proxy>) {
    forall k :: k in m ==> m[k].Key() == k && m[k].Valid()
  }

  ghost predicate RelaysWellFiled(m: map<string, Relay>) {
    forall k :: k in m ==> m[k].id == k && k != ""
  }

  /** Proxies are filed under the keys their fields spell and restorable; relays under their non-empty IDs. */
  ghost predicate WellFiled(log: seq<Event>) {
    && (forall e :: e in log ==> ForResource(e) && Decodes(e))
    && ProxiesWellFiled(ReplayProxies(log))
    && RelaysWellFiled(ReplayRelays(log))
  }

  /** The event creates nothing that a restart would skip. */
  predicate Restorable(e: Event) {
    e.etype == Added ==>
      && (e.resource.rtype == PROXY && ProxyOf(e.payload).Some? ==> ProxyOf(e.payload).value.Valid())
      && (e.resource.rtype == RELAY ==> e.resource.name != "")
  }

  lemma WellFiledPush(log: seq<Event>, e: Event, logged: Event)
    requires WellFiled(log) && ForResource(e) && Canonical(e) && Restorable(e) && Records(e, logged)
    ensures WellFiled(log + [logged])
  {
    ReplayProxiesPush(log, logged);
    ReplayRelaysPush(log, logged);
  }

  lemma LiveProxies(t: Tables, log: seq<Event>, e: Event, logged: Event, now: int)
    requires t.desiredProxies == ReplayProxies(log) && Canonical(e) && Records(e, logged)
    ensures Apply(t, e, now).desiredProxies == ReplayProxies(log + [logged])
  {
    ReplayProxiesPush(log, logged);
    assert PROXY != RELAY && CLIENT != PROXY;
  }

  lemma LiveRelays(t: Tables, log: seq<Event>, e: Event, logged: Event, now: int)
    requires t.desiredRelays == ReplayRelays(log) && Canonical(e) && Records(e, logged)
    ensures Apply(t, e, now).desiredRelays == ReplayRelays(log + [logged])
  {
    ReplayRelaysPush(log, logged);
    assert PROXY != RELAY && CLIENT != RELAY;
  }

  /** Applying a canonical event changes the desired maps as its record changes the log's meaning. */
  lemma LivePush(t: Tables, log: seq<Event>, e: Event, logged: Event, now: int)
    requires t.desiredProxies == ReplayProxies(log) && t.desiredRelays == ReplayRelays(log)
    requires Canonical(e) && Records(e, logged)
    ensures Apply(t, e, now).desiredProxies == ReplayProxies(log + [logged])
    ensures Apply(t, e, now).desiredRelays == ReplayRelays(log + [logged])
  {
    LiveProxies(t, log, e, logged, now);
    LiveRelays(t, log, e, logged, now);
  }

  predicate ForResource(e: Event) { e.resource.rtype == PROXY || e.resource.rtype == RELAY }

  ghost predicate StateAgrees(s: CoreState) {
    && Agree(s.t, s.resources, s.log)
    && s.resources.Keys <= {PROXY, RELAY}
  }

  // ---------------------------------------------------------------- the workers beside each other

  /** busy: by type, the event that is applied and not yet written through. */
  datatype Working = Working(s: CoreState, busy: map<string, Event>)

  datatype WorkOp =
    | BeginOp(e: Event, now: int)     // the worker of the event's type, or the client worker
    | FinishOp(rtype: string)

  /** One worker per type; each half of a handler is one step. */
  ghost predicate WorkStep(w: Working, op: WorkOp, w': Working) {
    match op
    case BeginOp(e, now) =>
      && e.resource.rtype !in w.busy
      && w' == Working(w.s.(t := Apply(w.s.t, e, now)),
                       if e.resource.rtype == CLIENT then w.busy else w.busy[e.resource.rtype := e])
    case FinishOp(rtype) =>
      rtype in w.busy && Persists(w.s, w.busy[rtype], w'.s) && w'.busy == w.busy - {rtype}
  }

  /** The record that handling the event leaves, up to its ID and numbers. */
  function Meant(e: Event): Event {
    if e.etype == Deleted then e.(payload := NoPayload) else e
  }

  /** What the log will be once the type's worker is idle. */
  function LogFor(w: Working, rtype: string): seq<Event> {
    if rtype in w.busy then w.s.log + [Meant(w.busy[rtype])] else w.s.log
  }

  ghost predicate DiskAgrees(s: CoreState) {
    s.resources == Replay(s.log) && LogStored(s.log) && s.resources.Keys <= {PROXY, RELAY}
  }

  /**
   * Stored resources and log agree, and each live map is what the log leads to, counting the event that
   * the type's own worker has still to write.
   */
  ghost predicate WorkInv(w: Working) {
    && DiskAgrees(w.s)
    && w.s.t.desiredProxies == ReplayProxies(LogFor(w, PROXY))
    && w.s.t.desiredRelays == ReplayRelays(LogFor(w, RELAY))
    && AllCanonical(w.busy)
  }

  ghost predicate AllCanonical(busy: map<string, Event>) {
    forall rtype :: rtype in busy ==>
      busy[rtype].resource.rtype == rtype && ForResource(busy[rtype]) && Canonical(busy[rtype])
  }

  lemma SameDiskAgrees(s: CoreState, s': CoreState)
    requires s'.resources == s.resources && s'.log == s.log
    ensures DiskAgrees(s') <==> DiskAgrees(s)
  {}

  lemma OneMoreCanonical(busy: map<string, Event>, e: Event)
    requires AllCanonical(busy) && ForResource(e) && Canonical(e)
    ensures AllCanonical(busy[e.resource.rtype := e])
  {}

  /** Whatever may be published for a type: the events of its publishers, or those about clients. */
  predicate Publishable(e: Event) { e.resource.rtype == CLIENT || (ForResource(e) && Canonical(e)) }

  lemma ApplyElsewhere(t: Tables, e: Event, now: int)
    requires ForResource(e) || e.resource.rtype == CLIENT
    ensures e.resource.rtype != PROXY ==> Apply(t, e, now).desiredProxies == t.desiredProxies
    ensures e.resource.rtype != RELAY ==> Apply(t, e, now).desiredRelays == t.desiredRelays
  {
    assert PROXY != RELAY && CLIENT != PROXY && CLIENT != RELAY;
  }

  lemma AppliedProxies(w: Working, e: Event, now: int, w': Working)
    requires Publishable(e) && WorkStep(w, BeginOp(e, now), w')
    requires w.s.t.desiredProxies == ReplayProxies(LogFor(w, PROXY))
    ensures w'.s.t.desiredProxies == ReplayProxies(LogFor(w', PROXY))
  {
    if e.resource.rtype == PROXY {
      assert PROXY != CLIENT;
      assert LogFor(w, PROXY) == w.s.log && LogFor(w', PROXY) == w.s.log + [Meant(e)];
      LiveProxies(w.s.t, w.s.log, e, Meant(e), now);
    } else {
      ApplyElsewhere(w.s.t, e, now);
      assert LogFor(w', PROXY) == LogFor(w, PROXY);
    }
  }

  lemma AppliedRelays(w: Working, e: Event, now: int, w': Working)
    requires Publishable(e) && WorkStep(w, BeginOp(e, now), w')
    requires w.s.t.desiredRelays == ReplayRelays(LogFor(w, RELAY))
    ensures w'.s.t.desiredRelays == ReplayRelays(LogFor(w', RELAY))
  {
    if e.resource.rtype == RELAY {
      assert RELAY != CLIENT;
      assert LogFor(w, RELAY) == w.s.log && LogFor(w', RELAY) == w.s.log + [Meant(e)];
      LiveRelays(w.s.t, w.s.log, e, Meant(e), now);
    } else {
      ApplyElsewhere(w.s.t, e, now);
      assert LogFor(w', RELAY) == LogFor(w, RELAY);
    }
  }

  lemma BeginStepKeeps(w: Working, e: Event, now: int, w': Working)
    requires WorkInv(w) && Publishable(e) && WorkStep(w, BeginOp(e, now), w')
    ensures WorkInv(w')
  {
    AppliedProxies(w, e, now, w');
    AppliedRelays(w, e, now, w');
    SameDiskAgrees(w.s, w'.s);
    if e.resource.rtype != CLIENT { OneMoreCanonical(w.busy, e); }
  }

  lemma RecordAsMeant(log: seq<Event>, e: Event, logged: Event)
    requires Records(e, logged)
    ensures ReplayProxies(log + [logged]) == ReplayProxies(log + [Meant(e)])
    ensures ReplayRelays(log + [logged]) == ReplayRelays(log + [Meant(e)])
  {
    ReplayProxiesPush(log, logged);
    ReplayProxiesPush(log, Meant(e));
    ReplayRelaysPush(log, logged);
    ReplayRelaysPush(log, Meant(e));
  }

  lemma PersistedDisk(s: CoreState, e: Event, s': CoreState)
    requires DiskAgrees(s) && ForResource(e) && Canonical(e) && Persists(s, e, s')
    ensures DiskAgrees(s')
    ensures WellFiled(s.log) && Restorable(e) ==> WellFiled(s'.log)
  {
    if e.etype != Modified {
      var logged := s'.log[|s.log|];
      assert s'.log == s.log + [logged];
      LogStoredPush(s.log, logged);
      ReplayPush(s.log, logged);
      if WellFiled(s.log) && Restorable(e) { WellFiledPush(s.log, e, logged); }
    }
  }

  /** The log after writing through means what it was going to mean. */
  lemma PersistedMeaning(s: CoreState, e: Event, s': CoreState)
    requires Persists(s, e, s')
    ensures ReplayProxies(s'.log) == ReplayProxies(s.log + [Meant(e)])
    ensures ReplayRelays(s'.log) == ReplayRelays(s.log + [Meant(e)])
  {
    if e.etype == Modified {
      ReplayProxiesPush(s.log, e);
      ReplayRelaysPush(s.log, e);
    } else {
      var logged := s'.log[|s.log|];
      assert s'.log == s.log + [logged];
      RecordAsMeant(s.log, e, logged);
    }
  }

  /** For the other types it means what it did. */
  lemma PersistedElsewhere(s: CoreState, e: Event, s': CoreState, f: Event)
    requires Persists(s, e, s') && f.resource.rtype != e.resource.rtype
    ensures e.resource.rtype != PROXY ==> ReplayProxies(s'.log) == ReplayProxies(s.log)
    ensures e.resource.rtype != RELAY ==> ReplayRelays(s'.log) == ReplayRelays(s.log)
    ensures f.resource.rtype == PROXY ==> ReplayProxies(s'.log + [f]) == ReplayProxies(s.log + [f])
    ensures f.resource.rtype == RELAY ==> ReplayRelays(s'.log + [f]) == ReplayRelays(s.log + [f])
  {
    PersistedMeaning(s, e, s');
    ReplayProxiesPush(s.log, Meant(e));
    ReplayRelaysPush(s.log, Meant(e));
    ReplayProxiesPush(s.log, f);
    ReplayRelaysPush(s.log, f);
    ReplayProxiesPush(s'.log, f);
    ReplayRelaysPush(s'.log, f);
  }

  ghost predicate SameMeaning(rtype: string, log: seq<Event>, log': seq<Event>) {
    if rtype == PROXY then ReplayProxies(log') == ReplayProxies(log) else ReplayRelays(log') == ReplayRelays(log)
  }

  /** Writing through changes neither what its own type's log was going to mean nor what another's is. */
  lemma PersistedLogs(w: Working, rtype: string, w': Working, other: string)
    requires WorkStep(w, FinishOp(rtype), w') && w.busy[rtype].resource.rtype == rtype
    requires rtype == PROXY || rtype == RELAY
    requires other == PROXY || other == RELAY
    requires other in w.busy ==> w.busy[other].resource.rtype == other
    ensures SameMeaning(other, LogFor(w, other), LogFor(w', other))
  {
    var e := w.busy[rtype];
    if other == rtype {
      PersistedMeaning(w.s, e, w'.s);
      assert LogFor(w, other) == w.s.log + [Meant(e)] && LogFor(w', other) == w'.s.log;
    } else if other in w.busy {
      PersistedElsewhere(w.s, e, w'.s, Meant(w.busy[other]));
      assert LogFor(w, other) == w.s.log + [Meant(w.busy[other])];
      assert LogFor(w', other) == w'.s.log + [Meant(w.busy[other])];
    } else {
      PersistedElsewhere(w.s, e, w'.s, Meant(e).(resource := DefaultKey(other, "")));
      assert LogFor(w, other) == w.s.log && LogFor(w', other) == w'.s.log;
    }
  }

  lemma FinishStepKeeps(w: Working, rtype: string, w': Working)
    requires WorkInv(w) && WorkStep(w, FinishOp(rtype), w')
    ensures WorkInv(w')
    ensures WellFiled(w.s.log) && Restorable(w.busy[rtype]) ==> WellFiled(w'.s.log)
  {
    PersistedDisk(w.s, w.busy[rtype], w'.s);
    PersistedLogs(w, rtype, w', PROXY);
    PersistedLogs(w, rtype, w', RELAY);
  }

  /** Every step of every worker keeps disk and log in agreement, and each live map up to its own worker. */
  lemma WorkStepKeeps(w: Working, op: WorkOp, w': Working)
    requires WorkInv(w) && WorkStep(w, op, w') && (op.BeginOp? ==> Publishable(op.e))
    ensures WorkInv(w')
    ensures WellFiled(w.s.log) && (op.FinishOp? ==> Restorable(w.busy[op.rtype])) ==> WellFiled(w'.s.log)
  {
    match op
    case BeginOp(e, now) => BeginStepKeeps(w, e, now, w');
    case FinishOp(rtype) => FinishStepKeeps(w, rtype, w');
  }

  /** Handled without anybody in between, an event keeps all three representations in agreement. */
  lemma HandlesKeepsAgreement(s: CoreState, e: Event, now: int, s': CoreState)
    requires StateAgrees(s) && ForResource(e) && Canonical(e) && Handles(s, e, now, s')
    ensures StateAgrees(s')
    ensures WellFiled(s.log) && Restorable(e) ==> WellFiled(s'.log)
  {
    var between := Working(s.(t := Apply(s.t, e, now)), map[e.resource.rtype := e]);
    IdleAgrees(Working(s, map[]));
    WorkStepKeeps(Working(s, map[]), BeginOp(e, now), between);
    assert map[e.resource.rtype := e] - {e.resource.rtype} == map[];
    WorkStepKeeps(between, FinishOp(e.resource.rtype), Working(s', map[]));
    IdleAgrees(Working(s', map[]));
  }

  /** With all workers idle the three representations agree. */
  lemma IdleAgrees(w: Working)
    requires w.busy == map[]
    ensures WorkInv(w) <==> StateAgrees(w.s)
  {}
}
