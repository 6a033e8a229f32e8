// common/store/manager.go with the in-memory parts of event.go and meta.go: an append-only log, the
// current resources, and a snapshot of them every `interval` logged operations.
module Storage {
  import opened Wrappers
  import opened Keys
  import opened Events
  import opened Snapshots

  /** type -> printed resource key -> resource */
  type Resources = map<string, map<string, Payload>>

  function TypeOf(m: Resources, rtype: string): map<string, Payload> {
    if rtype in m then m[rtype] else map[]
  }

  function PutResource(m: Resources, key: ResourceKey, resource: Payload): Resources {
    m[key.rtype := TypeOf(m, key.rtype)[key.ToString() := resource]]
  }

  function DropResource(m: Resources, key: ResourceKey): Resources {
    if key.rtype !in m then m else m[key.rtype := m[key.rtype] - {key.ToString()}]
  }

  /** The resources that a log, read from left to right, leads to. */
  function Replay(log: seq<Event>): Resources {
    if log == [] then map[]
    else
      var before, e := Replay(log[..|log| - 1]), log[|log| - 1];
      if e.etype == Deleted then DropResource(before, e.resource)
      else if e.etype == Added && e.payload != NoPayload then PutResource(before, e.resource, e.payload)
      else before
  }

  // ---------------------------------------------------------------- snapshots of the resources

  function StateName(rtype: string): string {
    if rtype == PROXY then "desired_proxies" else if rtype == RELAY then "desired_relays" else rtype
  }

  /** The key a resource gets in a snapshot: its bare name when the stored key parses. */
  function NormalName(metaKey: string): string {
    match ParseResourceKey(metaKey) case None => metaKey case Some(rk) => rk.name
  }

  function Image<T, U>(s: set<T>, f: T -> U): set<U> {
    set x | x in s :: f(x)
  }

  /** n re-files m under bare names; of several resources with one name some one remains. */
  ghost predicate Normalized(m: map<string, Payload>, n: map<string, Payload>) {
    && n.Keys == Image(m.Keys, NormalName)
    && forall x :: x in n ==> exists k :: k in m && NormalName(k) == x && n[x] == m[k]
  }

  ghost predicate SectionOf(rtype: string, m: map<string, Payload>, n: map<string, Payload>) {
    if rtype == PROXY || rtype == RELAY then Normalized(m, n) else n == m
  }

  /** state is a snapshot of the resources: one section per type. */
  ghost predicate IsSnapshotOf(m: Resources, state: Resources) {
    && state.Keys == (set t | t in m :: StateName(t))
    && forall s :: s in state ==> exists t :: t in m && StateName(t) == s && SectionOf(t, m[t], state[s])
  }

  /** Whether writes to disk succeed, and the clock. */
  datatype Io = Io(append: bool, save: bool, snapshot: bool, now: nat)

  /** One logged operation: the event counter and the number of snapshot attempts. */
  function Tick(count: int, attempts: int, interval: int): (int, int) {
    if count + 1 >= interval then (0, attempts + 1) else (count + 1, attempts)
  }

  // ---------------------------------------------------------------- the three stores

  class EventStore {
    var events: seq<Event>
    var sequence: int

    constructor (events: seq<Event>, sequence: int)
      ensures this.events == events && this.sequence == sequence
    {
      this.events, this.sequence := events, sequence;
    }

    /** A failed write still uses up its sequence number. */
    method Append(event: Event, ok: bool, now: int) returns (done: bool)
      modifies this
      ensures done == ok && sequence == old(sequence) + 1
      ensures events == if ok then old(events) + [Stamped(event, sequence, now)] else old(events)
      ensures ok ==>
                events == old(events) + [event.(sequence := old(sequence) + 1,
                                                timestamp := if event.timestamp == 0 then now else event.timestamp)]
    {
      sequence := sequence + 1;
      if !ok {
        return false;
      }
      events := events + [Stamped(event, sequence, now)];
      return true;
    }
  }

  function Stamped(e: Event, sequence: int, now: int): Event {
    e.(sequence := sequence, timestamp := if e.timestamp == 0 then now else e.timestamp)
  }

  class MetaStore {
    var resources: Resources

    constructor (resources: Resources)
      ensures this.resources == resources
    {
      this.resources := resources;
    }

    method Put(key: ResourceKey, resource: Payload, ok: bool) returns (done: bool)
      modifies this
      ensures done == ok && resources == PutResource(old(resources), key, resource)
      ensures resources == old(resources)[key.rtype :=
                             (if key.rtype in old(resources) then old(resources)[key.rtype] else map[])
                             [key.ToString() := resource]]
    {
      if key.rtype !in resources {
        resources := resources[key.rtype := map[]];
      }
      resources := resources[key.rtype := resources[key.rtype][key.ToString() := resource]];
      return ok;
    }

    method Delete(key: ResourceKey, ok: bool) returns (done: bool)
      modifies this
      ensures done == (ok || key.rtype !in old(resources)) && resources == DropResource(old(resources), key)
      ensures resources == if key.rtype !in old(resources) then old(resources)
                           else old(resources)[key.rtype := old(resources)[key.rtype] - {key.ToString()}]
    {
      if key.rtype !in resources {
        return true;
      }
      resources := resources[key.rtype := resources[key.rtype] - {key.ToString()}];
      return ok;
    }

    method Get(key: ResourceKey) returns (r: Option<Payload>)
      ensures r == if key.ToString() in TypeOf(resources, key.rtype)
                   then Some(TypeOf(resources, key.rtype)[key.ToString()]) else None
      ensures r.Some? <==> key.rtype in resources && key.ToString() in resources[key.rtype]
    {
      if key.rtype !in resources {
        return None;
      }
      var name := key.ToString();
      return if name in resources[key.rtype] then Some(resources[key.rtype][name]) else None;
    }

    /** A copy of everything, made entry by entry. */
    method ListAll() returns (result: Resources)
      ensures result == resources
    {
      result := map[];
      var types := resources.Keys;
      while types != {}
        invariant types <= resources.Keys
        invariant result == map t | t in resources && t !in types :: resources[t]
      {
        var t := Pick(types);
        var copy: map<string, Payload> := map[];
        var names := resources[t].Keys;
        while names != {}
          invariant names <= resources[t].Keys
          invariant copy == map k | k in resources[t] && k !in names :: resources[t][k]
        {
          var k := Pick(names);
          copy := copy[k := resources[t][k]];
          names := names - {k};
        }
        assert copy == resources[t];
        result := result[t := copy];
        types := types - {t};
      }
      assert result == resources;
    }
  }

  // ---------------------------------------------------------------- the manager

  class StorageManager {
    const events: EventStore
    const snapshots: SnapshotStore<Resources>
    const meta: MetaStore
    const snapshotInterval: int
    var eventCount: int

    constructor (events: EventStore, snapshots: SnapshotStore<Resources>, meta: MetaStore, interval: int)
      ensures this.events == events && this.snapshots == snapshots && this.meta == meta && eventCount == 0
      ensures snapshotInterval == if interval <= 0 then 1000 else interval
    {
      this.events, this.snapshots, this.meta := events, snapshots, meta;
      snapshotInterval, eventCount := if interval <= 0 then 1000 else interval, 0;
    }

    /** The counter stays below the interval. */
    ghost predicate Valid()
      reads this
    {
      snapshotInterval > 0 && 0 <= eventCount < snapshotInterval
    }

    /** What one successful append does to counter and snapshots: every interval-th one is followed by an attempt. */
    twostate predicate Ticked(snapshotOf: Resources, io: Io)
      reads this, snapshots
    {
      var due := old(eventCount) + 1 >= snapshotInterval;
      && (eventCount, snapshots.attempts) == Tick(old(eventCount), old(snapshots.attempts), snapshotInterval)
      && (if due && io.snapshot
          then snapshots.latest.Some? && IsSnapshotOf(snapshotOf, snapshots.latest.value.state)
          else snapshots.latest == old(snapshots.latest))
    }

    twostate predicate Untouched()
      reads this, snapshots
    {
      && eventCount == old(eventCount) && snapshots.attempts == old(snapshots.attempts)
      && snapshots.latest == old(snapshots.latest)
    }

    /** One map-building loop of createSnapshot. */
    method Normalize(m: map<string, Payload>) returns (n: map<string, Payload>)
      ensures Normalized(m, n)
    {
      n := map[];
      var todo := m.Keys;
      while todo != {}
        invariant todo <= m.Keys
        invariant n.Keys == Image(m.Keys - todo, NormalName)
        invariant forall x :: x in n ==> exists k :: k in m && NormalName(k) == x && n[x] == m[k]
      {
        var metaKey := Pick(todo);
        assert m.Keys - (todo - {metaKey}) == m.Keys - todo + {metaKey};
        n := n[NormalName(metaKey) := m[metaKey]];
        todo := todo - {metaKey};
      }
      assert m.Keys - todo == m.Keys;
    }

    method CreateSnapshot(io: Io)
      modifies snapshots
      ensures snapshots.attempts == old(snapshots.attempts) + 1
      ensures io.snapshot ==>
                && snapshots.latest.Some? && IsSnapshotOf(meta.resources, snapshots.latest.value.state)
                && snapshots.latest.value.sequence == |events.events| && snapshots.latest.value.timestamp == io.now
                && SavedDisk(old(snapshots.disk), snapshots.disk, snapshots.latest.value)
                && (WellNamed(old(snapshots.disk)) ==> WellNamed(snapshots.disk))
                && (WellNamed(old(snapshots.disk)) && ClockAhead(old(snapshots.disk), io.now) ==>
                      FileName(io.now) in snapshots.disk && IsLatest(snapshots.disk, snapshots.latest))
      ensures !io.snapshot ==> snapshots.latest == old(snapshots.latest) && snapshots.disk == old(snapshots.disk)
    {
      var metaState := meta.ListAll();
      var state: Resources := map[];
      var todo := metaState.Keys;
      while todo != {}
        modifies {}
        invariant todo <= metaState.Keys
        invariant state.Keys == set t | t in metaState && t !in todo :: StateName(t)
        invariant forall s :: s in state ==>
                    exists t :: t in metaState && StateName(t) == s && SectionOf(t, metaState[t], state[s])
      {
        var t := Pick(todo);
        var section := metaState[t];
        if t == PROXY || t == RELAY {
          section := Normalize(section);
        }
        assert SectionOf(t, metaState[t], section);
        state := state[StateName(t) := section];
        todo := todo - {t};
      }
      var _ := snapshots.Save(state, |events.events|, io.now, io.snapshot);
    }

    method CountEvent(io: Io)
      requires Valid()
      modifies this, snapshots
      ensures Valid() && Ticked(meta.resources, io)
    {
      eventCount := eventCount + 1;
      if eventCount >= snapshotInterval {
        CreateSnapshot(io);
        eventCount := 0;
      }
    }

    /** The snapshot, when one is due, is taken before the resource is put. */
    method AppendEventAndSave(event: Event, resource: Payload, io: Io) returns (ok: bool)
      requires Valid()
      modifies this, events, snapshots, meta
      ensures Valid()
      ensures !io.append ==>
                && !ok && events.events == old(events.events) && meta.resources == old(meta.resources)
                && Untouched()
      ensures io.append ==>
                && events.events == old(events.events) + [Stamped(event, events.sequence, io.now)]
                && meta.resources == (if resource == NoPayload then old(meta.resources)
                                      else PutResource(old(meta.resources), event.resource, resource))
                && Ticked(old(meta.resources), io)
                && ok == (io.save || resource == NoPayload)
    {
      ok := events.Append(event, io.append, io.now);
      if !ok {
        return;
      }
      CountEvent(io);
      if resource != NoPayload {
        ok := meta.Put(event.resource, resource, io.save);
      }
    }

    /** The resource goes first, then a DELETED event with a fresh ID is logged. */
    method DeleteResource(key: ResourceKey, id: string, io: Io) returns (ok: bool)
      requires Valid()
      modifies this, events, snapshots, meta
      ensures Valid() && meta.resources == DropResource(old(meta.resources), key)
      ensures ok == (io.append && (io.save || key.rtype !in old(meta.resources)))
      ensures !ok ==> events.events == old(events.events) && Untouched()
      ensures ok ==>
                && events.events == old(events.events)
                                    + [Stamped(Event(id, 0, io.now, key, Deleted, NoPayload), events.sequence, io.now)]
                && Ticked(meta.resources, io)
    {
      ok := meta.Delete(key, io.save);
      if !ok {
        return;
      }
      ok := events.Append(Event(id, 0, io.now, key, Deleted, NoPayload), io.append, io.now);
      if !ok {
        return;
      }
      CountEvent(io);
    }

    /**
     * Close takes a last snapshot of everything. With the clock ahead of the snapshots on disk it is the
     * newest one there.
     */
    method Close(io: Io)
      modifies snapshots
      ensures io.snapshot ==>
                && snapshots.latest.Some? && snapshots.latest.value.timestamp == io.now
                && IsSnapshotOf(meta.resources, snapshots.latest.value.state)
                && SavedDisk(old(snapshots.disk), snapshots.disk, snapshots.latest.value)
                && (WellNamed(old(snapshots.disk)) && ClockAhead(old(snapshots.disk), io.now) ==>
                      FileName(io.now) in snapshots.disk && IsLatest(snapshots.disk, snapshots.latest))
    {
      CreateSnapshot(io);
    }
  }

  /** Shut down, then open the snapshot directory again: what it starts from is a snapshot of everything stored. */
  method CloseAndReopen(m: StorageManager, io: Io) returns (reopened: SnapshotStore<Resources>)
    requires io.snapshot && WellNamed(m.snapshots.disk) && ClockAhead(m.snapshots.disk, io.now)
    modifies m.snapshots
    ensures fresh(reopened) && reopened.disk == m.snapshots.disk && reopened.latest == m.snapshots.latest
    ensures reopened.latest.Some? && IsSnapshotOf(m.meta.resources, reopened.latest.value.state)
  {
    ghost var before := m.snapshots.disk;
    m.Close(io);
    AheadIsFound(before, m.snapshots.disk, m.snapshots.latest.value);
    reopened := new SnapshotStore(m.snapshots.disk);
  }

  // ---------------------------------------------------------------- laws

  lemma ReplayPush(log: seq<Event>, e: Event)
    ensures Replay(log + [e]) ==
            (if e.etype == Deleted then DropResource(Replay(log), e.resource)
             else if e.etype == Added && e.payload != NoPayload then PutResource(Replay(log), e.resource, e.payload)
             else Replay(log))
  {
    assert (log + [e])[..|log|] == log;
  }

  /** Counter and number of snapshot attempts after n logged operations on a fresh manager. */
  function Ticks(n: nat, interval: int): (int, int) {
    if n == 0 then (0, 0)
    else
      var (count, attempts) := Ticks(n - 1, interval);
      Tick(count, attempts, interval)
  }

  /** Exactly every interval-th logged operation attempts a snapshot. */
  lemma {:induction false} Cadence(n: nat, interval: int)
    requires interval > 0
    ensures Ticks(n, interval) == (n % interval, n / interval)
  {
    if n > 0 {
      Cadence(n - 1, interval);
      var (count, attempts) := Ticks(n, interval);
      DivisionIs(n, interval, attempts, count);
    }
  }

  // ---------------------------------------------------------------- key normalisation

  /** All keys of this section belong to one slash-free type and the default namespace. */
  ghost predicate DefaultKeysOnly(rtype: string, m: map<string, Payload>) {
    && rtype != "" && '/' !in rtype
    && forall k :: k in m ==> InDefault(rtype, k)
  }

  ghost predicate InDefault(rtype: string, k: string) {
    exists name :: k == DefaultKey(rtype, name).ToString()
  }

  /** The stored key of the resource without a name; ParseResourceKey rejects it. */
  function Nameless(rtype: string): string { DefaultKey(rtype, "").ToString() }

  /** The one clash: the nameless resource next to one whose name spells the nameless one's key. */
  predicate Collides(rtype: string, m: map<string, Payload>) {
    Nameless(rtype) in m && DefaultKey(rtype, Nameless(rtype)).ToString() in m
  }

  /** The sections of a snapshot: proxies and relays under names of their own, every other type as it is. */
  lemma SectionsNamed(m: Resources, state: Resources, rtype: string)
    requires IsSnapshotOf(m, state) && rtype in m
    ensures rtype == "proxy" ==> "desired_proxies" in state
    ensures rtype == "relay" ==> "desired_relays" in state
    ensures rtype !in {"proxy", "relay", "desired_proxies", "desired_relays"} ==>
              rtype in state && state[rtype] == m[rtype]
  {
    assert StateName(rtype) in state.Keys;
    if rtype !in {"proxy", "relay", "desired_proxies", "desired_relays"} {
      var t :| t in m && StateName(t) == rtype && SectionOf(t, m[t], state[rtype]);
    }
  }

  /** A stored key of three non-empty parts becomes its last part; any other stays as it is. */
  lemma NormalNameIs(s: string, k: ResourceKey)
    ensures Parseable(k) && s == k.ToString() ==> NormalName(s) == k.name
    ensures (forall j :: Parseable(j) ==> s != j.ToString()) ==> NormalName(s) == s
  {
    ParseResourceKeyIff(s, k);
    if ParseResourceKey(s).Some? { ParseResourceKeyIff(s, ParseResourceKey(s).value); }
  }

  lemma NormalOfDefault(rtype: string, name: string)
    requires rtype != "" && '/' !in rtype
    ensures NormalName(DefaultKey(rtype, name).ToString()) == if name == "" then Nameless(rtype) else name
  {
    if name == "" {
      NamelessUnparsed(rtype);
    } else {
      ParseResourceKeyInverts(DefaultKey(rtype, name));
    }
  }

  lemma NamelessUnparsed(rtype: string)
    requires rtype != "" && '/' !in rtype
    ensures ParseResourceKey(Nameless(rtype)) == None
  {
    var s, i := Nameless(rtype), |rtype|;
    assert s[i] == '/' && forall x :: 0 <= x < i ==> s[x] == rtype[x];
    assert IndexFrom(s, '/', 0) == i;
    assert s[i + 1..] == "default/" && s[|s| - 1] == '/';
    assert IndexFrom(s, '/', i + 1) + 1 == |s| by {
      assert forall x :: 0 <= x < 7 ==> s[i + 1 + x] == "default"[x];
    }
  }

  lemma NormalInjective(rtype: string, m: map<string, Payload>, j: string, k: string)
    requires DefaultKeysOnly(rtype, m) && j in m && k in m && NormalName(j) == NormalName(k)
    ensures j == k || Collides(rtype, m)
  {
    assert InDefault(rtype, j) && InDefault(rtype, k);
    var a :| j == DefaultKey(rtype, a).ToString();
    var b :| k == DefaultKey(rtype, b).ToString();
    NormalOfDefault(rtype, a);
    NormalOfDefault(rtype, b);
  }

  /** In the default namespace a snapshot section keeps every resource exactly when that clash is absent. */
  lemma DefaultNamesKeptIff(rtype: string, m: map<string, Payload>, n: map<string, Payload>)
    requires Normalized(m, n) && DefaultKeysOnly(rtype, m)
    ensures |n| == |m| <==> !Collides(rtype, m)
  {
    if Collides(rtype, m) {
      ClashLosesOne(rtype, m, n);
    } else {
      forall j, k | j in m && k in m && NormalName(j) == NormalName(k) ensures j == k {
        NormalInjective(rtype, m, j, k);
      }
      ImageSize(m.Keys, NormalName);
      assert |n| == |n.Keys| && |m| == |m.Keys|;
    }
  }

  lemma ClashLosesOne(rtype: string, m: map<string, Payload>, n: map<string, Payload>)
    requires Normalized(m, n) && DefaultKeysOnly(rtype, m) && Collides(rtype, m)
    ensures |n| < |m|
  {
    var j, k := Nameless(rtype), DefaultKey(rtype, Nameless(rtype)).ToString();
    ClashingKeys(rtype, j, k);
    ImageShrinks(m.Keys, NormalName, j, k);
    assert |n| == |n.Keys| && |m| == |m.Keys|;
  }

  lemma ClashingKeys(rtype: string, j: string, k: string)
    requires rtype != "" && '/' !in rtype && j == Nameless(rtype) && k == DefaultKey(rtype, j).ToString()
    ensures j != k && NormalName(j) == NormalName(k)
  {
    NormalOfDefault(rtype, "");
    NormalOfDefault(rtype, j);
    assert |j| < |k|;
  }

  /** ... and then each named resource is found in the section under its bare name. */
  lemma NamedEntryKept(rtype: string, m: map<string, Payload>, n: map<string, Payload>, name: string)
    requires Normalized(m, n) && DefaultKeysOnly(rtype, m) && !Collides(rtype, m)
    requires name != "" && DefaultKey(rtype, name).ToString() in m
    ensures name in n && n[name] == m[DefaultKey(rtype, name).ToString()]
  {
    var key := DefaultKey(rtype, name).ToString();
    NormalOfDefault(rtype, name);
    assert NormalName(key) == name;
    var k :| k in m && NormalName(k) == name && n[name] == m[k];
    NormalInjective(rtype, m, k, key);
  }

  lemma {:induction false} ImageSize<T, U>(s: set<T>, f: T -> U)
    requires forall x, y :: x in s && y in s && f(x) == f(y) ==> x == y
    ensures |Image(s, f)| == |s|
  {
    if s != {} {
      var x :| x in s;
      var rest := s - {x};
      ImageSize(rest, f);
      assert Image(s, f) == Image(rest, f) + {f(x)};
    }
  }

  lemma {:induction false} ImageAtMost<T, U>(s: set<T>, f: T -> U)
    ensures |Image(s, f)| <= |s|
  {
    if s != {} {
      var x :| x in s;
      var rest := s - {x};
      ImageAtMost(rest, f);
      assert Image(s, f) == Image(rest, f) + {f(x)};
    }
  }

  lemma ImageShrinks<T, U>(s: set<T>, f: T -> U, x: T, y: T)
    requires x in s && y in s && x != y && f(x) == f(y)
    ensures |Image(s, f)| < |s|
  {
    var rest := s - {x};
    assert y in rest;
    assert Image(s, f) == Image(rest, f);
    ImageAtMost(rest, f);
  }
}
