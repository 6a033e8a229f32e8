// The reconcile engine of BBgrid_Server/runtime/reconcile.go: each pass compares desired with actual
// resources by key, creates what is missing and deletes what is extra, with backoff after failures.
module Reconcile {
  import opened Wrappers
  import opened Keys
  import opened Events
  import opened StateStore
  import opened StoreLaws
  import opened Backoff

  // ---------------------------------------------------------------- one pass, step by step

  /** A provider call; a resource to remove is named by its key. */
  datatype Call<T> = Create(item: T) | Remove(key: string)

  datatype Tally = Tally(total: int, fixed: int, failed: int)

  datatype Failures = Failures(count: map<string, int>, time: map<string, int>)

  const NO_FAILURES := Failures(map[], map[])

  /** Still in its backoff period. */
  predicate Waiting(f: Failures, k: string, now: int) {
    && k in f.count && f.count[k] > 0
    && k in f.time && now - f.time[k] < Delay(f.count[k])
  }

  function Cleared(f: Failures, k: string): Failures { Failures(f.count - {k}, f.time - {k}) }

  function CountOf(f: Failures, k: string): int { if k in f.count then f.count[k] else 0 }

  function Failed(f: Failures, k: string, now: int): Failures {
    Failures(f.count[k := CountOf(f, k) + 1], f.time[k := now])
  }

  datatype Progress<T> = Progress(failures: Failures, tally: Tally, calls: seq<Call<T>>)

  function Start<T>(f: Failures): Progress<T> { Progress(f, Tally(0, 0, 0), []) }

  function Called<T>(p: Progress<T>, c: Call<T>, failed: bool, f: Failures): Progress<T> {
    var (fixed, failures) := if failed then (0, 1) else (1, 0);
    Progress(f, Tally(p.tally.total + 1, p.tally.fixed + fixed, p.tally.failed + failures), p.calls + [c])
  }

  function CreateNext<T>(p: Progress<T>, d: T, k: string, present: bool, fails: Call<T> -> bool,
                         now: int): Progress<T> {
    if present then p.(failures := Cleared(p.failures, k))
    else if Waiting(p.failures, k, now) then p.(tally := p.tally.(total := p.tally.total + 1))
    else
      var failed := fails(Create(d));
      Called(p, Create(d), failed, if failed then Failed(p.failures, k, now) else Cleared(p.failures, k))
  }

  function RemoveNext<T>(p: Progress<T>, k: string, wanted: bool, fails: Call<T> -> bool): Progress<T> {
    if wanted then p else Called(p, Remove(k), fails(Remove(k)), p.failures)
  }

  function Creates<T>(p: Progress<T>, desired: seq<T>, key: T -> string, have: set<string>, fails: Call<T> -> bool,
                      now: int): Progress<T> {
    if desired == [] then p
    else
      var d := desired[|desired| - 1];
      CreateNext(Creates(p, desired[..|desired| - 1], key, have, fails, now), d, key(d), key(d) in have, fails, now)
  }

  function Removes<T>(p: Progress<T>, actual: seq<string>, want: set<string>, fails: Call<T> -> bool): Progress<T> {
    if actual == [] then p
    else
      var k := actual[|actual| - 1];
      RemoveNext(Removes(p, actual[..|actual| - 1], want, fails), k, k in want, fails)
  }

  function KeysOf<T>(desired: seq<T>, key: T -> string): set<string> {
    set i | 0 <= i < |desired| :: key(desired[i])
  }

  /** A whole pass: the creating loop, then the deleting loop. */
  function Pass<T>(f: Failures, desired: seq<T>, key: T -> string, actual: seq<string>, fails: Call<T> -> bool,
                   now: int): Progress<T> {
    Removes(Creates(Start(f), desired, key, Elements(actual), fails, now), actual, KeysOf(desired, key), fails)
  }

  // ---------------------------------------------------------------- the objects

  /** proxyFailCount and proxyFailTime, or relayFailCount and relayFailTime, with the loops that use them. */
  class KeyedReconciler {
    var failCount: map<string, int>
    var failTime: map<string, int>

    constructor ()
      ensures View() == NO_FAILURES
    {
      failCount, failTime := map[], map[];
    }

    ghost function View(): Failures
      reads this
    {
      Failures(failCount, failTime)
    }

    method Clear(k: string)
      modifies this
      ensures View() == Cleared(old(View()), k)
      ensures failCount == old(failCount) - {k} && failTime == old(failTime) - {k}
    {
      failCount, failTime := failCount - {k}, failTime - {k};
    }

    method RecordFailure(k: string, now: int)
      modifies this
      ensures View() == Failed(old(View()), k, now)
      ensures failCount == old(failCount)[k := if k in old(failCount) then old(failCount)[k] + 1 else 1]
      ensures failTime == old(failTime)[k := now]
    {
      failCount := failCount[k := (if k in failCount then failCount[k] else 0) + 1];
      failTime := failTime[k := now];
    }

    method CollectKeys<T>(desired: seq<T>, key: T -> string) returns (keys: set<string>)
      ensures keys == KeysOf(desired, key)
    {
      keys := {};
      for i := 0 to |desired|
        invariant keys == KeysOf(desired[..i], key)
      {
        assert KeysOf(desired[..i + 1], key) == KeysOf(desired[..i], key) + {key(desired[i])};
        keys := keys + {key(desired[i])};
      }
      assert desired[..|desired|] == desired;
    }

    method CollectElements(actual: seq<string>) returns (members: set<string>)
      ensures members == Elements(actual)
    {
      members := {};
      for i := 0 to |actual|
        invariant members == Elements(actual[..i])
      {
        members := members + {actual[i]};
      }
      assert actual[..|actual|] == actual;
    }

    method Reconcile<T>(desired: seq<T>, key: T -> string, actual: seq<string>, fails: Call<T> -> bool, now: int)
      returns (tally: Tally, calls: seq<Call<T>>)
      modifies this
      ensures Progress(View(), tally, calls) == Pass(old(View()), desired, key, actual, fails, now)
    {
      var desiredSet := CollectKeys(desired, key);
      var actualSet := CollectElements(actual);
      assert desired[..|desired|] == desired && actual[..|actual|] == actual;
      var total, fixed, failed := 0, 0, 0;
      calls := [];
      for i := 0 to |desired|
        invariant Progress(View(), Tally(total, fixed, failed), calls)
                  == Creates(Start(old(View())), desired[..i], key, actualSet, fails, now)
      {
        var d := desired[i];
        var k := key(d);
        assert desired[..i + 1][..i] == desired[..i];
        if k in actualSet {
          Clear(k);
          continue;
        }
        total := total + 1;
        if k in failCount && failCount[k] > 0 && k in failTime {
          if now - failTime[k] < Delay(failCount[k]) {
            continue;
          }
        }
        calls := calls + [Create(d)];
        if fails(Create(d)) {
          RecordFailure(k, now);
          failed := failed + 1;
        } else {
          Clear(k);
          fixed := fixed + 1;
        }
      }
      ghost var created := Creates(Start(old(View())), desired, key, actualSet, fails, now);
      for i := 0 to |actual|
        modifies {}
        invariant Progress(View(), Tally(total, fixed, failed), calls)
                  == Removes(created, actual[..i], desiredSet, fails)
      {
        var k := actual[i];
        assert actual[..i + 1][..i] == actual[..i];
        if k in desiredSet {
          continue;
        }
        total := total + 1;
        calls := calls + [Remove(k)];
        if fails(Remove(k)) {
          failed := failed + 1;
        } else {
          fixed := fixed + 1;
        }
      }
      tally := Tally(total, fixed, failed);
    }
  }

  // ---------------------------------------------------------------- the engine

  function KeyOfProxy(p: Proxy): string { p.Key() }

  function KeyOfRelay(r: Relay): string { r.id }

  /** The values filed under the given keys. */
  function Listed<V>(m: map<string, V>, order: seq<string>): (r: seq<V>)
    requires forall k :: k in order ==> k in m
    ensures |r| == |order| && forall i :: 0 <= i < |order| ==> r[i] == m[order[i]]
  {
    seq(|order|, i requires 0 <= i < |order| => m[order[i]])
  }

  function ProxyKeys(actual: seq<Proxy>): seq<string> {
    seq(|actual|, i requires 0 <= i < |actual| => actual[i].Key())
  }

  function SessionKeys(actual: seq<RelaySession>): seq<string> {
    seq(|actual|, i requires 0 <= i < |actual| => actual[i].spec.id)
  }

  /** The desired entries that reconciling considers and all actual ones, each in some map order. */
  ghost predicate ProxyOrders(t: Tables, desired: seq<string>, actual: seq<string>) {
    Enumerates(desired, ValidKeys(t.desiredProxies)) && Enumerates(actual, t.proxies.Keys)
  }

  ghost predicate RelayOrders(t: Tables, desired: seq<string>, actual: seq<string>) {
    Enumerates(desired, NamedKeys(t.desiredRelays)) && Enumerates(actual, t.relays.Keys)
  }

  function ProxyPass(f: Failures, t: Tables, desired: seq<string>, actual: seq<string>, fails: Call<Proxy> -> bool,
                     now: int): Progress<Proxy>
    requires (forall k :: k in desired ==> k in t.desiredProxies) && (forall k :: k in actual ==> k in t.proxies)
  {
    Pass(f, Listed(t.desiredProxies, desired), KeyOfProxy, ProxyKeys(Listed(t.proxies, actual)), fails, now)
  }

  function RelayPass(f: Failures, t: Tables, desired: seq<string>, actual: seq<string>, fails: Call<Relay> -> bool,
                     now: int): Progress<Relay>
    requires (forall k :: k in desired ==> k in t.desiredRelays) && (forall k :: k in actual ==> k in t.relays)
  {
    Pass(f, Listed(t.desiredRelays, desired), KeyOfRelay, SessionKeys(Listed(t.relays, actual)), fails, now)
  }

  datatype PassResult = PassResult(at: int, proxies: Tally, relays: Tally)

  const HISTORY := 100

  function Bounded(history: seq<PassResult>): seq<PassResult> {
    if |history| > HISTORY then history[1..] else history
  }

  class ReconcileEngine {
    const store: StateStoreImpl
    const proxies: KeyedReconciler
    const relays: KeyedReconciler
    var last: Option<PassResult>
    var history: seq<PassResult>
    var triggered: bool             // triggerCh holds its one token
    var stopped: bool

    constructor (store: StateStoreImpl)
      ensures this.store == store && fresh(proxies) && fresh(relays) && proxies != relays
      ensures proxies.View() == NO_FAILURES && relays.View() == NO_FAILURES
      ensures last == None && history == [] && !triggered && !stopped
    {
      this.store := store;
      proxies := new KeyedReconciler();
      relays := new KeyedReconciler();
      last, history, triggered, stopped := None, [], false, false;
    }

    method Trigger()
      modifies this`triggered
      ensures triggered
    {
      if !triggered {
        triggered := true;
      }
    }

    method Stop()
      modifies this`stopped
      ensures stopped
    {
      if !stopped {
        stopped := true;
      }
    }

    method ReconcileProxies(fails: Call<Proxy> -> bool, now: int)
      returns (tally: Tally, calls: seq<Call<Proxy>>, ghost wanted: seq<string>, ghost present: seq<string>)
      modifies proxies
      ensures ProxyOrders(store.View(), wanted, present)
      ensures Progress(proxies.View(), tally, calls)
                == ProxyPass(old(proxies.View()), store.View(), wanted, present, fails, now)
    {
      var desired, actual;
      desired, wanted := store.GetDesiredProxies();
      actual, present := store.ListProxies();
      assert desired == Listed(store.desiredProxies, wanted) && actual == Listed(store.proxies, present);
      tally, calls := proxies.Reconcile(desired, KeyOfProxy, ProxyKeys(actual), fails, now);
    }

    method ReconcileRelays(fails: Call<Relay> -> bool, now: int)
      returns (tally: Tally, calls: seq<Call<Relay>>, ghost wanted: seq<string>, ghost present: seq<string>)
      modifies relays
      ensures RelayOrders(store.View(), wanted, present)
      ensures Progress(relays.View(), tally, calls)
                == RelayPass(old(relays.View()), store.View(), wanted, present, fails, now)
    {
      var desired, actual;
      desired, wanted := store.GetDesiredRelays();
      actual, present := store.ListRelaySessions();
      assert desired == Listed(store.desiredRelays, wanted) && actual == Listed(store.relays, present);
      tally, calls := relays.Reconcile(desired, KeyOfRelay, SessionKeys(actual), fails, now);
    }

    /** Both passes, then the result is kept in a history of at most 100. */
    method DoReconcile(proxyFails: Call<Proxy> -> bool, relayFails: Call<Relay> -> bool, now: int)
      returns (result: PassResult, proxyCalls: seq<Call<Proxy>>, relayCalls: seq<Call<Relay>>,
               ghost proxyOrders: (seq<string>, seq<string>), ghost relayOrders: (seq<string>, seq<string>))
      requires proxies != relays
      modifies this`last, this`history, proxies, relays
      ensures last == Some(result) && history == Bounded(old(history) + [result])
      ensures history == (if |old(history)| >= 100 then old(history)[1..] else old(history)) + [result]
      ensures ProxyOrders(store.View(), proxyOrders.0, proxyOrders.1)
      ensures Progress(proxies.View(), result.proxies, proxyCalls)
              == ProxyPass(old(proxies.View()), store.View(), proxyOrders.0, proxyOrders.1, proxyFails, now)
      ensures RelayOrders(store.View(), relayOrders.0, relayOrders.1)
      ensures Progress(relays.View(), result.relays, relayCalls)
              == RelayPass(old(relays.View()), store.View(), relayOrders.0, relayOrders.1, relayFails, now)
    {
      var proxyTally, relayTally;
      ghost var wp, pp, wr, pr;
      proxyTally, proxyCalls, wp, pp := ReconcileProxies(proxyFails, now);
      relayTally, relayCalls, wr, pr := ReconcileRelays(relayFails, now);
      proxyOrders, relayOrders := (wp, pp), (wr, pr);
      result := PassResult(now, proxyTally, relayTally);
      last := Some(result);
      history := history + [result];
      if |history| > HISTORY {
        history := history[1..];
      }
    }
  }

  /** The history after a number of passes on a fresh engine. */
  function HistoryOf(results: seq<PassResult>): seq<PassResult> {
    if results == [] then [] else Bounded(HistoryOf(results[..|results| - 1]) + [results[|results| - 1]])
  }

  /** The history is the last hundred results, or all of them, in order. */
  lemma {:induction false} HistoryKeepsLast(results: seq<PassResult>)
    ensures HistoryOf(results) == if |results| <= 100 then results else results[|results| - 100..]
  {
    if results != [] {
      var shorter := results[..|results| - 1];
      HistoryKeepsLast(shorter);
      assert results == shorter + [results[|results| - 1]];
    }
  }

  // ---------------------------------------------------------------- accounting

  function CallKey<T>(c: Call<T>, key: T -> string): string {
    match c case Create(d) => key(d) case Remove(k) => k
  }

  function CallKeys<T>(calls: seq<Call<T>>, key: T -> string): (r: seq<string>)
    ensures |r| == |calls| && forall i :: 0 <= i < |calls| ==> r[i] == CallKey(calls[i], key)
  {
    seq(|calls|, i requires 0 <= i < |calls| => CallKey(calls[i], key))
  }

  /** How many of the calls fail. */
  function Failing<T>(calls: seq<Call<T>>, fails: Call<T> -> bool): nat {
    if calls == [] then 0
    else Failing(calls[..|calls| - 1], fails) + if fails(calls[|calls| - 1]) then 1 else 0
  }

  ghost predicate DistinctKeys<T>(desired: seq<T>, key: T -> string) {
    forall i, j :: 0 <= i < j < |desired| ==> key(desired[i]) != key(desired[j])
  }

  ghost predicate Distinct(order: seq<string>) {
    forall i, j :: 0 <= i < j < |order| ==> order[i] != order[j]
  }

  ghost predicate SameAt(f: Failures, g: Failures, k: string) {
    && (k in f.count <==> k in g.count) && (k in f.count ==> f.count[k] == g.count[k])
    && (k in f.time <==> k in g.time) && (k in f.time ==> f.time[k] == g.time[k])
  }

  /** What a pass does to the failure record of one desired entry. */
  ghost predicate Recorded<T>(f: Failures, g: Failures, d: T, k: string, have: set<string>, fails: Call<T> -> bool,
                              now: int) {
    if k !in have && Waiting(f, k, now) then SameAt(f, g, k)
    else if k !in have && fails(Create(d)) then
      k in g.count && g.count[k] == CountOf(f, k) + 1 && k in g.time && g.time[k] == now
    else k !in g.count && k !in g.time
  }

  /** Missing entries that are still waiting. */
  function Skipped(f: Failures, want: set<string>, have: set<string>, now: int): set<string> {
    set k | k in want && k !in have && Waiting(f, k, now)
  }

  lemma KeysOfPush<T>(shorter: seq<T>, d: T, key: T -> string)
    ensures KeysOf(shorter + [d], key) == KeysOf(shorter, key) + {key(d)}
    ensures DistinctKeys(shorter + [d], key) ==> key(d) !in KeysOf(shorter, key) && DistinctKeys(shorter, key)
  {
    var longer := shorter + [d];
    assert longer[|shorter|] == d;
    assert forall i :: 0 <= i < |shorter| ==> longer[i] == shorter[i];
  }

  lemma CallKeysPush<T>(calls: seq<Call<T>>, c: Call<T>, key: T -> string)
    ensures CallKeys(calls + [c], key) == CallKeys(calls, key) + [CallKey(c, key)]
  {}

  ghost predicate AllRecorded<T>(f: Failures, g: Failures, desired: seq<T>, key: T -> string, have: set<string>,
                                 fails: Call<T> -> bool, now: int) {
    && (forall k :: k !in KeysOf(desired, key) ==> SameAt(f, g, k))
    && (forall i :: 0 <= i < |desired| ==> Recorded(f, g, desired[i], key(desired[i]), have, fails, now))
  }

  lemma CreateNextRecorded<T>(f: Failures, p: Progress<T>, d: T, k: string, have: set<string>, fails: Call<T> -> bool,
                              now: int)
    requires SameAt(f, p.failures, k)
    ensures var g := CreateNext(p, d, k, k in have, fails, now).failures;
            Recorded(f, g, d, k, have, fails, now) && forall j :: j != k ==> SameAt(p.failures, g, j)
  {}

  lemma RecordedElsewhere<T>(f: Failures, g: Failures, h: Failures, d: T, k: string, have: set<string>,
                             fails: Call<T> -> bool, now: int)
    requires Recorded(f, g, d, k, have, fails, now) && SameAt(g, h, k)
    ensures Recorded(f, h, d, k, have, fails, now)
  {}

  lemma {:induction false} CreatesFailures<T>(f: Failures, desired: seq<T>, key: T -> string, have: set<string>,
                                              fails: Call<T> -> bool, now: int)
    requires DistinctKeys(desired, key)
    ensures AllRecorded(f, Creates(Start(f), desired, key, have, fails, now).failures, desired, key, have, fails, now)
  {
    if desired != [] {
      var n := |desired| - 1;
      var shorter, d := desired[..n], desired[n];
      assert desired == shorter + [d];
      KeysOfPush(shorter, d, key);
      CreatesFailures(f, shorter, key, have, fails, now);
      var before := Creates(Start(f), shorter, key, have, fails, now);
      CreateNextRecorded(f, before, d, key(d), have, fails, now);
      var g := CreateNext(before, d, key(d), key(d) in have, fails, now).failures;
      forall i | 0 <= i < n ensures Recorded(f, g, desired[i], key(desired[i]), have, fails, now) {
        RecordedElsewhere(f, before.failures, g, shorter[i], key(shorter[i]), have, fails, now);
      }
    }
  }

  /** The calls made so far go to the keys in due, and `total` entries have been counted. */
  ghost predicate Due<T>(p: Progress<T>, key: T -> string, due: set<string>, total: int) {
    Enumerates(CallKeys(p.calls, key), due) && p.tally.total == total
  }

  lemma CalledIsDue<T>(p: Progress<T>, key: T -> string, due: set<string>, total: int, c: Call<T>, failed: bool,
                       f: Failures)
    requires Due(p, key, due, total) && CallKey(c, key) !in due
    ensures Due(Called(p, c, failed, f), key, due + {CallKey(c, key)}, total + 1)
  {
    EnumerationGrows(CallKeys(p.calls, key), due, CallKey(c, key));
    CallKeysPush(p.calls, c, key);
  }

  function Missing(f: Failures, want: set<string>, have: set<string>, now: int): set<string> {
    want - have - Skipped(f, want, have, now)
  }

  lemma MissingGrows(f: Failures, want: set<string>, k: string, have: set<string>, now: int)
    requires k !in want
    ensures Missing(f, want + {k}, have, now)
            == if k in have || Waiting(f, k, now) then Missing(f, want, have, now)
               else Missing(f, want, have, now) + {k}
    ensures k !in Missing(f, want, have, now)
  {
    var before, after := Skipped(f, want, have, now), Skipped(f, want + {k}, have, now);
    SplitSkipped(want, have, before, after, k, Waiting(f, k, now));
  }

  lemma SplitSkipped(want: set<string>, have: set<string>, before: set<string>, after: set<string>, k: string,
                     waiting: bool)
    requires k !in want && before <= want && after - {k} == before && (k in after <==> k !in have && waiting)
    ensures want + {k} - have - after == want - have - before + if k in have || waiting then {} else {k}
  {}

  lemma DifferenceGrows(want: set<string>, k: string, have: set<string>)
    requires k !in want
    ensures |want + {k} - have| == |want - have| + if k in have then 0 else 1
  {
    if k in have {
      assert want + {k} - have == want - have;
    } else {
      assert want + {k} - have == want - have + {k};
    }
  }

  lemma {:induction false} CreatesCalls<T>(f: Failures, desired: seq<T>, key: T -> string, have: set<string>,
                                           fails: Call<T> -> bool, now: int)
    requires DistinctKeys(desired, key)
    ensures Due(Creates(Start(f), desired, key, have, fails, now), key,
                Missing(f, KeysOf(desired, key), have, now), |KeysOf(desired, key) - have|)
  {
    if desired == [] {
      assert KeysOf(desired, key) - have == {};
    } else {
      var shorter, d := desired[..|desired| - 1], desired[|desired| - 1];
      var k, want := key(d), KeysOf(shorter, key);
      assert desired == shorter + [d];
      KeysOfPush(shorter, d, key);
      CreatesCalls(f, shorter, key, have, fails, now);
      CreatesFailures(f, shorter, key, have, fails, now);
      var before := Creates(Start(f), shorter, key, have, fails, now);
      assert SameAt(f, before.failures, k);
      CreateNextDue(f, before, d, k, key, want, have, fails, now);
    }
  }

  lemma CreateNextDue<T>(f: Failures, p: Progress<T>, d: T, k: string, key: T -> string, want: set<string>,
                         have: set<string>,
                         fails: Call<T> -> bool, now: int)
    requires Due(p, key, Missing(f, want, have, now), |want - have|) && SameAt(f, p.failures, k)
    requires k == key(d) && k !in want
    ensures Due(CreateNext(p, d, k, k in have, fails, now), key, Missing(f, want + {k}, have, now), |want + {k} - have|)
  {
    MissingGrows(f, want, k, have, now);
    DifferenceGrows(want, k, have);
    if k !in have && !Waiting(f, k, now) {
      var failed := fails(Create(d));
      CalledIsDue(p, key, Missing(f, want, have, now), |want - have|, Create(d), failed,
                  if failed then Failed(p.failures, k, now) else Cleared(p.failures, k));
    }
  }

  lemma {:induction false} CreatesItems<T>(f: Failures, desired: seq<T>, key: T -> string, have: set<string>,
                                           fails: Call<T> -> bool, now: int)
    ensures forall c :: c in Creates(Start(f), desired, key, have, fails, now).calls ==> c.Create? && c.item in desired
  {
    if desired != [] {
      var shorter, d := desired[..|desired| - 1], desired[|desired| - 1];
      assert desired == shorter + [d];
      CreatesItems(f, shorter, key, have, fails, now);
    }
  }

  lemma {:induction false} RemovesCalls<T>(p: Progress<T>, actual: seq<string>, want: set<string>, key: T -> string,
                                           due: set<string>, total: int, fails: Call<T> -> bool)
    requires Distinct(actual) && due <= want && Due(p, key, due, total)
    ensures var r := Removes(p, actual, want, fails);
            && Due(r, key, due + (Elements(actual) - want), total + |Elements(actual) - want|)
            && r.failures == p.failures
  {
    if actual == [] {
      assert Elements(actual) - want == {} && due + {} == due;
    } else {
      var shorter, k := actual[..|actual| - 1], actual[|actual| - 1];
      RemovesCalls(p, shorter, want, key, due, total, fails);
      MembersPush(shorter, k, want);
      assert actual == shorter + [k];
      if k !in want {
        RemoveDue(Removes(p, shorter, want, fails), k, key, due, Elements(shorter) - want, total, fails);
      }
    }
  }

  lemma RemoveDue<T>(p: Progress<T>, k: string, key: T -> string, due: set<string>, extra: set<string>, total: int,
                     fails: Call<T> -> bool)
    requires Due(p, key, due + extra, total + |extra|) && k !in due && k !in extra
    ensures Due(RemoveNext(p, k, false, fails), key, due + (extra + {k}), total + |extra + {k}|)
  {
    assert due + (extra + {k}) == due + extra + {k};
    CalledIsDue(p, key, due + extra, total + |extra|, Remove(k), fails(Remove(k)), p.failures);
  }

  lemma MembersPush(shorter: seq<string>, k: string, want: set<string>)
    ensures Elements(shorter + [k]) - want
            == if k in want then Elements(shorter) - want else Elements(shorter) - want + {k}
    ensures Distinct(shorter + [k]) ==> Distinct(shorter) && k !in Elements(shorter)
  {
    var longer := shorter + [k];
    assert longer[|shorter|] == k && forall i :: 0 <= i < |shorter| ==> longer[i] == shorter[i];
  }

  lemma {:induction false} RemovesItems<T>(p: Progress<T>, actual: seq<string>, want: set<string>,
                                           fails: Call<T> -> bool)
    ensures forall c :: c in Removes(p, actual, want, fails).calls ==>
              c in p.calls || (c.Remove? && c.key in Elements(actual) - want)
  {
    if actual != [] {
      var shorter, k := actual[..|actual| - 1], actual[|actual| - 1];
      assert actual == shorter + [k];
      RemovesItems(p, shorter, want, fails);
    }
  }

  lemma {:induction false} CreatesTally<T>(f: Failures, desired: seq<T>, key: T -> string, have: set<string>,
                                           fails: Call<T> -> bool, now: int)
    ensures TallyFits(Creates(Start(f), desired, key, have, fails, now), fails)
  {
    if desired != [] {
      CreatesTally(f, desired[..|desired| - 1], key, have, fails, now);
      var before := Creates(Start(f), desired[..|desired| - 1], key, have, fails, now);
      var d := desired[|desired| - 1];
      assert (before.calls + [Create(d)])[..|before.calls|] == before.calls;
    }
  }

  lemma {:induction false} RemovesTally<T>(p: Progress<T>, actual: seq<string>, want: set<string>,
                                           fails: Call<T> -> bool)
    requires TallyFits(p, fails)
    ensures TallyFits(Removes(p, actual, want, fails), fails)
  {
    if actual != [] {
      RemovesTally(p, actual[..|actual| - 1], want, fails);
      var before := Removes(p, actual[..|actual| - 1], want, fails);
      var k := actual[|actual| - 1];
      assert (before.calls + [Remove(k)])[..|before.calls|] == before.calls;
    }
  }

  ghost predicate TallyFits<T>(p: Progress<T>, fails: Call<T> -> bool) {
    p.tally.failed == Failing(p.calls, fails) && p.tally.fixed + p.tally.failed == |p.calls|
  }

  /**
   * The calls of a pass are, each once, the keys on one side only, minus the missing ones still in
   * backoff; every one of them is counted fixed or failed, and the total counts the skipped ones too.
   */
  lemma PassAccounts<T>(f: Failures, desired: seq<T>, key: T -> string, actual: seq<string>, fails: Call<T> -> bool,
                        now: int)
    requires DistinctKeys(desired, key) && Distinct(actual)
    ensures var r := Pass(f, desired, key, actual, fails, now);
            var want, have := KeysOf(desired, key), Elements(actual);
            var skipped := Skipped(f, want, have, now);
            && Enumerates(CallKeys(r.calls, key), (want - have - skipped) + (have - want))
            && (forall c :: c in r.calls ==> if c.Create? then c.item in desired else c.key in have - want)
            && r.tally.total == |want - have| + |have - want|
            && r.tally.total == r.tally.fixed + r.tally.failed + |skipped|
            && r.tally.failed == Failing(r.calls, fails)
            && AllRecorded(f, r.failures, desired, key, have, fails, now)
  {
    var want, have := KeysOf(desired, key), Elements(actual);
    var skipped := Skipped(f, want, have, now);
    var created := Creates(Start(f), desired, key, have, fails, now);
    CreatesCalls(f, desired, key, have, fails, now);
    CreatesFailures(f, desired, key, have, fails, now);
    CreatesItems(f, desired, key, have, fails, now);
    CreatesTally(f, desired, key, have, fails, now);
    RemovesCalls(created, actual, want, key, Missing(f, want, have, now), |want - have|, fails);
    RemovesItems(created, actual, want, fails);
    RemovesTally(created, actual, want, fails);
    var r := Pass(f, desired, key, actual, fails, now);
    EnumerationSize(CallKeys(r.calls, key), (want - have - skipped) + (have - want));
    Sizes(want, have, skipped);
  }

  function KeySeq<T>(desired: seq<T>, key: T -> string): (r: seq<string>)
    ensures |r| == |desired| && forall i :: 0 <= i < |r| ==> r[i] == key(desired[i])
  {
    seq(|desired|, i requires 0 <= i < |desired| => key(desired[i]))
  }

  /** These calls go, in order, to entries of the list, creating those before `cut` and removing the others. */
  ghost predicate InListOrder<T>(calls: seq<Call<T>>, key: T -> string, list: seq<string>, cut: nat, at: seq<nat>) {
    && |at| == |calls| && (forall i, j :: 0 <= i < j < |at| ==> at[i] < at[j])
    && forall i :: 0 <= i < |at| ==>
         at[i] < |list| && CallKey(calls[i], key) == list[at[i]] && (calls[i].Create? <==> at[i] < cut)
  }

  lemma {:induction false} CreatesInOrder<T>(f: Failures, desired: seq<T>, key: T -> string, have: set<string>,
                                             fails: Call<T> -> bool, now: int) returns (at: seq<nat>)
    ensures InListOrder(Creates(Start(f), desired, key, have, fails, now).calls, key, KeySeq(desired, key),
                        |desired|, at)
  {
    at := [];
    if desired != [] {
      var shorter, d := desired[..|desired| - 1], desired[|desired| - 1];
      var p, q := Creates(Start(f), shorter, key, have, fails, now), Creates(Start(f), desired, key, have, fails, now);
      at := CreatesInOrder(f, shorter, key, have, fails, now);
      at := at + if q.calls == p.calls then [] else [|desired| - 1];
    }
  }

  lemma {:induction false} RemovesInOrder<T>(p: Progress<T>, front: seq<string>, actual: seq<string>,
                                             want: set<string>, key: T -> string, fails: Call<T> -> bool, at0: seq<nat>)
    returns (at: seq<nat>)
    requires InListOrder(p.calls, key, front, |front|, at0)
    ensures InListOrder(Removes(p, actual, want, fails).calls, key, front + actual, |front|, at)
  {
    at := at0;
    if actual != [] {
      var n := |actual| - 1;
      at := RemovesInOrder(p, front, actual[..n], want, key, fails, at0);
      assert forall i :: 0 <= i < |front| + n ==> (front + actual)[i] == (front + actual[..n])[i];
      at := at + if actual[n] in want then [] else [|front| + n];
    }
  }

  /** All creations come before all removals, each in the order in which the entries were listed. */
  lemma CallsInOrder<T>(f: Failures, desired: seq<T>, key: T -> string, actual: seq<string>, fails: Call<T> -> bool,
                        now: int) returns (at: seq<nat>)
    ensures InListOrder(Pass(f, desired, key, actual, fails, now).calls, key, KeySeq(desired, key) + actual,
                        |desired|, at)
  {
    at := CreatesInOrder(f, desired, key, Elements(actual), fails, now);
    at := RemovesInOrder(Creates(Start(f), desired, key, Elements(actual), fails, now), KeySeq(desired, key), actual,
                         KeysOf(desired, key), key, fails, at);
  }

  /**
   * When a missing entry is tried: unless it has failed before, in every pass; after n failures, in those
   * passes that run a delay after the last one or later, which is min(30 s * 2^(n-1), 600 s) for n up to 29.
   */
  lemma RetriedIff<T>(f: Failures, desired: seq<T>, key: T -> string, actual: seq<string>, fails: Call<T> -> bool,
                      now: int, k: string)
    requires DistinctKeys(desired, key) && Distinct(actual) && k in KeysOf(desired, key) && k !in actual
    ensures var tried, failed := k in CallKeys(Pass(f, desired, key, actual, fails, now).calls, key),
                                 k in f.count && f.count[k] > 0 && k in f.time;
            && (!failed ==> tried)
            && (failed ==> (tried <==> now - f.time[k] >= Delay(f.count[k])))
            && (failed && f.count[k] <= 29 ==>
                  (tried <==> now - f.time[k] >= Min(30_000_000_000 * Pow2(f.count[k] - 1), 600_000_000_000)))
  {
    PassAccounts(f, desired, key, actual, fails, now);
    if k in f.count && 0 < f.count[k] <= 29 { DelayExact(f.count[k]); }
  }

  /** What a pass leaves on record for a desired entry: that depends on whether it was there, tried and created. */
  lemma OutcomeRecorded<T>(f: Failures, desired: seq<T>, key: T -> string, actual: seq<string>,
                           fails: Call<T> -> bool, now: int, i: nat)
    requires DistinctKeys(desired, key) && Distinct(actual) && i < |desired|
    ensures var r, k := Pass(f, desired, key, actual, fails, now), key(desired[i]);
            if k in actual || (k in CallKeys(r.calls, key) && !fails(Create(desired[i])))
            then k !in r.failures.count && k !in r.failures.time
            else if k in CallKeys(r.calls, key) then
              && k in r.failures.count && r.failures.count[k] == (if k in f.count then f.count[k] else 0) + 1
              && k in r.failures.time && r.failures.time[k] == now
            else
              && k in r.failures.count && k in r.failures.time && k in f.count && k in f.time
              && r.failures.count[k] == f.count[k] && r.failures.time[k] == f.time[k]
  {
    var r, k := Pass(f, desired, key, actual, fails, now), key(desired[i]);
    PassAccounts(f, desired, key, actual, fails, now);
    assert k in KeysOf(desired, key);
    assert Recorded(f, r.failures, desired[i], k, Elements(actual), fails, now);
    if k !in actual { RetriedIff(f, desired, key, actual, fails, now, k); }
  }

  lemma Sizes(want: set<string>, have: set<string>, skipped: set<string>)
    requires skipped <= want - have
    ensures |(want - have - skipped) + (have - want)| + |skipped| == |want - have| + |have - want|
  {
    assert want - have == (want - have - skipped) + skipped;
    assert |want - have| == |want - have - skipped| + |skipped|;
  }
}
