// common/store/snapshot.go: timestamped snapshot files, of which the newest five are kept.
module Snapshots {
  import opened Wrappers
  import opened Keys

  // ---------------------------------------------------------------- string order

  /** Go's `<` on strings. */
  predicate Less(a: string, b: string) {
    b != [] && (a == [] || a[0] < b[0] || (a[0] == b[0] && Less(a[1..], b[1..])))
  }

  predicate AtMost(a: string, b: string) { a == b || Less(a, b) }

  lemma {:induction false} LessTotal(a: string, b: string)
    ensures Less(a, b) || a == b || Less(b, a)
    ensures !(Less(a, b) && Less(b, a)) && !Less(a, a)
  {
    if a != [] && b != [] {
      LessTotal(a[1..], b[1..]);
      assert a == [a[0]] + a[1..] && b == [b[0]] + b[1..];
    }
    if a != [] {
      LessTotal(a[1..], a[1..]);
    }
  }

  lemma {:induction false} LessTransitive(a: string, b: string, c: string)
    requires Less(a, b) && Less(b, c)
    ensures Less(a, c)
  {
    if a != [] && a[0] == b[0] == c[0] {
      LessTransitive(a[1..], b[1..], c[1..]);
    }
  }

  // ---------------------------------------------------------------- sortFiles

  ghost predicate Sorted(s: seq<string>) {
    forall i, j :: 0 <= i < j < |s| ==> AtMost(s[i], s[j])
  }

  /** s[i] is no larger than anything from i up to hi. */
  ghost predicate LeastFrom(s: seq<string>, i: nat, hi: nat)
    requires i < hi <= |s|
  {
    forall k :: i <= k < hi ==> AtMost(s[i], s[k])
  }

  /** The first n elements are in place. */
  ghost predicate Placed(s: seq<string>, n: nat)
    requires n <= |s|
  {
    forall i, k :: 0 <= i < n && i <= k < |s| ==> AtMost(s[i], s[k])
  }

  function Swapped<T>(s: seq<T>, i: nat, j: nat): (r: seq<T>)
    requires i < |s| && j < |s|
    ensures |r| == |s|
  {
    s[i := s[j]][j := s[i]]
  }

  lemma SwapIsPermutation<T>(s: seq<T>, i: nat, j: nat)
    requires i < |s| && j < |s|
    ensures multiset(Swapped(s, i, j)) == multiset(s)
  {}

  lemma SwapKeepsOrder(s: seq<string>, i: nat, j: nat)
    requires i < j < |s| && Placed(s, i) && LeastFrom(s, i, j) && Less(s[j], s[i])
    ensures Placed(Swapped(s, i, j), i) && LeastFrom(Swapped(s, i, j), i, j + 1)
  {
    var r := Swapped(s, i, j);
    forall k | i <= k < j + 1 ensures AtMost(r[i], r[k]) {
      if i < k < j && s[i] != s[k] { LessTransitive(s[j], s[i], s[k]); }
    }
  }

  /** The in-place exchange sort: a sorted permutation. */
  method SortFiles(files: array<string>)
    modifies files
    ensures Sorted(files[..]) && multiset(files[..]) == multiset(old(files[..]))
  {
    for i := 0 to files.Length
      invariant Placed(files[..], i)
      invariant multiset(files[..]) == multiset(old(files[..]))
    {
      for j := i + 1 to files.Length
        invariant Placed(files[..], i) && LeastFrom(files[..], i, j)
        invariant multiset(files[..]) == multiset(old(files[..]))
      {
        LessTotal(files[i], files[j]);
        if Less(files[j], files[i]) {
          ghost var s := files[..];
          SwapKeepsOrder(s, i, j);
          SwapIsPermutation(s, i, j);
          files[i], files[j] := files[j], files[i];
          assert files[..] == Swapped(s, i, j);
        }
      }
    }
  }

  // ---------------------------------------------------------------- file names

  function FileName(timestamp: nat): string { FormatNat(timestamp) + ".json" }

  function DigitRun(s: string): (n: nat)
    ensures n <= |s| && AllDigits(s[..n])
  {
    if s == [] || !('0' <= s[0] <= '9') then 0
    else
      var rest := DigitRun(s[1..]);
      assert forall i :: 0 <= i < rest + 1 ==> s[i] == if i == 0 then s[0] else s[1..][..rest][i - 1];
      rest + 1
  }

  /** Sscanf("%d.json") with its error ignored: the leading number, or 0. */
  function FileTime(name: string): int {
    match ParseNat(name[..DigitRun(name)])
    case Some(n) => n
    case None => 0
  }

  lemma {:induction false} DigitRunStops(digits: string, rest: string)
    requires AllDigits(digits) && (rest == [] || !('0' <= rest[0] <= '9'))
    ensures DigitRun(digits + rest) == |digits|
  {
    if digits == [] {
      assert digits + rest == rest;
    } else {
      DigitRunStops(digits[1..], rest);
      assert (digits + rest)[1..] == digits[1..] + rest;
    }
  }

  lemma FileTimeOfName(t: nat)
    ensures FileTime(FileName(t)) == t
  {
    DigitRunStops(FormatNat(t), ".json");
    assert FileName(t)[..|FormatNat(t)|] == FormatNat(t);
    ParseFormatNat(t);
  }

  /** A file is named after its millisecond. */
  lemma FileNameSpelled()
    ensures FileName(1720) == "1720.json" && FileTime("1720.json") == 1720
  {
    assert FormatNat(17) == FormatNat(1) + "7";
    assert FormatNat(172) == FormatNat(17) + "2";
    assert FormatNat(1720) == FormatNat(172) + "0";
    FileTimeOfName(1720);
  }

  lemma FileNameInjective(t: nat, u: nat)
    requires FileName(t) == FileName(u)
    ensures t == u
  {
    FileTimeOfName(t);
    FileTimeOfName(u);
  }

  lemma {:induction false} LessExtends(a: string, b: string, x: string, y: string)
    requires |a| == |b| && Less(a, b)
    ensures Less(a + x, b + y)
  {
    assert (a + x)[0] == a[0] && (b + y)[0] == b[0];
    if a[0] == b[0] {
      LessExtends(a[1..], b[1..], x, y);
      assert (a + x)[1..] == a[1..] + x && (b + y)[1..] == b[1..] + y;
    }
  }

  lemma {:induction false} LessBySuffix(p: string, a: string, b: string)
    requires Less(a, b)
    ensures Less(p + a, p + b)
  {
    if p == [] {
      assert p + a == a && p + b == b;
    } else {
      LessBySuffix(p[1..], a, b);
      assert (p + a)[0] == (p + b)[0] == p[0];
      assert (p + a)[1..] == p[1..] + a && (p + b)[1..] == p[1..] + b;
    }
  }

  /** Numbers of equal print length are ordered as their digits. */
  lemma {:induction false} SameLengthOrder(t: nat, u: nat)
    requires t < u && |FormatNat(t)| == |FormatNat(u)|
    ensures Less(FormatNat(t), FormatNat(u))
  {
    var lastT, lastU := [(t % 10) as char + '0'], [(u % 10) as char + '0'];
    if t >= 10 {
      if t / 10 == u / 10 {
        LessBySuffix(FormatNat(t / 10), lastT, lastU);
      } else {
        SameLengthOrder(t / 10, u / 10);
        LessExtends(FormatNat(t / 10), FormatNat(u / 10), lastT, lastU);
      }
    }
  }

  lemma FileNameOrder(t: nat, u: nat)
    requires t < u && |FormatNat(t)| == |FormatNat(u)|
    ensures Less(FileName(t), FileName(u))
  {
    SameLengthOrder(t, u);
    LessExtends(FormatNat(t), FormatNat(u), ".json", ".json");
  }

  // ---------------------------------------------------------------- the store

  datatype Snapshot<S> = Snapshot(timestamp: nat, sequence: int, state: S)

  const KEEP: nat := 5

  /** `after` keeps the `keep` largest names of `before`, or all of them when there are fewer. */
  ghost predicate KeepsLargest<T>(before: set<T>, after: set<T>, keep: nat, less: (T, T) -> bool) {
    && after <= before
    && |after| == (if |before| < keep then |before| else keep)
    && forall a, b :: a in after && b in before && b !in after ==> less(b, a)
  }

  class SnapshotStore<S> {
    var disk: map<string, Snapshot<S>>    // the *.json files of the directory
    var latest: Option<Snapshot<S>>
    var attempts: nat                     // calls of Save

    /** NewSnapshotStore over an existing directory. */
    constructor (disk: map<string, Snapshot<S>>)
      ensures this.disk == disk && attempts == 0 && IsLatest(disk, latest)
    {
      this.disk, latest, attempts := disk, None, 0;
      new;
      LoadLatest();
    }

    /** A running maximum over the file names; names without a positive time are passed over. */
    method LoadLatest()
      requires latest == None
      modifies this`latest
      ensures IsLatest(disk, latest)
    {
      var latestFile, latestTime := "", 0;
      var todo := disk.Keys;
      while todo != {}
        invariant todo <= disk.Keys && latest == None
        invariant latestTime > 0 ==> latestFile in disk && FileTime(latestFile) == latestTime
        invariant latestTime >= 0
        invariant forall f :: f in disk && f !in todo ==> FileTime(f) <= latestTime
      {
        var file := Pick(todo);
        if FileTime(file) > latestTime {
          latestTime, latestFile := FileTime(file), file;
        }
        todo := todo - {file};
      }
      if latestTime > 0 {
        latest := Some(disk[latestFile]);
      }
    }

    /** filepath.Glob: the names in some order. */
    method Glob() returns (files: array<string>)
      ensures fresh(files) && Enumerates(files[..], disk.Keys)
    {
      files := new string[|disk.Keys|];
      var todo, i := disk.Keys, 0;
      while todo != {}
        invariant todo <= disk.Keys && i + |todo| == files.Length
        invariant Enumerates(files[..i], disk.Keys - todo)
      {
        var name := Pick(todo);
        files[i] := name;
        assert files[..i + 1] == files[..i] + [name];
        EnumerationGrows(files[..i], disk.Keys - todo, name);
        assert disk.Keys - (todo - {name}) == (disk.Keys - todo) + {name};
        todo, i := todo - {name}, i + 1;
      }
      assert disk.Keys - todo == disk.Keys;
      assert files[..] == files[..i];
    }

    method CleanupOldSnapshots(keep: nat)
      modifies this`disk
      ensures KeepsLargest(old(disk).Keys, disk.Keys, keep, Less)
      ensures forall k :: k in disk ==> disk[k] == old(disk)[k]
    {
      var files := Glob();
      ghost var listed := files[..];
      EnumerationSize(listed, disk.Keys);
      if files.Length <= keep {
        return;
      }
      SortFiles(files);
      ghost var sorted, cut := files[..], files.Length - keep;
      SameListing(listed, sorted, disk.Keys);
      RemoveOldest(files, files.Length - keep);
      assert disk.Keys == old(disk).Keys - Elements(sorted[..cut]);
      KeptSuffix(sorted, old(disk).Keys, cut, disk.Keys);
    }

    method RemoveOldest(files: array<string>, count: nat)
      requires count <= files.Length
      modifies this`disk
      ensures disk == old(disk) - Elements(files[..count])
    {
      for i := 0 to count
        invariant disk == old(disk) - Elements(files[..i])
      {
        assert Elements(files[..i + 1]) == Elements(files[..i]) + {files[i]};
        disk := disk - {files[i]};
      }
    }

    /** Save under the current millisecond; `ok` is false when writing the file fails. */
    method Save(state: S, sequence: int, now: nat, ok: bool) returns (saved: bool)
      modifies this
      ensures saved == ok && attempts == old(attempts) + 1
      ensures !ok ==> disk == old(disk) && latest == old(latest)
      ensures ok ==> var s := Snapshot(now, sequence, state);
                     && latest == Some(s)
                     && SavedDisk(old(disk), disk, s)
      ensures ok && WellNamed(old(disk)) ==> WellNamed(disk)
      ensures ok && WellNamed(old(disk)) && ClockAhead(old(disk), now) ==>
                FileName(now) in disk && IsLatest(disk, latest)
    {
      attempts := attempts + 1;
      if !ok {
        return false;
      }
      var snapshot := Snapshot(now, sequence, state);
      disk := disk[FileName(now) := snapshot];
      latest := Some(snapshot);
      CleanupOldSnapshots(KEEP);
      if WellNamed(old(disk)) {
        SaveWellNamed(old(disk), disk, snapshot);
        if ClockAhead(old(disk), now) { AheadIsFound(old(disk), disk, snapshot); }
      }
      return true;
    }
  }

  /** Every file carries the name its snapshot's time gives it. */
  ghost predicate WellNamed<S>(disk: map<string, Snapshot<S>>) {
    forall f :: f in disk ==> f == FileName(disk[f].timestamp)
  }

  /** The clock is past everything on disk, in value and in the order of names. */
  ghost predicate ClockAhead<S>(disk: map<string, Snapshot<S>>, now: nat) {
    now > 0 && forall f :: f in disk ==> Less(f, FileName(now)) && disk[f].timestamp <= now
  }

  /** What loadLatest leaves: a file of maximal positive time, or nothing when there is none. */
  ghost predicate IsLatest<S>(disk: map<string, Snapshot<S>>, latest: Option<Snapshot<S>>) {
    match latest
    case None => forall f :: f in disk ==> FileTime(f) <= 0
    case Some(s) => exists f :: f in disk && disk[f] == s && FileTime(f) > 0
                                && forall g :: g in disk ==> FileTime(g) <= FileTime(f)
  }

  ghost predicate SavedDisk<S>(before: map<string, Snapshot<S>>, after: map<string, Snapshot<S>>, s: Snapshot<S>) {
    var written := before[FileName(s.timestamp) := s];
    && KeepsLargest(written.Keys, after.Keys, KEEP, Less)
    && forall k :: k in after ==> after[k] == written[k]
  }

  /** A permutation of a listing without repetitions is another one. */
  lemma SameListing<T(!new)>(q: seq<T>, r: seq<T>, s: set<T>)
    requires Enumerates(q, s) && multiset(r) == multiset(q)
    ensures Enumerates(r, s) && |r| == |q|
  {
    assert |multiset(q)| == |q| && |multiset(r)| == |r|;
    forall x ensures x in r <==> x in s {
      assert x in r <==> x in multiset(r);
      assert x in q <==> x in multiset(q);
    }
    forall i, j | 0 <= i < j < |r| ensures r[i] != r[j] {
      assert r == r[..i] + [r[i]] + r[i + 1..j] + [r[j]] + r[j + 1..];
      CountsOnce(q, r[i]);
    }
  }

  lemma {:induction false} CountsOnce<T(!new)>(q: seq<T>, x: T)
    requires forall i, j :: 0 <= i < j < |q| ==> q[i] != q[j]
    ensures multiset(q)[x] <= 1
  {
    if q != [] {
      assert q == [q[0]] + q[1..];
      CountsOnce(q[1..], x);
      assert q[0] !in q[1..];
    }
  }

  lemma KeptSuffix(sorted: seq<string>, before: set<string>, cut: nat, after: set<string>)
    requires cut <= |sorted| && Sorted(sorted)
    requires Enumerates(sorted, before)
    requires after == before - Elements(sorted[..cut])
    ensures KeepsLargest(before, after, |sorted| - cut, Less)
  {
    forall x ensures x in sorted[cut..] <==> x in after {
      if x in after {
        var i :| 0 <= i < |sorted| && sorted[i] == x;
        assert i >= cut && sorted[cut..][i - cut] == x;
      }
      if x in sorted[cut..] {
        var i :| 0 <= i < |sorted| - cut && sorted[cut..][i] == x;
        assert sorted[cut + i] == x;
      }
    }
    EnumerationSize(sorted[cut..], after);
    EnumerationSize(sorted, before);
    forall a, b | a in after && b in before && b !in after ensures Less(b, a) {
      var i :| 0 <= i < |sorted| && sorted[i] == a;
      var j :| 0 <= j < |sorted| && sorted[j] == b;
      assert i >= cut && j < cut;
    }
  }

  // ---------------------------------------------------------------- retention over any number of saves

  function Newest<T>(names: seq<T>, k: nat): seq<T> {
    if |names| <= k then names else names[|names| - k..]
  }

  ghost predicate Ascending<T>(names: seq<T>, less: (T, T) -> bool) {
    forall i, j :: 0 <= i < j < |names| ==> less(names[i], names[j])
  }

  /** A strict order, as Less is. */
  ghost predicate Strict<T(!new)>(less: (T, T) -> bool) {
    forall a, b :: !(less(a, b) && less(b, a))
  }

  lemma LessStrict()
    ensures Strict(Less)
  {
    forall a, b ensures !(Less(a, b) && Less(b, a)) {
      LessTotal(a, b);
    }
  }

  lemma AscendingDistinct<T(!new)>(names: seq<T>, less: (T, T) -> bool)
    requires Strict(less) && Ascending(names, less)
    ensures |Elements(names)| == |names|
  {
    EnumerationSize(names, Elements(names));
  }

  lemma SomeDropped<T>(before: set<T>, after: set<T>) returns (b: T)
    requires after <= before && |after| < |before|
    ensures b in before && b !in after
  {
    assert |before - after| == |before| - |after|;
    b :| b in before - after;
  }

  lemma SubsetSizes<T>(a: set<T>, b: set<T>)
    requires a <= b
    ensures |a| <= |b| && (|a| == |b| ==> a == b)
  {
    assert |b - a| == |b| - |a|;
  }

  /** A name among the last `keep` cannot be missing: everything kept would have to come after it. */
  lemma NewestKept<T(!new)>(names: seq<T>, kept: set<T>, keep: nat, less: (T, T) -> bool, i: nat)
    requires Strict(less) && Ascending(names, less) && KeepsLargest(Elements(names), kept, keep, less)
    requires |names| - keep <= i < |names|
    ensures names[i] in kept
  {
    AscendingDistinct(names, less);
    assert forall j :: 0 <= j < i ==> less(names[j], names[i]);
    if names[i] !in kept {
      assert forall a :: a in kept ==> less(names[i], a);
      var later := names[i + 1..];
      forall a | a in kept ensures a in Elements(later) {
        var j :| 0 <= j < |names| && names[j] == a;
        assert j > i;
        assert later[j - i - 1] == a;
      }
      AscendingDistinct(later, less);
      SubsetSizes(kept, Elements(later));
    }
  }

  /** Of ascending names the largest are the last ones. */
  lemma LargestAreNewest<T(!new)>(names: seq<T>, kept: set<T>, keep: nat, less: (T, T) -> bool)
    requires Strict(less) && Ascending(names, less) && KeepsLargest(Elements(names), kept, keep, less)
    ensures kept == Elements(Newest(names, keep))
  {
    var newest := Newest(names, keep);
    forall x | x in Elements(newest) ensures x in kept {
      var i :| 0 <= i < |newest| && newest[i] == x;
      NewestKept(names, kept, keep, less, |names| - |newest| + i);
    }
    AscendingDistinct(names, less);
    AscendingDistinct(newest, less);
    SubsetSizes(Elements(newest), kept);
  }

  lemma AscendingSuffix<T>(names: seq<T>, suffix: seq<T>, less: (T, T) -> bool)
    requires Ascending(names, less) && |suffix| <= |names| && suffix == names[|names| - |suffix|..]
    ensures Ascending(suffix, less)
  {}

  lemma PushNewest<T(!new)>(names: seq<T>, name: T, kept: set<T>, keep: nat, less: (T, T) -> bool)
    requires Strict(less) && Ascending(names + [name], less)
    requires KeepsLargest(Elements(Newest(names, keep)) + {name}, kept, keep, less)
    ensures kept == Elements(Newest(names + [name], keep))
  {
    var recent := Newest(names, keep) + [name];
    AscendingSuffix(names + [name], recent, less);
    assert Elements(recent) == Elements(Newest(names, keep)) + {name};
    LargestAreNewest(recent, kept, keep, less);
    assert Newest(recent, keep) == Newest(names + [name], keep);
  }

  /** One more Save under a larger name: the directory moves from the newest five to the newest five. */
  lemma SaveKeepsNewest<S>(before: map<string, Snapshot<S>>, after: map<string, Snapshot<S>>, names: seq<string>,
                           s: Snapshot<S>)
    requires Ascending(names + [FileName(s.timestamp)], Less) && before.Keys == Elements(Newest(names, KEEP))
    requires SavedDisk(before, after, s)
    ensures after.Keys == Elements(Newest(names + [FileName(s.timestamp)], KEEP))
  {
    var name := FileName(s.timestamp);
    assert before[name := s].Keys == before.Keys + {name};
    LessStrict();
    PushNewest(names, name, after.Keys, KEEP, Less);
  }

  /** Times in milliseconds, later ones larger, all printed with equally many digits. */
  ghost predicate SteadyClock<S>(saves: seq<Snapshot<S>>) {
    && (forall i, j :: 0 <= i < j < |saves| ==> saves[i].timestamp < saves[j].timestamp)
    && (forall i, j :: 0 <= i < j < |saves| ==> |FormatNat(saves[i].timestamp)| == |FormatNat(saves[j].timestamp)|)
    && (forall i :: 0 <= i < |saves| ==> saves[i].timestamp > 0)
  }

  function FileNames<S>(saves: seq<Snapshot<S>>): (names: seq<string>)
    ensures |names| == |saves| && forall i :: 0 <= i < |saves| ==> names[i] == FileName(saves[i].timestamp)
  {
    seq(|saves|, i requires 0 <= i < |saves| => FileName(saves[i].timestamp))
  }

  lemma SteadyAscending<S>(saves: seq<Snapshot<S>>)
    requires SteadyClock(saves)
    ensures Ascending(FileNames(saves), Less)
  {
    forall i, j | 0 <= i < j < |saves| ensures Less(FileNames(saves)[i], FileNames(saves)[j]) {
      FileNameOrder(saves[i].timestamp, saves[j].timestamp);
    }
  }

  ghost predicate IsSaveRun<S>(disks: seq<map<string, Snapshot<S>>>, saves: seq<Snapshot<S>>) {
    && |disks| == |saves| + 1 && disks[0] == map[]
    && forall i :: 0 <= i < |saves| ==> SavedDisk(disks[i], disks[i + 1], saves[i])
  }

  /** Every file on disk is one of the saves, with that save's contents. */
  ghost predicate HoldsSaves<S>(disk: map<string, Snapshot<S>>, saves: seq<Snapshot<S>>) {
    forall f :: f in disk ==> exists i :: 0 <= i < |saves| && f == FileNames(saves)[i] && disk[f] == saves[i]
  }

  /**
   * After any number of saves on a steady clock the directory holds exactly the newest min(n, 5)
   * snapshots with their contents.
   */
  lemma {:induction false} Retention<S>(disks: seq<map<string, Snapshot<S>>>, saves: seq<Snapshot<S>>)
    requires IsSaveRun(disks, saves) && SteadyClock(saves)
    ensures disks[|saves|].Keys == Elements(Newest(FileNames(saves), KEEP))
    ensures HoldsSaves(disks[|saves|], saves)
  {
    if saves != [] {
      var n := |saves| - 1;
      var names := FileNames(saves);
      Retention(disks[..n + 1], saves[..n]);
      assert FileNames(saves[..n]) == names[..n] && names == names[..n] + [FileName(saves[n].timestamp)];
      SteadyAscending(saves);
      SaveKeepsNewest(disks[n], disks[n + 1], names[..n], saves[n]);
      SaveHoldsSaves(disks[n], disks[n + 1], saves);
    }
  }

  lemma SaveHoldsSaves<S>(before: map<string, Snapshot<S>>, after: map<string, Snapshot<S>>, saves: seq<Snapshot<S>>)
    requires saves != [] && HoldsSaves(before, saves[..|saves| - 1])
    requires SavedDisk(before, after, saves[|saves| - 1])
    ensures HoldsSaves(after, saves)
  {
    var n := |saves| - 1;
    forall f: string | f in after
      ensures exists i :: 0 <= i < |saves| && f == FileNames(saves)[i] && after[f] == saves[i]
    {
      if f == FileNames(saves)[n] {
        assert after[f] == saves[n];
      } else {
        assert f in before && after[f] == before[f];
        var i :| 0 <= i < n && f == FileNames(saves[..n])[i] && before[f] == saves[..n][i];
        assert f == FileNames(saves)[i] && after[f] == saves[i];
      }
    }
  }

  /** A store opened on that directory starts from the last snapshot saved. */
  lemma ReloadFindsLast<S>(disks: seq<map<string, Snapshot<S>>>, saves: seq<Snapshot<S>>, latest: Option<Snapshot<S>>)
    requires IsSaveRun(disks, saves) && SteadyClock(saves) && saves != []
    requires IsLatest(disks[|saves|], latest)
    ensures latest == Some(saves[|saves| - 1])
  {
    var disk, names, last := disks[|saves|], FileNames(saves), saves[|saves| - 1];
    Retention(disks, saves);
    var newest := Newest(names, KEEP);
    assert newest[|newest| - 1] == names[|names| - 1];
    assert names[|names| - 1] in Elements(newest);
    MaximalFile(disk, saves, latest);
  }

  lemma MaximalFile<S>(disk: map<string, Snapshot<S>>, saves: seq<Snapshot<S>>, latest: Option<Snapshot<S>>)
    requires forall i, j :: 0 <= i < j < |saves| ==> saves[i].timestamp < saves[j].timestamp
    requires saves != [] && saves[|saves| - 1].timestamp > 0 && HoldsSaves(disk, saves) && IsLatest(disk, latest)
    requires FileNames(saves)[|saves| - 1] in disk
    ensures latest == Some(saves[|saves| - 1])
  {
    var names := FileNames(saves);
    forall i | 0 <= i < |saves| ensures FileTime(names[i]) == saves[i].timestamp {
      FileTimeOfName(saves[i].timestamp);
    }
    var f :| f in disk && disk[f] == latest.value && FileTime(f) > 0
             && forall g :: g in disk ==> FileTime(g) <= FileTime(f);
    MaximalByTime(disk, saves, names, FileTime, f);
  }

  lemma MaximalByTime<S>(disk: map<string, Snapshot<S>>, saves: seq<Snapshot<S>>, names: seq<string>,
                         time: string -> int, f: string)
    requires saves != [] && |names| == |saves| && f in disk && names[|saves| - 1] in disk
    requires forall i, j :: 0 <= i < j < |saves| ==> saves[i].timestamp < saves[j].timestamp
    requires forall i :: 0 <= i < |saves| ==> time(names[i]) == saves[i].timestamp
    requires exists i :: 0 <= i < |saves| && f == names[i] && disk[f] == saves[i]
    requires time(names[|saves| - 1]) <= time(f)
    ensures disk[f] == saves[|saves| - 1]
  {
    var i :| 0 <= i < |saves| && f == names[i] && disk[f] == saves[i];
  }

  // ---------------------------------------------------------------- retention on any clock

  /** The names that sort after x. */
  ghost function Above<T>(names: set<T>, x: T, less: (T, T) -> bool): set<T> {
    set f | f in names && less(x, f)
  }

  /** A name survives exactly when fewer than `keep` names sort after it. */
  lemma KeptIff<T(!new)>(before: set<T>, after: set<T>, keep: nat, less: (T, T) -> bool, x: T)
    requires Strict(less) && KeepsLargest(before, after, keep, less) && x in before
    ensures x in after <==> |Above(before, x, less)| < keep
  {
    var above := Above(before, x, less);
    if x in after {
      forall f | f in above ensures f in after {
        assert !(less(f, x) && less(x, f));
      }
      assert !less(x, x);
      SubsetSizes(above + {x}, after);
    } else {
      assert forall a :: a in after ==> less(x, a);
      SubsetSizes(after, above);
      SubsetSizes(after, before);
    }
  }

  /** Save keeps the file it has just written exactly when fewer than five others on disk sort after it. */
  lemma SaveKeepsOwnIff<S>(before: map<string, Snapshot<S>>, after: map<string, Snapshot<S>>, s: Snapshot<S>)
    requires SavedDisk(before, after, s)
    ensures var name := FileName(s.timestamp);
            && (name in after <==> |Above(before.Keys, name, Less)| < 5)
            && (name in after ==> after[name] == s)
  {
    var name := FileName(s.timestamp);
    LessStrict();
    assert before[name := s].Keys == before.Keys + {name};
    KeptIff(before.Keys + {name}, after.Keys, KEEP, Less, name);
    assert !Less(name, name);
    assert Above(before.Keys + {name}, name, Less) == Above(before.Keys, name, Less);
  }

  ghost predicate Transitive<T(!new)>(less: (T, T) -> bool) {
    forall a, b, c :: less(a, b) && less(b, c) ==> less(a, c)
  }

  /** Keeping the largest again after every new name keeps the largest of all names. */
  lemma KeepsLargestOfAll<T(!new)>(all: set<T>, kept: set<T>, name: T, next: set<T>, keep: nat, less: (T, T) -> bool)
    requires Strict(less) && Transitive(less)
    requires KeepsLargest(all, kept, keep, less) && KeepsLargest(kept + {name}, next, keep, less)
    ensures KeepsLargest(all + {name}, next, keep, less)
  {
    SubsetSizes(kept, all);
    SubsetSizes(kept, kept + {name});
    SubsetSizes(all, all + {name});
    assert |all| < keep ==> kept == all;
    forall a, b | a in next && b in all + {name} && b !in next ensures less(b, a) {
      if b !in kept + {name} && a !in kept {
        var c := SomeDropped(kept + {name}, next);
        assert less(c, a) && c != name;
        assert less(b, c);
      }
    }
  }

  lemma LessIsTransitive()
    ensures Transitive(Less)
  {
    forall a, b, c | Less(a, b) && Less(b, c) ensures Less(a, c) { LessTransitive(a, b, c); }
  }

  /** Each file holds the last snapshot saved under its name. */
  ghost predicate HoldsLast<S>(disk: map<string, Snapshot<S>>, saves: seq<Snapshot<S>>) {
    forall f :: f in disk ==> exists i :: IsLastSave(saves, f, i) && disk[f] == saves[i]
  }

  ghost predicate IsLastSave<S>(saves: seq<Snapshot<S>>, f: string, i: int) {
    && 0 <= i < |saves| && FileName(saves[i].timestamp) == f
    && forall j :: i < j < |saves| ==> FileName(saves[j].timestamp) != f
  }

  lemma {:induction false} LargestOfAllNames<S>(disks: seq<map<string, Snapshot<S>>>, saves: seq<Snapshot<S>>)
    requires IsSaveRun(disks, saves)
    ensures KeepsLargest(Elements(FileNames(saves)), disks[|saves|].Keys, KEEP, Less)
  {
    if saves != [] {
      var n := |saves| - 1;
      LargestOfAllNames(disks[..n + 1], saves[..n]);
      SaveKeepsLargest(disks[n], disks[n + 1], FileNames(saves[..n]), saves[n]);
      FileNamesPush(saves);
    }
  }

  lemma FileNamesPush<S>(saves: seq<Snapshot<S>>)
    requires saves != []
    ensures FileNames(saves) == FileNames(saves[..|saves| - 1]) + [FileName(saves[|saves| - 1].timestamp)]
  {}

  lemma SaveKeepsLargest<S>(before: map<string, Snapshot<S>>, after: map<string, Snapshot<S>>, names: seq<string>,
                            s: Snapshot<S>)
    requires KeepsLargest(Elements(names), before.Keys, KEEP, Less) && SavedDisk(before, after, s)
    ensures KeepsLargest(Elements(names + [FileName(s.timestamp)]), after.Keys, KEEP, Less)
  {
    var name := FileName(s.timestamp);
    assert Elements(names + [name]) == Elements(names) + {name};
    assert before[name := s].Keys == before.Keys + {name};
    LessStrict();
    LessIsTransitive();
    KeepsLargestOfAll(Elements(names), before.Keys, name, after.Keys, KEEP, Less);
  }

  lemma {:induction false} LastSavesHeld<S>(disks: seq<map<string, Snapshot<S>>>, saves: seq<Snapshot<S>>)
    requires IsSaveRun(disks, saves)
    ensures HoldsLast(disks[|saves|], saves) && WellNamed(disks[|saves|])
  {
    if saves != [] {
      var n := |saves| - 1;
      LastSavesHeld(disks[..n + 1], saves[..n]);
      SaveHoldsLast(disks[n], disks[n + 1], saves);
    }
  }

  /**
   * On any clock, after any number of saves, the directory holds the five largest of all names ever
   * used, each with the last snapshot saved under it.
   */
  lemma RetentionByName<S>(disks: seq<map<string, Snapshot<S>>>, saves: seq<Snapshot<S>>)
    requires IsSaveRun(disks, saves)
    ensures KeepsLargest(Elements(FileNames(saves)), disks[|saves|].Keys, KEEP, Less)
    ensures HoldsLast(disks[|saves|], saves) && WellNamed(disks[|saves|])
  {
    LargestOfAllNames(disks, saves);
    LastSavesHeld(disks, saves);
  }

  lemma SaveHoldsLast<S>(before: map<string, Snapshot<S>>, after: map<string, Snapshot<S>>, saves: seq<Snapshot<S>>)
    requires saves != [] && HoldsLast(before, saves[..|saves| - 1]) && WellNamed(before)
    requires SavedDisk(before, after, saves[|saves| - 1])
    ensures HoldsLast(after, saves) && WellNamed(after)
  {
    forall f: string | f in after
      ensures f == FileName(after[f].timestamp) && exists i :: IsLastSave(saves, f, i) && after[f] == saves[i]
    {
      FileHeld(before, after, saves, f);
    }
  }

  lemma FileHeld<S>(before: map<string, Snapshot<S>>, after: map<string, Snapshot<S>>, saves: seq<Snapshot<S>>,
                    f: string)
    requires saves != [] && HoldsLast(before, saves[..|saves| - 1]) && WellNamed(before)
    requires SavedDisk(before, after, saves[|saves| - 1]) && f in after
    ensures f == FileName(after[f].timestamp) && exists i :: IsLastSave(saves, f, i) && after[f] == saves[i]
  {
    var n := |saves| - 1;
    var name := FileName(saves[n].timestamp);
    assert after[f] == if f == name then saves[n] else before[f];
    if f == name {
      assert IsLastSave(saves, f, n);
    } else {
      var i :| IsLastSave(saves[..n], f, i) && before[f] == saves[..n][i];
      LaterSaveElsewhere(saves, f, i);
    }
  }

  lemma LaterSaveElsewhere<S>(saves: seq<Snapshot<S>>, f: string, i: int)
    requires saves != [] && IsLastSave(saves[..|saves| - 1], f, i) && FileName(saves[|saves| - 1].timestamp) != f
    ensures IsLastSave(saves, f, i)
  {
    forall j | i < j < |saves| ensures FileName(saves[j].timestamp) != f {
      assert j < |saves| - 1 ==> saves[j] == saves[..|saves| - 1][j];
    }
  }

  /** Two ways of keeping the largest agree. */
  lemma LargestUnique<T(!new)>(all: set<T>, a: set<T>, b: set<T>, keep: nat, less: (T, T) -> bool)
    requires Strict(less) && KeepsLargest(all, a, keep, less) && KeepsLargest(all, b, keep, less)
    ensures a == b
  {
    var onlyA, onlyB := a - b, b - a;
    forall x, y | x in onlyA && y in onlyB ensures less(y, x) && less(x, y) {}
    assert onlyA == {} || onlyB == {};
    assert a == a * b + onlyA && b == a * b + onlyB;
    assert |onlyA| == |onlyB|;
  }

  ghost predicate Distinct<T(!new)>(q: seq<T>) { forall i, j :: 0 <= i < j < |q| ==> q[i] != q[j] }

  lemma {:induction false} DistinctIff<T(!new)>(q: seq<T>)
    ensures |Elements(q)| <= |q|
    ensures |Elements(q)| == |q| <==> Distinct(q)
  {
    if q != [] {
      var shorter, last := q[..|q| - 1], q[|q| - 1];
      DistinctIff(shorter);
      assert Elements(q) == Elements(shorter) + {last};
      assert last in Elements(shorter) <==> exists i :: 0 <= i < |q| - 1 && q[i] == last;
    }
  }

  /** An older name sorts before every one of the newest, unless it is one of them. */
  ghost predicate OlderSortBefore<T>(names: seq<T>, keep: nat, less: (T, T) -> bool) {
    forall i, j :: 0 <= i < |names| - keep <= j < |names| ==>
      less(names[i], names[j]) || names[i] in Newest(names, keep)
  }

  lemma NewestLargestIff<T(!new)>(names: seq<T>, keep: nat, less: (T, T) -> bool)
    requires Distinct(Newest(names, keep))
    ensures KeepsLargest(Elements(names), Elements(Newest(names, keep)), keep, less)
            <==> OlderSortBefore(names, keep, less)
  {
    var recent := Newest(names, keep);
    DistinctIff(recent);
    SubsetSizes(Elements(recent), Elements(names));
    NewestAt(names, keep);
    if OlderSortBefore(names, keep, less) {
      forall a, b | a in Elements(recent) && b in Elements(names) && b !in Elements(recent) ensures less(b, a) {
        var i :| 0 <= i < |names| && names[i] == b;
        var j :| 0 <= j < |names| && |names| - keep <= j && names[j] == a;
      }
    }
  }

  lemma NewestAt<T(!new)>(names: seq<T>, keep: nat)
    ensures forall x :: x in Newest(names, keep) <==>
              exists j :: 0 <= j < |names| && |names| - keep <= j && names[j] == x
  {
    var recent := Newest(names, keep);
    forall j | 0 <= j < |names| && |names| - keep <= j ensures names[j] in recent {
      assert names[j] == recent[j - (|names| - |recent|)];
    }
    forall x | x in recent ensures exists j :: 0 <= j < |names| && |names| - keep <= j && names[j] == x {
      var k :| 0 <= k < |recent| && recent[k] == x;
      assert names[k + |names| - |recent|] == x;
    }
  }

  /** The newest snapshots are on disk, each in a file of its own, and nothing else is. */
  ghost predicate HoldsNewest<S(!new)>(disk: map<string, Snapshot<S>>, saves: seq<Snapshot<S>>) {
    var recent := Newest(saves, KEEP);
    && |disk| == |recent| && disk.Keys == Elements(FileNames(recent))
    && forall s :: s in recent ==> FileName(s.timestamp) in disk && disk[FileName(s.timestamp)] == s
  }

  /**
   * The directory holds exactly the newest five snapshots precisely when these were saved under
   * different names and every older name sorts before theirs or is one of them. A clock that repeats a
   * millisecond fails the former; one that steps back or gains a digit can fail the latter.
   */
  lemma RetentionIff<S(!new)>(disks: seq<map<string, Snapshot<S>>>, saves: seq<Snapshot<S>>)
    requires IsSaveRun(disks, saves)
    ensures var names := FileNames(saves);
            HoldsNewest(disks[|saves|], saves)
            <==> Distinct(Newest(names, KEEP)) && OlderSortBefore(names, KEEP, Less)
  {
    var disk, names, recent := disks[|saves|], FileNames(saves), Newest(saves, KEEP);
    RetentionByName(disks, saves);
    LessStrict();
    FileNamesNewest(saves);
    DistinctIff(FileNames(recent));
    if Distinct(FileNames(recent)) {
      NewestLargestIff(names, KEEP, Less);
      if OlderSortBefore(names, KEEP, Less) {
        LargestUnique(Elements(names), disk.Keys, Elements(FileNames(recent)), KEEP, Less);
        forall s | s in recent ensures FileName(s.timestamp) in disk && disk[FileName(s.timestamp)] == s {
          NewestHeld(disk, saves, s);
        }
      }
    }
    assert |disk| == |disk.Keys|;
  }

  lemma NewestHeld<S(!new)>(disk: map<string, Snapshot<S>>, saves: seq<Snapshot<S>>, s: Snapshot<S>)
    requires HoldsLast(disk, saves) && Distinct(FileNames(Newest(saves, KEEP))) && s in Newest(saves, KEEP)
    requires disk.Keys == Elements(FileNames(Newest(saves, KEEP)))
    ensures FileName(s.timestamp) in disk && disk[FileName(s.timestamp)] == s
  {
    var f := FileName(s.timestamp);
    NewestAt(saves, KEEP);
    var j :| 0 <= j < |saves| && |saves| - KEEP <= j && saves[j] == s;
    FileNamesNewest(saves);
    NewestAt(FileNames(saves), KEEP);
    assert FileNames(saves)[j] == f;
    var i :| IsLastSave(saves, f, i) && disk[f] == saves[i];
    LastIsNewest(FileNames(saves), KEEP, i, j);
  }

  lemma FileNamesNewest<S>(saves: seq<Snapshot<S>>)
    ensures FileNames(Newest(saves, KEEP)) == Newest(FileNames(saves), KEEP)
  {}

  lemma LastIsNewest<T(!new)>(names: seq<T>, keep: nat, i: int, j: int)
    requires Distinct(Newest(names, keep)) && 0 <= j <= i < |names| && |names| - keep <= j && names[i] == names[j]
    ensures i == j
  {
    var recent := Newest(names, keep);
    var older := |names| - |recent|;
    assert recent[i - older] == names[i] && recent[j - older] == names[j];
  }

  /** Two saves in one millisecond: the second overwrites the first, and one file is left. */
  lemma RepeatedMillisecond<S(!new)>(first: Snapshot<S>, second: Snapshot<S>)
    returns (disks: seq<map<string, Snapshot<S>>>)
    requires first.timestamp == second.timestamp
    ensures IsSaveRun(disks, [first, second])
    ensures disks[2] == map[FileName(first.timestamp) := second] && !HoldsNewest(disks[2], [first, second])
  {
    var f := FileName(first.timestamp);
    disks := [map[], map[f := first], map[f := second]];
    assert disks[1] == disks[0][f := first] && disks[2] == disks[1][f := second];
    assert |disks[2]| == 1;
    assert SavedDisk(disks[0], disks[1], first);
    assert SavedDisk(disks[1], disks[2], second);
    assert |Newest([first, second], KEEP)| == 2;
  }

  // ---------------------------------------------------------------- saving and opening again

  /** Opening finds this snapshot exactly when it is on disk and no later one is. */
  lemma LatestIsIff<S>(disk: map<string, Snapshot<S>>, s: Snapshot<S>, found: Option<Snapshot<S>>)
    requires WellNamed(disk) && IsLatest(disk, found)
    ensures found == Some(s) <==>
              && FileName(s.timestamp) in disk && disk[FileName(s.timestamp)] == s && s.timestamp > 0
              && forall f :: f in disk ==> disk[f].timestamp <= s.timestamp
  {
    forall f | f in disk ensures FileTime(f) == disk[f].timestamp { FileTimeOfName(disk[f].timestamp); }
    LatestByTime(disk, s, found, FileTime, FileName);
  }

  lemma LatestByTime<S>(disk: map<string, Snapshot<S>>, s: Snapshot<S>, found: Option<Snapshot<S>>,
                        time: string -> int, name: nat -> string)
    requires forall f :: f in disk ==> time(f) == disk[f].timestamp && f == name(disk[f].timestamp)
    requires match found
             case None => forall f :: f in disk ==> time(f) <= 0
             case Some(l) =>
               exists f :: f in disk && disk[f] == l && time(f) > 0 && forall g :: g in disk ==> time(g) <= time(f)
    ensures found == Some(s) <==>
              && name(s.timestamp) in disk && disk[name(s.timestamp)] == s && s.timestamp > 0
              && forall f :: f in disk ==> disk[f].timestamp <= s.timestamp
  {}

  lemma SaveWellNamed<S>(before: map<string, Snapshot<S>>, after: map<string, Snapshot<S>>, s: Snapshot<S>)
    requires WellNamed(before) && SavedDisk(before, after, s)
    ensures WellNamed(after)
  {
    forall f | f in after ensures f == FileName(after[f].timestamp) {
      if f != FileName(s.timestamp) { assert f in before && after[f] == before[f]; }
    }
  }

  /**
   * After a save, a store opened on the directory starts from the snapshot just saved, exactly when
   * the save kept its own file and no file kept beside it is later.
   */
  lemma ReopenFindsSavedIff<S>(before: map<string, Snapshot<S>>, after: map<string, Snapshot<S>>, s: Snapshot<S>,
                               found: Option<Snapshot<S>>)
    requires WellNamed(before) && SavedDisk(before, after, s) && IsLatest(after, found)
    ensures found == Some(s) <==>
              && |Above(before.Keys, FileName(s.timestamp), Less)| < KEEP && s.timestamp > 0
              && forall f :: f in after ==> after[f].timestamp <= s.timestamp
  {
    SaveWellNamed(before, after, s);
    SaveKeepsOwnIff(before, after, s);
    LatestIsIff(after, s, found);
  }

  /** With the clock ahead of everything on disk it does. */
  lemma AheadIsFound<S>(before: map<string, Snapshot<S>>, after: map<string, Snapshot<S>>, s: Snapshot<S>)
    requires WellNamed(before) && ClockAhead(before, s.timestamp) && SavedDisk(before, after, s)
    ensures FileName(s.timestamp) in after && IsLatest(after, Some(s))
    ensures forall found :: IsLatest(after, found) ==> found == Some(s)
  {
    var name := FileName(s.timestamp);
    SaveWellNamed(before, after, s);
    LessStrict();
    assert Above(before.Keys, name, Less) == {};
    SaveKeepsOwnIff(before, after, s);
    forall f | f in after ensures after[f].timestamp <= s.timestamp {
      if f != name { assert f in before && after[f] == before[f]; }
    }
    forall f | f in after ensures FileTime(f) == after[f].timestamp { FileTimeOfName(after[f].timestamp); }
    forall found | IsLatest(after, found) ensures found == Some(s) { LatestIsIff(after, s, found); }
  }

  /** A larger time with as many digits puts the clock ahead. */
  lemma SteadyIsAhead<S>(disk: map<string, Snapshot<S>>, now: nat)
    requires WellNamed(disk) && now > 0
    requires forall f :: f in disk ==> disk[f].timestamp < now && |FormatNat(disk[f].timestamp)| == |FormatNat(now)|
    ensures ClockAhead(disk, now)
  {
    forall f | f in disk ensures Less(f, FileName(now)) { FileNameOrder(disk[f].timestamp, now); }
  }

  // ---------------------------------------------------------------- where the order of names fails

  function Power10(k: nat): (p: nat)
    ensures p >= 1
  {
    if k == 0 then 1 else 10 * Power10(k - 1)
  }

  lemma {:induction false} FirstDigits(k: nat, i: nat)
    requires k >= 1 && 1 <= i <= 5 && (k == 1 ==> i == 1)
    ensures Power10(k) >= 10
    ensures FormatNat(Power10(k))[0] == '1' && FormatNat(Power10(k) - i)[0] == '9'
  {
    if k > 1 {
      FirstDigits(k - 1, 1);
      assert (Power10(k) - i) / 10 == Power10(k - 1) - 1;
      assert Power10(k) / 10 == Power10(k - 1);
    } else {
      assert Power10(1) == 10 * Power10(0) == 10;
      assert FormatNat(10) == FormatNat(1) + "0";
    }
  }

  /**
   * When the clock gains a digit, name order is not time order: of the five files before 10^k and
   * the one at 10^k, the cleanup removes the snapshot that was just saved.
   */
  lemma RolloverDropsNewest<S>(k: nat, saves: seq<Snapshot<S>>, kept: set<string>)
    requires k >= 2 && |saves| == 6
    requires forall i :: 0 <= i < 6 ==> saves[i].timestamp == Power10(k) - 5 + i
    requires KeepsLargest(Elements(FileNames(saves)), kept, KEEP, Less)
    ensures FileNames(saves)[5] !in kept
  {
    var names := FileNames(saves);
    forall i | 0 <= i < 5 ensures Less(names[5], names[i]) {
      FirstDigits(k, 5 - i);
    }
    forall i, j | 0 <= i < j < 6 ensures names[i] != names[j] {
      if names[i] == names[j] { FileNameInjective(saves[i].timestamp, saves[j].timestamp); }
    }
    EnumerationSize(names[..5], Elements(names[..5]));
    LessStrict();
    KeptIff(Elements(names), kept, KEEP, Less, names[5]);
    SubsetSizes(Elements(names[..5]), Above(Elements(names), names[5], Less));
  }
}
