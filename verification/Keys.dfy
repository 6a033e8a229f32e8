// String keys: common/proto/event.go (ResourceKey), runtime/statestore.go (proxyKey,
// parseClientIDFromKey) and session/server.go (proxyClientKey, parseProxyResourceKey).
module Keys {
  import opened Wrappers

  // ---------------------------------------------------------------- decimal integers

  ghost predicate AllDigits(s: string) {
    forall i :: 0 <= i < |s| ==> '0' <= s[i] <= '9'
  }

  /** fmt's %d for a non-negative number. */
  function FormatNat(n: nat): (s: string)
    ensures s != [] && AllDigits(s)
  {
    var last := [(n % 10) as char + '0'];
    if n < 10 then last else FormatNat(n / 10) + last
  }

  /** fmt's %d. */
  function FormatInt(n: int): string {
    if n < 0 then "-" + FormatNat(-n) else FormatNat(n)
  }

  function ParseNat(s: string): Option<nat> {
    if s == [] then Some(0)
    else
      var c := s[|s| - 1];
      match ParseNat(s[..|s| - 1])
      case None => None
      case Some(high) =>
        if '0' <= c <= '9' then Some(10 * high + (c as int - '0' as int)) else None
  }

  const MIN_INT64 := -0x8000_0000_0000_0000
  const MAX_INT64 := 0x7fff_ffff_ffff_ffff

  /** strconv.Atoi: optional sign, at least one digit, nothing else, in range for int64. */
  function Atoi(s: string): Option<int> {
    var digits := if s != [] && (s[0] == '-' || s[0] == '+') then s[1..] else s;
    if digits == [] then None
    else match ParseNat(digits)
      case None => None
      case Some(n) =>
        var v := (if s[0] == '-' then -1 else 1) * n;
        if MIN_INT64 <= v <= MAX_INT64 then Some(v) else None
  }

  lemma {:induction false} ParseFormatNat(n: nat)
    ensures ParseNat(FormatNat(n)) == Some(n)
  {
    var s := FormatNat(n);
    if n < 10 {
      assert s[..|s| - 1] == [];
    } else {
      ParseFormatNat(n / 10);
      assert s[..|s| - 1] == FormatNat(n / 10);
    }
  }

  lemma {:induction false} ParseNatRejects(s: string, i: nat)
    requires i < |s| && !('0' <= s[i] <= '9')
    ensures ParseNat(s) == None
  {
    if i < |s| - 1 {
      ParseNatRejects(s[..|s| - 1], i);
    }
  }

  /** Atoi reads back what %d prints, for every int64. */
  lemma AtoiFormat(n: int)
    requires MIN_INT64 <= n <= MAX_INT64
    ensures Atoi(FormatInt(n)) == Some(n)
  {
    var s := FormatInt(n);
    if n < 0 {
      var digits := FormatNat(-n);
      assert s[0] == '-' && s[1..] == digits;
      ParseFormatNat(-n);
    } else {
      assert s == FormatNat(n) && '0' <= s[0] <= '9';
      ParseFormatNat(n);
    }
  }

  lemma SignPrinted(n: int)
    ensures FormatInt(n) != [] && (n < 0 <==> FormatInt(n)[0] == '-')
    ensures n < 0 ==> FormatInt(n)[1..] == FormatNat(-n)
  {}

  lemma FormatIntInjective(m: int, n: int)
    requires FormatInt(m) == FormatInt(n)
    ensures m == n
  {
    SignPrinted(m);
    SignPrinted(n);
    if m < 0 {
      ParseFormatNat(-m);
      ParseFormatNat(-n);
    } else {
      ParseFormatNat(m);
      ParseFormatNat(n);
    }
  }

  // ---------------------------------------------------------------- proxy keys

  function ProxyKey(clientID: string, port: int): string {
    clientID + ":" + FormatInt(port)
  }

  function ProxyClientKey(clientID: string, port: int): string {
    clientID + "-" + FormatInt(port)
  }

  /** What numbers and keys look like. */
  lemma NumbersSpelled()
    ensures FormatInt(0) == "0" && FormatInt(1080) == "1080" && FormatInt(-80) == "-80"
  {
    assert FormatNat(10) == FormatNat(1) + "0";
    assert FormatNat(108) == FormatNat(10) + "8";
    assert FormatNat(1080) == FormatNat(108) + "0";
    assert FormatNat(80) == FormatNat(8) + "0";
  }

  lemma KeysSpelled()
    ensures ProxyKey("a", 8) == "a:8" && ProxyClientKey("a", 8) == "a-8"
    ensures ResourceKey("proxy", "default", "a:8").ToString() == "proxy/default/a:8"
    ensures ResourceKey("proxy", "", "a:8").ToString() == "proxy/a:8"
  {
    assert FormatInt(8) == "8";
  }

  /** Numbers are printed without leading zeros. */
  lemma {:induction false} NoLeadingZero(n: nat)
    ensures FormatNat(n)[0] == '0' <==> n == 0
  {
    if n >= 10 { NoLeadingZero(n / 10); }
  }

  /** Splitting at the last separator is unambiguous when the tails hold none. */
  lemma LastSeparatorUnique(a: string, b: string, s: string, t: string, sep: char)
    requires a + [sep] + s == b + [sep] + t
    requires sep !in s && sep !in t
    ensures a == b && s == t
  {
    var whole := a + [sep] + s;
    assert whole[|a|] == sep && whole[|b|] == sep;
    assert forall i :: |a| < i < |whole| ==> whole[i] == s[i - |a| - 1];
    assert forall i :: |b| < i < |whole| ==> whole[i] == t[i - |b| - 1];
    assert |a| == |b|;
    assert a == whole[..|a|] && b == whole[..|b|];
    assert s == whole[|a| + 1..] && t == whole[|b| + 1..];
  }

  /** Two proxies share a map key only when they are the same client and port, colons in IDs included. */
  lemma ProxyKeyInjective(c: string, p: int, d: string, q: int)
    requires ProxyKey(c, p) == ProxyKey(d, q)
    ensures c == d && p == q
  {
    LastSeparatorUnique(c, d, FormatInt(p), FormatInt(q), ':');
    FormatIntInjective(p, q);
  }

  // ---------------------------------------------------------------- parseClientIDFromKey

  predicate IsSeparator(c: char) { c == '-' || c == ':' }

  /** Everything before the last '-' or ':'; the whole key when it has neither. */
  function ClientOfKey(key: string): string {
    if exists i :: 0 <= i < |key| && IsSeparator(key[i])
    then key[..LastSeparator(key)]
    else key
  }

  function LastSeparator(key: string): (i: nat)
    requires exists i :: 0 <= i < |key| && IsSeparator(key[i])
    ensures i < |key| && IsSeparator(key[i])
    ensures forall j :: i < j < |key| ==> !IsSeparator(key[j])
  {
    if IsSeparator(key[|key| - 1]) then |key| - 1
    else
      var shorter := key[..|key| - 1];
      assert forall j :: 0 <= j < |shorter| ==> shorter[j] == key[j];
      LastSeparator(shorter)
  }

  method ParseClientIDFromKey(key: string) returns (id: string)
    ensures id == ClientOfKey(key)
    ensures '-' !in key && ':' !in key ==> id == key
    ensures '-' in key || ':' in key ==>
              && |id| < |key| && id == key[..|id|] && (key[|id|] == '-' || key[|id|] == ':')
              && '-' !in key[|id| + 1..] && ':' !in key[|id| + 1..]
  {
    var i := |key| - 1;
    while i >= 0
      invariant -1 <= i < |key|
      invariant forall j :: i < j < |key| ==> !IsSeparator(key[j])
    {
      if IsSeparator(key[i]) {
        return key[..i];
      }
      i := i - 1;
    }
    return key;
  }

  /** Both key forms give the client back exactly when the port is printed without a sign. */
  lemma ClientOfKeyInverts(clientID: string, port: int)
    ensures ClientOfKey(ProxyKey(clientID, port)) == clientID <==> port >= 0
    ensures ClientOfKey(ProxyClientKey(clientID, port)) == clientID <==> port >= 0
  {
    ClientOfSeparated(clientID, port, ':');
    ClientOfSeparated(clientID, port, '-');
  }

  lemma ClientOfSeparated(clientID: string, port: int, sep: char)
    requires IsSeparator(sep)
    ensures ClientOfKey(clientID + [sep] + FormatInt(port)) == clientID <==> port >= 0
  {
    var key := clientID + [sep] + FormatInt(port);
    assert key[|clientID|] == sep;
    var i := LastSeparator(key);
    if port >= 0 {
      assert AllDigits(FormatInt(port));
      assert forall j :: |clientID| < j < |key| ==> key[j] == FormatInt(port)[j - |clientID| - 1];
      assert key[..|clientID|] == clientID;
    } else {
      assert key[|clientID| + 1] == FormatInt(port)[0] == '-';
      assert i > |clientID|;
    }
  }

  // ---------------------------------------------------------------- strings.Cut and SplitN

  /** Index of the first `c` at or after `from`, or |s|. */
  function IndexFrom(s: string, c: char, from: nat): (i: nat)
    requires from <= |s|
    ensures from <= i <= |s|
    ensures forall j :: from <= j < i ==> s[j] != c
    ensures i < |s| ==> s[i] == c
    decreases |s| - from
  {
    if from == |s| || s[from] == c then from else IndexFrom(s, c, from + 1)
  }

  /** parseProxyResourceKey: cut at the first ':', both halves non-empty, the second an integer. */
  function ParseProxyResourceKey(key: string): Option<(string, int)> {
    var i := IndexFrom(key, ':', 0);
    if i == |key| || i == 0 || i == |key| - 1 then None
    else match Atoi(key[i + 1..])
      case None => None
      case Some(port) => Some((key[..i], port))
  }

  /** The session layer recovers a proxy from its key exactly for non-empty IDs without a colon. */
  lemma ParseProxyResourceKeyInverts(clientID: string, port: int)
    requires MIN_INT64 <= port <= MAX_INT64
    ensures ParseProxyResourceKey(ProxyKey(clientID, port)) == Some((clientID, port))
            <==> clientID != "" && ':' !in clientID
    ensures ':' in clientID ==> ParseProxyResourceKey(ProxyKey(clientID, port)) == None
  {
    var key := ProxyKey(clientID, port);
    var i := IndexFrom(key, ':', 0);
    assert key[|clientID|] == ':';
    assert i <= |clientID|;
    if ':' in clientID {
      var k :| 0 <= k < |clientID| && clientID[k] == ':';
      assert key[k] == ':';
      assert i < |clientID|;
      var rest := key[i + 1..];
      assert rest[|clientID| - i - 1] == ':';
      AtoiRejects(rest, |clientID| - i - 1);
    } else {
      assert forall j :: 0 <= j < |clientID| ==> key[j] == clientID[j];
      assert i == |clientID|;
      assert key[i + 1..] == FormatInt(port);
      assert key[..i] == clientID;
      AtoiFormat(port);
    }
  }

  /** What is recovered: a non-empty part without colon before the first colon, and the number behind it. */
  lemma ParseProxyResourceKeyIff(key: string, clientID: string, port: int)
    ensures ParseProxyResourceKey(key) == Some((clientID, port)) <==>
              && clientID != "" && ':' !in clientID && |clientID| + 1 < |key|
              && key[..|clientID| + 1] == clientID + ":" && Atoi(key[|clientID| + 1..]) == Some(port)
  {
    var i := IndexFrom(key, ':', 0);
    if |clientID| + 1 < |key| && key[..|clientID| + 1] == clientID + ":" {
      assert key[|clientID|] == (clientID + ":")[|clientID|] == ':';
      assert forall j :: 0 <= j < |clientID| ==> key[j] == clientID[j];
      assert key[..|clientID|] == clientID;
      assert ':' !in clientID ==> i == |clientID|;
    }
    if ParseProxyResourceKey(key) == Some((clientID, port)) {
      assert clientID == key[..i] && key[..i + 1] == clientID + ":";
      assert forall j :: 0 <= j < i ==> clientID[j] == key[j];
    }
  }

  /** Atoi takes nothing but an optional sign and digits, in the range of int64. */
  lemma AtoiOnlyNumbers(s: string)
    requires Atoi(s).Some?
    ensures var digits := if s[0] == '-' || s[0] == '+' then s[1..] else s;
            digits != [] && AllDigits(digits)
    ensures MIN_INT64 <= Atoi(s).value <= MAX_INT64 && (Atoi(s).value < 0 ==> s[0] == '-')
  {
    var digits := if s[0] == '-' || s[0] == '+' then s[1..] else s;
    forall i | 0 <= i < |digits| ensures '0' <= digits[i] <= '9' {
      if !('0' <= digits[i] <= '9') { ParseNatRejects(digits, i); }
    }
  }

  lemma AtoiRejects(s: string, i: nat)
    requires i < |s| && s[i] == ':'
    ensures Atoi(s) == None
  {
    if s[0] == '-' || s[0] == '+' {
      if s[1..] != [] { ParseNatRejects(s[1..], i - 1); }
    } else {
      ParseNatRejects(s, i);
    }
  }

  // ---------------------------------------------------------------- resource keys

  datatype ResourceKey = ResourceKey(rtype: string, namespace: string, name: string) {
    function ToString(): string {
      if namespace == "" then rtype + "/" + name
      else rtype + "/" + namespace + "/" + name
    }
  }

  /** strings.SplitN(s, "/", 3) with exactly three non-empty parts. */
  function ParseResourceKey(s: string): Option<ResourceKey> {
    var i := IndexFrom(s, '/', 0);
    if i == |s| then None
    else
      var j := IndexFrom(s, '/', i + 1);
      if j == |s| || i == 0 || j == i + 1 || j + 1 == |s| then None
      else Some(ResourceKey(s[..i], s[i + 1..j], s[j + 1..]))
  }

  predicate Parseable(k: ResourceKey) {
    && k.rtype != "" && k.namespace != "" && k.name != ""
    && '/' !in k.rtype && '/' !in k.namespace
  }

  /** Parsing inverts printing exactly for the keys with three non-empty parts and no early slash. */
  lemma ParseResourceKeyInverts(k: ResourceKey)
    ensures ParseResourceKey(k.ToString()) == Some(k) <==> Parseable(k)
  {
    var s := k.ToString();
    if Parseable(k) {
      var i := |k.rtype|;
      var j := i + 1 + |k.namespace|;
      assert s[i] == '/' && s[j] == '/';
      assert forall x :: 0 <= x < i ==> s[x] == k.rtype[x];
      assert forall x :: i < x < j ==> s[x] == k.namespace[x - i - 1];
      assert IndexFrom(s, '/', 0) == i;
      assert IndexFrom(s, '/', i + 1) == j;
      assert s[..i] == k.rtype && s[i + 1..j] == k.namespace && s[j + 1..] == k.name;
    }
  }

  /** What parses is what was printed from a key with three non-empty parts and no early slash. */
  lemma ParseResourceKeyIff(s: string, k: ResourceKey)
    ensures ParseResourceKey(s) == Some(k) <==> Parseable(k) && s == k.ToString()
  {
    ParseResourceKeyInverts(k);
    if ParseResourceKey(s) == Some(k) {
      var i := IndexFrom(s, '/', 0);
      var j := IndexFrom(s, '/', i + 1);
      assert s == s[..i] + "/" + s[i + 1..j] + "/" + s[j + 1..];
    }
  }

  /** Within one type and namespace, printed keys name distinct resources. */
  lemma ToStringInjective(rtype: string, namespace: string, m: string, n: string)
    requires ResourceKey(rtype, namespace, m).ToString() == ResourceKey(rtype, namespace, n).ToString()
    ensures m == n
  {
    var s := ResourceKey(rtype, namespace, m).ToString();
    var cut := if namespace == "" then |rtype| + 1 else |rtype| + |namespace| + 2;
    assert s[cut..] == m && s[cut..] == n;
  }
}
