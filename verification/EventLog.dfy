// The event log file of common/store/event.go: one record per line, loaded back line by line.
// The record codec (JSON in the program) is a parameter.
module EventLog {
  import opened Wrappers
  import opened Bytes
  import opened Events

  const NEWLINE: byte := 0x0A

  /** A record fits on one line. */
  ghost predicate IsRecord(r: seq<byte>) {
    forall i :: 0 <= i < |r| ==> r[i] != NEWLINE
  }

  /** Index of the first newline, or |data|. */
  function FirstNewline(data: seq<byte>): (k: nat)
    ensures k <= |data| && IsRecord(data[..k])
    ensures k < |data| ==> data[k] == NEWLINE
  {
    if data == [] || data[0] == NEWLINE then 0 else FirstNewline(data[1..]) + 1
  }

  /** The lines of a file; a last line without newline counts when it is not empty. */
  function Lines(data: seq<byte>): seq<seq<byte>> {
    var k := FirstNewline(data);
    if k == |data| then (if data == [] then [] else [data])
    else [data[..k]] + Lines(data[k + 1..])
  }

  method SplitLines(data: seq<byte>) returns (lines: seq<seq<byte>>)
    ensures lines == Lines(data)
  {
    lines := [];
    var start := 0;
    ghost var whole, rest := Lines(data), Lines(data);
    assert data[0..] == data;
    for i := 0 to |data|
      invariant start <= i && forall j :: start <= j < i ==> data[j] != NEWLINE
      invariant rest == Lines(data[start..]) && lines + rest == whole
    {
      if data[i] == NEWLINE {
        NextLine(data, start, i);
        Assoc(lines, [data[start..i]], Lines(data[i + 1..]));
        lines := lines + [data[start..i]];
        start := i + 1;
        rest := Lines(data[start..]);
      }
    }
    LastLine(data[start..]);
    if start < |data| {
      lines := lines + [data[start..]];
    }
  }

  lemma NextLine(data: seq<byte>, start: nat, i: nat)
    requires start <= i < |data| && data[i] == NEWLINE && forall j :: start <= j < i ==> data[j] != NEWLINE
    ensures Lines(data[start..]) == [data[start..i]] + Lines(data[i + 1..])
  {
    assert data[start..] == data[start..i] + [NEWLINE] + data[i + 1..];
    FirstLine(data[start..i], data[i + 1..]);
  }

  lemma FirstLine(r: seq<byte>, rest: seq<byte>)
    requires IsRecord(r)
    ensures Lines(r + [NEWLINE] + rest) == [r] + Lines(rest)
  {
    var data := r + [NEWLINE] + rest;
    var k := FirstNewline(data);
    assert data[|r|] == NEWLINE && forall i :: 0 <= i < |r| ==> data[i] == r[i];
    assert forall i :: 0 <= i < k ==> data[..k][i] == data[i];
    assert k == |r|;
    assert data[..k] == r && data[k + 1..] == rest;
  }

  lemma LastLine(torn: seq<byte>)
    requires IsRecord(torn)
    ensures Lines(torn) == if torn == [] then [] else [torn]
  {}

  // ---------------------------------------------------------------- records

  /** Append's writes: every record followed by a newline. */
  function FileOf(rs: seq<seq<byte>>): seq<byte> {
    if rs == [] then [] else rs[0] + [NEWLINE] + FileOf(rs[1..])
  }

  /** Records come back whole and in order, followed by whatever piece of a line is left at the end. */
  lemma {:induction false} LinesOfFile(rs: seq<seq<byte>>, torn: seq<byte>)
    requires (forall r :: r in rs ==> IsRecord(r)) && IsRecord(torn)
    ensures Lines(FileOf(rs) + torn) == rs + if torn == [] then [] else [torn]
  {
    if rs == [] {
      assert FileOf(rs) + torn == torn;
      LastLine(torn);
    } else {
      LinesOfFile(rs[1..], torn);
      assert FileOf(rs) + torn == rs[0] + [NEWLINE] + (FileOf(rs[1..]) + torn);
      FirstLine(rs[0], FileOf(rs[1..]) + torn);
    }
  }

  /** Splitting loses no byte: rejoined lines are the file, up to a missing final newline. */
  lemma {:induction false} RejoinLines(data: seq<byte>)
    ensures FileOf(Lines(data)) == data + if data == [] || data[|data| - 1] == NEWLINE then [] else [NEWLINE]
  {
    var k := FirstNewline(data);
    if k < |data| {
      var rest := data[k + 1..];
      RejoinLines(rest);
      assert data == data[..k] + [NEWLINE] + rest;
      assert Lines(data) == [data[..k]] + Lines(rest);
      assert rest != [] ==> rest[|rest| - 1] == data[|data| - 1];
    } else if data != [] {
      assert data[..k] == data && data[|data| - 1] in data;
      assert FileOf([data]) == data + [NEWLINE] + FileOf([]);
    }
  }

  /** How many records are complete, newline included, in the first k bytes. */
  function CompleteRecords(rs: seq<seq<byte>>, k: nat): (n: nat)
    ensures n <= |rs|
  {
    if rs == [] || k < |rs[0]| + 1 then 0 else 1 + CompleteRecords(rs[1..], k - |rs[0]| - 1)
  }

  /** A cut falls into the record after the last complete one, or between records. */
  lemma {:induction false} CutBytes(rs: seq<seq<byte>>, k: nat) returns (torn: seq<byte>)
    requires k <= |FileOf(rs)|
    ensures var n := CompleteRecords(rs, k);
            && FileOf(rs)[..k] == FileOf(rs[..n]) + torn
            && (torn != [] ==> n < |rs| && torn <= rs[n])
  {
    torn := [];
    if rs != [] {
      if k < |rs[0]| + 1 {
        torn := rs[0][..k];
      } else {
        var rest, n := k - |rs[0]| - 1, CompleteRecords(rs, k);
        torn := CutBytes(rs[1..], rest);
        assert rs[..n][1..] == rs[1..][..n - 1];
        assert FileOf(rs)[..k] == rs[0] + [NEWLINE] + FileOf(rs[1..])[..rest];
        Assoc(rs[0] + [NEWLINE], FileOf(rs[..n][1..]), torn);
      }
    }
  }

  /** A file cut after any byte yields all complete records and at most one torn line. */
  lemma CutFile(rs: seq<seq<byte>>, k: nat) returns (torn: seq<byte>)
    requires (forall r :: r in rs ==> IsRecord(r)) && k <= |FileOf(rs)|
    ensures var n := CompleteRecords(rs, k);
            && Lines(FileOf(rs)[..k]) == rs[..n] + (if torn == [] then [] else [torn])
            && (torn != [] ==> n < |rs| && torn <= rs[n])
  {
    torn := CutBytes(rs, k);
    var n := CompleteRecords(rs, k);
    assert torn != [] ==> rs[n] in rs;
    LinesOfFile(rs[..n], torn);
  }

  // ---------------------------------------------------------------- loading

  type Decoder = seq<byte> -> Option<Event>

  /** The events of a list of lines; empty and undecodable lines are skipped. */
  function DecodeLines(lines: seq<seq<byte>>, decode: Decoder): seq<Event> {
    if lines == [] then []
    else
      var last := lines[|lines| - 1];
      DecodeLines(lines[..|lines| - 1], decode)
      + if last != [] && decode(last).Some? then [decode(last).value] else []
  }

  ghost predicate IsMaxSequence(es: seq<Event>, m: int) {
    && m >= 0 && (forall e :: e in es ==> e.sequence <= m)
    && (m > 0 ==> exists e :: e in es && e.sequence == m)
  }

  /** loadEvents on one file: its events, and the largest sequence number seen. */
  method LoadEvents(data: seq<byte>, decode: Decoder) returns (events: seq<Event>, sequence: int)
    ensures events == DecodeLines(Lines(data), decode)
    ensures IsMaxSequence(events, sequence)
  {
    events, sequence := [], 0;
    var lines := SplitLines(data);
    for i := 0 to |lines|
      invariant events == DecodeLines(lines[..i], decode) && IsMaxSequence(events, sequence)
    {
      assert lines[..i + 1][..i] == lines[..i];
      var line := lines[i];
      if line == [] {
        continue;
      }
      var event := decode(line);
      if event.None? {
        continue;
      }
      ghost var before := events;
      events := events + [event.value];
      assert forall e :: e in events <==> e in before || e == event.value;
      if event.value.sequence > sequence {
        sequence := event.value.sequence;
      }
    }
    assert lines[..|lines|] == lines;
  }

  /** Line by line: every non-empty line that decodes gives its event, in order; no other line gives any. */
  lemma {:induction false} DecodedLines(lines: seq<seq<byte>>, decode: Decoder) returns (at: seq<nat>)
    ensures var es := DecodeLines(lines, decode);
            && |at| == |es| && (forall i, j :: 0 <= i < j < |at| ==> at[i] < at[j])
            && (forall i :: 0 <= i < |at| ==> at[i] < |lines| && decode(lines[at[i]]) == Some(es[i]))
            && forall k :: 0 <= k < |lines| ==> (k in at <==> lines[k] != [] && decode(lines[k]).Some?)
  {
    at := [];
    if lines != [] {
      var shorter, last := lines[..|lines| - 1], lines[|lines| - 1];
      var before := DecodedLines(shorter, decode);
      at := before + if last != [] && decode(last).Some? then [|lines| - 1] else [];
      forall k | 0 <= k < |lines| ensures k in at <==> lines[k] != [] && decode(lines[k]).Some? {
        assert k < |lines| - 1 ==> lines[k] == shorter[k];
        assert forall i :: 0 <= i < |before| ==> before[i] < |lines| - 1;
      }
    }
  }

  function EncodeAll(es: seq<Event>, encode: Event -> seq<byte>): (rs: seq<seq<byte>>)
    ensures |rs| == |es| && forall i :: 0 <= i < |es| ==> rs[i] == encode(es[i])
  {
    seq(|es|, i requires 0 <= i < |es| => encode(es[i]))
  }

  /** Each event's record is one non-empty line that decodes to the event. */
  ghost predicate Codec(es: seq<Event>, encode: Event -> seq<byte>, decode: Decoder) {
    forall e :: e in es ==> IsRecord(encode(e)) && encode(e) != [] && decode(encode(e)) == Some(e)
  }

  lemma {:induction false} DecodeEncoded(es: seq<Event>, encode: Event -> seq<byte>, decode: Decoder)
    requires Codec(es, encode, decode)
    ensures DecodeLines(EncodeAll(es, encode), decode) == es
  {
    if es != [] {
      var n := |es| - 1;
      DecodeEncoded(es[..n], encode, decode);
      assert EncodeAll(es, encode)[..n] == EncodeAll(es[..n], encode);
      assert es == es[..n] + [es[n]];
    }
  }

  /**
   * Reading the log back after a crash at any byte: the events whose records are complete, in order,
   * plus at most one more if the torn last line happens to decode; and all of them without a crash.
   */
  lemma LogRoundTrip(es: seq<Event>, encode: Event -> seq<byte>, decode: Decoder, k: nat)
    requires Codec(es, encode, decode) && k <= |FileOf(EncodeAll(es, encode))|
    ensures var rs := EncodeAll(es, encode); var n := CompleteRecords(rs, k);
            var loaded := DecodeLines(Lines(FileOf(rs)[..k]), decode);
            && es[..n] <= loaded && |loaded| <= n + 1
            && (k == |FileOf(rs)| ==> loaded == es)
  {
    var rs := EncodeAll(es, encode);
    RecordsAreLines(es, encode, decode);
    if k == |FileOf(rs)| {
      LinesOfFile(rs, []);
      assert FileOf(rs)[..k] == FileOf(rs) + [] && rs + [] == rs;
      DecodeEncoded(es, encode, decode);
      AllComplete(rs);
    } else {
      var n := CompleteRecords(rs, k);
      var torn := CutFile(rs, k);
      assert forall e :: e in es[..n] ==> e in es;
      DecodeEncoded(es[..n], encode, decode);
      assert rs[..n] == EncodeAll(es[..n], encode);
      TornLine(rs[..n], torn, decode);
    }
  }

  lemma RecordsAreLines(es: seq<Event>, encode: Event -> seq<byte>, decode: Decoder)
    requires Codec(es, encode, decode)
    ensures forall r :: r in EncodeAll(es, encode) ==> IsRecord(r)
  {
    forall r | r in EncodeAll(es, encode) ensures IsRecord(r) {
      var i :| 0 <= i < |es| && r == EncodeAll(es, encode)[i];
      assert es[i] in es;
    }
  }

  lemma {:induction false} AllComplete(rs: seq<seq<byte>>)
    ensures CompleteRecords(rs, |FileOf(rs)|) == |rs|
  {
    if rs != [] { AllComplete(rs[1..]); }
  }

  lemma TornLine(lines: seq<seq<byte>>, torn: seq<byte>, decode: Decoder)
    ensures var all := DecodeLines(lines + if torn == [] then [] else [torn], decode);
            DecodeLines(lines, decode) <= all && |all| <= |DecodeLines(lines, decode)| + 1
  {
    if torn == [] {
      assert lines + [] == lines;
    } else {
      assert (lines + [torn])[..|lines|] == lines;
    }
  }
}
