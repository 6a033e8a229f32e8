// The arithmetic and the reader of one multiplexer channel (common/mux/mux.go), as functions on
// values: the Multiplexer methods are proved against them and the protocol is built from them.
module Flow {
  import opened Wrappers
  import opened Bytes

  const WINDOW_SIZE: int := 1048576
  const WINDOW_THRESHOLD: int := 16384
  const SEND_QUEUE_SIZE: nat := 64
  const WORK_CHAN_SIZE: nat := 64
  const DATA_CHAN_SIZE: nat := 32
  const WORKER_COUNT: nat := 4

  // ---------------------------------------------------------------- credit

  /** SendWindowUpdate: add to pendingConsumed, and take it all once it is large or old enough. */
  function Accumulate(pending: int, consumed: int, elapsed: bool): (int, Option<int>) {
    var p := Wrap32(pending + Wrap32(consumed));
    if p >= WINDOW_THRESHOLD || elapsed then (0, Some(p)) else (p, None)
  }

  /** Credit leaves exactly when 16384 bytes have accumulated or the time has come, and then all of it. */
  lemma AccumulateIff(pending: int, consumed: int, elapsed: bool)
    ensures var (left, credit) := Accumulate(pending, consumed, elapsed);
            var sum := Wrap32(pending + Wrap32(consumed));
            && (credit.Some? <==> sum >= 16384 || elapsed)
            && (if credit.Some? then left == 0 && credit.value == sum else left == sum)
  {}

  /** The payload of a WINDOW_UPDATE: uint32(pendingConsumed), big-endian. */
  function CreditBytes(credit: int): (b: seq<byte>)
    ensures |b| == 4
  {
    PutUint32(credit % 0x1_0000_0000)
  }

  /** What handleWindowUpdate adds to the window. */
  function CreditOf(data: seq<byte>): int {
    if |data| < 4 then 0 else Wrap32(Uint32(data[..4]))
  }

  lemma CreditRoundTrip(credit: int)
    requires -0x8000_0000 <= credit < 0x8000_0000
    ensures CreditOf(CreditBytes(credit)) == credit
  {
    var b := CreditBytes(credit);
    assert b[..4] == b;
  }

  lemma CreditBytesAre(credit: int)
    requires -0x8000_0000 <= credit < 0x8000_0000
    ensures CreditBytes(credit) == PutUint32(if credit < 0 then credit + 0x1_0000_0000 else credit)
  {}

  // ---------------------------------------------------------------- reading

  datatype ReaderState = ReaderState(leftover: seq<byte>, dataChan: seq<seq<byte>>, closed: bool)

  /** `finished` holds the length of a frame that one Read call took whole. */
  datatype ReadOutcome = Got(data: seq<byte>, finished: Option<nat>) | Eof | Blocks

  /** Channel.Read with a buffer of `size` bytes. */
  function ReadStep(r: ReaderState, size: nat): (ReaderState, ReadOutcome) {
    if r.leftover != [] then
      var n := if size < |r.leftover| then size else |r.leftover|;
      (r.(leftover := r.leftover[n..]), Got(r.leftover[..n], None))
    else if r.dataChan != [] then
      var data, rest := r.dataChan[0], r.(dataChan := r.dataChan[1..]);
      if size < |data| then (rest.(leftover := data[size..]), Got(data[..size], None))
      else (rest, Got(data, Some(|data|)))
    else if r.closed then (r, Eof)
    else (r, Blocks)
  }

  /** Bytes delivered to the channel and not yet returned by Read. */
  function Unread(r: ReaderState): seq<byte> {
    r.leftover + Flatten(r.dataChan)
  }

  /** One Read takes its bytes off the front of the unread stream; a non-empty buffer makes progress. */
  lemma ReadTakesPrefix(r: ReaderState, size: nat)
    ensures var (r', out) := ReadStep(r, size);
            && (out.Got? ==> Unread(r) == out.data + Unread(r') && |out.data| <= size)
            && (!out.Got? ==> r' == r && Unread(r) == [] && (out.Eof? <==> r.closed))
            && (out.Got? && size > 0 && out.data == [] ==> r.dataChan != [] && r.dataChan[0] == [])
  {
    if r.leftover != [] {
      var n := if size < |r.leftover| then size else |r.leftover|;
      assert r.leftover == r.leftover[..n] + r.leftover[n..];
    } else if r.dataChan != [] {
      var data := r.dataChan[0];
      if size < |data| {
        assert data == data[..size] + data[size..];
      }
    }
  }

  /**
   * One Read returns bytes of one frame only, as many as fit; and it counts as having taken the frame
   * whole exactly when it starts on a fresh frame that is no longer than the buffer.
   */
  lemma WholeFrameIff(r: ReaderState, size: nat)
    ensures var (r', out) := ReadStep(r, size);
            && (out.Got? <==> r.leftover != [] || r.dataChan != [])
            && (out.Got? ==>
                  && |out.data| == Min(size, if r.leftover != [] then |r.leftover| else |r.dataChan[0]|)
                  && r'.dataChan == if r.leftover != [] then r.dataChan else r.dataChan[1..])
            && (out.Got? && out.finished.Some? <==>
                  r.leftover == [] && r.dataChan != [] && |r.dataChan[0]| <= size)
            && (out.Got? && out.finished.Some? ==> out.finished.value == |r.dataChan[0]|)
  {}

  // ---------------------------------------------------------------- the byte stream over whole runs

  datatype StreamOp = Deliver(frame: seq<byte>) | CloseChan | ReadCall(size: nat)

  /** A reader with the history of what was delivered to it and returned from it. */
  datatype Stream = Stream(
    r: ReaderState,
    delivered: seq<seq<byte>>,
    returned: seq<byte>,
    eofSeen: bool
  )

  const EMPTY_STREAM := Stream(ReaderState([], [], false), [], [], false)

  function StreamStep(s: Stream, op: StreamOp): Stream {
    match op
    case Deliver(frame) =>
      s.(r := s.r.(dataChan := s.r.dataChan + [frame]), delivered := s.delivered + [frame], eofSeen := false)
    case CloseChan => s.(r := s.r.(closed := true))
    case ReadCall(size) =>
      var (r', out) := ReadStep(s.r, size);
      match out
      case Got(data, _) => s.(r := r', returned := s.returned + data)
      case Eof => s.(eofSeen := true)
      case Blocks => s
  }

  function StreamRun(ops: seq<StreamOp>): Stream {
    if ops == [] then EMPTY_STREAM
    else StreamStep(StreamRun(ops[..|ops| - 1]), ops[|ops| - 1])
  }

  ghost predicate Concatenates(s: Stream) {
    s.returned + Unread(s.r) == Flatten(s.delivered)
  }

  lemma DeliverConcatenates(s: Stream, frame: seq<byte>)
    requires Concatenates(s)
    ensures Concatenates(StreamStep(s, Deliver(frame)))
  {
    FlattenAppend(s.delivered, [frame]);
    FlattenAppend(s.r.dataChan, [frame]);
    assert Flatten([frame]) == frame;
    Assoc(s.r.leftover, Flatten(s.r.dataChan), frame);
    Assoc(s.returned, Unread(s.r), frame);
  }

  lemma ReadConcatenates(s: Stream, size: nat)
    requires Concatenates(s)
    ensures Concatenates(StreamStep(s, ReadCall(size)))
  {
    ReadTakesPrefix(s.r, size);
    var (r', out) := ReadStep(s.r, size);
    if out.Got? { Assoc(s.returned, out.data, Unread(r')); }
  }

  /**
   * For any sequence of deliveries, reads of any size and closing: what Read returned, then what it
   * still holds, is the concatenation of the frames in arrival order; and while the last event on
   * the channel is an end-of-file, every delivered byte has been returned.
   */
  lemma {:induction false} StreamIsConcatenation(ops: seq<StreamOp>)
    ensures var s := StreamRun(ops);
            && s.returned + Unread(s.r) == Flatten(s.delivered)
            && s.returned <= Flatten(s.delivered)
            && (s.eofSeen ==> s.r.closed && s.returned == Flatten(s.delivered))
  {
    if ops != [] {
      var before := StreamRun(ops[..|ops| - 1]);
      StreamIsConcatenation(ops[..|ops| - 1]);
      match ops[|ops| - 1]
      case Deliver(frame) => DeliverConcatenates(before, frame);
      case CloseChan =>
      case ReadCall(size) =>
        ReadConcatenates(before, size);
        EofMeansRead(before, size);
    }
  }

  lemma EofMeansRead(s: Stream, size: nat)
    requires Concatenates(s) && (s.eofSeen ==> s.r.closed && s.returned == Flatten(s.delivered))
    ensures var t := StreamStep(s, ReadCall(size)); t.eofSeen ==> t.r.closed && t.returned == Flatten(t.delivered)
  {
    ReadTakesPrefix(s.r, size);
    var out := ReadStep(s.r, size).1;
    if out.Got? && s.eofSeen {
      assert |s.returned + Unread(s.r)| == |s.returned| + |Unread(s.r)|;
      assert out.data == [];
    }
  }
}
