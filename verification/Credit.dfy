// Credit-based flow control between the two ends of one open multiplexer channel direction
// (common/mux/mux.go), as a state machine whose steps are the atomic actions of its goroutines:
// the senders, writeLoop, readLoop and the workers of both ends, and the reader.
module Credit {
  import opened Wrappers
  import opened Bytes
  import opened Wire
  import opened Flow

  type Data = seq<byte>

  // A Send call: outside, past the window check, or past the subtraction and before enqueueFrame.
  datatype Sender = Idle | Passed(data: Data) | Debited(data: Data)

  datatype State = State(
    failed: bool,            // writeFrame refused a frame and closed the multiplexer
    window: int,             // sendWindow
    senders: seq<Sender>,
    sendQueue: seq<Data>,
    wire: seq<Data>,         // DATA frames in flight
    workChan: seq<Data>,
    held: seq<Data>,         // frames that workers took from workChan; any of them may go first
    dataChan: seq<Data>,
    leftover: Data,          // the reader's rest of a partly read frame
    spoiled: int,            // credit lost for good: frames whose first Read did not take them whole,
                             // and window updates that could not be written
    toReport: seq<int>,      // frames taken whole whose SendWindowUpdate has not run yet
    pending: int,            // pendingConsumed
    posted: seq<int>,        // credit taken from pendingConsumed, not yet written
    ackWire: seq<Data>,      // WINDOW_UPDATE payloads in flight
    ackWork: seq<Data>,
    ackHeld: seq<Data>
  )

  datatype Step =
    | PassWindow(sender: nat, data: Data)
    | Debit(sender: nat)
    | Enqueue(sender: nat)
    | WriteLoop
    | ReadLoop
    | TakeWork
    | Dispatch(slot: nat)
    | Read(size: nat)
    | Report(index: nat, elapsed: bool)
    | WriteCredit(index: nat)
    | LoseCredit(index: nat)  // writing the WINDOW_UPDATE frame fails; SendWindowUpdate only reports it
    | AckReadLoop
    | AckTakeWork
    | AckApply(slot: nat)

  function Init(n: nat): State {
    State(false, WINDOW_SIZE, seq(n, i => Idle), [], [], [], [], [], [], 0, [], 0, [], [], [], [])
  }

  predicate Enabled(s: State, step: Step) {
    && !s.failed
    && match step
       case PassWindow(i, data) =>
         i < |s.senders| && s.senders[i].Idle? && |data| < 0x8000_0000 && s.window >= Wrap32(|data|)
       case Debit(i) => i < |s.senders| && s.senders[i].Passed?
       case Enqueue(i) => i < |s.senders| && s.senders[i].Debited? && |s.sendQueue| < SEND_QUEUE_SIZE
       case WriteLoop => s.sendQueue != []
       case ReadLoop => s.wire != [] && |s.workChan| < WORK_CHAN_SIZE
       case TakeWork => s.workChan != [] && |s.held| < WORKER_COUNT
       case Dispatch(k) => k < |s.held| && |s.dataChan| < DATA_CHAN_SIZE
       case Read(_) => s.leftover != [] || s.dataChan != []
       case Report(k, _) => k < |s.toReport|
       case WriteCredit(k) => k < |s.posted|
       case LoseCredit(k) => k < |s.posted|
       case AckReadLoop => s.ackWire != [] && |s.ackWork| < WORK_CHAN_SIZE
       case AckTakeWork => s.ackWork != [] && |s.ackHeld| < WORKER_COUNT
       case AckApply(k) => k < |s.ackHeld|
  }
  function Do(s: State, step: Step): State
    requires Enabled(s, step)
  {
    match step
    case PassWindow(i, data) => s.(senders := s.senders[i := Passed(data)])
    case Debit(i) =>
      var data := s.senders[i].data;
      s.(senders := s.senders[i := Debited(data)], window := Wrap32(s.window - |data|))
    case Enqueue(i) =>
      s.(senders := s.senders[i := Idle], sendQueue := s.sendQueue + [s.senders[i].data])
    case WriteLoop =>
      if |s.sendQueue[0]| > MAX_FRAME_SIZE then s.(failed := true)
      else s.(sendQueue := s.sendQueue[1..], wire := s.wire + [s.sendQueue[0]])
    case ReadLoop => s.(wire := s.wire[1..], workChan := s.workChan + [s.wire[0]])
    case TakeWork => s.(workChan := s.workChan[1..], held := s.held + [s.workChan[0]])
    case Dispatch(k) => s.(held := Without(s.held, k), dataChan := s.dataChan + [s.held[k]])
    case Read(size) =>
      var (r, out) := ReadStep(ReaderState(s.leftover, s.dataChan, false), size);
      s.(leftover := r.leftover, dataChan := r.dataChan,
         spoiled := if s.leftover == [] && out.Got? && out.finished.None?
                    then s.spoiled + |s.dataChan[0]| else s.spoiled,
         toReport := if out.Got? && out.finished.Some? then s.toReport + [out.finished.value] else s.toReport)
    case Report(k, elapsed) =>
      var (pending, credit) := Accumulate(s.pending, s.toReport[k], elapsed);
      s.(toReport := Without(s.toReport, k), pending := pending,
         posted := if credit.Some? then s.posted + [credit.value] else s.posted)
    case WriteCredit(k) =>
      s.(posted := Without(s.posted, k), ackWire := s.ackWire + [CreditBytes(s.posted[k])])
    case LoseCredit(k) => s.(posted := Without(s.posted, k), spoiled := s.spoiled + s.posted[k])
    case AckReadLoop => s.(ackWire := s.ackWire[1..], ackWork := s.ackWork + [s.ackWire[0]])
    case AckTakeWork => s.(ackWork := s.ackWork[1..], ackHeld := s.ackHeld + [s.ackWork[0]])
    case AckApply(k) =>
      s.(ackHeld := Without(s.ackHeld, k), window := Wrap32(s.window + CreditOf(s.ackHeld[k])))
  }

  // ---------------------------------------------------------------- sums

  function Sum<T>(q: seq<T>, w: T -> int): int {
    if q == [] then 0 else w(q[0]) + Sum(q[1..], w)
  }

  function Len(d: Data): int { |d| }
  function Int(n: int): int { n }
  function PassedLen(x: Sender): int { if x.Passed? then |x.data| else 0 }
  function DebitedLen(x: Sender): int { if x.Debited? then |x.data| else 0 }

  lemma {:induction false} SumAppend<T>(a: seq<T>, b: seq<T>, w: T -> int)
    ensures Sum(a + b, w) == Sum(a, w) + Sum(b, w)
  {
    if a == [] {
      assert a + b == b;
    } else {
      SumAppend(a[1..], b, w);
      assert (a + b)[1..] == a[1..] + b;
    }
  }

  lemma SumPush<T>(q: seq<T>, x: T, w: T -> int)
    ensures Sum(q + [x], w) == Sum(q, w) + w(x)
  {
    SumAppend(q, [x], w);
  }

  lemma SumWithout<T>(q: seq<T>, i: nat, w: T -> int)
    requires i < |q|
    ensures Sum(q, w) == Sum(Without(q, i), w) + w(q[i])
  {
    SumAppend(q[..i], q[i + 1..], w);
    SumAppend(q[..i], q[i..], w);
    assert q == q[..i] + q[i..] && q[i..][1..] == q[i + 1..];
  }

  lemma SumUpdate<T>(q: seq<T>, i: nat, x: T, w: T -> int)
    requires i < |q|
    ensures Sum(q[i := x], w) == Sum(q, w) - w(q[i]) + w(x)
  {
    SumWithout(q, i, w);
    SumWithout(q[i := x], i, w);
    assert Without(q[i := x], i) == Without(q, i);
  }

  lemma {:induction false} SumBound<T>(q: seq<T>, w: T -> int, lo: int, hi: int)
    requires forall x :: x in q ==> lo <= w(x) <= hi
    ensures lo * |q| <= Sum(q, w) <= hi * |q|
  {
    if q != [] {
      var n := |q| - 1;
      SumBound(q[1..], w, lo, hi);
      assert q[0] in q && lo * (n + 1) == lo * n + lo && hi * (n + 1) == hi * n + hi;
    }
  }

  // ---------------------------------------------------------------- the invariant

  /** Bytes sent and not yet taken by the reader. */
  function InTransit(s: State): int {
    Sum(s.senders, DebitedLen) + Sum(s.sendQueue, Len) + Sum(s.wire, Len) + Sum(s.workChan, Len)
    + Sum(s.held, Len) + Sum(s.dataChan, Len)
  }

  /** Bytes taken whole by the reader whose credit has not reached the sender's window. */
  function CreditInFlight(s: State): int {
    Sum(s.toReport, Int) + s.pending + Sum(s.posted, Int)
    + Sum(s.ackWire, CreditOf) + Sum(s.ackWork, CreditOf) + Sum(s.ackHeld, CreditOf)
  }

  predicate GoodAck(a: Data) { 0 <= CreditOf(a) }

  /** The window as it would stand if every send past the check were already subtracted. */
  function Headroom(s: State): int { s.window - Sum(s.senders, PassedLen) }

  ghost predicate Inv(s: State) {
    && s.window + InTransit(s) + s.spoiled + CreditInFlight(s) == WINDOW_SIZE
    && 0 <= s.pending < WINDOW_THRESHOLD
    && |s.leftover| <= s.spoiled
    && (forall c :: c in s.toReport ==> 0 <= c)
    && (forall c :: c in s.posted ==> 0 <= c)
    && (forall a :: a in s.ackWire ==> GoodAck(a))
    && (forall a :: a in s.ackWork ==> GoodAck(a))
    && (forall a :: a in s.ackHeld ==> GoodAck(a))
    && 1 <= |s.senders| <= 2047
    && (forall x :: x in s.senders ==> PassedLen(x) <= WINDOW_SIZE)
    && Headroom(s) >= -WINDOW_SIZE * (|s.senders| - 1)
  }

  lemma SumsNonNegative(s: State)
    requires forall c :: c in s.toReport ==> 0 <= c
    requires forall c :: c in s.posted ==> 0 <= c
    requires forall a :: a in s.ackWire ==> GoodAck(a)
    requires forall a :: a in s.ackWork ==> GoodAck(a)
    requires forall a :: a in s.ackHeld ==> GoodAck(a)
    ensures InTransit(s) >= 0 && CreditInFlight(s) >= s.pending
    ensures Sum(s.senders, PassedLen) >= 0
    ensures Sum(s.toReport, Int) >= 0 && Sum(s.posted, Int) >= 0
    ensures Sum(s.ackWire, CreditOf) >= 0 && Sum(s.ackWork, CreditOf) >= 0 && Sum(s.ackHeld, CreditOf) >= 0
  {
    NonNegative(s.senders, DebitedLen); NonNegative(s.senders, PassedLen);
    NonNegative(s.sendQueue, Len); NonNegative(s.wire, Len); NonNegative(s.workChan, Len);
    NonNegative(s.held, Len); NonNegative(s.dataChan, Len);
    NonNegative(s.toReport, Int); NonNegative(s.posted, Int);
    NonNegative(s.ackWire, CreditOf); NonNegative(s.ackWork, CreditOf); NonNegative(s.ackHeld, CreditOf);
  }

  lemma {:induction false} NonNegative<T>(q: seq<T>, w: T -> int)
    requires forall x :: x in q ==> 0 <= w(x)
    ensures Sum(q, w) >= 0
  {
    if q != [] { NonNegative(q[1..], w); }
  }

  lemma {:induction false} Contains<T>(q: seq<T>, i: nat, w: T -> int)
    requires i < |q| && forall x :: x in q ==> 0 <= w(x)
    ensures w(q[i]) <= Sum(q, w)
  {
    SumWithout(q, i, w);
    NonNegative(Without(q, i), w);
  }

  /** No int32 in the protocol leaves its range: everything fits between the bounds below. */
  lemma WindowBounds(s: State)
    requires Inv(s)
    ensures -WINDOW_SIZE * (|s.senders| - 1) <= s.window <= WINDOW_SIZE
    ensures -0x8000_0000 <= s.window
    ensures 0 <= CreditInFlight(s)
    ensures |s.senders| == 1 ==> CreditInFlight(s) <= WINDOW_SIZE
  {
    SumsNonNegative(s);
  }

  lemma InitInv(n: nat)
    requires 1 <= n <= 2047
    ensures Inv(Init(n))
  {
    SumBound(Init(n).senders, PassedLen, 0, 0);
    SumBound(Init(n).senders, DebitedLen, 0, 0);
  }

  // ---------------------------------------------------------------- every step keeps it

  lemma SenderChange(s: State, i: nat, x: Sender)
    requires i < |s.senders|
    ensures Sum(s.senders[i := x], PassedLen) == Sum(s.senders, PassedLen) - PassedLen(s.senders[i]) + PassedLen(x)
    ensures Sum(s.senders[i := x], DebitedLen) == Sum(s.senders, DebitedLen) - DebitedLen(s.senders[i]) + DebitedLen(x)
    ensures forall y :: y in s.senders[i := x] ==> y in s.senders || y == x
  {
    SumUpdate(s.senders, i, x, PassedLen);
    SumUpdate(s.senders, i, x, DebitedLen);
  }

  /** The other senders past the check can still take at most one window each. */
  lemma OthersBound(s: State, i: nat)
    requires Inv(s) && i < |s.senders| && s.senders[i].Idle?
    ensures Sum(s.senders, PassedLen) <= WINDOW_SIZE * (|s.senders| - 1)
  {
    var others := Without(s.senders, i);
    SumWithout(s.senders, i, PassedLen);
    assert forall x :: x in others ==> x in s.senders;
    SumBound(others, PassedLen, 0, WINDOW_SIZE);
  }

  lemma PassKeepsInv(s: State, i: nat, data: Data)
    requires Inv(s) && Enabled(s, PassWindow(i, data))
    ensures Inv(Do(s, PassWindow(i, data)))
  {
    WindowBounds(s);
    SenderChange(s, i, Passed(data));
    OthersBound(s, i);
  }

  lemma DebitKeepsInv(s: State, i: nat)
    requires Inv(s) && Enabled(s, Debit(i))
    ensures Inv(Do(s, Debit(i)))
    ensures Do(s, Debit(i)).window == s.window - |s.senders[i].data|
  {
    var data := s.senders[i].data;
    WindowBounds(s);
    SumsNonNegative(s);
    Contains(s.senders, i, PassedLen);
    SenderChange(s, i, Debited(data));
    assert s.window - |data| >= Headroom(s);
  }

  lemma EnqueueKeepsInv(s: State, i: nat)
    requires Inv(s) && Enabled(s, Enqueue(i))
    ensures Inv(Do(s, Enqueue(i)))
  {
    SenderChange(s, i, Idle);
    SumPush(s.sendQueue, s.senders[i].data, Len);
  }

  lemma DataStepKeepsInv(s: State, step: Step)
    requires Inv(s) && Enabled(s, step)
    requires step.WriteLoop? || step.ReadLoop? || step.TakeWork? || step.Dispatch?
    ensures Inv(Do(s, step))
  {
    match step
    case WriteLoop => SumPush(s.wire, s.sendQueue[0], Len);
    case ReadLoop => SumPush(s.workChan, s.wire[0], Len);
    case TakeWork => SumPush(s.held, s.workChan[0], Len);
    case Dispatch(k) =>
      SumWithout(s.held, k, Len);
      SumPush(s.dataChan, s.held[k], Len);
  }

  lemma ReadKeepsInv(s: State, size: nat)
    requires Inv(s) && Enabled(s, Read(size))
    ensures Inv(Do(s, Read(size)))
  {
    if s.dataChan != [] {
      SumPush(s.toReport, |s.dataChan[0]|, Int);
    }
  }

  lemma ReportKeepsInv(s: State, k: nat, elapsed: bool)
    requires Inv(s) && Enabled(s, Report(k, elapsed))
    ensures Inv(Do(s, Report(k, elapsed)))
  {
    var t := Do(s, Report(k, elapsed));
    ReportSize(s, k);
    SumWithout(s.toReport, k, Int);
    SumPush(s.posted, s.pending + s.toReport[k], Int);
    assert forall c :: c in t.toReport ==> c in s.toReport;
  }

  lemma LoseCreditKeepsInv(s: State, k: nat)
    requires Inv(s) && Enabled(s, LoseCredit(k))
    ensures Inv(Do(s, LoseCredit(k)))
  {
    SumWithout(s.posted, k, Int);
    assert s.posted[k] in s.posted;
    assert forall c :: c in Without(s.posted, k) ==> c in s.posted;
  }

  lemma WriteCreditKeepsInv(s: State, k: nat)
    requires Inv(s) && Enabled(s, WriteCredit(k))
    ensures Inv(Do(s, WriteCredit(k)))
  {
    var t := Do(s, WriteCredit(k));
    CreditSize(s, k);
    SumWithout(s.posted, k, Int);
    CreditRoundTrip(s.posted[k]);
    SumPush(s.ackWire, CreditBytes(s.posted[k]), CreditOf);
    assert forall c :: c in t.posted ==> c in s.posted;
  }

  /** A report never takes pendingConsumed beyond int32: all credit in flight was sent under the window. */
  lemma ReportSize(s: State, k: nat)
    requires Inv(s) && k < |s.toReport|
    ensures 0 <= s.pending + s.toReport[k] < 0x8000_0000
  {
    SumsNonNegative(s);
    Contains(s.toReport, k, Int);
    WindowBounds(s);
  }

  lemma CreditSize(s: State, k: nat)
    requires Inv(s) && k < |s.posted|
    ensures 0 <= s.posted[k] < 0x8000_0000
  {
    SumsNonNegative(s);
    Contains(s.posted, k, Int);
    WindowBounds(s);
  }

  lemma AckStepKeepsInv(s: State, step: Step)
    requires Inv(s) && Enabled(s, step)
    requires step.AckReadLoop? || step.AckTakeWork? || step.AckApply?
    ensures Inv(Do(s, step))
  {
    var t := Do(s, step);
    match step
    case AckReadLoop => SumPush(s.ackWork, s.ackWire[0], CreditOf);
    case AckTakeWork => SumPush(s.ackHeld, s.ackWork[0], CreditOf);
    case AckApply(k) =>
      SumWithout(s.ackHeld, k, CreditOf);
      assert s.ackHeld[k] in s.ackHeld;
      assert forall a :: a in t.ackHeld ==> a in s.ackHeld;
      SumsNonNegative(s);
      SumsNonNegative(t);
      assert CreditInFlight(t) == CreditInFlight(s) - CreditOf(s.ackHeld[k]);
      WindowBounds(s);
  }

  lemma StepKeepsInv(s: State, step: Step)
    requires Inv(s) && Enabled(s, step)
    ensures Inv(Do(s, step))
  {
    match step
    case PassWindow(i, data) => PassKeepsInv(s, i, data);
    case Debit(i) => DebitKeepsInv(s, i);
    case Enqueue(i) => EnqueueKeepsInv(s, i);
    case Read(size) => ReadKeepsInv(s, size);
    case Report(k, elapsed) => ReportKeepsInv(s, k, elapsed);
    case WriteCredit(k) => WriteCreditKeepsInv(s, k);
    case LoseCredit(k) => LoseCreditKeepsInv(s, k);
    case AckReadLoop => AckStepKeepsInv(s, step);
    case AckTakeWork => AckStepKeepsInv(s, step);
    case AckApply(_) => AckStepKeepsInv(s, step);
    case _ => DataStepKeepsInv(s, step);
  }

  // ---------------------------------------------------------------- runs

  /** A run: consecutive states are related by an enabled step. */
  ghost predicate Related(s: State, t: State) {
    exists step :: Enabled(s, step) && t == Do(s, step)
  }

  ghost predicate IsRun(run: seq<State>, n: nat) {
    && run != [] && run[0] == Init(n)
    && forall i :: 0 <= i < |run| - 1 ==> Related(run[i], run[i + 1])
  }

  ghost predicate Reachable(s: State, n: nat) {
    exists run :: IsRun(run, n) && run[|run| - 1] == s
  }

  lemma {:induction false} RunKeepsInv(run: seq<State>, n: nat)
    requires 1 <= n <= 2047 && IsRun(run, n)
    ensures Inv(run[|run| - 1]) && |run[|run| - 1].senders| == n
  {
    if |run| == 1 {
      InitInv(n);
    } else {
      var before := run[..|run| - 1];
      forall i | 0 <= i < |before| - 1 ensures Related(before[i], before[i + 1]) {
        assert Related(run[i], run[i + 1]);
      }
      RunKeepsInv(before, n);
      assert Related(run[|run| - 2], run[|run| - 1]);
      var step :| Enabled(run[|run| - 2], step) && run[|run| - 1] == Do(run[|run| - 2], step);
      StepKeepsInv(run[|run| - 2], step);
    }
  }

  /**
   * Credit conservation for every reachable state with any number of senders, and, with the single
   * sender that io.Copy gives a channel, the window stays in 0..2^20 and at most one window of data
   * is on its way.
   */
  lemma CreditConserved(s: State, n: nat)
    requires 1 <= n <= 2047 && Reachable(s, n)
    ensures s.window + InTransit(s) + s.spoiled + CreditInFlight(s) == WINDOW_SIZE
    ensures -WINDOW_SIZE * (n - 1) <= s.window <= WINDOW_SIZE
    ensures 0 <= s.pending < WINDOW_THRESHOLD
    ensures n == 1 ==> 0 <= s.window && InTransit(s) <= WINDOW_SIZE && CreditInFlight(s) <= WINDOW_SIZE
  {
    var run :| IsRun(run, n) && run[|run| - 1] == s;
    RunKeepsInv(run, n);
    WindowBounds(s);
    SumsNonNegative(s);
  }

  lemma ReachableStep(s: State, n: nat, step: Step)
    requires Reachable(s, n) && Enabled(s, step)
    ensures Reachable(Do(s, step), n)
  {
    var run :| IsRun(run, n) && run[|run| - 1] == s;
    var longer := run + [Do(s, step)];
    assert Related(s, Do(s, step));
    forall i | 0 <= i < |longer| - 1 ensures Related(longer[i], longer[i + 1]) {
      assert i < |run| - 1 ==> Related(run[i], run[i + 1]);
    }
    assert IsRun(longer, n) && longer[|longer| - 1] == Do(s, step);
  }

  lemma InitReachable(n: nat)
    ensures Reachable(Init(n), n)
  {
    assert IsRun([Init(n)], n);
  }

  // ---------------------------------------------------------------- progress

  /** Everything but the arrival of new data; a reader that passes an empty buffer does nothing. */
  predicate Internal(step: Step) {
    !step.PassWindow? && (step.Read? ==> step.size > 0)
  }

  /** The Read buffer is large enough for the whole next frame, and window updates are written. */
  predicate Covers(s: State, step: Step) {
    && (step.Read? ==> s.leftover == [] && s.dataChan != [] && step.size >= |s.dataChan[0]|)
    && !step.LoseCredit?
  }

  /** Nothing is left to do until a Send passes the window check. */
  predicate Drained(s: State) {
    && (forall x :: x in s.senders ==> x.Idle?)
    && s.sendQueue == [] && s.wire == [] && s.workChan == [] && s.held == [] && s.dataChan == []
    && s.leftover == [] && s.toReport == [] && s.posted == []
    && s.ackWire == [] && s.ackWork == [] && s.ackHeld == []
  }

  /** The bounded queues cannot deadlock: some internal step is possible until everything is drained. */
  lemma NoDeadlock(s: State) returns (step: Step)
    requires !s.failed && !Drained(s)
    ensures Internal(step) && Enabled(s, step) && (s.leftover == [] ==> Covers(s, step))
  {
    if s.leftover != [] { return Read(1); }
    if s.dataChan != [] { return Read(|s.dataChan[0]| + 1); }
    if s.held != [] { return Dispatch(0); }
    if s.workChan != [] { return TakeWork; }
    if s.wire != [] { return ReadLoop; }
    if s.sendQueue != [] { return WriteLoop; }
    if s.toReport != [] { return Report(0, false); }
    if s.posted != [] { return WriteCredit(0); }
    if s.ackHeld != [] { return AckApply(0); }
    if s.ackWork != [] { return AckTakeWork; }
    if s.ackWire != [] { return AckReadLoop; }
    var x :| x in s.senders && !x.Idle?;
    var i :| 0 <= i < |s.senders| && s.senders[i] == x;
    return if x.Passed? then Debit(i) else Enqueue(i);
  }

  function Weight(k: nat): Data -> int { (d: Data) => |d| + k }
  function Count<T>(k: nat): T -> int { (x: T) => k }
  function SenderWeight(x: Sender): int {
    match x case Idle => 0 case Passed(d) => |d| + 15 case Debited(d) => |d| + 14
  }

  /** How far the data and credit in the pipeline still have to travel. */
  function Work(s: State): int {
    Sum(s.senders, SenderWeight) + Sum(s.sendQueue, Weight(13)) + Sum(s.wire, Weight(12))
    + Sum(s.workChan, Weight(11)) + Sum(s.held, Weight(10)) + Sum(s.dataChan, Weight(9)) + |s.leftover|
    + Sum(s.toReport, Count<int>(6)) + Sum(s.posted, Count<int>(5))
    + Sum(s.ackWire, Count<Data>(4)) + Sum(s.ackWork, Count<Data>(3)) + Sum(s.ackHeld, Count<Data>(2))
  }

  lemma WorkNonNegative(s: State)
    ensures Work(s) >= 0
  {
    NonNegative(s.senders, SenderWeight);
    NonNegative(s.sendQueue, Weight(13)); NonNegative(s.wire, Weight(12)); NonNegative(s.workChan, Weight(11));
    NonNegative(s.held, Weight(10)); NonNegative(s.dataChan, Weight(9));
    NonNegative(s.toReport, Count<int>(6)); NonNegative(s.posted, Count<int>(5));
    NonNegative(s.ackWire, Count<Data>(4));
    NonNegative(s.ackWork, Count<Data>(3));
    NonNegative(s.ackHeld, Count<Data>(2));
  }

  /** Every internal step brings the pipeline closer to empty, so no run of them goes on for ever. */
  lemma InternalStepsEnd(s: State, step: Step)
    requires Enabled(s, step) && Internal(step)
    ensures Do(s, step).failed || Work(Do(s, step)) < Work(s)
  {
    match step
    case Debit(i) => SumUpdate(s.senders, i, Debited(s.senders[i].data), SenderWeight);
    case Enqueue(i) =>
      SumUpdate(s.senders, i, Idle, SenderWeight);
      SumPush(s.sendQueue, s.senders[i].data, Weight(13));
    case WriteLoop => SumPush(s.wire, s.sendQueue[0], Weight(12));
    case ReadLoop => SumPush(s.workChan, s.wire[0], Weight(11));
    case TakeWork => SumPush(s.held, s.workChan[0], Weight(10));
    case Dispatch(k) => SumWithout(s.held, k, Weight(10)); SumPush(s.dataChan, s.held[k], Weight(9));
    case Read(size) => if s.dataChan != [] { SumPush(s.toReport, |s.dataChan[0]|, Count<int>(6)); }
    case Report(k, elapsed) =>
      SumWithout(s.toReport, k, Count<int>(6));
      SumPush(s.posted, Accumulate(s.pending, s.toReport[k], true).1.value, Count<int>(5));
    case WriteCredit(k) =>
      SumWithout(s.posted, k, Count<int>(5));
      SumPush(s.ackWire, CreditBytes(s.posted[k]), Count<Data>(4));
    case LoseCredit(k) => SumWithout(s.posted, k, Count<int>(5));
    case AckReadLoop => SumPush(s.ackWork, s.ackWire[0], Count<Data>(3));
    case AckTakeWork => SumPush(s.ackHeld, s.ackWork[0], Count<Data>(2));
    case AckApply(k) => SumWithout(s.ackHeld, k, Count<Data>(2));
  }

  // ---------------------------------------------------------------- starvation

  /** Once drained, all credit is back except what was lost for good and what is still accumulating. */
  lemma DrainedWindow(s: State)
    requires Inv(s) && Drained(s)
    ensures s.window == WINDOW_SIZE - s.spoiled - s.pending
  {
    SumBound(s.senders, DebitedLen, 0, 0);
  }

  ghost predicate CoveringRelated(s: State, t: State) {
    exists step :: Enabled(s, step) && Covers(s, step) && t == Do(s, step)
  }

  ghost predicate IsCoveringRun(run: seq<State>, n: nat) {
    && run != [] && run[0] == Init(n)
    && forall i :: 0 <= i < |run| - 1 ==> CoveringRelated(run[i], run[i + 1])
  }

  /** Reached with Read buffers that always covered the whole next frame, and no window update lost. */
  ghost predicate CoveringReachable(s: State, n: nat) {
    exists run :: IsCoveringRun(run, n) && run[|run| - 1] == s
  }

  lemma {:induction false} CoveringRunSpoilsNothing(run: seq<State>, n: nat)
    requires 1 <= n <= 2047 && IsCoveringRun(run, n)
    ensures Inv(run[|run| - 1]) && |run[|run| - 1].senders| == n
    ensures run[|run| - 1].spoiled == 0
  {
    if |run| == 1 {
      InitInv(n);
    } else {
      var before := run[..|run| - 1];
      forall i | 0 <= i < |before| - 1 ensures CoveringRelated(before[i], before[i + 1]) {
        assert CoveringRelated(run[i], run[i + 1]);
      }
      CoveringRunSpoilsNothing(before, n);
      CoveringStepSpoilsNothing(run[|run| - 2], run[|run| - 1]);
    }
  }

  lemma CoveringStepSpoilsNothing(s: State, t: State)
    requires Inv(s) && s.spoiled == 0 && CoveringRelated(s, t)
    ensures Inv(t) && t.spoiled == 0 && |t.senders| == |s.senders|
  {
    var step :| Enabled(s, step) && Covers(s, step) && t == Do(s, step);
    StepKeepsInv(s, step);
  }

  lemma CoveringStep(s: State, n: nat, step: Step)
    requires CoveringReachable(s, n) && Enabled(s, step) && Covers(s, step)
    ensures CoveringReachable(Do(s, step), n)
  {
    var run :| IsCoveringRun(run, n) && run[|run| - 1] == s;
    var longer := run + [Do(s, step)];
    assert CoveringRelated(s, Do(s, step));
    forall i | 0 <= i < |longer| - 1 ensures CoveringRelated(longer[i], longer[i + 1]) {
      assert i < |run| - 1 ==> CoveringRelated(run[i], run[i + 1]);
    }
    assert IsCoveringRun(longer, n) && longer[|longer| - 1] == Do(s, step);
  }

  /**
   * No starvation when every Read buffer covers a whole frame: after draining, the window is above
   * 2^20 - 2^14, so the wait loop of Send lets any frame up to MaxFrameSize through.
   */
  lemma NoStarvation(s: State, n: nat, data: Data)
    requires 1 <= n <= 2047 && CoveringReachable(s, n) && Drained(s) && !s.failed
    ensures s.window > WINDOW_SIZE - WINDOW_THRESHOLD
    ensures |data| <= MAX_FRAME_SIZE ==> Enabled(s, PassWindow(0, data))
  {
    var run :| IsCoveringRun(run, n) && run[|run| - 1] == s;
    CoveringRunSpoilsNothing(run, n);
    DrainedWindow(s);
    assert s.senders[0] in s.senders;
  }

  /** From every state so reached, internal steps alone lead on to a drained one (or to a refused frame). */
  lemma {:induction false} CanDrain(s: State, n: nat) returns (t: State)
    requires 1 <= n <= 2047 && CoveringReachable(s, n)
    ensures CoveringReachable(t, n) && (t.failed || Drained(t))
    decreases Work(s)
  {
    var run :| IsCoveringRun(run, n) && run[|run| - 1] == s;
    CoveringRunSpoilsNothing(run, n);
    if s.failed || Drained(s) {
      return s;
    }
    var step := NoDeadlock(s);
    CoveringStep(s, n, step);
    if Do(s, step).failed {
      return Do(s, step);
    }
    InternalStepsEnd(s, step);
    WorkNonNegative(Do(s, step));
    t := CanDrain(Do(s, step), n);
  }

  /** Credit lost to partial reads or failed window updates never comes back, whatever happens next. */
  lemma SpoiledIsLost(s: State, step: Step)
    requires Inv(s) && Enabled(s, step)
    ensures Do(s, step).spoiled >= s.spoiled
    ensures step.Read? && s.leftover == [] && step.size < |s.dataChan[0]|
            ==> Do(s, step).spoiled == s.spoiled + |s.dataChan[0]|
    ensures step.LoseCredit? ==> Do(s, step).spoiled == s.spoiled + s.posted[step.index]
    ensures s.window <= WINDOW_SIZE - s.spoiled
  {
    SumsNonNegative(s);
    if step.LoseCredit? { assert s.posted[step.index] in s.posted; }
  }

  /** In a drained state a frame gets through the window check exactly when it fits what is left. */
  lemma DrainedSendIff(s: State, data: Data)
    requires Inv(s) && Drained(s) && !s.failed
    ensures Enabled(s, PassWindow(0, data)) <==> |data| <= WINDOW_SIZE - s.spoiled - s.pending
  {
    DrainedWindow(s);
    assert s.senders[0] in s.senders;
  }

  /** One Send from the window check into sendQueue. */
  lemma Post(s: State, n: nat, data: Data) returns (t: State)
    requires Inv(s) && Drained(s) && !s.failed && Reachable(s, n) && n == |s.senders|
    requires |data| <= MAX_FRAME_SIZE && |data| <= s.window
    ensures Inv(t) && Reachable(t, n) && t == s.(window := s.window - |data|, sendQueue := [data])
  {
    assert s.senders[0] in s.senders;
    t := Advance(s, n, PassWindow(0, data));
    t := Advance(t, n, Debit(0));
    t := Advance(t, n, Enqueue(0));
    assert t.senders == s.senders;
    WindowBounds(s);
  }

  /** One frame sent and brought into the receiver's DataChan. */
  lemma Carry(s: State, n: nat, data: Data) returns (t: State)
    requires Inv(s) && Drained(s) && !s.failed && Reachable(s, n) && n == |s.senders|
    requires |data| <= MAX_FRAME_SIZE && |data| <= s.window
    ensures Inv(t) && Reachable(t, n) && t == s.(window := s.window - |data|, dataChan := [data])
  {
    t := Post(s, n, data);
    t := Advance(t, n, WriteLoop);
    assert t == s.(window := s.window - |data|, wire := [data]);
    t := Advance(t, n, ReadLoop);
    assert t == s.(window := s.window - |data|, workChan := [data]);
    t := Advance(t, n, TakeWork);
    assert t == s.(window := s.window - |data|, held := [data]);
    t := Advance(t, n, Dispatch(0));
  }

  /** One frame sent, carried over and read in two pieces. */
  lemma SpoilOneFrame(s: State, data: Data) returns (t: State)
    requires Inv(s) && Drained(s) && !s.failed && Reachable(s, |s.senders|)
    requires 2 <= |data| <= MAX_FRAME_SIZE && |data| <= s.window
    ensures Inv(t) && Drained(t) && !t.failed && Reachable(t, |t.senders|) && |t.senders| == |s.senders|
    ensures t.window == s.window - |data|
  {
    t := Carry(s, |s.senders|, data);
    t := Advance(t, |s.senders|, Read(1));
    t := Advance(t, |s.senders|, Read(|data|));
  }

  lemma Advance(s: State, n: nat, step: Step) returns (t: State)
    requires Inv(s) && Reachable(s, n) && Enabled(s, step)
    ensures t == Do(s, step) && Inv(t) && Reachable(t, n)
  {
    t := Do(s, step);
    StepKeepsInv(s, step);
    ReachableStep(s, n, step);
  }

  /** Sixteen frames of the maximal size, each read in two pieces, leave 16 bytes of window. */
  lemma NearlyStarved(n: nat) returns (s: State)
    requires 1 <= n <= 2047
    ensures Inv(s) && Reachable(s, n) && Drained(s) && !s.failed && |s.senders| == n && s.window == 16
  {
    var frame: Data := seq(MAX_FRAME_SIZE, i => 0);
    InitInv(n);
    InitReachable(n);
    s := Init(n);
    for k := 0 to 16
      invariant Inv(s) && Drained(s) && !s.failed && |s.senders| == n && Reachable(s, n)
      invariant s.window == WINDOW_SIZE - k * MAX_FRAME_SIZE
    {
      s := SpoilOneFrame(s, frame);
    }
  }

  /**
   * Partial reads starve a channel for good: sixteen frames of the maximal size, each read in two
   * pieces, leave a drained state whose window admits 16 bytes and no more.
   */
  lemma PartialReadsStarve() returns (s: State)
    ensures Reachable(s, 1) && Drained(s) && !s.failed && s.window == 16
    ensures forall data: Data :: Enabled(s, PassWindow(0, data)) <==> |data| <= 16
  {
    s := NearlyStarved(1);
    assert s.senders[0] in s.senders;
  }

  /** Bounded everywhere: the queues, and the frames in workers' hands. */
  ghost predicate Bounded(s: State) {
    && |s.sendQueue| <= 64 && |s.workChan| <= 64 && |s.held| <= 4 && |s.dataChan| <= 32
    && |s.ackWork| <= 64 && |s.ackHeld| <= 4
  }

  lemma StepKeepsBounded(s: State, step: Step)
    requires Bounded(s) && Enabled(s, step)
    ensures Bounded(Do(s, step))
  {}

  lemma {:induction false} RunBounded(run: seq<State>, n: nat)
    requires IsRun(run, n)
    ensures Bounded(run[|run| - 1])
  {
    if |run| > 1 {
      var before := run[..|run| - 1];
      forall i | 0 <= i < |before| - 1 ensures Related(before[i], before[i + 1]) {
        assert Related(run[i], run[i + 1]);
      }
      RunBounded(before, n);
      assert Related(run[|run| - 2], run[|run| - 1]);
      var step :| Enabled(run[|run| - 2], step) && run[|run| - 1] == Do(run[|run| - 2], step);
      StepKeepsBounded(run[|run| - 2], step);
    }
  }

  /** In every reachable state no queue holds more than the program gives it. */
  lemma QueuesBounded(s: State, n: nat)
    requires Reachable(s, n)
    ensures |s.sendQueue| <= 64 && |s.workChan| <= 64 && |s.held| <= 4 && |s.dataChan| <= 32
  {
    var run :| IsRun(run, n) && run[|run| - 1] == s;
    RunBounded(run, n);
  }

  /** A frame stops the multiplexer exactly when its data is longer than 65535 bytes. */
  lemma RefusedIff(s: State)
    requires Enabled(s, WriteLoop)
    ensures Do(s, WriteLoop).failed <==> |s.sendQueue[0]| > 65535
    ensures !Do(s, WriteLoop).failed ==> Do(s, WriteLoop).wire == s.wire + [s.sendQueue[0]]
  {}

  // ---------------------------------------------------------------- several senders

  /**
   * Checking the window and taking from it are two atomic operations: with little window left, two
   * senders of small frames both pass the check and overdraw it, and both frames can be sent.
   */
  lemma TwoSendersOverdraw(n: nat) returns (s: State)
    requires 2 <= n <= 2047
    ensures Reachable(s, n) && s.window < 0 && !s.failed
    ensures forall x :: x in s.senders ==> x.Idle? || (x.Debited? && |x.data| <= MAX_FRAME_SIZE)
  {
    var frame: Data := seq(16, i => 0);
    s := NearlyStarved(n);
    assert s.senders[0] in s.senders && s.senders[1] in s.senders;
    var senders := s.senders;
    s := Advance(s, n, PassWindow(0, frame));
    s := Advance(s, n, PassWindow(1, frame));
    assert s.senders == senders[0 := Passed(frame)][1 := Passed(frame)] && s.window == 16;
    s := Advance(s, n, Debit(0));
    s := Advance(s, n, Debit(1));
  }

  /**
   * One Send by itself passes the int32 check and overdraws a window exactly when its length is 2^31 or
   * up to the window more, which int32 makes negative.
   */
  lemma OneSendOverdrawsIff(window: int, length: int)
    requires 0 <= window < 0x8000_0000 && 0 <= length < 0x1_0000_0000
    ensures window >= Wrap32(length) && Wrap32(window - Wrap32(length)) < 0
            <==> 0x8000_0000 <= length <= 0x8000_0000 + window
  {
    if length < 0x8000_0000 {
      assert Wrap32(length) == length;
    } else {
      assert Wrap32(length) == length - 0x1_0000_0000;
      var sum := window + 0x1_0000_0000 - length;
      assert 0 < sum < 0x1_0000_0000;
      assert Wrap32(sum) == if sum < 0x8000_0000 then sum else sum - 0x1_0000_0000;
    }
  }

  /** With Sends below 2^31 bytes the window is never overdrawn exactly when a channel has one sender at a time. */
  lemma NeverOverdrawnIffOneSender(n: nat)
    requires 1 <= n <= 2047
    ensures (forall s :: Reachable(s, n) ==> s.window >= 0) <==> n == 1
  {
    if n == 1 {
      forall s | Reachable(s, n) ensures s.window >= 0 { CreditConserved(s, n); }
    } else {
      var s := TwoSendersOverdraw(n);
    }
  }
}
