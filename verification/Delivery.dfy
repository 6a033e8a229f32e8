// In-order delivery through the multiplexer of common/mux/mux.go: what its data-integrity tests
// expect holds for one worker and fails for two or more.
module Delivery {
  import opened Wrappers
  import opened Bytes
  import opened Flow
  import opened Credit

  /** A protocol state with the bytes enqueued so far and the bytes Read has returned so far. */
  datatype History = History(s: State, sent: Data, got: Data)

  /** Everything between enqueueFrame and Read, front of the stream first. */
  function Pipeline(s: State): Data {
    s.leftover + Flatten(s.dataChan + s.held + s.workChan + s.wire + s.sendQueue)
  }

  function Advance(h: History, step: Step): History
    requires Enabled(h.s, step)
  {
    match step
    case Enqueue(i) => History(Do(h.s, step), h.sent + h.s.senders[i].data, h.got)
    case Read(size) =>
      var out := ReadStep(AsReader(h.s), size).1;
      History(Do(h.s, step), h.sent, if out.Got? then h.got + out.data else h.got)
    case _ => History(Do(h.s, step), h.sent, h.got)
  }

  /** The step leaves no more than `workers` frames in workers' hands. */
  ghost predicate Follows(h: History, h': History, workers: nat) {
    exists step :: Enabled(h.s, step) && h' == Advance(h, step) && |h'.s.held| <= workers
  }

  ghost predicate IsHistory(run: seq<History>, n: nat, workers: nat) {
    && run != [] && run[0] == History(Init(n), [], [])
    && forall i :: 0 <= i < |run| - 1 ==> Follows(run[i], run[i + 1], workers)
  }

  ghost predicate Possible(h: History, n: nat, workers: nat) {
    exists run :: IsHistory(run, n, workers) && run[|run| - 1] == h
  }

  ghost predicate InOrder(h: History) {
    h.got + Pipeline(h.s) == h.sent
  }

  /** Moving a frame one stage on leaves the stream as it was. */
  lemma SameFrames(s: State, t: State)
    requires s.leftover == t.leftover
    requires s.dataChan + s.held + s.workChan + s.wire + s.sendQueue
             == t.dataChan + t.held + t.workChan + t.wire + t.sendQueue
    ensures Pipeline(s) == Pipeline(t)
  {}

  lemma MoveInOrder(h: History, step: Step)
    requires InOrder(h) && Enabled(h.s, step) && |h.s.held| <= 1
    requires step.WriteLoop? || step.ReadLoop? || step.TakeWork? || step.Dispatch?
    ensures InOrder(Advance(h, step))
  {
    var s, t := h.s, Advance(h, step).s;
    assert s.dataChan + s.held + s.workChan + s.wire + s.sendQueue
           == t.dataChan + t.held + t.workChan + t.wire + t.sendQueue;
    SameFrames(s, t);
  }

  lemma EnqueueInOrder(h: History, i: nat)
    requires InOrder(h) && Enabled(h.s, Enqueue(i))
    ensures InOrder(Advance(h, Enqueue(i)))
  {
    var s, t, data := h.s, Advance(h, Enqueue(i)).s, h.s.senders[i].data;
    var front := s.dataChan + s.held + s.workChan + s.wire;
    assert front + t.sendQueue == front + s.sendQueue + [data];
    FlattenAppend(front + s.sendQueue, [data]);
    assert Flatten([data]) == data;
  }

  function AsReader(s: State): ReaderState { ReaderState(s.leftover, s.dataChan, false) }

  lemma PipelineSplit(s: State, back: seq<Data>)
    requires back == s.held + s.workChan + s.wire + s.sendQueue
    ensures Pipeline(s) == Unread(AsReader(s)) + Flatten(back)
  {
    assert s.dataChan + s.held + s.workChan + s.wire + s.sendQueue == s.dataChan + back;
    FlattenAppend(s.dataChan, back);
  }

  lemma ReadInOrder(h: History, size: nat)
    requires InOrder(h) && Enabled(h.s, Read(size))
    ensures InOrder(Advance(h, Read(size)))
  {
    var s, h' := h.s, Advance(h, Read(size));
    var back := s.held + s.workChan + s.wire + s.sendQueue;
    var out := ReadStep(AsReader(s), size).1;
    ReadTakesPrefix(AsReader(s), size);
    PipelineSplit(s, back);
    PipelineSplit(h'.s, back);
    var unread := Unread(AsReader(h'.s));
    assert AsReader(h'.s) == ReadStep(AsReader(s), size).0;
    Assoc(out.data, unread, Flatten(back));
    Assoc(h.got, out.data, unread + Flatten(back));
  }

  lemma StepInOrder(h: History, step: Step)
    requires InOrder(h) && Enabled(h.s, step) && |h.s.held| <= 1
    ensures InOrder(Advance(h, step))
  {
    match step
    case Enqueue(i) => EnqueueInOrder(h, i);
    case Read(size) => ReadInOrder(h, size);
    case WriteLoop => MoveInOrder(h, step);
    case ReadLoop => MoveInOrder(h, step);
    case TakeWork => MoveInOrder(h, step);
    case Dispatch(_) => MoveInOrder(h, step);
    case _ =>
  }

  lemma {:induction false} OneWorkerInOrder(run: seq<History>, n: nat)
    requires IsHistory(run, n, 1)
    ensures InOrder(run[|run| - 1]) && |run[|run| - 1].s.held| <= 1
  {
    if |run| > 1 {
      var before := run[..|run| - 1];
      forall i | 0 <= i < |before| - 1 ensures Follows(before[i], before[i + 1], 1) {
        assert Follows(run[i], run[i + 1], 1);
      }
      OneWorkerInOrder(before, n);
      var h, h' := run[|run| - 2], run[|run| - 1];
      assert Follows(h, h', 1);
      var step :| Enabled(h.s, step) && h' == Advance(h, step) && |h'.s.held| <= 1;
      StepInOrder(h, step);
    }
  }

  lemma Extend(h: History, n: nat, workers: nat, step: Step) returns (h': History)
    requires Possible(h, n, workers) && Enabled(h.s, step) && |Do(h.s, step).held| <= workers
    ensures h' == Advance(h, step) && Possible(h', n, workers)
  {
    h' := Advance(h, step);
    var run :| IsHistory(run, n, workers) && run[|run| - 1] == h;
    var longer := run + [h'];
    assert Follows(h, h', workers);
    forall i | 0 <= i < |longer| - 1 ensures Follows(longer[i], longer[i + 1], workers) {
      assert i < |run| - 1 ==> Follows(run[i], run[i + 1], workers);
    }
    assert IsHistory(longer, n, workers) && longer[|longer| - 1] == h';
  }

  /** With two workers a later frame can overtake an earlier one of the same port. */
  lemma TwoWorkersReorder(workers: nat) returns (h: History)
    requires workers >= 2
    ensures Possible(h, 1, workers) && h.sent == [1, 2] && h.got == [2]
  {
    h := History(Init(1), [], []);
    assert IsHistory([h], 1, workers);
    h := SendByte(h, workers, 1);
    h := SendByte(h, workers, 2);
    h := Extend(h, 1, workers, ReadLoop);
    h := Extend(h, 1, workers, ReadLoop);
    h := Extend(h, 1, workers, TakeWork);
    h := Extend(h, 1, workers, TakeWork);
    assert h.s.held == [[1], [2]];
    h := Extend(h, 1, workers, Dispatch(1));
    assert h.s.dataChan == [[2]];
    h := Extend(h, 1, workers, Read(1));
  }

  lemma SendByte(h: History, workers: nat, b: byte) returns (h': History)
    requires Possible(h, 1, workers) && !h.s.failed && h.s.senders == [Idle] && h.s.sendQueue == []
    requires h.s.held == [] && WINDOW_SIZE - 2 < h.s.window <= WINDOW_SIZE
    ensures Possible(h', 1, workers) && h'.sent == h.sent + [b] && h'.got == h.got
    ensures h'.s == h.s.(window := h.s.window - 1, wire := h.s.wire + [[b]])
  {
    h' := Extend(h, 1, workers, PassWindow(0, [b]));
    h' := Extend(h', 1, workers, Debit(0));
    h' := Extend(h', 1, workers, Enqueue(0));
    assert h'.s.senders == [Idle] && h'.s.sendQueue == [[b]];
    h' := Extend(h', 1, workers, WriteLoop);
  }

  /** What a channel's reader gets is a prefix of what was enqueued, in every run, exactly with one worker. */
  lemma InOrderIffOneWorker(workers: nat)
    requires 1 <= workers <= WORKER_COUNT
    ensures (forall h, n :: Possible(h, n, workers) ==> h.got <= h.sent) <==> workers == 1
  {
    if workers == 1 {
      forall h, n | Possible(h, n, workers) ensures h.got <= h.sent {
        var run :| IsHistory(run, n, workers) && run[|run| - 1] == h;
        OneWorkerInOrder(run, n);
      }
    } else {
      var h := TwoWorkersReorder(workers);
      assert Possible(h, 1, workers) && h.got[0] != h.sent[0];
    }
  }
}
