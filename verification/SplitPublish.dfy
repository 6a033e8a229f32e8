// Publish as BBgrid_Server/runtime/eventbus.go splits it: an event is numbered in one critical section and
// put into its queue in another, and other publishers, workers and Close run in between.
module SplitPublish {
  import opened Wrappers
  import opened Keys
  import opened Events
  import opened EventBus

  // inHand: events that are numbered and not yet put into a queue, oldest number first.
  // stopped: Close has closed the queues.
  datatype Split = Split(bus: Bus, stopped: bool, inHand: seq<Event>)

  const NEW_SPLIT := Split(NEW_BUS, false, [])

  datatype SplitOp =
    | NumberOp(e: Event)
    | EnqueueOp(i: nat)          // any publisher in between may be the next one
    | BusOp(op: BusOp)           // subscribing, unsubscribing, delivering, and Close marking the bus closed
    | StopOp

  /** The event that this step puts into a queue, if it is one that does. */
  function Enqueued(s: Split, op: SplitOp): Option<Event> {
    if op.EnqueueOp? && op.i < |s.inHand| && !s.stopped
       && |Queue(s.bus.queues, s.inHand[op.i].resource.rtype)| < QUEUE_SIZE
    then Some(s.inHand[op.i]) else None
  }

  /** A step of its own for each critical section; whoever finds a full or closed queue drops its event. */
  ghost predicate SplitStep(s: Split, op: SplitOp, s': Split) {
    match op
    case NumberOp(e) =>
      if s.bus.closed then s' == s
      else
        var (b, numbered) := Number(s.bus, e);
        s' == s.(bus := b, inHand := if e.resource.rtype in b.subs then s.inHand + [numbered] else s.inHand)
    case EnqueueOp(i) =>
      && i < |s.inHand|
      && s' == s.(bus := if s.stopped then s.bus else Enqueue(s.bus, s.inHand[i]), inHand := Without(s.inHand, i))
    case BusOp(op) => !op.PublishOp? && BusEnabled(s.bus, op) && s' == s.(bus := BusStep(s.bus, op))
    case StopOp => s.bus.closed && s' == s.(stopped := true)
  }

  ghost predicate IsSplitRun(ss: seq<Split>, ops: seq<SplitOp>) {
    && |ss| == |ops| + 1 && ss[0] == NEW_SPLIT
    && forall i :: 0 <= i < |ops| ==> SplitStep(ss[i], ops[i], ss[i + 1])
  }

  // ---------------------------------------------------------------- what survives the split

  lemma SplitStepKeeps(s: Split, op: SplitOp, s': Split)
    requires QueueInv(s.bus) && SplitStep(s, op, s')
    ensures QueueInv(s'.bus)
  {
    match op
    case NumberOp(_) => SameQueues(s.bus, s'.bus);
    case EnqueueOp(i) => EnqueueKeeps(s.bus, s.inHand[i]);
    case BusOp(op) =>
      match op {
        case DeliverOp(rtype) => DeliverKeepsQueues(s.bus, rtype);
        case _ => SameQueues(s.bus, s'.bus);
      }
    case StopOp =>
  }

  /**
   * Over every run with Publish split: each queue holds at most 256 events of its type, deliveries
   * follow the order in which events were put into the queue, each accepted event is delivered or
   * still queued, and the calls are those of the deliveries.
   */
  lemma {:induction false} SplitDelivery(ss: seq<Split>, ops: seq<SplitOp>)
    requires IsSplitRun(ss, ops)
    ensures QueueInv(ss[|ops|].bus)
  {
    if ops != [] {
      var n := |ops| - 1;
      SplitDelivery(ss[..n + 1], ops[..n]);
      SplitStepKeeps(ss[n], ops[n], ss[n + 1]);
    }
  }

  // ---------------------------------------------------------------- when the numbers increase

  /** The events of a type put into its queue by step number. */
  function PutBy(ss: seq<Split>, ops: seq<SplitOp>, rtype: string): nat -> Option<Event>
    requires |ops| <= |ss|
  {
    (i: nat) =>
      if i < |ops| && Enqueued(ss[i], ops[i]).Some? && Enqueued(ss[i], ops[i]).value.resource.rtype == rtype
      then Enqueued(ss[i], ops[i]) else None
  }

  function Collect(put: nat -> Option<Event>, n: nat): seq<Event> {
    if n == 0 then [] else Collect(put, n - 1) + match put(n - 1) case None => [] case Some(e) => [e]
  }

  lemma {:induction false} CollectMembers(put: nat -> Option<Event>, n: nat)
    ensures forall e :: e in Collect(put, n) <==> exists i: nat :: i < n && put(i) == Some(e)
  {
    if n > 0 {
      CollectMembers(put, n - 1);
      var before, e := Collect(put, n - 1), put(n - 1);
      assert forall x :: x in Collect(put, n) <==> x in before || e == Some(x);
    }
  }

  /** Later steps put events with larger numbers. */
  ghost predicate Ordered(put: nat -> Option<Event>, n: nat) {
    forall i: nat, j: nat :: i < j < n && put(i).Some? && put(j).Some? ==> put(i).value.sequence < put(j).value.sequence
  }

  lemma IncreasingPush(es: seq<Event>, e: Event)
    ensures Increasing(es + [e]) <==> Increasing(es) && forall x :: x in es ==> x.sequence < e.sequence
  {
    var longer := es + [e];
    assert forall i :: 0 <= i < |es| ==> longer[i] == es[i];
    assert longer[|es|] == e;
  }

  lemma CollectBelow(put: nat -> Option<Event>, n: nat, number: int)
    ensures (forall x :: x in Collect(put, n) ==> x.sequence < number)
            <==> (forall i: nat :: i < n && put(i).Some? ==> put(i).value.sequence < number)
  {
    CollectMembers(put, n);
    assert forall i: nat :: i < n && put(i).Some? ==> put(i).value in Collect(put, n);
  }

  lemma {:induction false} CollectIncreasingIff(put: nat -> Option<Event>, n: nat)
    ensures Increasing(Collect(put, n)) <==> Ordered(put, n)
  {
    if n > 0 {
      CollectIncreasingIff(put, n - 1);
      match put(n - 1)
      case None => assert Collect(put, n) == Collect(put, n - 1);
      case Some(e) =>
        CollectBelow(put, n - 1, e.sequence);
        IncreasingPush(Collect(put, n - 1), e);
    }
  }

  /** Accepted events are those put into the queue, in that order. */
  lemma {:induction false} AcceptedAre(ss: seq<Split>, ops: seq<SplitOp>, n: nat, rtype: string)
    requires IsSplitRun(ss, ops) && n <= |ops|
    ensures OfType(ss[n].bus.accepted, rtype) == Collect(PutBy(ss, ops, rtype), n)
  {
    if n > 0 {
      AcceptedAre(ss, ops, n - 1, rtype);
      AcceptedNext(ss[n - 1], ops[n - 1], ss[n], rtype);
    }
  }

  lemma AcceptedNext(s: Split, op: SplitOp, s': Split, rtype: string)
    requires SplitStep(s, op, s')
    ensures OfType(s'.bus.accepted, rtype) ==
            OfType(s.bus.accepted, rtype)
            + match Enqueued(s, op) case None => [] case Some(e) => if e.resource.rtype == rtype then [e] else []
  {
    if Enqueued(s, op).Some? { OfTypePush(s.bus.accepted, Enqueued(s, op).value, rtype); }
  }

  // ---------------------------------------------------------------- which step numbered what

  /** The step numbers an event that will be put into a queue. */
  predicate Numbers(s: Split, op: SplitOp) {
    op.NumberOp? && !s.bus.closed && op.e.resource.rtype in s.bus.subs
  }

  /** For each event in hand after n steps, the step that numbered it. */
  function HandSteps(ss: seq<Split>, ops: seq<SplitOp>, n: nat): seq<nat>
    requires n <= |ops| <= |ss|
  {
    if n == 0 then []
    else
      var before := HandSteps(ss, ops, n - 1);
      if Numbers(ss[n - 1], ops[n - 1]) then before + [n - 1]
      else if ops[n - 1].EnqueueOp? && ops[n - 1].i < |before| then Without(before, ops[n - 1].i)
      else before
  }

  /** Step j is the second section of the publish whose first section was step k. */
  predicate Finishes(ss: seq<Split>, ops: seq<SplitOp>, j: nat, k: nat)
    requires j < |ops| <= |ss|
  {
    var hand := HandSteps(ss, ops, j);
    ops[j].EnqueueOp? && ops[j].i < |hand| && hand[ops[j].i] == k
  }

  /** The event as step k numbered it. */
  function NumberedBy(ss: seq<Split>, ops: seq<SplitOp>, k: nat): Event
    requires k < |ops| <= |ss| && ops[k].NumberOp?
  {
    ops[k].e.(sequence := ss[k].bus.seqNo + 1)
  }

  /** These events are in hand, numbered by these earlier steps, the oldest first. */
  ghost predicate Known(ss: seq<Split>, ops: seq<SplitOp>, n: nat, steps: seq<nat>, hand: seq<Event>)
    requires n <= |ops| <= |ss|
  {
    && |steps| == |hand|
    && (forall i :: 0 <= i < |steps| ==>
          steps[i] < n && Numbers(ss[steps[i]], ops[steps[i]]) && hand[i] == NumberedBy(ss, ops, steps[i]))
    && (forall i, j :: 0 <= i < j < |steps| ==> steps[i] < steps[j])
  }

  lemma KnownMore(ss: seq<Split>, ops: seq<SplitOp>, n: nat, steps: seq<nat>, hand: seq<Event>)
    requires n < |ops| <= |ss| && Known(ss, ops, n, steps, hand) && Numbers(ss[n], ops[n])
    ensures Known(ss, ops, n + 1, steps + [n], hand + [NumberedBy(ss, ops, n)])
  {}

  lemma KnownWithout(ss: seq<Split>, ops: seq<SplitOp>, n: nat, steps: seq<nat>, hand: seq<Event>, out: nat)
    requires n < |ops| <= |ss| && Known(ss, ops, n, steps, hand) && out < |steps|
    ensures Known(ss, ops, n + 1, Without(steps, out), Without(hand, out))
  {
    assert forall i :: 0 <= i < |steps| - 1 ==>
        && Without(steps, out)[i] == steps[if i < out then i else i + 1]
        && Without(hand, out)[i] == hand[if i < out then i else i + 1];
  }

  lemma {:induction false} HandIsKnown(ss: seq<Split>, ops: seq<SplitOp>, n: nat)
    requires IsSplitRun(ss, ops) && n <= |ops|
    ensures Known(ss, ops, n, HandSteps(ss, ops, n), ss[n].inHand)
  {
    if n > 0 {
      HandIsKnown(ss, ops, n - 1);
      assert SplitStep(ss[n - 1], ops[n - 1], ss[n]);
      var before := HandSteps(ss, ops, n - 1);
      if Numbers(ss[n - 1], ops[n - 1]) {
        KnownMore(ss, ops, n - 1, before, ss[n - 1].inHand);
      } else if ops[n - 1].EnqueueOp? {
        KnownWithout(ss, ops, n - 1, before, ss[n - 1].inHand, ops[n - 1].i);
      }
    }
  }

  lemma {:induction false} NumbersGrow(ss: seq<Split>, ops: seq<SplitOp>, k: nat, n: nat)
    requires IsSplitRun(ss, ops) && k <= n <= |ops|
    ensures ss[k].bus.seqNo <= ss[n].bus.seqNo
    ensures k < n && Numbers(ss[k], ops[k]) ==> ss[k].bus.seqNo < ss[n].bus.seqNo
  {
    if k < n {
      NumbersGrow(ss, ops, k, n - 1);
      assert SplitStep(ss[n - 1], ops[n - 1], ss[n]);
    }
  }

  /** Of the events of one type, the one numbered first is put into the queue first. */
  ghost predicate InNumberingOrder(ss: seq<Split>, ops: seq<SplitOp>, n: nat, rtype: string)
    requires n <= |ops| <= |ss|
  {
    forall i: nat, j: nat, k: nat, l: nat ::
      && i < j < n && PutBy(ss, ops, rtype)(i).Some? && PutBy(ss, ops, rtype)(j).Some?
      && Finishes(ss, ops, i, k) && Finishes(ss, ops, j, l)
      ==> k < l
  }

  /** Whatever is put into a queue was numbered by the step that it finishes. */
  lemma PutWasNumbered(ss: seq<Split>, ops: seq<SplitOp>, j: nat) returns (k: nat)
    requires IsSplitRun(ss, ops) && j < |ops| && Enqueued(ss[j], ops[j]).Some?
    ensures k < j && Finishes(ss, ops, j, k) && Numbers(ss[k], ops[k])
    ensures Enqueued(ss[j], ops[j]).value == NumberedBy(ss, ops, k)
  {
    HandIsKnown(ss, ops, j);
    assert SplitStep(ss[j], ops[j], ss[j + 1]);
    k := HandSteps(ss, ops, j)[ops[j].i];
  }

  lemma OrderedIff(ss: seq<Split>, ops: seq<SplitOp>, n: nat, rtype: string)
    requires IsSplitRun(ss, ops) && n <= |ops|
    ensures Ordered(PutBy(ss, ops, rtype), n) <==> InNumberingOrder(ss, ops, n, rtype)
  {
    var put := PutBy(ss, ops, rtype);
    forall i: nat, j: nat, k: nat, l: nat
      | i < j < n && put(i).Some? && put(j).Some? && Finishes(ss, ops, i, k) && Finishes(ss, ops, j, l)
      ensures k < l <==> put(i).value.sequence < put(j).value.sequence
    {
      var _ := PutWasNumbered(ss, ops, i);
      var _ := PutWasNumbered(ss, ops, j);
      if k < l {
        NumbersGrow(ss, ops, k, l);
      } else {
        NumbersGrow(ss, ops, l, k);
      }
    }
    forall i: nat, j: nat | i < j < n && put(i).Some? && put(j).Some?
      ensures exists k: nat, l: nat :: Finishes(ss, ops, i, k) && Finishes(ss, ops, j, l)
    {
      var k := PutWasNumbered(ss, ops, i);
      var l := PutWasNumbered(ss, ops, j);
    }
  }

  /**
   * Over every run the accepted numbers of a type increase exactly when the second sections that put
   * them into the queue run in the order of the first sections.
   */
  lemma IncreasingIff(ss: seq<Split>, ops: seq<SplitOp>, n: nat, rtype: string)
    requires IsSplitRun(ss, ops) && n <= |ops|
    ensures Increasing(OfType(ss[n].bus.accepted, rtype)) <==> InNumberingOrder(ss, ops, n, rtype)
  {
    AcceptedAre(ss, ops, n, rtype);
    CollectIncreasingIff(PutBy(ss, ops, rtype), n);
    OrderedIff(ss, ops, n, rtype);
  }

  // ---------------------------------------------------------------- the fate of every publish

  /** The publish begun by step k had found room by its second section, which was step j. */
  predicate Lands(ss: seq<Split>, ops: seq<SplitOp>, j: nat, k: nat)
    requires j < |ops| <= |ss|
  {
    Finishes(ss, ops, j, k) && Enqueued(ss[j], ops[j]).Some?
  }

  lemma {:induction false} AcceptedBelow(ss: seq<Split>, ops: seq<SplitOp>, n: nat)
    requires IsSplitRun(ss, ops) && n <= |ops|
    ensures forall e :: e in ss[n].bus.accepted ==> e.sequence <= ss[n].bus.seqNo
  {
    if n > 0 {
      AcceptedBelow(ss, ops, n - 1);
      NumbersGrow(ss, ops, n - 1, n);
      assert SplitStep(ss[n - 1], ops[n - 1], ss[n]);
      if Enqueued(ss[n - 1], ops[n - 1]).Some? {
        var k := PutWasNumbered(ss, ops, n - 1);
        NumbersGrow(ss, ops, k, n);
      }
    }
  }

  lemma AcceptedStep(s: Split, op: SplitOp, s': Split, e: Event)
    requires SplitStep(s, op, s')
    ensures e in s'.bus.accepted <==> e in s.bus.accepted || Enqueued(s, op) == Some(e)
  {}

  lemma PutIsThis(ss: seq<Split>, ops: seq<SplitOp>, j: nat, k: nat)
    requires IsSplitRun(ss, ops) && k < j < |ops| && ops[k].NumberOp? && !ss[k].bus.closed
    ensures Enqueued(ss[j], ops[j]) == Some(NumberedBy(ss, ops, k)) <==> Lands(ss, ops, j, k)
  {
    if Enqueued(ss[j], ops[j]).Some? {
      var l := PutWasNumbered(ss, ops, j);
      if l < k {
        NumbersGrow(ss, ops, l, k);
      } else if k < l {
        assert SplitStep(ss[k], ops[k], ss[k + 1]);
        NumbersGrow(ss, ops, k + 1, l);
      }
    }
  }

  /**
   * The fate of every publish that drew a number, over every run: its event is among those ever accepted
   * exactly when its second section has run, before Close closed the queues and with fewer than 256
   * events in the queue.
   */
  lemma {:induction false} SplitFate(ss: seq<Split>, ops: seq<SplitOp>, k: nat, n: nat)
    requires IsSplitRun(ss, ops) && k < n <= |ops| && ops[k].NumberOp? && !ss[k].bus.closed
    ensures NumberedBy(ss, ops, k) in ss[n].bus.accepted <==> exists j :: k < j < n && Lands(ss, ops, j, k)
  {
    assert SplitStep(ss[n - 1], ops[n - 1], ss[n]);
    AcceptedStep(ss[n - 1], ops[n - 1], ss[n], NumberedBy(ss, ops, k));
    if n == k + 1 {
      AcceptedBelow(ss, ops, k);
    } else {
      SplitFate(ss, ops, k, n - 1);
      PutIsThis(ss, ops, n - 1, k);
    }
  }

  lemma {:induction false} InHandIff(ss: seq<Split>, ops: seq<SplitOp>, k: nat, n: nat)
    requires IsSplitRun(ss, ops) && k < n <= |ops| && ops[k].NumberOp? && !ss[k].bus.closed
    ensures k in HandSteps(ss, ops, n) <==> Numbers(ss[k], ops[k]) && Unfinished(ss, ops, k, n)
  {
    if n == k + 1 {
      JustNumbered(ss, ops, k);
    } else {
      InHandIff(ss, ops, k, n - 1);
      InHandNext(ss, ops, k, n - 1);
    }
  }

  predicate Unfinished(ss: seq<Split>, ops: seq<SplitOp>, k: nat, n: nat)
    requires n <= |ops| <= |ss|
  {
    forall j :: k < j < n ==> !Finishes(ss, ops, j, k)
  }

  lemma UnfinishedNext(ss: seq<Split>, ops: seq<SplitOp>, k: nat, n: nat)
    requires k < n < |ops| <= |ss|
    ensures Unfinished(ss, ops, k, n + 1) <==> Unfinished(ss, ops, k, n) && !Finishes(ss, ops, n, k)
  {}

  lemma InHandNext(ss: seq<Split>, ops: seq<SplitOp>, k: nat, n: nat)
    requires IsSplitRun(ss, ops) && k < n < |ops|
    ensures k in HandSteps(ss, ops, n + 1) <==> k in HandSteps(ss, ops, n) && !Finishes(ss, ops, n, k)
    ensures Unfinished(ss, ops, k, n + 1) <==> Unfinished(ss, ops, k, n) && !Finishes(ss, ops, n, k)
  {
    StillInHand(ss, ops, n + 1, k);
    UnfinishedNext(ss, ops, k, n);
  }

  lemma JustNumbered(ss: seq<Split>, ops: seq<SplitOp>, k: nat)
    requires IsSplitRun(ss, ops) && k < |ops| && ops[k].NumberOp?
    ensures k in HandSteps(ss, ops, k + 1) <==> Numbers(ss[k], ops[k])
    ensures Unfinished(ss, ops, k, k + 1)
  {
    HandIsKnown(ss, ops, k);
    var before := HandSteps(ss, ops, k);
    assert k !in before;
    assert k in before + [k];
  }

  lemma StillInHand(ss: seq<Split>, ops: seq<SplitOp>, n: nat, k: nat)
    requires IsSplitRun(ss, ops) && k + 1 < n <= |ops|
    ensures k in HandSteps(ss, ops, n) <==> k in HandSteps(ss, ops, n - 1) && !Finishes(ss, ops, n - 1, k)
  {
    HandIsKnown(ss, ops, n - 1);
    assert SplitStep(ss[n - 1], ops[n - 1], ss[n]);
    var before := HandSteps(ss, ops, n - 1);
    if ops[n - 1].EnqueueOp? { WithoutMembers(before, ops[n - 1].i, k); }
  }

  lemma WithoutMembers(q: seq<nat>, i: nat, x: nat)
    requires i < |q| && forall a, b :: 0 <= a < b < |q| ==> q[a] < q[b]
    ensures x in Without(q, i) <==> x in q && x != q[i]
  {
    var rest := Without(q, i);
    forall a | 0 <= a < |q| && a != i ensures q[a] in rest {
      assert rest[if a < i then a else a - 1] == q[a];
    }
    assert forall a :: 0 <= a < |rest| ==> rest[a] == q[if a < i then a else a + 1];
  }
}
