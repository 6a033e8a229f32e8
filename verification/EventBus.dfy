// The event bus of BBgrid_Server/runtime/eventbus.go: one bounded FIFO queue per resource type,
// each drained by one worker. Publish is taken as one atomic step.
module EventBus {
  import opened Wrappers
  import opened Keys
  import opened Events

  const QUEUE_SIZE: nat := 256

  type Handler = nat

  datatype Outcome = Accepted | BusClosed | NoSubscriber | QueueFull

  // `accepted`, `delivered` and `calls` record the history: events taken into a queue, events taken
  // out by a worker with the handlers subscribed at that moment, and the handler calls made.
  datatype Bus = Bus(
    seqNo: int, closed: bool, subs: map<string, seq<Handler>>, queues: map<string, seq<Event>>,
    accepted: seq<Event>, delivered: seq<(Event, seq<Handler>)>, calls: seq<(Handler, Event)>)

  const NEW_BUS := Bus(0, false, map[], map[], [], [], [])

  function Queue(queues: map<string, seq<Event>>, rtype: string): seq<Event> {
    if rtype in queues then queues[rtype] else []
  }

  function Subscribers(subs: map<string, seq<Handler>>, rtype: string): seq<Handler> {
    if rtype in subs then subs[rtype] else []
  }

  function Decide(b: Bus, rtype: string): Outcome {
    if b.closed then BusClosed
    else if rtype !in b.subs then NoSubscriber
    else if |Queue(b.queues, rtype)| >= QUEUE_SIZE then QueueFull
    else Accepted
  }

  function Publish(b: Bus, e: Event): Bus {
    var rtype, numbered := e.resource.rtype, e.(sequence := b.seqNo + 1);
    match Decide(b, rtype)
    case BusClosed => b
    case NoSubscriber => b.(seqNo := b.seqNo + 1)
    case QueueFull => b.(seqNo := b.seqNo + 1)
    case Accepted =>
      b.(seqNo := b.seqNo + 1, queues := b.queues[rtype := Queue(b.queues, rtype) + [numbered]],
         accepted := b.accepted + [numbered])
  }

  function CallsFor(e: Event, hs: seq<Handler>): seq<(Handler, Event)> {
    seq(|hs|, i requires 0 <= i < |hs| => (hs[i], e))
  }

  /** A worker takes the next event of its queue to every handler subscribed now. */
  function Deliver(b: Bus, rtype: string): Bus
    requires Queue(b.queues, rtype) != []
  {
    var e, hs := b.queues[rtype][0], Subscribers(b.subs, rtype);
    b.(queues := b.queues[rtype := b.queues[rtype][1..]], delivered := b.delivered + [(e, hs)],
       calls := b.calls + CallsFor(e, hs))
  }

  function RemoveFirst(hs: seq<Handler>, h: Handler): seq<Handler> {
    if hs == [] then [] else if hs[0] == h then hs[1..] else [hs[0]] + RemoveFirst(hs[1..], h)
  }

  lemma {:induction false} RemoveFirstAt(hs: seq<Handler>, h: Handler, i: nat)
    requires i <= |hs| && h !in hs[..i] && (i < |hs| ==> hs[i] == h)
    ensures RemoveFirst(hs, h) == if i < |hs| then hs[..i] + hs[i + 1..] else hs
  {
    if i > 0 {
      assert hs[0] in hs[..i] && hs[1..][..i - 1] == hs[..i][1..];
      RemoveFirstAt(hs[1..], h, i - 1);
      assert hs == [hs[0]] + hs[1..];
    }
  }

  predicate IsFirst(hs: seq<Handler>, h: Handler, i: nat) { i < |hs| && hs[i] == h && h !in hs[..i] }

  /** The calls between two histories are those of the handlers, in order, with the event. */
  ghost predicate Calls(before: seq<(Handler, Event)>, after: seq<(Handler, Event)>, hs: seq<Handler>, e: Event) {
    && |after| == |before| + |hs| && before <= after
    && forall i :: 0 <= i < |hs| ==> after[|before| + i] == (hs[i], e)
  }

  // ---------------------------------------------------------------- the object

  class EventBusImpl {
    var typeSubs: map<string, seq<Handler>>
    var closed: bool
    var seqNo: int
    var queues: map<string, seq<Event>>
    var calls: seq<(Handler, Event)>
    ghost var accepted: seq<Event>
    ghost var delivered: seq<(Event, seq<Handler>)>

    constructor ()
      ensures View() == NEW_BUS
    {
      typeSubs, closed, seqNo, queues, calls := map[], false, 0, map[], [];
      accepted, delivered := [], [];
    }

    ghost function View(): Bus
      reads this
    {
      Bus(seqNo, closed, typeSubs, queues, accepted, delivered, calls)
    }

    method PublishEvent(event: Event) returns (outcome: Outcome)
      modifies this
      ensures outcome == Decide(old(View()), event.resource.rtype)
      ensures View() == Publish(old(View()), event)
      ensures outcome == BusClosed <==> old(closed)
      ensures outcome == NoSubscriber <==> !old(closed) && event.resource.rtype !in old(typeSubs)
      ensures outcome == QueueFull <==>
                && !old(closed) && event.resource.rtype in old(typeSubs)
                && event.resource.rtype in old(queues) && |old(queues)[event.resource.rtype]| >= 256
      ensures seqNo == if old(closed) then old(seqNo) else old(seqNo) + 1
      ensures queues == if outcome != Accepted then old(queues)
                        else old(queues)[event.resource.rtype :=
                               (if event.resource.rtype in old(queues) then old(queues)[event.resource.rtype] else [])
                               + [event.(sequence := old(seqNo) + 1)]]
    {
      if closed {
        return BusClosed;
      }
      seqNo := seqNo + 1;
      var numbered := event.(sequence := seqNo);
      var rtype := event.resource.rtype;
      if rtype !in typeSubs {
        return NoSubscriber;
      }
      var queue := Queue(queues, rtype);
      if |queue| < QUEUE_SIZE {
        queues := queues[rtype := queue + [numbered]];
        accepted := accepted + [numbered];
        return Accepted;
      }
      return QueueFull;
    }

    method Subscribe(rtype: string, h: Handler)
      modifies this`typeSubs
      ensures View() == old(View()).(subs := typeSubs)
      ensures rtype in typeSubs
      ensures typeSubs[rtype] == (if rtype in old(typeSubs) then old(typeSubs)[rtype] else []) + [h]
      ensures forall t :: t != rtype ==>
                (t in typeSubs <==> t in old(typeSubs)) && (t in typeSubs ==> typeSubs[t] == old(typeSubs)[t])
    {
      typeSubs := typeSubs[rtype := Subscribers(typeSubs, rtype) + [h]];
    }

    method Unsubscribe(rtype: string, h: Handler)
      modifies this`typeSubs
      ensures View() == old(View()).(subs := if rtype in old(typeSubs)
                                             then old(typeSubs)[rtype := RemoveFirst(old(typeSubs)[rtype], h)]
                                             else old(typeSubs))
      ensures rtype in old(typeSubs) && h in old(typeSubs)[rtype] ==>
                exists i :: 0 <= i < |old(typeSubs)[rtype]| && IsFirst(old(typeSubs)[rtype], h, i)
                            && typeSubs[rtype] == Without(old(typeSubs)[rtype], i)
      ensures rtype in old(typeSubs) && h !in old(typeSubs)[rtype] ==> typeSubs == old(typeSubs)
    {
      if rtype !in typeSubs {
        return;
      }
      var handlers := typeSubs[rtype];
      var i := 0;
      while i < |handlers| && handlers[i] != h
        modifies {}
        invariant i <= |handlers| && h !in handlers[..i]
      {
        i := i + 1;
      }
      RemoveFirstAt(handlers, h, i);
      if i < |handlers| {
        assert IsFirst(handlers, h, i);
        typeSubs := typeSubs[rtype := handlers[..i] + handlers[i + 1..]];
      } else {
        assert typeSubs[rtype := handlers] == typeSubs;
      }
    }

    /** One round of a worker's loop. */
    method DeliverNext(rtype: string) returns (event: Event)
      requires Queue(queues, rtype) != []
      modifies this`queues, this`calls, this`delivered
      ensures event == old(queues)[rtype][0]
      ensures View() == Deliver(old(View()), rtype)
      ensures Calls(old(calls), calls, if rtype in typeSubs then typeSubs[rtype] else [], event)
      ensures queues == old(queues)[rtype := old(queues)[rtype][1..]]
    {
      event := queues[rtype][0];
      queues := queues[rtype := queues[rtype][1..]];
      var handlers := Subscribers(typeSubs, rtype);
      for i := 0 to |handlers|
        modifies this`calls
        invariant calls == old(calls) + CallsFor(event, handlers[..i])
      {
        calls := calls + [(handlers[i], event)];
        assert CallsFor(event, handlers[..i + 1]) == CallsFor(event, handlers[..i]) + [(handlers[i], event)];
      }
      assert handlers[..|handlers|] == handlers;
      delivered := delivered + [(event, handlers)];
    }

    /** Close: nothing more is accepted, the workers empty their queues, then subscriptions go. */
    method Close() returns (ghost drained: Bus)
      requires BusInv(View())
      modifies this
      ensures BusInv(drained) && drained.closed && drained.subs == old(typeSubs)
      ensures drained.accepted == old(accepted) && old(delivered) <= drained.delivered
      ensures forall rtype :: Queue(drained.queues, rtype) == []
      ensures forall rtype :: OfType(DeliveredEvents(drained.delivered), rtype) == OfType(old(accepted), rtype)
      ensures View() == drained.(subs := map[], queues := map[])
    {
      ghost var before := View();
      closed := true;
      SubscriptionsIrrelevant(before, View());
      var todo := queues.Keys;
      while todo != {}
        invariant todo <= queues.Keys && forall rtype :: rtype in queues && rtype !in todo ==> queues[rtype] == []
        invariant BusInv(View()) && closed && typeSubs == old(typeSubs)
        invariant accepted == old(accepted) && old(delivered) <= delivered
      {
        var rtype := Pick(todo);
        while queues[rtype] != []
          invariant rtype in queues && todo <= queues.Keys
          invariant forall other :: other in queues && other !in todo ==> queues[other] == []
          invariant BusInv(View()) && closed && typeSubs == old(typeSubs)
          invariant accepted == old(accepted) && old(delivered) <= delivered
          decreases |queues[rtype]|
        {
          DeliverKeeps(View(), rtype);
          var _ := DeliverNext(rtype);
        }
        todo := todo - {rtype};
      }
      drained := View();
      forall rtype ensures OfType(DeliveredEvents(drained.delivered), rtype) == OfType(accepted, rtype) {
        DrainedMeansDelivered(drained, rtype);
      }
      queues := map[];
      typeSubs := map[];
    }
  }

  // ---------------------------------------------------------------- the invariant

  function OfType(es: seq<Event>, rtype: string): seq<Event> {
    if es == [] then []
    else
      var last := es[|es| - 1];
      OfType(es[..|es| - 1], rtype) + if last.resource.rtype == rtype then [last] else []
  }

  function DeliveredEvents(ds: seq<(Event, seq<Handler>)>): seq<Event> {
    seq(|ds|, i requires 0 <= i < |ds| => ds[i].0)
  }

  function AllCalls(ds: seq<(Event, seq<Handler>)>): seq<(Handler, Event)> {
    if ds == [] then []
    else AllCalls(ds[..|ds| - 1]) + CallsFor(ds[|ds| - 1].0, ds[|ds| - 1].1)
  }

  ghost predicate Increasing(es: seq<Event>) {
    forall i, j :: 0 <= i < j < |es| ==> es[i].sequence < es[j].sequence
  }

  ghost predicate Fifo(b: Bus, rtype: string) {
    OfType(b.accepted, rtype) == OfType(DeliveredEvents(b.delivered), rtype) + Queue(b.queues, rtype)
  }

  ghost predicate QueueFits(b: Bus, rtype: string) {
    && |Queue(b.queues, rtype)| <= QUEUE_SIZE
    && forall e :: e in Queue(b.queues, rtype) ==> e.resource.rtype == rtype
  }

  /** Queues stay bounded and first in, first out, and calls are those of the deliveries. */
  ghost predicate QueueInv(b: Bus) {
    && (forall rtype :: Fifo(b, rtype)) && (forall rtype :: QueueFits(b, rtype)) && b.calls == AllCalls(b.delivered)
  }

  ghost predicate BusInv(b: Bus) {
    && QueueInv(b) && Increasing(b.accepted)
    && forall e :: e in b.accepted ==> e.sequence <= b.seqNo
  }

  lemma OfTypePush(es: seq<Event>, e: Event, rtype: string)
    ensures OfType(es + [e], rtype) == OfType(es, rtype) + if e.resource.rtype == rtype then [e] else []
  {
    assert (es + [e])[..|es|] == es;
  }

  lemma EnqueueKeeps(b: Bus, e: Event)
    requires QueueInv(b)
    ensures QueueInv(Enqueue(b, e))
  {
    var b' := Enqueue(b, e);
    forall rtype ensures Fifo(b', rtype) && QueueFits(b', rtype) {
      assert Fifo(b, rtype) && QueueFits(b, rtype);
      OfTypePush(b.accepted, e, rtype);
    }
  }

  lemma SameQueues(b: Bus, b': Bus)
    requires QueueInv(b) && b' == b.(subs := b'.subs, closed := b'.closed, seqNo := b'.seqNo)
    ensures QueueInv(b')
  {
    forall rtype ensures Fifo(b', rtype) && QueueFits(b', rtype) {
      assert Fifo(b, rtype) && QueueFits(b, rtype);
    }
  }

  lemma PublishKeeps(b: Bus, e: Event)
    requires BusInv(b)
    ensures BusInv(Publish(b, e))
  {
    if Decide(b, e.resource.rtype) == Accepted {
      EnqueueKeeps(b, e.(sequence := b.seqNo + 1));
      SameQueues(Enqueue(b, e.(sequence := b.seqNo + 1)), Publish(b, e));
    } else {
      SameQueues(b, Publish(b, e));
    }
  }

  lemma DeliverKeepsQueues(b: Bus, rtype: string)
    requires QueueInv(b) && Queue(b.queues, rtype) != []
    ensures QueueInv(Deliver(b, rtype))
  {
    var b', e := Deliver(b, rtype), b.queues[rtype][0];
    assert QueueFits(b, rtype) && e in Queue(b.queues, rtype);
    assert DeliveredEvents(b'.delivered) == DeliveredEvents(b.delivered) + [e];
    forall t ensures Fifo(b', t) && QueueFits(b', t) {
      assert Fifo(b, t) && QueueFits(b, t);
      OfTypePush(DeliveredEvents(b.delivered), e, t);
    }
    assert b'.delivered[..|b.delivered|] == b.delivered;
  }

  lemma DeliverKeeps(b: Bus, rtype: string)
    requires BusInv(b) && Queue(b.queues, rtype) != []
    ensures BusInv(Deliver(b, rtype))
  {
    DeliverKeepsQueues(b, rtype);
  }

  // ---------------------------------------------------------------- runs

  datatype BusOp =
    | PublishOp(e: Event)
    | SubscribeOp(rtype: string, h: Handler)
    | UnsubscribeOp(rtype: string, h: Handler)
    | DeliverOp(rtype: string)
    | CloseOp

  predicate BusEnabled(b: Bus, op: BusOp) {
    op.DeliverOp? ==> Queue(b.queues, op.rtype) != []
  }

  function BusStep(b: Bus, op: BusOp): Bus
    requires BusEnabled(b, op)
  {
    match op
    case PublishOp(e) => Publish(b, e)
    case SubscribeOp(rtype, h) => b.(subs := b.subs[rtype := Subscribers(b.subs, rtype) + [h]])
    case UnsubscribeOp(rtype, h) =>
      if rtype in b.subs then b.(subs := b.subs[rtype := RemoveFirst(b.subs[rtype], h)]) else b
    case DeliverOp(rtype) => Deliver(b, rtype)
    case CloseOp => b.(closed := true)
  }

  ghost predicate IsBusRun(bs: seq<Bus>, ops: seq<BusOp>) {
    && |bs| == |ops| + 1 && bs[0] == NEW_BUS
    && forall i :: 0 <= i < |ops| ==> BusEnabled(bs[i], ops[i]) && bs[i + 1] == BusStep(bs[i], ops[i])
  }

  lemma {:induction false} BusRunInv(bs: seq<Bus>, ops: seq<BusOp>)
    requires IsBusRun(bs, ops)
    ensures BusInv(bs[|ops|])
  {
    if ops != [] {
      var n := |ops| - 1;
      BusRunInv(bs[..n + 1], ops[..n]);
      match ops[n]
      case PublishOp(e) => PublishKeeps(bs[n], e);
      case DeliverOp(rtype) => DeliverKeeps(bs[n], rtype);
      case _ => SubscriptionsIrrelevant(bs[n], bs[n + 1]);
    }
  }

  lemma SubscriptionsIrrelevant(b: Bus, b': Bus)
    requires BusInv(b) && b' == b.(subs := b'.subs, closed := b'.closed)
    ensures BusInv(b')
  {
    SameQueues(b, b');
  }

  lemma {:induction false} OfTypeMembers(es: seq<Event>, rtype: string)
    ensures forall e :: e in OfType(es, rtype) <==> e in es && e.resource.rtype == rtype
  {
    if es != [] {
      var shorter, last := es[..|es| - 1], es[|es| - 1];
      OfTypeMembers(shorter, rtype);
      assert es == shorter + [last];
    }
  }

  lemma {:induction false} OfTypeIncreasing(es: seq<Event>, rtype: string)
    requires Increasing(es)
    ensures Increasing(OfType(es, rtype))
  {
    if es != [] {
      var shorter, last := es[..|es| - 1], es[|es| - 1];
      OfTypeIncreasing(shorter, rtype);
      OfTypeMembers(shorter, rtype);
      assert forall e :: e in shorter ==> e.sequence < last.sequence;
    }
  }

  /**
   * Over every run: per type, events come out in publish order with increasing numbers; an accepted
   * event is either delivered or still queued, never both; nothing unaccepted is delivered; and the
   * handler calls are, for each delivery in turn, its subscribers in subscription order.
   */
  lemma BusDelivery(bs: seq<Bus>, ops: seq<BusOp>, rtype: string)
    requires IsBusRun(bs, ops)
    ensures var b := bs[|ops|]; var out := OfType(DeliveredEvents(b.delivered), rtype);
            && out + Queue(b.queues, rtype) == OfType(b.accepted, rtype)
            && Increasing(out + Queue(b.queues, rtype))
            && (forall e :: e in b.accepted && e.resource.rtype == rtype <==> e in out || e in Queue(b.queues, rtype))
            && (forall e :: !(e in out && e in Queue(b.queues, rtype)))
            && (forall i, j :: 0 <= i < j < |out| ==> out[i] != out[j])
            && |Queue(b.queues, rtype)| <= QUEUE_SIZE
            && b.calls == AllCalls(b.delivered)
  {
    var b := bs[|ops|];
    BusRunInv(bs, ops);
    assert Fifo(b, rtype) && QueueFits(b, rtype);
    OfTypeMembers(b.accepted, rtype);
    OfTypeIncreasing(b.accepted, rtype);
    var out, q := OfType(DeliveredEvents(b.delivered), rtype), Queue(b.queues, rtype);
    assert forall j :: 0 <= j < |q| ==> (out + q)[|out| + j] == q[j];
    assert forall i :: 0 <= i < |out| ==> (out + q)[i] == out[i];
  }

  /** Who is subscribed to a type after these operations: the operations alone tell. */
  function HandlersAfter(ops: seq<BusOp>, rtype: string): seq<Handler> {
    if ops == [] then []
    else
      var before := HandlersAfter(ops[..|ops| - 1], rtype);
      match ops[|ops| - 1]
      case SubscribeOp(t, h) => if t == rtype then before + [h] else before
      case UnsubscribeOp(t, h) => if t == rtype then RemoveFirst(before, h) else before
      case _ => before
  }

  lemma {:induction false} SubscribedAre(bs: seq<Bus>, ops: seq<BusOp>, rtype: string)
    requires IsBusRun(bs, ops)
    ensures (if rtype in bs[|ops|].subs then bs[|ops|].subs[rtype] else []) == HandlersAfter(ops, rtype)
  {
    if ops != [] {
      var n := |ops| - 1;
      SubscribedAre(bs[..n + 1], ops[..n], rtype);
      assert bs[n + 1] == BusStep(bs[n], ops[n]);
    }
  }

  /**
   * Over every run each delivery calls, with the oldest queued event of its type, all handlers that were
   * subscribed and not unsubscribed before, in the order in which they subscribed; nothing else calls any.
   */
  lemma CallsMade(bs: seq<Bus>, ops: seq<BusOp>, i: nat)
    requires IsBusRun(bs, ops) && i < |ops|
    ensures match ops[i]
            case DeliverOp(t) =>
              && t in bs[i].queues && bs[i].queues[t] != []
              && Calls(bs[i].calls, bs[i + 1].calls, HandlersAfter(ops[..i], t), bs[i].queues[t][0])
            case _ => bs[i + 1].calls == bs[i].calls
  {
    assert BusEnabled(bs[i], ops[i]) && bs[i + 1] == BusStep(bs[i], ops[i]);
    if ops[i].DeliverOp? { SubscribedAre(bs[..i + 1], ops[..i], ops[i].rtype); }
  }

  /** An event is dropped exactly when the bus is closed, nobody subscribed its type, or its queue holds 256. */
  lemma DroppedIff(b: Bus, e: Event)
    ensures Publish(b, e).accepted == b.accepted
            <==> b.closed || e.resource.rtype !in b.subs || |Queue(b.queues, e.resource.rtype)| >= QUEUE_SIZE
    ensures Publish(b, e).accepted != b.accepted ==>
              Publish(b, e).accepted == b.accepted + [e.(sequence := b.seqNo + 1)]
  {
    assert Decide(b, e.resource.rtype) == Accepted ==> |Publish(b, e).accepted| == |b.accepted| + 1;
  }

  lemma {:induction false} RunGrows(bs: seq<Bus>, ops: seq<BusOp>, i: nat, n: nat)
    requires IsBusRun(bs, ops) && i <= n <= |ops|
    ensures bs[i].seqNo <= bs[n].seqNo && bs[i].accepted <= bs[n].accepted
    ensures forall e :: e in bs[n].accepted[|bs[i].accepted|..] ==> bs[i].seqNo < e.sequence
  {
    if i < n {
      RunGrows(bs, ops, i, n - 1);
      StepGrows(bs[n - 1], ops[n - 1]);
      assert bs[n].accepted[|bs[i].accepted|..]
             == bs[n - 1].accepted[|bs[i].accepted|..] + bs[n].accepted[|bs[n - 1].accepted|..];
    }
  }

  lemma StepGrows(b: Bus, op: BusOp)
    requires BusEnabled(b, op)
    ensures var b' := BusStep(b, op);
            && b.seqNo <= b'.seqNo && b.accepted <= b'.accepted
            && forall e :: e in b'.accepted[|b.accepted|..] ==> b.seqNo < e.sequence
  {}

  /**
   * The fate of every published event: it is among the events ever accepted, under the number it drew,
   * exactly when at that moment the bus was open, its type subscribed and its queue below 256.
   */
  lemma PublishedFate(bs: seq<Bus>, ops: seq<BusOp>, i: nat)
    requires IsBusRun(bs, ops) && i < |ops| && ops[i].PublishOp?
    ensures var b, e := bs[i], ops[i].e;
            e.(sequence := b.seqNo + 1) in bs[|ops|].accepted
            <==> !b.closed && e.resource.rtype in b.subs && |Queue(b.queues, e.resource.rtype)| < QUEUE_SIZE
  {
    var b, e := bs[i], ops[i].e.(sequence := bs[i].seqNo + 1);
    BusRunInv(bs[..i + 1], ops[..i]);
    assert bs[i + 1] == Publish(b, ops[i].e);
    RunGrows(bs, ops, i + 1, |ops|);
    var last, now := bs[|ops|].accepted, bs[i + 1].accepted;
    assert last == now + last[|now|..];
    if Decide(b, e.resource.rtype) == Accepted {
      assert now[|b.accepted|] == e;
    } else {
      assert now == b.accepted;
      assert e !in b.accepted;
      if !b.closed { assert bs[i + 1].seqNo == e.sequence; }
      if b.closed { ClosedAccepts(bs, ops, i + 1, |ops|); }
    }
  }

  lemma {:induction false} ClosedAccepts(bs: seq<Bus>, ops: seq<BusOp>, i: nat, n: nat)
    requires IsBusRun(bs, ops) && i <= n <= |ops| && bs[i].closed
    ensures bs[n].closed && bs[n].accepted == bs[i].accepted
  {
    if i < n { ClosedAccepts(bs, ops, i, n - 1); }
  }

  /** Once the queues are empty, everything ever accepted has been delivered, in order. */
  lemma DrainedMeansDelivered(b: Bus, rtype: string)
    requires BusInv(b) && Queue(b.queues, rtype) == []
    ensures OfType(DeliveredEvents(b.delivered), rtype) == OfType(b.accepted, rtype)
  {
    assert Fifo(b, rtype);
  }

  // ---------------------------------------------------------------- Publish as the code splits it

  /** First critical section: closed check, sequence number. */
  function Number(b: Bus, e: Event): (Bus, Event)
    requires !b.closed
  {
    (b.(seqNo := b.seqNo + 1), e.(sequence := b.seqNo + 1))
  }

  /** Second critical section: the queue takes the event if it has room. */
  function Enqueue(b: Bus, e: Event): Bus {
    var rtype := e.resource.rtype;
    if |Queue(b.queues, rtype)| >= QUEUE_SIZE then b
    else b.(queues := b.queues[rtype := Queue(b.queues, rtype) + [e]], accepted := b.accepted + [e])
  }

  /** Run back to back the two sections are Publish. */
  lemma PublishIsNumberThenEnqueue(b: Bus, e: Event)
    requires !b.closed && e.resource.rtype in b.subs
    ensures var (b', numbered) := Number(b, e); Enqueue(b', numbered) == Publish(b, e)
  {}

  /**
   * Two publishers of one type that both find room keep the numbers increasing exactly when the
   * second sections run in the order of the first ones.
   */
  lemma OvertakingDisorders(b: Bus, e1: Event, e2: Event)
    requires BusInv(b) && !b.closed && e1.resource.rtype == e2.resource.rtype
    requires |Queue(b.queues, e1.resource.rtype)| + 2 <= QUEUE_SIZE
    ensures var (b1, n1) := Number(b, e1); var (b2, n2) := Number(b1, e2);
            && Increasing(Enqueue(Enqueue(b2, n1), n2).accepted)
            && !Increasing(Enqueue(Enqueue(b2, n2), n1).accepted)
  {
    var (b1, n1) := Number(b, e1);
    var (b2, n2) := Number(b1, e2);
    var swapped := Enqueue(Enqueue(b2, n2), n1).accepted;
    assert swapped == b.accepted + [n2] + [n1];
    assert swapped[|b.accepted|] == n2 && swapped[|b.accepted| + 1] == n1;
  }
}
