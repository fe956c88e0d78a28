/**
 Delivery is exact and first in, first out on every connection, and a stopped actor has handled
 everything that was put on the bus before the stop.
 */
module EventBusDelivery {
  import opened Options
  import opened ContextLog
  import opened Wiring
  import opened EventBus

  /** Positions among the first `n` items of the events from source `s`. */
  ghost function Indices(put: seq<Item>, n: nat, s: SourceId): seq<nat>
    requires n <= |put|
  {
    if n == 0 then []
    else Indices(put, n - 1, s) + if put[n - 1].Send? && put[n - 1].event.source == s then [n - 1] else []
  }

  /** Origins of the deliveries from source `s` to sink `k`, in order. */
  ghost function Origins(ds: seq<Delivery>, s: SourceId, k: SinkId): seq<nat> {
    if ds == [] then []
    else
      var x := ds[|ds| - 1];
      Origins(ds[..|ds| - 1], s, k) + if x.event.source == s && x.sink == k then [x.origin] else []
  }

  lemma OriginsSnoc(ds: seq<Delivery>, x: Delivery, s: SourceId, k: SinkId)
    ensures Origins(ds + [x], s, k) == Origins(ds, s, k) + if x.event.source == s && x.sink == k then [x.origin] else []
  {
    assert (ds + [x])[..|ds|] == ds;
  }

  lemma {:induction false} IndicesOfPrefix(put: seq<Item>, more: seq<Item>, n: nat, s: SourceId)
    requires n <= |put|
    ensures Indices(put + more, n, s) == Indices(put, n, s)
  {
    if n > 0 {
      IndicesOfPrefix(put, more, n - 1, s);
    }
  }

  lemma {:induction false} IndicesGrow(put: seq<Item>, m: nat, n: nat, s: SourceId)
    requires m <= n <= |put|
    ensures Indices(put, m, s) <= Indices(put, n, s)
    decreases n
  {
    if m < n {
      IndicesGrow(put, m, n - 1, s);
    }
  }

  /******* The bus *******/

  predicate InFlight(p: Phase) {
    p.Forking? || p.Sending?
  }

  /** One of the first `n` deliveries goes to `k`. */
  ghost predicate Covers(all: seq<Delivery>, n: nat, k: SinkId) {
    exists j :: 0 <= j < n && j < |all| && all[j].sink == k
  }

  ghost predicate SentTo(p: Phase, k: SinkId) {
    p.Sending? && Covers(p.all, p.sent, k)
  }

  function CurrentEvent(p: Phase): Event
    requires InFlight(p)
  {
    if p.Forking? then p.event else p.current
  }

  /** `x` delivers event `e`, the item at position `origin`. */
  predicate Delivers(x: Delivery, e: Event, origin: int) {
    x.event == e && x.origin == origin && (!x.tap ==> x.ctx == e.ctx)
  }

  /** The deliveries of the event in hand: one to each of its targets. */
  ghost predicate PhaseOk(net: Net, put: seq<Item>, taken: nat, p: Phase) {
    match p
    case Forking(e, order, made) =>
      && 0 < taken <= |put| && put[taken - 1] == Send(e)
      && Enumerates(order, TargetsOf(net, e.source).taps)
      && |made| <= |order|
      && (forall j :: 0 <= j < |made| ==> made[j].sink == order[j] && made[j].tap && Delivers(made[j], e, taken - 1))
    case Sending(e, all, sent) =>
      && 0 < taken <= |put| && put[taken - 1] == Send(e)
      && sent <= |all|
      && (forall j :: 0 <= j < |all| ==> Delivers(all[j], e, taken - 1))
      && (forall i, j :: 0 <= i < j < |all| ==> all[i].sink != all[j].sink)
      && (forall k :: Connected(net, e.source, k) <==> Covers(all, |all|, k))
    case Stopped => 0 < taken <= |put| && put[taken - 1] == StopBus
    case Idle => taken <= |put|
  }

  ghost function Expected(put: seq<Item>, taken: nat, p: Phase, s: SourceId, k: SinkId): seq<nat>
    requires taken <= |put| && (InFlight(p) ==> 0 < taken)
  {
    if InFlight(p) then
      Indices(put, taken - 1, s) + if CurrentEvent(p).source == s && SentTo(p, k) then [taken - 1] else []
    else Indices(put, taken, s)
  }

  /** Every connection has carried exactly the events of its source, in order. */
  ghost predicate Fifo(net: Net, b: Bus) {
    && b.taken <= |b.put| && (InFlight(b.phase) ==> 0 < b.taken)
    && forall s, k ::
         Origins(b.dispatched, s, k) == if Connected(net, s, k) then Expected(b.put, b.taken, b.phase, s, k) else []
  }

  ghost predicate ContentOk(b: Bus) {
    forall n :: 0 <= n < |b.dispatched| ==>
      && b.dispatched[n].origin < |b.put|
      && b.put[b.dispatched[n].origin] == Send(b.dispatched[n].event)
      && (!b.dispatched[n].tap ==> b.dispatched[n].ctx == b.dispatched[n].event.ctx)
  }

  /******* The actors *******/

  /** Positions of the deliveries made to actor `a`. */
  ghost function Of(net: Net, ds: seq<Delivery>, a: ActorId): seq<nat> {
    if ds == [] then []
    else
      var n := |ds| - 1;
      Of(net, ds[..n], a) + if ds[n].sink in net.owner && net.owner[ds[n].sink] == a then [n] else []
  }

  ghost function Numbers(box: seq<Mail>): seq<nat> {
    if box == [] then []
    else Numbers(box[..|box| - 1]) + if box[|box| - 1].Deliver? then [box[|box| - 1].number] else []
  }

  ghost predicate StopsLast(box: seq<Mail>) {
    forall i, j :: 0 <= i < j < |box| && box[i].StopActor? ==> box[j].StopActor?
  }

  ghost predicate NoStops(box: seq<Mail>) {
    forall i :: 0 <= i < |box| ==> box[i].Deliver?
  }

  /** What actor `a` was sent is what it has handled and then what waits in its queue; stops come last. */
  ghost predicate QueueOk(net: Net, ds: seq<Delivery>, a: ActorId, box: seq<Mail>, handled: seq<nat>, stopped: bool,
                          exited: bool) {
    && handled + Numbers(box) == Of(net, ds, a)
    && StopsLast(box)
    && (!stopped ==> NoStops(box) && !exited)
    && (exited ==> Numbers(box) == [])
  }

  ghost predicate Queues(net: Net, b: Bus) {
    && b.boxes.Keys == b.handled.Keys == net.actors
    && forall a :: a in b.boxes ==>
       QueueOk(net, b.dispatched, a, b.boxes[a], b.handled[a], b.phase.Stopped?, a in b.exited)
  }

  ghost predicate Inv(net: Net, b: Bus) {
    Wired(net) && WellKeyed(b.store) && PhaseOk(net, b.put, b.taken, b.phase) && Fifo(net, b) && ContentOk(b)
      && Queues(net, b)
  }

  lemma NumbersSnoc(box: seq<Mail>, m: Mail)
    ensures Numbers(box + [m]) == Numbers(box) + if m.Deliver? then [m.number] else []
  {
    assert (box + [m])[..|box|] == box;
  }

  lemma {:induction false} NumbersTail(box: seq<Mail>)
    requires box != []
    ensures Numbers(box) == (if box[0].Deliver? then [box[0].number] else []) + Numbers(box[1..])
  {
    var n := |box| - 1;
    if n > 0 {
      NumbersTail(box[..n]);
      assert box[1..][..n - 1] == box[..n][1..];
    } else {
      assert box[..0] == [] && box[1..] == [];
    }
  }

  lemma {:induction false} NoNumbersAfterStop(box: seq<Mail>)
    requires StopsLast(box) && box != [] && box[0].StopActor?
    ensures Numbers(box) == []
  {
    var n := |box| - 1;
    if n > 0 {
      NoNumbersAfterStop(box[..n]);
    } else {
      assert box[..0] == [];
    }
  }

  lemma OfSnoc(net: Net, ds: seq<Delivery>, x: Delivery, a: ActorId)
    ensures Of(net, ds + [x], a) == Of(net, ds, a)
            + if x.sink in net.owner && net.owner[x.sink] == a then [|ds|] else []
  {
    assert (ds + [x])[..|ds|] == ds;
  }

  /******* Every step keeps it *******/

  lemma StoreStepKeepsKeys(d: Deltas, s: System, op: Op)
    requires WellKeyed(s) && !op.OpRestart? && (op.OpCreate? ==> op.child !in s.data)
    ensures WellKeyed(Step(d, s, op).0)
  {
    match op
    case OpCreate(parents, child) =>
      var ids := Dedup(parents);
      var s1 := CreateContext(d, s, parents, child).0;
      assert PersistChild(s, ids, child).data.Keys == s.data.Keys + {child} == PersistChild(s, ids, child).tree.Keys;
    case _ =>
  }

  /** Steps that leave the bus, its deliveries and the queues alone. */
  lemma QuietStep(net: Net, b: Bus, b1: Bus)
    requires Inv(net, b) && WellKeyed(b1.store)
    requires b1 == b.(store := b1.store, known := b1.known, alive := b1.alive)
    ensures Inv(net, b1)
  {
  }

  lemma PutKeeps(net: Net, b: Bus, item: Item)
    requires Inv(net, b)
    ensures Inv(net, b.(put := b.put + [item]))
  {
    var b1 := b.(put := b.put + [item]);
    forall s, k
      ensures Origins(b1.dispatched, s, k) ==
      if Connected(net, s, k) then Expected(b1.put, b1.taken, b1.phase, s, k) else [] {
      IndicesOfPrefix(b.put, [item], if InFlight(b.phase) then b.taken - 1 else b.taken, s);
    }
  }

  lemma HandleQueue(net: Net, ds: seq<Delivery>, a: ActorId, box: seq<Mail>, handled: seq<nat>, stopped: bool)
    requires QueueOk(net, ds, a, box, handled, stopped, false) && box != []
    ensures box[0].Deliver? ==> QueueOk(net, ds, a, box[1..], handled + [box[0].number], stopped, false)
    ensures box[0].StopActor? ==> QueueOk(net, ds, a, box[1..], handled, stopped, true)
  {
    NumbersTail(box);
    if box[0].StopActor? {
      NoNumbersAfterStop(box);
    } else {
      assert (handled + [box[0].number]) + Numbers(box[1..]) == handled + Numbers(box);
    }
  }

  lemma HandleKeeps(net: Net, b: Bus, a: ActorId)
    requires Inv(net, b) && a in b.boxes && b.boxes[a] != [] && a !in b.exited
    ensures Inv(net, HandleStep(b, a))
  {
    HandleQueue(net, b.dispatched, a, b.boxes[a], b.handled[a], b.phase.Stopped?);
  }

  lemma {:induction false} StopQueues(net: Net, ds: seq<Delivery>, boxes: map<ActorId, seq<Mail>>, sinks: seq<SinkId>,
                                      a: ActorId, handled: seq<nat>)
    requires forall k :: k in sinks ==> k in net.owner && net.owner[k] in boxes
    requires a in boxes && QueueOk(net, ds, a, boxes[a], handled, true, false)
    ensures QueueOk(net, ds, a, StopBoxes(net, boxes, sinks)[a], handled, true, false)
  {
    if sinks != [] {
      var n := |sinks| - 1;
      StopQueues(net, ds, boxes, sinks[..n], a, handled);
      StopQueue(net, ds, a, StopBoxes(net, boxes, sinks[..n])[a], handled);
      hide QueueOk;
    }
  }

  lemma StopQueue(net: Net, ds: seq<Delivery>, a: ActorId, box: seq<Mail>, handled: seq<nat>)
    requires QueueOk(net, ds, a, box, handled, true, false)
    ensures QueueOk(net, ds, a, box + [StopActor], handled, true, false)
  {
    NumbersSnoc(box, StopActor);
  }

  lemma StopKeeps(net: Net, b: Bus, order: seq<SinkId>)
    requires Inv(net, b) && b.phase.Idle? && b.taken < |b.put| && b.put[b.taken].StopBus?
    requires forall k :: k in order ==> k in net.owner && net.owner[k] in b.boxes
    ensures Inv(net, b.(taken := b.taken + 1, phase := Stopped, boxes := StopBoxes(net, b.boxes, order)))
  {
    var b1 := b.(taken := b.taken + 1, phase := Stopped, boxes := StopBoxes(net, b.boxes, order));
    forall a | a in b1.boxes ensures QueueOk(net, b1.dispatched, a, b1.boxes[a], b1.handled[a], true, a in b1.exited) {
      StopQueues(net, b.dispatched, b.boxes, order, a, b.handled[a]);
    }
  }

  /** An event is in hand, and nothing of it has been sent. */
  lemma TakenKeeps(net: Net, b: Bus, b1: Bus, order: seq<SinkId>)
    requires Inv(net, b) && b.phase.Idle? && b.taken < |b.put| && b.put[b.taken].Send? && WellKeyed(b1.store)
    requires Enumerates(order, TargetsOf(net, b.put[b.taken].event.source).taps)
    requires b1
             == b.(taken := b.taken + 1, store := b1.store, alive := b1.alive,
             phase := Forking(b.put[b.taken].event, order, []))
    ensures Inv(net, b1)
  {
    forall s, k
      ensures Origins(b1.dispatched, s, k) ==
      if Connected(net, s, k) then Expected(b1.put, b1.taken, b1.phase, s, k) else [] {
      assert Expected(b1.put, b1.taken, b1.phase, s, k) == Expected(b.put, b.taken, b.phase, s, k);
    }
  }

  lemma TakeKeeps(d: Deltas, net: Net, b: Bus, order: seq<SinkId>)
    requires Inv(net, b) && b.phase.Idle? && b.taken < |b.put| && b.put[b.taken].Send?
    requires Enumerates(order, TargetsOf(net, b.put[b.taken].event.source).taps)
    ensures Inv(net, TakeStep(d, net, b, b.put[b.taken].event, order))
  {
    var e := b.put[b.taken].event;
    StoreStepKeepsKeys(d, b.store, OpMessage(e.ctx, e.source, e.payload));
    TakenKeeps(net, b, TakeStep(d, net, b, e, order), order);
  }

  /** The bus is still busy with the same event and has sent it to the same sinks. */
  lemma FifoStays(net: Net, b: Bus, b1: Bus)
    requires Fifo(net, b) && b1.put == b.put && b1.taken == b.taken && b1.dispatched == b.dispatched
    requires InFlight(b.phase) && InFlight(b1.phase) && CurrentEvent(b1.phase) == CurrentEvent(b.phase)
    requires forall k :: SentTo(b1.phase, k) <==> SentTo(b.phase, k)
    ensures Fifo(net, b1)
  {
    forall s, k
      ensures Origins(b1.dispatched, s, k) ==
      if Connected(net, s, k) then Expected(b1.put, b1.taken, b1.phase, s, k) else [] {
      assert Expected(b1.put, b1.taken, b1.phase, s, k) == Expected(b.put, b.taken, b.phase, s, k);
    }
  }

  lemma MadeSnoc(net: Net, put: seq<Item>, taken: nat, p: Phase, x: Delivery)
    requires PhaseOk(net, put, taken, p) && p.Forking? && |p.made| < |p.order|
    requires x.tap && x.sink == p.order[|p.made|] && Delivers(x, p.event, taken - 1)
    ensures PhaseOk(net, put, taken, Forking(p.event, p.order, p.made + [x]))
  {
  }

  lemma TapShape(d: Deltas, s: System, e: Event, origin: nat, sink: SinkId, child: ContextId)
    requires WellKeyed(s) && child !in s.data
    ensures var r := MakeTap(d, s, e, origin, sink, child);
            WellKeyed(r.store)
              && (r.made.Some? ==> r.made.value.tap && r.made.value.sink == sink && Delivers(r.made.value, e, origin))
  {
    CreateKeepsKeys(d, s, [e.ctx], child, CreateContext(d, s, [e.ctx], child).0);
  }

  /** Either the parent has been completed in the meantime, or there is one more child. */
  lemma ForkShape(d: Deltas, net: Net, b: Bus, child: ContextId)
    requires WellKeyed(b.store) && PhaseOk(net, b.put, b.taken, b.phase)
    requires b.phase.Forking? && |b.phase.made| < |b.phase.order| && child !in b.store.data
    ensures var b1 := ForkStep(d, net, b, child);
            && WellKeyed(b1.store) && b1 == b.(store := b1.store, alive := b1.alive, phase := b1.phase)
            && b1.phase.Forking? && b1.phase.event == b.phase.event && PhaseOk(net, b1.put, b1.taken, b1.phase)
  {
    hide MakeTap;
    var e, order, made := b.phase.event, b.phase.order, b.phase.made;
    var r := MakeTap(d, b.store, e, b.taken - 1, order[|made|], child);
    TapShape(d, b.store, e, b.taken - 1, order[|made|], child);
    if r.made.Some? {
      MadeSnoc(net, b.put, b.taken, b.phase, r.made.value);
    }
  }

  lemma CreateKeepsKeys(d: Deltas, s: System, parents: seq<ContextId>, child: ContextId, s1: System)
    requires WellKeyed(s) && child !in s.data && s1 == CreateContext(d, s, parents, child).0
    ensures WellKeyed(s1)
  {
    StoreStepKeepsKeys(d, s, OpCreate(parents, child));
  }

  lemma ForkKeeps(d: Deltas, net: Net, b: Bus, child: ContextId)
    requires Inv(net, b) && b.phase.Forking? && |b.phase.made| < |b.phase.order| && child !in b.store.data
    ensures Inv(net, ForkStep(d, net, b, child))
  {
    ForkShape(d, net, b, child);
    FifoStays(net, b, ForkStep(d, net, b, child));
  }

  /** All targets have their delivery; the primary comes first. */
  lemma ForkedPhase(net: Net, put: seq<Item>, taken: nat, p: Phase, all: seq<Delivery>)
    requires Wired(net) && PhaseOk(net, put, taken, p) && p.Forking? && |p.made| == |p.order|
    requires var primary := TargetsOf(net, p.event.source).primary;
             all == (if primary.Some? then [Delivery(taken - 1, p.event, primary.value, p.event.ctx, false, map[])]
               else []) + p.made
    ensures PhaseOk(net, put, taken, Sending(p.event, all, 0))
  {
    var e, t := p.event, TargetsOf(net, p.event.source);
    var head := if t.primary.Some? then [Delivery(taken - 1, e, t.primary.value, e.ctx, false, map[])] else [];
    assert ValidRoles(t);
    DistinctSinks(head, p.made, p.order);
    forall k ensures Connected(net, e.source, k) <==> Covers(all, |all|, k) {
      ForkedCovers(net, e, p.order, p.made, all, k);
    }
    forall j | 0 <= j < |all| ensures Delivers(all[j], e, taken - 1) {
      assert all[j] in head || all[j] in p.made;
    }
  }

  lemma DistinctSinks(head: seq<Delivery>, made: seq<Delivery>, order: seq<SinkId>)
    requires |made| == |order| && forall j :: 0 <= j < |made| ==> made[j].sink == order[j]
    requires forall i, j :: 0 <= i < j < |order| ==> order[i] != order[j]
    requires |head| <= 1 && (head != [] ==> head[0].sink !in order)
    ensures var all := head + made;
            forall i, j :: 0 <= i < j < |all| ==> all[i].sink != all[j].sink
  {
    var all := head + made;
    forall i, j | 0 <= i < j < |all| ensures all[i].sink != all[j].sink {
      assert all[j].sink == order[j - |head|];
      if i >= |head| {
        assert all[i].sink == order[i - |head|];
      }
    }
  }

  lemma ForkedCovers(net: Net, e: Event, order: seq<SinkId>, made: seq<Delivery>, all: seq<Delivery>, k: SinkId)
    requires Enumerates(order, TargetsOf(net, e.source).taps) && |made| == |order|
    requires forall j :: 0 <= j < |made| ==> made[j].sink == order[j]
    requires var primary := TargetsOf(net, e.source).primary;
             if primary.Some? then |all| == |made| + 1 && all[0].sink == primary.value && all[1..] == made
             else all == made
    ensures Connected(net, e.source, k) <==> Covers(all, |all|, k)
  {
    var t, m := TargetsOf(net, e.source), |all| - |made|;
    assert forall j :: 0 <= j < |made| ==> all[m + j] == made[j];
    if t.primary == Some(k) {
      assert all[0].sink == k;
    }
    if k in t.taps {
      assert k in order;
      var j :| 0 <= j < |order| && order[j] == k;
      assert all[m + j].sink == k;
    }
    if Covers(all, |all|, k) {
      var j :| 0 <= j < |all| && all[j].sink == k;
      assert j >= m ==> all[j] == made[j - m] && order[j - m] in t.taps;
    }
  }

  lemma ForkedKeeps(d: Deltas, net: Net, b: Bus, child: ContextId)
    requires Inv(net, b) && b.phase.Forking? && |b.phase.made| == |b.phase.order|
    ensures Inv(net, ForkStep(d, net, b, child))
  {
    var b1 := ForkStep(d, net, b, child);
    ForkedPhase(net, b.put, b.taken, b.phase, b1.phase.all);
    FifoStays(net, b, b1);
  }

  /** One more put: the connection it belongs to gets the event in hand, the others nothing. */
  lemma SendOnConnection(net: Net, put: seq<Item>, taken: nat, p: Phase, ds: seq<Delivery>, s: SourceId, k: SinkId)
    requires PhaseOk(net, put, taken, p) && p.Sending? && p.sent < |p.all|
    requires Origins(ds, s, k) == if Connected(net, s, k) then Expected(put, taken, p, s, k) else []
    ensures Origins(ds + [p.all[p.sent]], s, k)
         == if Connected(net, s, k) then Expected(put, taken, Sending(p.current, p.all, p.sent + 1), s, k) else []
  {
    var x, p1 := p.all[p.sent], Sending(p.current, p.all, p.sent + 1);
    assert Delivers(x, p.current, taken - 1);
    OriginsSnoc(ds, x, s, k);
    if k == x.sink {
      assert SentTo(p1, k) && !SentTo(p, k);
      assert s == p.current.source ==> Connected(net, s, k);
    } else {
      assert SentTo(p1, k) <==> SentTo(p, k);
    }
  }

  lemma SendQueue(net: Net, ds: seq<Delivery>, x: Delivery, a: ActorId, box: seq<Mail>, handled: seq<nat>)
    requires QueueOk(net, ds, a, box, handled, false, false) && x.sink in net.owner && net.owner[x.sink] == a
    ensures QueueOk(net, ds + [x], a, box + [Deliver(|ds|)], handled, false, false)
  {
    var box1 := box + [Deliver(|ds|)];
    OfSnoc(net, ds, x, a);
    NumbersSnoc(box, Deliver(|ds|));
    assert handled + Numbers(box1) == (handled + Numbers(box)) + [|ds|];
    assert NoStops(box1);
  }

  lemma SendElsewhere(net: Net, ds: seq<Delivery>, x: Delivery, a: ActorId, box: seq<Mail>, handled: seq<nat>)
    requires QueueOk(net, ds, a, box, handled, false, false) && x.sink in net.owner && net.owner[x.sink] != a
    ensures QueueOk(net, ds + [x], a, box, handled, false, false)
  {
    OfSnoc(net, ds, x, a);
    assert Of(net, ds, a) + [] == Of(net, ds, a);
  }

  /** What a put changes. */
  ghost predicate Sends(net: Net, b: Bus, b1: Bus) {
    && b.phase.Sending? && b.phase.sent < |b.phase.all|
    && var x := b.phase.all[b.phase.sent];
       && x.sink in net.owner && net.owner[x.sink] in b.boxes
       && b1 == b.(phase := Sending(b.phase.current, b.phase.all, b.phase.sent + 1), dispatched := b.dispatched + [x],
                   boxes := b.boxes[net.owner[x.sink] := b.boxes[net.owner[x.sink]] + [Deliver(|b.dispatched|)]])
  }

  lemma SendFifo(net: Net, b: Bus, b1: Bus)
    requires PhaseOk(net, b.put, b.taken, b.phase) && Fifo(net, b) && Sends(net, b, b1)
    ensures Fifo(net, b1)
  {
    forall s, k
      ensures Origins(b1.dispatched, s, k) ==
      if Connected(net, s, k) then Expected(b1.put, b1.taken, b1.phase, s, k) else [] {
      SendOnConnection(net, b.put, b.taken, b.phase, b.dispatched, s, k);
    }
  }

  lemma SendQueues(net: Net, b: Bus, b1: Bus)
    requires Queues(net, b) && Sends(net, b, b1)
    ensures Queues(net, b1)
  {
    var x := b.phase.all[b.phase.sent];
    forall a | a in b1.boxes ensures QueueOk(net, b1.dispatched, a, b1.boxes[a], b1.handled[a], false, a in b1.exited) {
      if a == net.owner[x.sink] {
        SendQueue(net, b.dispatched, x, a, b.boxes[a], b.handled[a]);
      } else {
        SendElsewhere(net, b.dispatched, x, a, b.boxes[a], b.handled[a]);
      }
    }
  }

  lemma SendKeeps(net: Net, b: Bus)
    requires Inv(net, b) && b.phase.Sending? && b.phase.sent < |b.phase.all|
    ensures Inv(net, SendStep(net, b)) && Sends(net, b, SendStep(net, b))
  {
    var x := b.phase.all[b.phase.sent];
    assert Delivers(x, b.phase.current, b.taken - 1) && Connected(net, b.phase.current.source, x.sink);
    var b1 := SendStep(net, b);
    SendFifo(net, b, b1);
    SendQueues(net, b, b1);
    SendContent(net, b, b1);
  }

  lemma SendContent(net: Net, b: Bus, b1: Bus)
    requires PhaseOk(net, b.put, b.taken, b.phase) && ContentOk(b) && Sends(net, b, b1)
    ensures PhaseOk(net, b1.put, b1.taken, b1.phase) && ContentOk(b1)
  {
    assert Delivers(b.phase.all[b.phase.sent], b.phase.current, b.taken - 1);
  }

  lemma SentKeeps(net: Net, b: Bus)
    requires Inv(net, b) && b.phase.Sending? && b.phase.sent == |b.phase.all|
    ensures Inv(net, b.(phase := Idle))
  {
    var b1 := b.(phase := Idle);
    var e := b.phase.current;
    forall s, k
      ensures Origins(b1.dispatched, s, k) ==
      if Connected(net, s, k) then Expected(b1.put, b1.taken, b1.phase, s, k) else [] {
      if Connected(net, s, k) && s == e.source {
        assert Covers(b.phase.all, |b.phase.all|, k);
      }
    }
  }

  lemma BusStepKeeps(d: Deltas, net: Net, b: Bus, order: seq<SinkId>, child: ContextId)
    requires Inv(net, b) && Enabled(net, b, BusStep(order, child))
    ensures Inv(net, BusNext(d, net, b, order, child))
  {
    match b.phase
    case Idle =>
      if b.put[b.taken].StopBus? {
        StopKeeps(net, b, order);
      } else {
        TakeKeeps(d, net, b, order);
      }
    case Forking(_, order, made) =>
      if |made| < |order| {
        ForkKeeps(d, net, b, child);
      } else {
        ForkedKeeps(d, net, b, child);
      }
    case Sending(_, all, sent) =>
      if sent < |all| {
        SendKeeps(net, b);
      } else {
        SentKeeps(net, b);
      }
    case Stopped =>
  }

  lemma StepKeeps(d: Deltas, net: Net, b: Bus, a: Action)
    requires Inv(net, b) && Enabled(net, b, a)
    ensures Inv(net, Next(d, net, b, a))
  {
    match a
    case Put(event) => PutKeeps(net, b, Send(event));
    case RequestStop => PutKeeps(net, b, StopBus);
    case Operate(op) =>
      StoreStepKeepsKeys(d, b.store, op);
      QuietStep(net, b, OperateStep(d, b, op));
    case BusStep(order, child) => BusStepKeeps(d, net, b, order, child);
    case ActorStep(actor) => HandleKeeps(net, b, actor);
  }

  lemma {:induction false} RunKeeps(d: Deltas, net: Net, b: Bus, actions: seq<Action>, b': Bus)
    requires Inv(net, b) && Run(d, net, b, actions, b')
    ensures Inv(net, b')
    decreases |actions|
  {
    if actions != [] {
      StepKeeps(d, net, b, actions[0]);
      RunKeeps(d, net, Next(d, net, b, actions[0]), actions[1..], b');
    }
  }

  lemma InitialInv(net: Net, b: Bus)
    requires Initial(net, b)
    ensures Inv(net, b)
  {
  }

  /******* Theorems *******/

  /** The deliveries with these numbers. */
  ghost function At(ds: seq<Delivery>, ns: seq<nat>): seq<Delivery>
    requires forall i :: 0 <= i < |ns| ==> ns[i] < |ds|
  {
    seq(|ns|, i requires 0 <= i < |ns| => ds[ns[i]])
  }

  lemma {:induction false} OriginsAppend(xs: seq<Delivery>, ys: seq<Delivery>, s: SourceId, k: SinkId)
    ensures Origins(xs + ys, s, k) == Origins(xs, s, k) + Origins(ys, s, k)
  {
    if ys == [] {
      assert xs + ys == xs;
    } else {
      var n := |ys| - 1;
      OriginsAppend(xs, ys[..n], s, k);
      OriginsSnoc(xs + ys[..n], ys[n], s, k);
      assert xs + ys == (xs + ys[..n]) + [ys[n]];
    }
  }

  /** Seen from the owner of the sink, a connection has the same deliveries. */
  lemma {:induction false} OriginsOfOwner(net: Net, ds: seq<Delivery>, a: ActorId, s: SourceId, k: SinkId)
    requires k in net.owner && net.owner[k] == a
    ensures forall i :: 0 <= i < |Of(net, ds, a)| ==> Of(net, ds, a)[i] < |ds|
    ensures Origins(At(ds, Of(net, ds, a)), s, k) == Origins(ds, s, k)
  {
    OfIsInRange(net, ds, a);
    if ds != [] {
      var n := |ds| - 1;
      var init := Of(net, ds[..n], a);
      OriginsOfOwner(net, ds[..n], a, s, k);
      var mine := ds[n].sink in net.owner && net.owner[ds[n].sink] == a;
      assert At(ds, init) == At(ds[..n], init);
      assert At(ds, Of(net, ds, a)) == At(ds, init) + if mine then [ds[n]] else [];
      if mine {
        OriginsSnoc(At(ds, init), ds[n], s, k);
      } else {
        assert At(ds, init) + [] == At(ds, init);
      }
    }
  }

  lemma {:induction false} OfIsInRange(net: Net, ds: seq<Delivery>, a: ActorId)
    ensures forall i :: 0 <= i < |Of(net, ds, a)| ==> Of(net, ds, a)[i] < |ds|
  {
    if ds != [] {
      OfIsInRange(net, ds[..|ds| - 1], a);
    }
  }

  lemma HandledInRange(net: Net, b: Bus, a: ActorId)
    requires Queues(net, b) && a in b.handled
    ensures forall i :: 0 <= i < |b.handled[a]| ==> b.handled[a][i] < |b.dispatched|
  {
    assert QueueOk(net, b.dispatched, a, b.boxes[a], b.handled[a], b.phase.Stopped?, a in b.exited);
    OfIsInRange(net, b.dispatched, a);
    forall i | 0 <= i < |b.handled[a]| ensures b.handled[a][i] < |b.dispatched| {
      assert b.handled[a][i] == Of(net, b.dispatched, a)[i];
    }
  }

  /**
   Main theorem: on every connection, what has been handled at the sink is a prefix of what was put on
   the bus from the source: nothing lost, doubled, or out of order. Nothing comes over a connection that
   does not exist.
   */
  lemma HandledIsPrefixOfPut(d: Deltas, net: Net, b0: Bus, actions: seq<Action>, b: Bus, a: ActorId, s: SourceId,
                             k: SinkId)
    requires Initial(net, b0) && Run(d, net, b0, actions, b)
    requires k in net.owner && net.owner[k] == a
    ensures a in b.handled && forall i :: 0 <= i < |b.handled[a]| ==> b.handled[a][i] < |b.dispatched|
    ensures Connected(net, s, k) ==> Origins(At(b.dispatched, b.handled[a]), s, k) <= Indices(b.put, |b.put|, s)
    ensures !Connected(net, s, k) ==> Origins(At(b.dispatched, b.handled[a]), s, k) == []
  {
    InitialInv(net, b0);
    RunKeeps(d, net, b0, actions, b);
    hide Run;
    hide Initial;
    assert QueueOk(net, b.dispatched, a, b.boxes[a], b.handled[a], b.phase.Stopped?, a in b.exited);
    HandledInRange(net, b, a);
    OriginsOfOwner(net, b.dispatched, a, s, k);
    HandledIsPrefix(net, b, a, s, k);
    if Connected(net, s, k) {
      ExpectedIsPrefix(net, b, s, k);
    }
  }

  lemma HandledIsPrefix(net: Net, b: Bus, a: ActorId, s: SourceId, k: SinkId)
    requires a in b.handled && a in b.boxes && Queues(net, b)
    requires forall i :: 0 <= i < |b.handled[a]| ==> b.handled[a][i] < |b.dispatched|
    requires forall i :: 0 <= i < |Of(net, b.dispatched, a)| ==> Of(net, b.dispatched, a)[i] < |b.dispatched|
    ensures Origins(At(b.dispatched, b.handled[a]), s, k) <= Origins(At(b.dispatched, Of(net, b.dispatched, a)), s, k)
  {
    var of, h := Of(net, b.dispatched, a), b.handled[a];
    var rest := of[|h|..];
    assert of == h + rest;
    assert At(b.dispatched, of) == At(b.dispatched, h) + At(b.dispatched, rest);
    OriginsAppend(At(b.dispatched, h), At(b.dispatched, rest), s, k);
  }

  lemma ExpectedIsPrefix(net: Net, b: Bus, s: SourceId, k: SinkId)
    requires PhaseOk(net, b.put, b.taken, b.phase) && b.taken <= |b.put|
    ensures Expected(b.put, b.taken, b.phase, s, k) <= Indices(b.put, |b.put|, s)
  {
    IndicesGrow(b.put, b.taken, |b.put|, s);
    if InFlight(b.phase) {
      IndicesGrow(b.put, b.taken - 1, b.taken, s);
    }
  }

  /** Every delivery carries its event; only taps go to another context. */
  lemma DeliveriesCarryTheirEvent(d: Deltas, net: Net, b0: Bus, actions: seq<Action>, b: Bus, n: nat)
    requires Initial(net, b0) && Run(d, net, b0, actions, b) && n < |b.dispatched|
    ensures var x := b.dispatched[n];
            && x.origin < |b.put| && b.put[x.origin] == Send(x.event)
            && (!x.tap ==> x.ctx == x.event.ctx)
  {
    InitialInv(net, b0);
    RunKeeps(d, net, b0, actions, b);
  }

  /**
   Main theorem: an actor that has exited has handled everything it was ever sent, and on each of its
   connections that is every event put on the bus before the stop request.
   */
  lemma StopDrains(d: Deltas, net: Net, b0: Bus, actions: seq<Action>, b: Bus, a: ActorId, s: SourceId, k: SinkId)
    requires Initial(net, b0) && Run(d, net, b0, actions, b) && a in b.exited && a in net.actors
    requires k in net.owner && net.owner[k] == a && Connected(net, s, k)
    ensures 0 < b.taken <= |b.put| && b.put[b.taken - 1] == StopBus
    ensures a in b.handled && b.handled[a] == Of(net, b.dispatched, a)
    ensures forall i :: 0 <= i < |b.handled[a]| ==> b.handled[a][i] < |b.dispatched|
    ensures Origins(At(b.dispatched, b.handled[a]), s, k) == Indices(b.put, b.taken - 1, s)
  {
    InitialInv(net, b0);
    RunKeeps(d, net, b0, actions, b);
    DrainedOnConnection(net, b, a, s, k);
    hide *;
  }

  lemma DrainedOnConnection(net: Net, b: Bus, a: ActorId, s: SourceId, k: SinkId)
    requires Inv(net, b) && a in b.exited && a in net.actors
    requires k in net.owner && net.owner[k] == a && Connected(net, s, k)
    ensures 0 < b.taken <= |b.put| && b.put[b.taken - 1] == StopBus
    ensures a in b.handled && b.handled[a] == Of(net, b.dispatched, a)
    ensures forall i :: 0 <= i < |b.handled[a]| ==> b.handled[a][i] < |b.dispatched|
    ensures Origins(At(b.dispatched, b.handled[a]), s, k) == Indices(b.put, b.taken - 1, s)
  {
    ExitedHasDrained(net, b, a);
    OriginsOfOwner(net, b.dispatched, a, s, k);
    StoppedHasPassedAll(net, b, s, k);
    hide Origins;
    hide Indices;
    hide Of;
    hide Fifo;
  }

  lemma StoppedHasPassedAll(net: Net, b: Bus, s: SourceId, k: SinkId)
    requires PhaseOk(net, b.put, b.taken, b.phase) && Fifo(net, b) && b.phase.Stopped? && Connected(net, s, k)
    ensures Origins(b.dispatched, s, k) == Indices(b.put, b.taken - 1, s)
  {
    assert Origins(b.dispatched, s, k) == Expected(b.put, b.taken, b.phase, s, k);
  }

  lemma ExitedHasDrained(net: Net, b: Bus, a: ActorId)
    requires Queues(net, b) && a in b.exited && a in net.actors
    ensures b.phase.Stopped? && b.handled[a] == Of(net, b.dispatched, a)
    ensures forall i :: 0 <= i < |b.handled[a]| ==> b.handled[a][i] < |b.dispatched|
  {
    assert QueueOk(net, b.dispatched, a, b.boxes[a], b.handled[a], b.phase.Stopped?, true);
    OfIsInRange(net, b.dispatched, a);
    assert b.handled[a] + [] == b.handled[a];
  }
}
