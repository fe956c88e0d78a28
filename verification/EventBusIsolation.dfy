/**
 Tap isolation: every tap of every delivered event has a child context of its own, made before any
 handler of that event can run, and nothing changes that context until its own handler takes it.
 */
module EventBusIsolation {
  import opened Options
  import opened ContextLog
  import opened Wiring
  import opened EventBus
  import opened EventBusDelivery

  /** Deliveries that the bus has made up but not put into a queue yet. */
  function Unsent(p: Phase): seq<Delivery> {
    match p
    case Forking(_, _, made) => made
    case Sending(_, all, sent) => if sent <= |all| then all[sent..] else []
    case _ => []
  }

  function Forked(b: Bus): seq<Delivery> {
    b.dispatched + Unsent(b.phase)
  }

  ghost predicate Handled(b: Bus, i: int) {
    exists a :: a in b.handled && i in b.handled[a]
  }

  /** The child of the event's context as it was when the bus made it. */
  function ForkedCtx(x: Delivery): Ctx {
    Ctx(x.event.payload, x.userData, [Snapshot(x.event.ctx, x.event.payload, x.userData)], false)
  }

  ghost predicate Untouched(x: Delivery, store: System, known: set<ContextId>) {
    x.ctx !in known && x.ctx in store.contexts && store.contexts[x.ctx] == ForkedCtx(x)
  }

  ghost predicate DistinctTaps(ds: seq<Delivery>) {
    forall i, j :: 0 <= i < j < |ds| && ds[i].tap && ds[j].tap ==> ds[i].ctx != ds[j].ctx
  }

  ghost predicate TapsInStore(ds: seq<Delivery>, store: System) {
    forall i :: 0 <= i < |ds| && ds[i].tap ==> ds[i].ctx in store.data
  }

  ghost predicate WaitingUntouched(b: Bus) {
    forall i :: 0 <= i < |Forked(b)| && Forked(b)[i].tap && !Handled(b, i) ==> Untouched(Forked(b)[i], b.store, b.known)
  }

  ghost predicate EventsKnown(b: Bus) {
    forall i :: 0 <= i < |b.put| && b.put[i].Send? ==> b.put[i].event.ctx in b.known
  }

  /** While the children are made, the context of the event holds its payload. */
  ghost predicate HoldsPayload(b: Bus) {
    b.alive && b.phase.Forking? ==>
      b.phase.event.ctx in b.store.contexts && b.store.contexts[b.phase.event.ctx].payload == b.phase.event.payload
  }

  ghost predicate Isolated(b: Bus) {
    && DistinctTaps(Forked(b)) && TapsInStore(Forked(b), b.store) && WaitingUntouched(b)
    && EventsKnown(b) && HoldsPayload(b)
    && b.known <= b.store.contexts.Keys <= b.store.data.Keys
    && (forall i :: Handled(b, i) ==> i < |b.dispatched|)
  }

  /******* What the store operations leave alone *******/

  function OpContext(op: Op): Option<ContextId> {
    match op
    case OpCreate(_, child) => Some(child)
    case OpMessage(c, _, _) => Some(c)
    case OpUserData(c, _, _) => Some(c)
    case OpNote(c, _) => Some(c)
    case OpComplete(c) => Some(c)
    case OpRestart => None
  }

  lemma StepFrame(d: Deltas, s: System, op: Op, c: ContextId)
    requires WellKeyed(s) && !op.OpRestart? && (op.OpCreate? ==> op.child !in s.data) && c in s.contexts
    ensures var s1 := Step(d, s, op).0;
            && s.data.Keys <= s1.data.Keys && s1.contexts.Keys <= s1.data.Keys && c in s1.contexts
            && (Some(c) != OpContext(op) ==> s1.contexts[c] == s.contexts[c])
            && (!op.OpMessage? ==> s1.contexts[c].payload == s.contexts[c].payload)
  {
    StoreStepKeepsKeys(d, s, op);
  }

  lemma StepKeys(d: Deltas, s: System, op: Op)
    requires WellKeyed(s) && !op.OpRestart? && (op.OpCreate? ==> op.child !in s.data)
    ensures var r := Step(d, s, op);
            && s.data.Keys <= r.0.data.Keys && s.contexts.Keys <= r.0.contexts.Keys <= r.0.data.Keys
            && (op.OpCreate? && r.1 == Done ==> op.child in r.0.contexts)
  {
    StoreStepKeepsKeys(d, s, op);
    match op
    case OpCreate(parents, child) =>
    case _ =>
  }

  /** A new child of one live parent is a copy of it. */
  lemma ChildCopiesParent(d: Deltas, s: System, c: ContextId, child: ContextId)
    requires WellKeyed(s) && child !in s.data && c in s.contexts && CreateContext(d, s, [c], child).1 == Done
    ensures var s1, p := CreateContext(d, s, [c], child).0, s.contexts[c];
            && child in s1.contexts
            && s1.contexts[child] == Ctx(p.payload, p.userData, [Snapshot(c, p.payload, p.userData)], false)
  {
    assert [c][..0] == [];
    assert Dedup([]) == [];
    assert Dedup([c]) == [c];
    assert Snapshots(s, [c]) == [Snapshot(c, s.contexts[c].payload, s.contexts[c].userData)];
  }

  /******* Every step keeps it *******/

  /** Deliveries and handling are the same; every waiting tap context is, too. */
  lemma StoreStepKeeps(b: Bus, b1: Bus)
    requires Isolated(b)
    requires b1 == b.(store := b1.store, known := b1.known, alive := b1.alive)
    requires b.known <= b1.known <= b1.store.contexts.Keys <= b1.store.data.Keys
    requires b.store.data.Keys <= b1.store.data.Keys
    requires forall c :: c in b1.known && c !in b.known ==> c !in b.store.data
    requires forall c :: c in b.store.contexts && c !in b.known ==>
               c in b1.store.contexts && b1.store.contexts[c] == b.store.contexts[c]
    requires HoldsPayload(b1)
    ensures Isolated(b1)
  {
    forall i ensures Handled(b1, i) <==> Handled(b, i) {
    }
    forall i | 0 <= i < |Forked(b1)| && Forked(b1)[i].tap && !Handled(b1, i)
      ensures Untouched(Forked(b1)[i], b1.store, b1.known) {
      assert Untouched(Forked(b)[i], b.store, b.known);
    }
  }

  lemma OperateIsolates(d: Deltas, net: Net, b: Bus, op: Op)
    requires Isolated(b) && WellKeyed(b.store) && Allowed(b, op)
    ensures Isolated(OperateStep(d, b, op))
  {
    var b1 := OperateStep(d, b, op);
    StepKeys(d, b.store, op);
    forall c | c in b.store.contexts
      ensures c in b1.store.contexts && b1.store.contexts[c].payload == b.store.contexts[c].payload
      ensures c !in b.known ==> b1.store.contexts[c] == b.store.contexts[c]
    {
      StepFrame(d, b.store, op, c);
    }
    StoreStepKeeps(b, b1);
  }

  /** A step that only appends to what waits outside the queues, or changes no delivery at all. */
  lemma SameDeliveries(b: Bus, b1: Bus)
    requires Isolated(b) && Forked(b1) == Forked(b) && |b.dispatched| <= |b1.dispatched|
    requires b1.handled == b.handled && b1.known == b.known && b1.store == b.store && b1.alive == b.alive
    requires EventsKnown(b1) && HoldsPayload(b1)
    ensures Isolated(b1)
  {
    forall i ensures Handled(b1, i) <==> Handled(b, i) {
    }
    forall i | 0 <= i < |Forked(b1)| && Forked(b1)[i].tap && !Handled(b1, i)
      ensures Untouched(Forked(b1)[i], b1.store, b1.known) {
      assert Untouched(Forked(b)[i], b.store, b.known);
    }
  }

  lemma TakeIsolates(d: Deltas, net: Net, b: Bus, order: seq<SinkId>)
    requires Isolated(b) && WellKeyed(b.store) && b.phase.Idle? && b.taken < |b.put| && b.put[b.taken].Send?
    ensures Isolated(TakeStep(d, net, b, b.put[b.taken].event, order))
  {
    var e := b.put[b.taken].event;
    var b1 := TakeStep(d, net, b, e, order);
    var op := OpMessage(e.ctx, e.source, e.payload);
    StepKeys(d, b.store, op);
    forall c | c in b.store.contexts && c !in b.known
      ensures c in b1.store.contexts && b1.store.contexts[c] == b.store.contexts[c] {
      StepFrame(d, b.store, op, c);
    }
    var b2 := b.(store := b1.store, alive := b1.alive);
    StoreStepKeeps(b, b2);
    assert Unsent(b1.phase) == Unsent(b2.phase);
    SameDeliveries(b2, b1);
  }

  lemma NewTapIsolates(b: Bus, b1: Bus, x: Delivery)
    requires Isolated(b) && Forked(b1) == Forked(b) + [x] && b1.dispatched == b.dispatched && b1.handled == b.handled
    requires x.tap && x.ctx !in b.store.data && Untouched(x, b1.store, b1.known)
    requires b1.known == b.known && b1.put == b.put && HoldsPayload(b1)
    requires b1.store.contexts.Keys == b.store.contexts.Keys + {x.ctx} && b1.store.contexts.Keys <= b1.store.data.Keys
    requires b.store.data.Keys <= b1.store.data.Keys
    requires forall c :: c in b.store.contexts ==> b1.store.contexts[c] == b.store.contexts[c]
    ensures Isolated(b1)
  {
    forall i ensures Handled(b1, i) <==> Handled(b, i) {
    }
    forall i | 0 <= i < |Forked(b1)| && Forked(b1)[i].tap && !Handled(b1, i)
      ensures Untouched(Forked(b1)[i], b1.store, b1.known) {
      if i < |Forked(b)| {
        assert Forked(b1)[i] == Forked(b)[i];
        assert Untouched(Forked(b)[i], b.store, b.known);
      }
    }
  }

  lemma ForkIsolates(d: Deltas, net: Net, b: Bus, child: ContextId)
    requires Isolated(b) && Inv(net, b) && b.alive && b.phase.Forking? && |b.phase.made| < |b.phase.order|
    requires child !in b.store.data
    ensures Isolated(ForkStep(d, net, b, child))
  {
    hide MakeTap;
    hide Fifo;
    hide Queues;
    hide ContentOk;
    var b1, e := ForkStep(d, net, b, child), b.phase.event;
    var r := MakeTap(d, b.store, e, b.taken - 1, b.phase.order[|b.phase.made|], child);
    TapIsUntouched(d, b, child);
    if r.made.Some? {
      assert Forked(b1) == Forked(b) + [r.made.value];
      NewTapIsolates(b, b1, r.made.value);
    } else {
      StoreStepKeeps(b, b1);
    }
  }

  /** A tap that cannot be made changes nothing; one that is made is a copy of the event's context. */
  lemma TapIsUntouched(d: Deltas, b: Bus, child: ContextId)
    requires WellKeyed(b.store) && b.phase.Forking? && |b.phase.made| < |b.phase.order| && 0 < b.taken
    requires child !in b.store.data
    requires b.phase.event.ctx in b.store.contexts
    requires b.store.contexts[b.phase.event.ctx].payload == b.phase.event.payload
    requires b.known <= b.store.contexts.Keys
    ensures var r := MakeTap(d, b.store, b.phase.event, b.taken - 1, b.phase.order[|b.phase.made|], child);
            && (r.made.None? ==> r.store == b.store)
            && (r.made.Some? ==>
                  && r.made.value.tap && r.made.value.ctx == child && Untouched(r.made.value, r.store, b.known)
                  && r.store.contexts.Keys == b.store.contexts.Keys + {child} && b.store.data.Keys <= r.store.data.Keys
                  && forall c :: c in b.store.contexts ==> r.store.contexts[c] == b.store.contexts[c])
  {
    var op := OpCreate([b.phase.event.ctx], child);
    StepKeys(d, b.store, op);
    StoreStepKeepsKeys(d, b.store, op);
    if CreateContext(d, b.store, [b.phase.event.ctx], child).1 == Done {
      ChildCopiesParent(d, b.store, b.phase.event.ctx, child);
    }
  }

  lemma InsertKeepsTaps(ds: seq<Delivery>, head: seq<Delivery>, made: seq<Delivery>, store: System)
    requires DistinctTaps(ds + made) && TapsInStore(ds + made, store) && forall i :: 0 <= i < |head| ==> !head[i].tap
    ensures DistinctTaps(ds + (head + made)) && TapsInStore(ds + (head + made), store)
  {
    var f, g, n, m := ds + made, ds + (head + made), |ds|, |head|;
    forall i, j | 0 <= i < j < |g| && g[i].tap && g[j].tap ensures g[i].ctx != g[j].ctx {
      var x, y := if i < n then i else i - m, if j < n then j else j - m;
      assert g[i] == f[x] && g[j] == f[y] && x < y;
    }
    forall i | 0 <= i < |g| && g[i].tap ensures g[i].ctx in store.data {
      assert g[i] == f[if i < n then i else i - m];
    }
  }

  /** The primary delivery goes in front of the taps of its event. */
  lemma PrimaryIsolates(b: Bus, b1: Bus, head: seq<Delivery>, made: seq<Delivery>)
    requires Isolated(b) && Forked(b) == b.dispatched + made && Forked(b1) == b.dispatched + (head + made)
    requires b1 == b.(phase := b1.phase) && b1.phase.Sending? && forall i :: 0 <= i < |head| ==> !head[i].tap
    ensures Isolated(b1)
  {
    InsertKeepsTaps(b.dispatched, head, made, b.store);
    var f, g, n, m := Forked(b), Forked(b1), |b.dispatched|, |head|;
    forall i | 0 <= i < |g| && g[i].tap && !Handled(b1, i) ensures Untouched(g[i], b1.store, b1.known) {
      var x := if i < n then i else i - m;
      assert g[i] == f[x];
      assert !Handled(b, x);
    }
    forall i | Handled(b1, i) ensures i < n {
      assert Handled(b, i);
    }
  }

  lemma ForkedIsolates(d: Deltas, net: Net, b: Bus, child: ContextId)
    requires Isolated(b) && Inv(net, b) && b.phase.Forking? && |b.phase.made| == |b.phase.order|
    ensures Isolated(ForkStep(d, net, b, child))
  {
    var b1, e, primary := ForkStep(d, net, b, child), b.phase.event, TargetsOf(net, b.phase.event.source).primary;
    var head := if primary.Some? then [Delivery(b.taken - 1, e, primary.value, e.ctx, false, map[])] else [];
    assert b1.phase.all[0..] == head + b.phase.made;
    PrimaryIsolates(b, b1, head, b.phase.made);
  }

  lemma SendIsolates(net: Net, b: Bus, b1: Bus)
    requires Isolated(b) && Sends(net, b, b1)
    ensures Isolated(b1)
  {
    var all, sent := b.phase.all, b.phase.sent;
    assert all[sent..] == [all[sent]] + all[sent + 1..];
    assert Forked(b1) == Forked(b);
    SameDeliveries(b, b1);
  }

  lemma BusStepIsolates(d: Deltas, net: Net, b: Bus, order: seq<SinkId>, child: ContextId)
    requires Isolated(b) && Inv(net, b) && Enabled(net, b, BusStep(order, child))
    ensures Isolated(BusNext(d, net, b, order, child))
  {
    match b.phase
    case Idle =>
      if b.put[b.taken].StopBus? {
        SameDeliveries(b, b.(taken := b.taken + 1, phase := Stopped, boxes := StopBoxes(net, b.boxes, order)));
      } else {
        TakeIsolates(d, net, b, order);
      }
    case Forking(_, order, made) =>
      if |made| < |order| {
        ForkIsolates(d, net, b, child);
      } else {
        ForkedIsolates(d, net, b, child);
      }
    case Sending(_, all, sent) =>
      if sent < |all| {
        SendKeeps(net, b);
        SendIsolates(net, b, SendStep(net, b));
      } else {
        SameDeliveries(b, b.(phase := Idle));
      }
    case Stopped =>
  }

  lemma HandleIsolates(net: Net, b: Bus, a: ActorId)
    requires Isolated(b) && Inv(net, b) && a in b.boxes && b.boxes[a] != []
    ensures Isolated(HandleStep(b, a))
  {
    var b1 := HandleStep(b, a);
    if b.boxes[a][0].StopActor? {
      SameDeliveries(b, b1);
    } else {
      var n := b.boxes[a][0].number;
      HeadInRange(net, b, a);
      var y := b.dispatched[n];
      assert y == Forked(b)[n];
      forall i ensures Handled(b1, i) <==> Handled(b, i) || i == n {
        HandledGrows(b, b1, a, n, i);
      }
      forall i | 0 <= i < |Forked(b1)| && Forked(b1)[i].tap && !Handled(b1, i)
        ensures Untouched(Forked(b1)[i], b1.store, b1.known) {
        assert Forked(b1)[i] == Forked(b)[i] && Untouched(Forked(b)[i], b.store, b.known);
        assert y.ctx != Forked(b)[i].ctx;
      }
      assert y.ctx in b.store.contexts by {
        if !y.tap {
          assert y.ctx in b.known;
        } else {
          HeadNotHandled(net, b, a);
          assert Untouched(y, b.store, b.known);
        }
      }
    }
  }

  lemma HandledGrows(b: Bus, b1: Bus, a: ActorId, n: nat, i: int)
    requires a in b.handled && b1.handled == b.handled[a := b.handled[a] + [n]]
    ensures Handled(b1, i) <==> Handled(b, i) || i == n
  {
    if Handled(b, i) {
      var c :| c in b.handled && i in b.handled[c];
      assert c in b1.handled && i in b1.handled[c];
    }
    if i == n {
      assert i in b1.handled[a];
    }
    if Handled(b1, i) && i != n {
      var c :| c in b1.handled && i in b1.handled[c];
      assert i in b.handled[c];
    }
  }

  /******* A waiting delivery has not been handled *******/

  lemma {:induction false} OfMember(net: Net, ds: seq<Delivery>, a: ActorId, n: nat)
    ensures n in Of(net, ds, a) <==> n < |ds| && ds[n].sink in net.owner && net.owner[ds[n].sink] == a
  {
    if ds != [] {
      OfMember(net, ds[..|ds| - 1], a, n);
    }
  }

  lemma {:induction false} OfIncreases(net: Net, ds: seq<Delivery>, a: ActorId)
    ensures forall i, j :: 0 <= i < j < |Of(net, ds, a)| ==> Of(net, ds, a)[i] < Of(net, ds, a)[j]
  {
    if ds != [] {
      OfIncreases(net, ds[..|ds| - 1], a);
      OfIsInRange(net, ds[..|ds| - 1], a);
    }
  }

  lemma {:induction false} NumberOfMail(box: seq<Mail>, j: nat)
    requires j < |box| && box[j].Deliver?
    ensures box[j].number in Numbers(box)
  {
    if j < |box| - 1 {
      NumberOfMail(box[..|box| - 1], j);
    }
  }

  lemma WaitingNotHandled(net: Net, b: Bus, a: ActorId, n: nat)
    requires Queues(net, b) && a in b.boxes && n in Numbers(b.boxes[a])
    ensures n < |b.dispatched| && !Handled(b, n)
  {
    assert QueueOk(net, b.dispatched, a, b.boxes[a], b.handled[a], b.phase.Stopped?, a in b.exited);
    var of, waiting := Of(net, b.dispatched, a), Numbers(b.boxes[a]);
    var j :| 0 <= j < |waiting| && waiting[j] == n;
    assert of[|b.handled[a]| + j] == n;
    OfMember(net, b.dispatched, a, n);
    OfIncreases(net, b.dispatched, a);
    if Handled(b, n) {
      var c :| c in b.handled && n in b.handled[c];
      assert QueueOk(net, b.dispatched, c, b.boxes[c], b.handled[c], b.phase.Stopped?, c in b.exited);
      var i :| 0 <= i < |b.handled[c]| && b.handled[c][i] == n;
      assert Of(net, b.dispatched, c)[i] == n;
      OfMember(net, b.dispatched, c, n);
      assert false;
    }
  }

  lemma HeadInRange(net: Net, b: Bus, a: ActorId)
    requires Queues(net, b) && a in b.boxes && b.boxes[a] != [] && b.boxes[a][0].Deliver?
    ensures b.boxes[a][0].number < |b.dispatched|
  {
    NumberOfMail(b.boxes[a], 0);
    WaitingNotHandled(net, b, a, b.boxes[a][0].number);
  }

  lemma HeadNotHandled(net: Net, b: Bus, a: ActorId)
    requires Queues(net, b) && a in b.boxes && b.boxes[a] != [] && b.boxes[a][0].Deliver?
    ensures !Handled(b, b.boxes[a][0].number)
  {
    NumberOfMail(b.boxes[a], 0);
    WaitingNotHandled(net, b, a, b.boxes[a][0].number);
  }

  /******* Whole runs *******/

  lemma StepIsolates(d: Deltas, net: Net, b: Bus, a: Action)
    requires Isolated(b) && Inv(net, b) && Enabled(net, b, a)
    ensures Isolated(Next(d, net, b, a))
  {
    match a
    case Put(event) => SameDeliveries(b, Next(d, net, b, a));
    case RequestStop => SameDeliveries(b, Next(d, net, b, a));
    case Operate(op) => OperateIsolates(d, net, b, op);
    case BusStep(order, child) => BusStepIsolates(d, net, b, order, child);
    case ActorStep(actor) => HandleIsolates(net, b, actor);
  }

  lemma {:induction false} RunIsolates(d: Deltas, net: Net, b: Bus, actions: seq<Action>, b': Bus)
    requires Isolated(b) && Inv(net, b) && Run(d, net, b, actions, b')
    ensures Isolated(b') && Inv(net, b')
    decreases |actions|
  {
    if actions != [] {
      StepIsolates(d, net, b, actions[0]);
      StepKeeps(d, net, b, actions[0]);
      RunIsolates(d, net, Next(d, net, b, actions[0]), actions[1..], b');
    }
  }

  /**
   Main theorem: as long as a tap delivery waits in its queue, its context is the copy made at the fork,
   no code outside the bus knows of it, and no other tap delivery, past or waiting, has it.
   */
  lemma TapsAreIsolated(d: Deltas, net: Net, b0: Bus, actions: seq<Action>, b: Bus, a: ActorId, j: nat)
    requires Initial(net, b0) && Run(d, net, b0, actions, b)
    requires a in b.boxes && j < |b.boxes[a]| && b.boxes[a][j].Deliver?
    ensures b.boxes[a][j].number < |b.dispatched|
    ensures var n := b.boxes[a][j].number;
            b.dispatched[n].tap ==>
              && Untouched(b.dispatched[n], b.store, b.known)
              && forall m :: 0 <= m < |b.dispatched| && m != n && b.dispatched[m].tap ==>
                 b.dispatched[m].ctx != b.dispatched[n].ctx
  {
    InitialInv(net, b0);
    InitialIsolated(net, b0);
    RunIsolates(d, net, b0, actions, b);
    NumberOfMail(b.boxes[a], j);
    WaitingNotHandled(net, b, a, b.boxes[a][j].number);
    assert forall m :: 0 <= m < |b.dispatched| ==> Forked(b)[m] == b.dispatched[m];
  }

  lemma InitialIsolated(net: Net, b: Bus)
    requires Initial(net, b)
    ensures Isolated(b)
  {
  }

  lemma {:induction false} OriginsMember(ds: seq<Delivery>, n: nat)
    requires n < |ds|
    ensures ds[n].origin in Origins(ds, ds[n].event.source, ds[n].sink)
  {
    if n < |ds| - 1 {
      OriginsMember(ds[..|ds| - 1], n);
    }
  }

  lemma {:induction false} IndicesBelow(put: seq<Item>, n: nat, s: SourceId)
    requires n <= |put|
    ensures forall i :: i in Indices(put, n, s) ==> i < n
  {
    if n > 0 {
      IndicesBelow(put, n - 1, s);
    }
  }

  /** The copies are made before the event is put into any queue, so before any of its handlers runs. */
  lemma ForksComeFirst(d: Deltas, net: Net, b0: Bus, actions: seq<Action>, b: Bus, n: nat)
    requires Initial(net, b0) && Run(d, net, b0, actions, b) && b.phase.Forking? && n < |b.dispatched|
    ensures b.dispatched[n].origin < b.taken - 1
  {
    InitialInv(net, b0);
    RunKeeps(d, net, b0, actions, b);
    var x := b.dispatched[n];
    OriginsMember(b.dispatched, n);
    IndicesBelow(b.put, b.taken - 1, x.event.source);
    assert Origins(b.dispatched, x.event.source, x.sink)
        == if Connected(net, x.event.source, x.sink) then Expected(b.put, b.taken, b.phase, x.event.source, x.sink)
          else [];
  }

  /******* The parent, before any handler of the event *******/

  /** State `b` is one in which the bus copies the event's context for `x`, with what it holds right then. */
  ghost predicate CopiesFor(b: Bus, x: Delivery) {
    && b.phase.Forking? && b.phase.event == x.event && b.taken == x.origin + 1
    && x.event.ctx in b.store.contexts
    && b.store.contexts[x.event.ctx].payload == x.event.payload && b.store.contexts[x.event.ctx].userData == x.userData
  }

  lemma ForkCopies(d: Deltas, net: Net, b: Bus, child: ContextId, x: Delivery)
    requires Isolated(b) && Inv(net, b) && b.phase.Forking? && b.alive && child !in b.store.data
    requires x.tap && x in Forked(ForkStep(d, net, b, child))
    ensures x in Forked(b) || CopiesFor(b, x)
  {
    hide CreateContext;
    var b1 := ForkStep(d, net, b, child);
    if |b.phase.made| == |b.phase.order| {
      assert b1.phase.all[0..] == b1.phase.all;
    }
    assert x in b.dispatched || x in Unsent(b1.phase);
  }

  lemma SentWasUnsent(net: Net, b: Bus, x: Delivery)
    requires b.phase.Sending? && x in Forked(SendStep(net, b))
    ensures x in Forked(b)
  {
    var all, n := b.phase.all, b.phase.sent;
    if n < |all| {
      assert all[n..] == [all[n]] + all[n + 1..];
    }
  }

  /** Only a fork makes a new tap. */
  lemma StepCopies(d: Deltas, net: Net, b: Bus, a: Action, x: Delivery)
    requires Isolated(b) && Inv(net, b) && Enabled(net, b, a) && x.tap && x in Forked(Next(d, net, b, a))
    ensures x in Forked(b) || CopiesFor(b, x)
  {
    hide ForkStep;
    if a.BusStep? && b.phase.Forking? {
      ForkCopies(d, net, b, a.child, x);
    } else if a.BusStep? && b.phase.Sending? {
      SentWasUnsent(net, b, x);
    }
  }

  lemma {:induction false} RunCopies(d: Deltas, net: Net, b: Bus, actions: seq<Action>, b': Bus, x: Delivery)
    requires Isolated(b) && Inv(net, b) && Run(d, net, b, actions, b') && x.tap && x in Forked(b')
    ensures x in Forked(b) || exists k: nat, at ::
              k <= |actions| && Run(d, net, b, actions[..k], at) && CopiesFor(at, x) && Inv(net, at) && Isolated(at)
    decreases |actions|
  {
    if actions != [] {
      var b1, rest := Next(d, net, b, actions[0]), actions[1..];
      StepIsolates(d, net, b, actions[0]);
      StepKeeps(d, net, b, actions[0]);
      RunCopies(d, net, b1, rest, b', x);
      if x in Forked(b1) {
        StepCopies(d, net, b, actions[0], x);
        assert Run(d, net, b, actions[..0], b);
      } else {
        var k: nat, at :| k <= |rest| && Run(d, net, b1, rest[..k], at) && CopiesFor(at, x) && Inv(net, at)
          && Isolated(at);
        assert actions[..k + 1][1..] == rest[..k];
        assert Run(d, net, b, actions[..k + 1], at);
      }
    }
  }

  /**
   Main theorem: a dispatched tap carries the event and the payload and user data that the event's context
   held at an earlier point of the run, at which none of the event's deliveries was in any queue.
   */
  lemma TapsHoldParentState(d: Deltas, net: Net, b0: Bus, actions: seq<Action>, b: Bus, n: nat)
    requires Initial(net, b0) && Run(d, net, b0, actions, b) && n < |b.dispatched| && b.dispatched[n].tap
    ensures exists k: nat, at ::
              && k <= |actions| && Run(d, net, b0, actions[..k], at) && CopiesFor(at, b.dispatched[n])
              && forall m :: 0 <= m < |at.dispatched| ==> at.dispatched[m].origin < b.dispatched[n].origin
  {
    InitialInv(net, b0);
    InitialIsolated(net, b0);
    var x := b.dispatched[n];
    assert x in Forked(b);
    RunCopies(d, net, b0, actions, b, x);
    assert x !in Forked(b0);
    var k: nat, at :| k <= |actions| && Run(d, net, b0, actions[..k], at) && CopiesFor(at, x) && Inv(net, at)
      && Isolated(at);
    forall m | 0 <= m < |at.dispatched| ensures at.dispatched[m].origin < x.origin {
      ForksComeFirst(d, net, b0, actions[..k], at, m);
    }
  }
}
