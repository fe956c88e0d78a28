/**
 The loops of the bus and of an actor as runs of the step relation of `EventBus`: one pass of an event, and one
 message of an actor, when nothing interleaves.
 */
module EventBusSteps {
  import opened Options
  import opened ContextLog
  import opened EventBusRuntime
  import EB = EventBus

  lemma RunCons(d: Deltas, net: EB.Net, b: EB.Bus, a: EB.Action, more: seq<EB.Action>, b': EB.Bus)
    requires EB.Enabled(net, b, a) && EB.Run(d, net, EB.Next(d, net, b, a), more, b')
    ensures EB.Run(d, net, b, [a] + more, b')
  {
    assert ([a] + more)[1..] == more;
  }

  ghost predicate ReadyToFork(b: EB.Bus, children: seq<ContextId>) {
    && WellKeyed(b.store) && b.alive && b.phase.Forking? && 0 < b.taken
       && |b.phase.made| <= |b.phase.order| <= |children|
    && (forall i :: |b.phase.made| <= i < |children| ==> children[i] !in b.store.data)
    && (forall i, j :: 0 <= i < j < |children| ==> children[i] != children[j])
  }

  /** What `ForkAll` still has to do for the event in hand. */
  ghost function Rest(d: Deltas, b: EB.Bus, children: seq<ContextId>): Forks
    requires ReadyToFork(b, children)
  {
    ForkAll(d, b.store, b.phase.event, b.taken - 1, b.phase.order, children, b.phase.made)
  }

  ghost function WithForks(b: EB.Bus, r: Forks): EB.Bus
    requires b.phase.Forking?
  {
    b.(store := r.store, alive := r.ok, phase := EB.Forking(b.phase.event, b.phase.order, r.made))
  }

  lemma StillReady(b: EB.Bus, b1: EB.Bus, x: EB.Delivery, children: seq<ContextId>)
    requires ReadyToFork(b, children) && |b.phase.made| < |b.phase.order|
    requires b1 == b.(store := b1.store, phase := EB.Forking(b.phase.event, b.phase.order, b.phase.made + [x]))
    requires WellKeyed(b1.store) && b1.store.data.Keys <= b.store.data.Keys + {children[|b.phase.made|]}
    ensures ReadyToFork(b1, children)
  {
  }

  lemma TapData(d: Deltas, s: System, e: EB.Event, origin: nat, sink: EB.SinkId, child: ContextId)
    requires WellKeyed(s) && child !in s.data
    ensures EB.MakeTap(d, s, e, origin, sink, child).store.data.Keys <= s.data.Keys + {child}
  {
    CreatedData(d, s, e.ctx, child);
  }

  /** One step of the bus is one round of the loop. */
  lemma ForkOnce(d: Deltas, net: EB.Net, b: EB.Bus, children: seq<ContextId>)
    requires ReadyToFork(b, children) && |b.phase.made| < |b.phase.order|
    ensures var a := EB.BusStep(b.phase.order, children[|b.phase.made|]);
            EB.Enabled(net, b, a) && EB.Next(d, net, b, a) == EB.ForkStep(d, net, b, children[|b.phase.made|])
  {
  }

  lemma ForkReady(d: Deltas, net: EB.Net, b: EB.Bus, children: seq<ContextId>)
    requires ReadyToFork(b, children) && |b.phase.made| < |b.phase.order|
    ensures var b1 := EB.ForkStep(d, net, b, children[|b.phase.made|]);
            && b1.phase.Forking?
               && b1 == b.(store := b1.store, alive := b1.alive,
               phase := EB.Forking(b.phase.event, b.phase.order, b1.phase.made))
            && (b1.alive ==> ReadyToFork(b1, children) && |b1.phase.made| == |b.phase.made| + 1)
  {
    var e, order, made := b.phase.event, b.phase.order, b.phase.made;
    var r := EB.MakeTap(d, b.store, e, b.taken - 1, order[|made|], children[|made|]);
    TapData(d, b.store, e, b.taken - 1, order[|made|], children[|made|]);
    if r.made.Some? {
      StillReady(b, b.(store := r.store, phase := EB.Forking(e, order, made + [r.made.value])), r.made.value, children);
    }
  }

  /** A step leaves what is still to do after it. */
  lemma RestSame(d: Deltas, net: EB.Net, b: EB.Bus, children: seq<ContextId>)
    requires ReadyToFork(b, children) && |b.phase.made| < |b.phase.order|
    requires var b1 := EB.ForkStep(d, net, b, children[|b.phase.made|]);
             b1.phase.Forking? && (b1.alive ==> ReadyToFork(b1, children))
    ensures var b1 := EB.ForkStep(d, net, b, children[|b.phase.made|]);
            Rest(d, b, children) == if b1.alive then Rest(d, b1, children) else Forks(b1.store, b1.phase.made, false)
  {
    hide EB.MakeTap;
    ForkAllStep(d, b.store, b.phase.event, b.taken - 1, b.phase.order, children, b.phase.made);
  }

  /** The forks of an event, as steps of the bus that nothing interrupts. */
  lemma {:induction false} ForkSteps(d: Deltas, net: EB.Net, b: EB.Bus, children: seq<ContextId>)
    returns (actions: seq<EB.Action>)
    requires ReadyToFork(b, children)
    ensures EB.Run(d, net, b, actions, WithForks(b, Rest(d, b, children)))
    decreases |b.phase.order| - |b.phase.made|
  {
    if |b.phase.made| == |b.phase.order| {
      actions := [];
    } else {
      var a := EB.BusStep(b.phase.order, children[|b.phase.made|]);
      ForkOnce(d, net, b, children);
      ForkReady(d, net, b, children);
      RestSame(d, net, b, children);
      var b1 := EB.Next(d, net, b, a);
      var more := [];
      if b1.alive {
        more := ForkSteps(d, net, b1, children);
      }
      RunCons(d, net, b, a, more, WithForks(b, Rest(d, b, children)));
      actions := [a] + more;
    }
  }

  ghost predicate ReadyToSend(net: EB.Net, b: EB.Bus, boxes: map<EB.ActorId, seq<EB.Mail>>, first: nat) {
    && WellKeyed(b.store) && b.alive && b.phase.Sending? && b.phase.sent <= |b.phase.all|
       && |b.dispatched| == first + b.phase.sent
    && (forall j :: 0 <= j < |b.phase.all| ==>
       b.phase.all[j].sink in net.owner && net.owner[b.phase.all[j].sink] in boxes)
    && b.boxes == SendAll(net, boxes, first, b.phase.all, b.phase.sent)
  }

  lemma SendOnce(d: Deltas, net: EB.Net, b: EB.Bus, boxes: map<EB.ActorId, seq<EB.Mail>>, first: nat)
    requires ReadyToSend(net, b, boxes, first) && b.phase.sent < |b.phase.all|
    ensures var a := EB.BusStep([], 0);
            && EB.Enabled(net, b, a)
            && var b1 := EB.Next(d, net, b, a);
               && ReadyToSend(net, b1, boxes, first)
               && b1 == b.(phase := b1.phase, dispatched := b.dispatched + [b.phase.all[b.phase.sent]],
                           boxes := b1.boxes)
               && b1.phase == EB.Sending(b.phase.current, b.phase.all, b.phase.sent + 1)
  {
  }

  ghost function SentBus(net: EB.Net, b: EB.Bus, boxes: map<EB.ActorId, seq<EB.Mail>>, first: nat): EB.Bus
    requires ReadyToSend(net, b, boxes, first)
  {
    b.(phase := EB.Idle, dispatched := b.dispatched + b.phase.all[b.phase.sent..],
       boxes := SendAll(net, boxes, first, b.phase.all, |b.phase.all|))
  }

  lemma SendLast(d: Deltas, net: EB.Net, b: EB.Bus, boxes: map<EB.ActorId, seq<EB.Mail>>, first: nat)
    requires ReadyToSend(net, b, boxes, first) && b.phase.sent == |b.phase.all|
    ensures EB.Enabled(net, b, EB.BusStep([], 0))
    ensures EB.Next(d, net, b, EB.BusStep([], 0)) == SentBus(net, b, boxes, first)
  {
    assert b.dispatched + b.phase.all[b.phase.sent..] == b.dispatched;
  }

  lemma SendOneMore(net: EB.Net, b: EB.Bus, b1: EB.Bus, boxes: map<EB.ActorId, seq<EB.Mail>>, first: nat)
    requires ReadyToSend(net, b, boxes, first) && b.phase.sent < |b.phase.all| && ReadyToSend(net, b1, boxes, first)
    requires b1 == b.(phase := EB.Sending(b.phase.current, b.phase.all, b.phase.sent + 1),
                      dispatched := b.dispatched + [b.phase.all[b.phase.sent]], boxes := b1.boxes)
    ensures SentBus(net, b1, boxes, first) == SentBus(net, b, boxes, first)
  {
    var all, n := b.phase.all, b.phase.sent;
    assert all[n..] == [all[n]] + all[n + 1..];
    assert b.dispatched + all[n..] == (b.dispatched + [all[n]]) + all[n + 1..];
  }

  /** The puts of an event, as steps of the bus that nothing interrupts. */
  lemma {:induction false} SendSteps(d: Deltas, net: EB.Net, b: EB.Bus, boxes: map<EB.ActorId, seq<EB.Mail>>,
                                     first: nat) returns (actions: seq<EB.Action>)
    requires ReadyToSend(net, b, boxes, first)
    ensures EB.Run(d, net, b, actions, SentBus(net, b, boxes, first))
    decreases |b.phase.all| - b.phase.sent
  {
    var a := EB.BusStep([], 0);
    var more := [];
    if b.phase.sent < |b.phase.all| {
      SendOnce(d, net, b, boxes, first);
      var b1 := EB.Next(d, net, b, a);
      more := SendSteps(d, net, b1, boxes, first);
      SendOneMore(net, b, b1, boxes, first);
    } else {
      SendLast(d, net, b, boxes, first);
    }
    RunCons(d, net, b, a, more, SentBus(net, b, boxes, first));
    actions := [a] + more;
  }

  /** What the bus has in its hands before and after the pass of the event it takes next. */
  ghost predicate ReadyToTake(net: EB.Net, b: EB.Bus, order: seq<EB.SinkId>, children: seq<ContextId>) {
    && EB.Wired(net) && WellKeyed(b.store) && b.alive && b.phase.Idle? && b.boxes.Keys == net.actors
    && b.taken < |b.put| && b.put[b.taken].Send?
    && EB.Enumerates(order, EB.TargetsOf(net, b.put[b.taken].event.source).taps)
    && |order| <= |children|
    && (forall i :: 0 <= i < |children| ==> children[i] !in b.store.data)
    && (forall i, j :: 0 <= i < j < |children| ==> children[i] != children[j])
  }

  /** The bus `b'` after the event at the head of `b`, where `Processed` says the same of the loop's objects. */
  ghost predicate LeftBehind(d: Deltas, net: EB.Net, b: EB.Bus, order: seq<EB.SinkId>, children: seq<ContextId>,
                             b': EB.Bus)
    requires ReadyToTake(net, b, order, children)
  {
    var e := b.put[b.taken].event;
    var s := AppendMessage(d, b.store, e.ctx, e.source, e.payload);
    && b' == b.(taken := b.taken + 1, alive := b'.alive, phase := b'.phase, store := b'.store,
                dispatched := b'.dispatched, boxes := b'.boxes)
    && if s.1 != Done
         then !b'.alive && b'.store == s.0 && b'.dispatched == b.dispatched && b'.boxes == b.boxes
       else
         var r := ForkAll(d, s.0, e, b.taken, order, children, []);
         && b'.store == r.store && b'.alive == r.ok
         && (!r.ok ==> b'.dispatched == b.dispatched && b'.boxes == b.boxes)
         && (r.ok ==>
               var all := AllDeliveries(net, e, b.taken, r.made);
               && b'.phase == EB.Idle && b'.dispatched == b.dispatched + all
               && (forall j :: 0 <= j < |all| ==> all[j].sink in net.owner && net.owner[all[j].sink] in b.boxes)
               && b'.boxes == SendAll(net, b.boxes, |b.dispatched|, all, |all|))
  }

  /**
   Main theorem: what the loop leaves behind of an event is what the steps of the bus, taken one after the
   other, leave behind: it takes the event, appends its message, forks a child for every tap, and then sends
   to the primary and to the taps; an exception ends the bus where it is raised.
   */
  lemma EventSteps(d: Deltas, net: EB.Net, b: EB.Bus, order: seq<EB.SinkId>, children: seq<ContextId>)
    returns (actions: seq<EB.Action>, b': EB.Bus)
    requires ReadyToTake(net, b, order, children)
    ensures EB.Run(d, net, b, actions, b') && LeftBehind(d, net, b, order, children, b')
  {
    var a := EB.BusStep(order, 0);
    var b1 := EB.TakeStep(d, net, b, b.put[b.taken].event, order);
    TakeReady(d, net, b, order, children);
    hide *;
    if b1.alive {
      var more;
      more, b' := AllSteps(d, net, b1, order, children);
      RunCons(d, net, b, a, more, b');
      actions := [a] + more;
      PassLeaves(d, net, b, order, children, b1, b');
    } else {
      actions, b' := [a], b1;
      RunOne(d, net, b, a, b1);
      RaiseLeaves(d, net, b, order, children);
    }
  }

  lemma RaiseLeaves(d: Deltas, net: EB.Net, b: EB.Bus, order: seq<EB.SinkId>, children: seq<ContextId>)
    requires ReadyToTake(net, b, order, children)
    ensures var b1 := EB.TakeStep(d, net, b, b.put[b.taken].event, order);
            !b1.alive ==> LeftBehind(d, net, b, order, children, b1)
  {
  }

  lemma PassLeaves(d: Deltas, net: EB.Net, b: EB.Bus, order: seq<EB.SinkId>, children: seq<ContextId>, b1: EB.Bus,
                   b': EB.Bus)
    requires ReadyToTake(net, b, order, children) && b1 == EB.TakeStep(d, net, b, b.put[b.taken].event, order)
    requires b1.alive && ReadyToFork(b1, children) && AllForkedAndSent(d, net, b1, children, b')
    ensures LeftBehind(d, net, b, order, children, b')
  {
    hide ForkAll;
    hide AllDeliveries;
    hide SendAll;
    hide AppendMessage;
  }

  /** The bus `b'` after all forks and puts of the event that `b` has just taken. */
  ghost predicate AllForkedAndSent(d: Deltas, net: EB.Net, b: EB.Bus, children: seq<ContextId>, b': EB.Bus)
    requires ReadyToFork(b, children)
  {
    var r, b2 := Rest(d, b, children), WithForks(b, Rest(d, b, children));
    if !r.ok then b' == b2
    else
      var all := AllDeliveries(net, b.phase.event, b.taken - 1, r.made);
      && (forall j :: 0 <= j < |all| ==> all[j].sink in net.owner && net.owner[all[j].sink] in b.boxes)
      && b' == b2.(phase := EB.Idle, dispatched := b.dispatched + all,
                   boxes := SendAll(net, b.boxes, |b.dispatched|, all, |all|))
  }

  lemma AllSteps(d: Deltas, net: EB.Net, b: EB.Bus, order: seq<EB.SinkId>, children: seq<ContextId>)
    returns (actions: seq<EB.Action>, b': EB.Bus)
    requires EB.Wired(net) && ReadyToFork(b, children) && b.phase.order == order && b.phase.made == []
    requires EB.Enumerates(order, EB.TargetsOf(net, b.phase.event.source).taps) && b.boxes.Keys == net.actors
    ensures EB.Run(d, net, b, actions, b') && AllForkedAndSent(d, net, b, children, b')
  {
    var forks := ForkSteps(d, net, b, children);
    var b2 := WithForks(b, Rest(d, b, children));
    actions, b' := forks, b2;
    if Rest(d, b, children).ok {
      var more;
      more, b' := PassSteps(d, net, b, order, children);
      hide EB.Run;
      EB.RunThen(d, net, b, forks, b2, more, b');
      actions := forks + more;
    }
  }

  lemma RunOne(d: Deltas, net: EB.Net, b: EB.Bus, a: EB.Action, b1: EB.Bus)
    requires EB.Enabled(net, b, a) && EB.Next(d, net, b, a) == b1
    ensures EB.Run(d, net, b, [a], b1)
  {
    RunCons(d, net, b, a, [], b1);
  }

  /** From the last fork to the last put. */
  lemma PassSteps(d: Deltas, net: EB.Net, b: EB.Bus, order: seq<EB.SinkId>, children: seq<ContextId>)
    returns (actions: seq<EB.Action>, b': EB.Bus)
    requires EB.Wired(net) && ReadyToFork(b, children) && b.phase.order == order && b.phase.made == []
    requires EB.Enumerates(order, EB.TargetsOf(net, b.phase.event.source).taps) && Rest(d, b, children).ok
    requires b.boxes.Keys == net.actors
    ensures var b2 := WithForks(b, Rest(d, b, children));
            var all := AllDeliveries(net, b.phase.event, b.taken - 1, b2.phase.made);
            && EB.Run(d, net, b2, actions, b')
            && (forall j :: 0 <= j < |all| ==> all[j].sink in net.owner && net.owner[all[j].sink] in b.boxes)
            && b' == b2.(phase := EB.Idle, dispatched := b.dispatched + all,
                         boxes := SendAll(net, b.boxes, |b.dispatched|, all, |all|))
  {
    var e, r := b.phase.event, Rest(d, b, children);
    var b2 := WithForks(b, r);
    var all := AllDeliveries(net, e, b.taken - 1, r.made);
    AllForked(d, net, b, order, children);
    var unused := UnusedId(r.store.data.Keys);
    var fork, b3 := EB.BusStep([], unused), b2.(phase := EB.Sending(e, all, 0));
    hide Rest;
    hide SendAll;
    hide AllDeliveries;
    StartSending(d, net, b2, fork);
    hide EB.Next;
    hide EB.Enabled;
    hide EB.Run;
    var sends := SendSteps(d, net, b3, b.boxes, |b.dispatched|);
    b' := SentBus(net, b3, b.boxes, |b.dispatched|);
    assert all[0..] == all;
    RunCons(d, net, b2, fork, sends, b');
    actions := [fork] + sends;
  }

  lemma {:induction false} UnusedId(ids: set<ContextId>) returns (c: ContextId)
    ensures c !in ids && forall i :: i in ids ==> i < c
    decreases |ids|
  {
    c := 0;
    if ids != {} {
      var i :| i in ids;
      var below := UnusedId(ids - {i});
      c := if i < below then below else i + 1;
      assert forall j :: j in ids ==> j == i || j in ids - {i};
    }
  }

  /** After the forks there is one tap for every sink, and everything to send is for a sink with an owner. */
  lemma AllForked(d: Deltas, net: EB.Net, b: EB.Bus, order: seq<EB.SinkId>, children: seq<ContextId>)
    requires EB.Wired(net) && ReadyToFork(b, children) && b.phase.order == order && b.phase.made == []
    requires EB.Enumerates(order, EB.TargetsOf(net, b.phase.event.source).taps) && Rest(d, b, children).ok
    requires b.boxes.Keys == net.actors
    ensures var e, r := b.phase.event, Rest(d, b, children);
            var all := AllDeliveries(net, e, b.taken - 1, r.made);
            && WellKeyed(r.store) && |r.made| == |order|
            && ReadyToSend(net, WithForks(b, r).(phase := EB.Sending(e, all, 0)), b.boxes, |b.dispatched|)
  {
    var e, r := b.phase.event, Rest(d, b, children);
    ForkAllSinks(d, b.store, e, b.taken - 1, order, children, []);
    ForkAllKeyed(d, b.store, e, b.taken - 1, order, children, []);
    AllConnected(net, e, b.taken - 1, order, r.made);
    hide ForkAll;
  }

  lemma {:induction false} ForkAllKeyed(d: Deltas, s: System, e: EB.Event, origin: nat, order: seq<EB.SinkId>,
                                        children: seq<ContextId>, made: seq<EB.Delivery>)
    requires WellKeyed(s) && |made| <= |order| <= |children|
    ensures var r := ForkAll(d, s, e, origin, order, children, made);
            r.ok ==> WellKeyed(r.store)
    decreases |order| - |made|
  {
    if |made| < |order| {
      hide EB.MakeTap;
      ForkAllStep(d, s, e, origin, order, children, made);
      var r := EB.MakeTap(d, s, e, origin, order[|made|], children[|made|]);
      if r.made.Some? {
        ForkAllKeyed(d, r.store, e, origin, order, children, made + [r.made.value]);
      }
    }
  }

  /** With every tap forked, the next step of the bus fixes what is sent: the primary first, then the taps. */
  lemma StartSending(d: Deltas, net: EB.Net, b: EB.Bus, a: EB.Action)
    requires WellKeyed(b.store) && b.alive && b.phase.Forking? && |b.phase.made| == |b.phase.order| && 0 < b.taken
    requires a.BusStep? && a.child !in b.store.data
    ensures var e := b.phase.event;
            && EB.Enabled(net, b, a)
            && EB.Next(d, net, b, a)
               == b.(phase := EB.Sending(e, AllDeliveries(net, e, b.taken - 1, b.phase.made), 0))
  {
  }

  lemma TakeReady(d: Deltas, net: EB.Net, b: EB.Bus, order: seq<EB.SinkId>, children: seq<ContextId>)
    requires ReadyToTake(net, b, order, children)
    ensures var b1, e := EB.TakeStep(d, net, b, b.put[b.taken].event, order), b.put[b.taken].event;
            && EB.Enabled(net, b, EB.BusStep(order, 0)) && EB.Next(d, net, b, EB.BusStep(order, 0)) == b1
            && b1.phase == EB.Forking(e, order, []) && (b1.alive ==> ReadyToFork(b1, children))
            && EB.Wired(net) && EB.Enumerates(order, EB.TargetsOf(net, e.source).taps) && b.boxes.Keys == net.actors
            && var r := AppendMessage(d, b.store, e.ctx, e.source, e.payload);
               b1 == b.(taken := b.taken + 1, store := r.0, alive := r.1 == Done, phase := b1.phase)
  {
    AppendedData(d, b.store, b.put[b.taken].event);
  }

  function Puts(events: seq<EB.Event>): seq<EB.Action> {
    if events == [] then [] else [EB.Put(events[0])] + Puts(events[1..])
  }

  function Sends(events: seq<EB.Event>): seq<EB.Item> {
    if events == [] then [] else [EB.Send(events[0])] + Sends(events[1..])
  }

  lemma {:induction false} SendsEach(events: seq<EB.Event>)
    ensures |Sends(events)| == |events|
    ensures forall i :: 0 <= i < |events| ==> Sends(events)[i] == EB.Send(events[i])
  {
    if events != [] {
      SendsEach(events[1..]);
    }
  }

  lemma {:induction false} PutSteps(d: Deltas, net: EB.Net, b: EB.Bus, events: seq<EB.Event>)
    requires forall i :: 0 <= i < |events| ==> events[i].ctx in b.known
    ensures EB.Run(d, net, b, Puts(events), b.(put := b.put + Sends(events)))
    decreases |events|
  {
    if events == [] {
      assert b.put + [] == b.put;
    } else {
      var b1 := b.(put := b.put + [EB.Send(events[0])]);
      PutSteps(d, net, b1, events[1..]);
      assert b1.put + Sends(events[1..]) == b.put + Sends(events);
      RunCons(d, net, b, EB.Put(events[0]), Puts(events[1..]), b.(put := b.put + Sends(events)));
    }
  }

  function Operations(c: ContextId, ops: seq<ContextOp>): seq<EB.Action> {
    if ops == [] then [] else Operations(c, ops[..|ops| - 1]) + [EB.Operate(OpOf(c, ops[|ops| - 1]))]
  }

  /** Every change of a handler, the one that raises included, is a step of the bus model. */
  lemma {:induction false} OperateSteps(d: Deltas, net: EB.Net, b: EB.Bus, c: ContextId, ops: seq<ContextOp>,
                                        states: seq<System>)
    requires |states| == |ops| + 1 && b.store == states[0] && c in b.known
    requires forall i :: 0 <= i < |ops| ==>
                           WellKeyed(states[i]) && Step(d, states[i], OpOf(c, ops[i])).0 == states[i + 1]
    ensures EB.Run(d, net, b, Operations(c, ops), b.(store := states[|ops|]))
    decreases |ops|
  {
    hide Step;
    if ops != [] {
      var n := |ops| - 1;
      OperateSteps(d, net, b, c, ops[..n], states[..n + 1]);
      var b1 := b.(store := states[n]);
      var a := EB.Operate(OpOf(c, ops[n]));
      assert EB.Next(d, net, b1, a) == b.(store := states[n + 1]);
      RunCons(d, net, b1, a, [], b.(store := states[n + 1]));
      hide EB.Run;
      EB.RunThen(d, net, b, Operations(c, ops[..n]), b1, [a], b.(store := states[n + 1]));
    }
  }

  /** The delivery at the head of an actor's queue. */
  function Head(b: EB.Bus, a: EB.ActorId): Option<EB.Delivery>
    requires a in b.boxes && b.boxes[a] != []
  {
    var mail := b.boxes[a][0];
    if mail.Deliver? && mail.number < |b.dispatched| then Some(b.dispatched[mail.number]) else None
  }

  /**
   A round of an actor is a run of the bus model: the message is taken, the changes of its handler are made,
   up to the first that raises, and exactly what the message sends, on its own context or on others known outside
   the bus, is put on the bus.
   */
  lemma ActorSteps(d: Deltas, net: EB.Net, b: EB.Bus, a: EB.ActorId, sinks: set<EB.SinkId>, handler: Handler,
                   states: seq<System>, sent: seq<EB.Event>) returns (ops: seq<ContextOp>)
    requires EB.Enabled(net, b, EB.ActorStep(a)) && Head(b, a).Some?
    requires Answers(d, sinks, handler, Head(b, a).value, states, sent) && states[0] == b.store
    requires forall i :: 0 <= i < |sent| ==> sent[i].ctx in b.known || sent[i].ctx == Head(b, a).value.ctx
    ensures var b1, c := EB.HandleStep(b, a), Head(b, a).value.ctx;
            && EB.Run(d, net, b, [EB.ActorStep(a)] + (Operations(c, ops) + Puts(sent)),
                      b1.(store := states[|states| - 1], put := b.put + Sends(sent)))
            && b1.boxes[a] == b.boxes[a][1..] && b1.exited == b.exited
            && b1.handled[a] == b.handled[a] + [b.boxes[a][0].number]
    ensures |Sends(sent)| == |sent| && forall i :: 0 <= i < |sent| ==> Sends(sent)[i] == EB.Send(sent[i])
  {
    SendsEach(sent);
    var x, b1 := Head(b, a).value, EB.HandleStep(b, a);
    ops := [];
    if x.sink in sinks && x.ctx in b.store.contexts {
      ops := handler(x, b.store.contexts[x.ctx]).ops[..|states| - 1];
    }
    ChangesInOrder(d, sinks, handler, x, states, sent);
    var b2 := b1.(store := states[|states| - 1]);
    var b3 := b2.(put := b.put + Sends(sent));
    OperateSteps(d, net, b1, x.ctx, ops, states);
    PutSteps(d, net, b2, sent);
    hide EB.Run;
    EB.RunThen(d, net, b1, Operations(x.ctx, ops), b2, Puts(sent), b3);
    RunCons(d, net, b, EB.ActorStep(a), Operations(x.ctx, ops) + Puts(sent), b3);
  }

  lemma ChangesInOrder(d: Deltas, sinks: set<EB.SinkId>, handler: Handler, x: EB.Delivery, states: seq<System>,
                       sent: seq<EB.Event>)
    requires Answers(d, sinks, handler, x, states, sent)
    ensures x.sink in sinks && x.ctx in states[0].contexts ==>
              var ops := handler(x, states[0].contexts[x.ctx]).ops;
              && |states| <= |ops| + 1
              && (forall i :: 0 <= i < |states| - 1 ==>
                    WellKeyed(states[i]) && Step(d, states[i], OpOf(x.ctx, ops[i])).0 == states[i + 1])
  {
  }
}
