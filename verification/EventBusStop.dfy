/**
 What a stop request leads to: once the bus has taken one, every actor that owns a sink has a stop signal in
 its queue until it has exited, and it exits after handling what its queue still holds.
 */
module EventBusStop {
  import opened ContextLog
  import opened EventBus
  import EBD = EventBusDelivery

  ghost predicate Signalled(b: Bus, a: ActorId) {
    a in b.exited || (a in b.boxes && StopActor in b.boxes[a])
  }

  ghost predicate OwnersSignalled(net: Net, b: Bus) {
    b.phase.Stopped? ==> forall k :: k in net.owner ==> Signalled(b, net.owner[k])
  }

  lemma {:induction false} StopInBoxes(net: Net, boxes: map<ActorId, seq<Mail>>, sinks: seq<SinkId>, k: SinkId)
    requires forall j :: j in sinks ==> j in net.owner && net.owner[j] in boxes
    requires k in sinks
    ensures StopActor in StopBoxes(net, boxes, sinks)[net.owner[k]]
  {
    var n := |sinks| - 1;
    var r := StopBoxes(net, boxes, sinks[..n]);
    var box := StopBoxes(net, boxes, sinks)[net.owner[k]];
    if net.owner[k] == net.owner[sinks[n]] {
      assert box[|box| - 1] == StopActor;
    } else {
      assert k in sinks[..n] by {
        var i :| 0 <= i < |sinks| && sinks[i] == k;
        assert sinks[..n][i] == k;
      }
      StopInBoxes(net, boxes, sinks[..n], k);
    }
  }

  lemma StopSignals(net: Net, b: Bus, order: seq<SinkId>, b1: Bus)
    requires forall k :: k in order <==> k in net.owner
    requires forall k :: k in order ==> net.owner[k] in b.boxes
    requires b1.boxes == StopBoxes(net, b.boxes, order)
    ensures OwnersSignalled(net, b1)
  {
    forall k | k in net.owner ensures Signalled(b1, net.owner[k]) {
      StopInBoxes(net, b.boxes, order, k);
    }
  }

  lemma HandleSignals(net: Net, b: Bus, a: ActorId)
    requires a in b.boxes && a in b.handled && b.boxes[a] != [] && OwnersSignalled(net, b)
    ensures OwnersSignalled(net, HandleStep(b, a))
  {
    var b1 := HandleStep(b, a);
    forall k | b1.phase.Stopped? && k in net.owner ensures Signalled(b1, net.owner[k]) {
      assert Signalled(b, net.owner[k]);
      assert StopActor in b.boxes[a] ==> b.boxes[a][0] == StopActor || StopActor in b.boxes[a][1..];
    }
  }

  lemma StepSignals(d: Deltas, net: Net, b: Bus, a: Action)
    requires OwnersSignalled(net, b) && Enabled(net, b, a)
    ensures OwnersSignalled(net, Next(d, net, b, a))
  {
    hide Step;
    hide CreateContext;
    hide AppendMessage;
    hide StopBoxes;
    match a
    case Put(event) => SameSignals(net, b, Next(d, net, b, a));
    case RequestStop => SameSignals(net, b, Next(d, net, b, a));
    case Operate(op) => SameSignals(net, b, Next(d, net, b, a));
    case ActorStep(actor) => HandleSignals(net, b, actor);
    case BusStep(order, child) =>
      if b.phase.Idle? && b.put[b.taken].StopBus? {
        StopSignals(net, b, order, Next(d, net, b, a));
      }
  }

  lemma SameSignals(net: Net, b: Bus, b1: Bus)
    requires OwnersSignalled(net, b) && b1.phase == b.phase && b1.boxes == b.boxes && b1.exited == b.exited
    ensures OwnersSignalled(net, b1)
  {
    if b1.phase.Stopped? {
      forall k | k in net.owner ensures Signalled(b1, net.owner[k]) {
        assert Signalled(b, net.owner[k]);
      }
    }
  }

  lemma {:induction false} RunSignals(d: Deltas, net: Net, b: Bus, actions: seq<Action>, b': Bus)
    requires OwnersSignalled(net, b) && Run(d, net, b, actions, b')
    ensures OwnersSignalled(net, b')
    decreases |actions|
  {
    hide Next;
    hide Enabled;
    if actions != [] {
      StepSignals(d, net, b, actions[0]);
      RunSignals(d, net, Next(d, net, b, actions[0]), actions[1..], b');
    }
  }

  /** When the bus has stopped, every owner of a sink has exited or still has a stop signal to come to. */
  lemma StopReachesOwners(d: Deltas, net: Net, b0: Bus, actions: seq<Action>, b: Bus, k: SinkId)
    requires Initial(net, b0) && Run(d, net, b0, actions, b) && b.phase.Stopped? && k in net.owner
    ensures Signalled(b, net.owner[k])
  {
    hide Run;
    RunSignals(d, net, b0, actions, b);
  }

  function Rounds(a: ActorId, n: nat): seq<Action> {
    if n == 0 then [] else [ActorStep(a)] + Rounds(a, n - 1)
  }

  lemma {:induction false} DrainsQueue(d: Deltas, net: Net, b: Bus, a: ActorId) returns (n: nat, b': Bus)
    requires a in b.boxes && a in b.handled && a !in b.exited && StopActor in b.boxes[a]
    ensures n <= |b.boxes[a]| && Run(d, net, b, Rounds(a, n), b') && a in b'.exited
    ensures b'.dispatched == b.dispatched && b'.put == b.put && b'.taken == b.taken && b'.phase == b.phase
    decreases |b.boxes[a]|
  {
    var b1 := Next(d, net, b, ActorStep(a));
    if b.boxes[a][0].StopActor? {
      n, b' := 1, b1;
      assert Rounds(a, 1) == [ActorStep(a)] + Rounds(a, 0);
      assert Run(d, net, b1, [], b');
    } else {
      assert b.boxes[a] == [b.boxes[a][0]] + b.boxes[a][1..];
      n, b' := DrainsQueue(d, net, b1, a);
      n := n + 1;
      assert Rounds(a, n)[1..] == Rounds(a, n - 1);
    }
  }

  lemma NoRounds(d: Deltas, net: Net, b: Bus, a: ActorId)
    ensures Run(d, net, b, Rounds(a, 0), b)
  {
  }

  lemma KnownQueue(d: Deltas, net: Net, b0: Bus, actions: seq<Action>, b: Bus, a: ActorId)
    requires Initial(net, b0) && Run(d, net, b0, actions, b) && b.phase.Stopped?
    requires exists k :: k in net.owner && net.owner[k] == a
    ensures a in net.actors && a in b.boxes && a in b.handled && (a in b.exited || StopActor in b.boxes[a])
  {
    var k :| k in net.owner && net.owner[k] == a;
    StopReachesOwners(d, net, b0, actions, b, k);
    EBD.InitialInv(net, b0);
    EBD.RunKeeps(d, net, b0, actions, b);
    hide Run;
    hide EBD.Fifo;
    hide EBD.ContentOk;
    hide EBD.PhaseOk;
    hide EBD.QueueOk;
  }

  /**
   Main theorem: in every run, once the bus has stopped, every owner of a sink can be run to its end by rounds
   of its own alone, and has then handled on each connection exactly the events put before the stop request.
   */
  lemma OwnersEndDrained(d: Deltas, net: Net, b0: Bus, actions: seq<Action>, b: Bus, s: SourceId, k: SinkId)
    returns (n: nat, b': Bus)
    requires Initial(net, b0) && Run(d, net, b0, actions, b) && b.phase.Stopped?
    requires k in net.owner && Connected(net, s, k)
    ensures var a := net.owner[k];
            && Run(d, net, b, Rounds(a, n), b') && a in b'.exited && a in b'.handled
            && (forall i :: 0 <= i < |b'.handled[a]| ==> b'.handled[a][i] < |b'.dispatched|)
            && 0 < b.taken <= |b.put| && b.put[b.taken - 1] == StopBus
            && EBD.Origins(EBD.At(b'.dispatched, b'.handled[a]), s, k) == EBD.Indices(b.put, b.taken - 1, s)
  {
    hide *;
    var a := net.owner[k];
    KnownQueue(d, net, b0, actions, b, a);
    if a in b.exited {
      n, b' := 0, b;
      NoRounds(d, net, b, a);
    } else {
      n, b' := DrainsQueue(d, net, b, a);
    }
    RunThen(d, net, b0, actions, b, Rounds(a, n), b');
    EBD.StopDrains(d, net, b0, actions + Rounds(a, n), b', a, s, k);
  }
}
