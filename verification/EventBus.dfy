/**
 The event bus and the actor loops as a step relation over one context store. The bus thread, every
 actor and everything else that may touch a context interleave step by step: a message is appended, one
 child context per tap is created, and only then the event is put into the actors' queues, one by one.
 */
module EventBus {
  import opened Options
  import opened ContextLog
  import opened Wiring

  type ActorId = nat
  type SinkId = nat

  /** Every connected sink belongs to an actor. */
  datatype Net = Net(connections: Graph<SourceId, SinkId>, owner: map<SinkId, ActorId>, actors: set<ActorId>)

  function TargetsOf(net: Net, source: SourceId): Targets<SinkId> {
    if source in net.connections then net.connections[source] else Targets(None, {})
  }

  predicate Connected(net: Net, source: SourceId, sink: SinkId) {
    var t := TargetsOf(net, source);
    t.primary == Some(sink) || sink in t.taps
  }

  ghost predicate Wired(net: Net) {
    && (forall s :: ValidRoles(TargetsOf(net, s)))
    && (forall k :: k in net.owner ==> net.owner[k] in net.actors)
    && (forall s, k :: Connected(net, s, k) ==> k in net.owner)
  }

  datatype Event = Event(source: SourceId, ctx: ContextId, payload: Value)

  datatype Item = Send(event: Event) | StopBus

  /**
   `origin` is the position of the event among all items ever put on the bus. For a tap, `userData` writes
   down the user data of the event's context at the fork.
   */
  datatype Delivery = Delivery(origin: nat, event: Event, sink: SinkId, ctx: ContextId, tap: bool, userData: UserData)

  /** Queue entries name the delivery by its position among all deliveries ever made. */
  datatype Mail = Deliver(number: nat) | StopActor

  datatype Phase =
    | Idle
    | Forking(event: Event, order: seq<SinkId>, made: seq<Delivery>)
    | Sending(current: Event, all: seq<Delivery>, sent: nat)
    | Stopped

  /**
   `known` holds the contexts that code outside the bus has been handed. `alive` is false once the bus
   thread has ended with an exception.
   */
  datatype Bus = Bus(
    put: seq<Item>,
    taken: nat,
    alive: bool,
    phase: Phase,
    store: System,
    known: set<ContextId>,
    dispatched: seq<Delivery>,
    boxes: map<ActorId, seq<Mail>>,
    handled: map<ActorId, seq<nat>>,
    exited: set<ActorId>)

  datatype Action =
    | Put(event: Event)
    | RequestStop
    | Operate(op: Op)
    | BusStep(order: seq<SinkId>, child: ContextId)
    | ActorStep(actor: ActorId)

  /** Some iteration order of a set of sinks. */
  ghost predicate Enumerates(order: seq<SinkId>, sinks: set<SinkId>) {
    && (forall k :: k in order <==> k in sinks)
    && (forall i, j :: 0 <= i < j < |order| ==> order[i] != order[j])
  }

  /** Code outside the bus works on contexts it has been handed, and never appends messages itself. */
  predicate Allowed(b: Bus, op: Op) {
    match op
    case OpCreate(parents, child) => child !in b.store.data && forall p :: p in parents ==> p in b.known
    case OpUserData(c, _, _) => c in b.known
    case OpNote(c, _) => c in b.known
    case OpComplete(c) => c in b.known
    case _ => false
  }

  ghost predicate Enabled(net: Net, b: Bus, a: Action) {
    match a
    case Put(event) => event.ctx in b.known
    case RequestStop => true
    case Operate(op) => WellKeyed(b.store) && Allowed(b, op)
    case BusStep(order, child) =>
      && WellKeyed(b.store) && b.alive
      && (match b.phase
          case Idle =>
            && b.taken < |b.put|
            && (b.put[b.taken].Send? ==> Enumerates(order, TargetsOf(net, b.put[b.taken].event.source).taps))
            && (b.put[b.taken].StopBus? ==> Enumerates(order, net.owner.Keys) && forall k :: k in order ==>
               net.owner[k] in b.boxes)
          case Forking(_, _, _) => child !in b.store.data
          case Sending(_, _, _) => true
          case Stopped => false)
    case ActorStep(actor) => actor in b.boxes && actor in b.handled && b.boxes[actor] != [] && actor !in b.exited
  }

  function OperateStep(d: Deltas, b: Bus, op: Op): Bus
    requires WellKeyed(b.store) && Allowed(b, op)
  {
    var r := Step(d, b.store, op);
    b.(store := r.0, known := if op.OpCreate? && r.1 == Done then b.known + {op.child} else b.known)
  }

  /** The bus takes an event: its message is appended first; an exception ends the thread. */
  function TakeStep(d: Deltas, net: Net, b: Bus, e: Event, order: seq<SinkId>): Bus
    requires WellKeyed(b.store)
  {
    var r := AppendMessage(d, b.store, e.ctx, e.source, e.payload);
    b.(taken := b.taken + 1, store := r.0, alive := r.1 == Done, phase := Forking(e, order, []))
  }

  /** One stop signal per sink, so an actor with several sinks gets several and one without gets none. */
  function StopBoxes(net: Net, boxes: map<ActorId, seq<Mail>>, sinks: seq<SinkId>): (r: map<ActorId, seq<Mail>>)
    requires forall k :: k in sinks ==> k in net.owner && net.owner[k] in boxes
    ensures r.Keys == boxes.Keys
  {
    if sinks == [] then boxes
    else
      var n := |sinks| - 1;
      var r := StopBoxes(net, boxes, sinks[..n]);
      var a := net.owner[sinks[n]];
      r[a := r[a] + [StopActor]]
  }

  datatype Tap = Tap(store: System, made: Option<Delivery>)

  /** One child context for one tap; `None` if an exception is raised. */
  function MakeTap(d: Deltas, s: System, e: Event, origin: nat, sink: SinkId, child: ContextId): (r: Tap)
    requires WellKeyed(s)
    ensures r.made.Some? ==> WellKeyed(r.store)
  {
    var r := CreateContext(d, s, [e.ctx], child);
    if r.1 != Done || e.ctx !in s.contexts || !WellKeyed(r.0) then Tap(r.0, None)
    else Tap(r.0, Some(Delivery(origin, e, sink, child, true, s.contexts[e.ctx].userData)))
  }

  function ForkStep(d: Deltas, net: Net, b: Bus, child: ContextId): Bus
    requires WellKeyed(b.store) && b.phase.Forking? && 0 < b.taken
  {
    var e, order, made := b.phase.event, b.phase.order, b.phase.made;
    if |made| < |order| then
      var r := MakeTap(d, b.store, e, b.taken - 1, order[|made|], child);
      if r.made.None? then b.(store := r.store, alive := false)
      else b.(store := r.store, phase := Forking(e, order, made + [r.made.value]))
    else
      var primary := TargetsOf(net, e.source).primary;
      var all := (if primary.Some? then [Delivery(b.taken - 1, e, primary.value, e.ctx, false, map[])] else []) + made;
      b.(phase := Sending(e, all, 0))
  }

  function SendStep(net: Net, b: Bus): Bus
    requires b.phase.Sending?
  {
    var all, n := b.phase.all, b.phase.sent;
    if n >= |all| then b.(phase := Idle)
    else if all[n].sink !in net.owner || net.owner[all[n].sink] !in b.boxes then b.(alive := false)
    else
      var a := net.owner[all[n].sink];
      b.(phase := Sending(b.phase.current, all, n + 1),
         dispatched := b.dispatched + [all[n]],
         boxes := b.boxes[a := b.boxes[a] + [Deliver(|b.dispatched|)]])
  }

  /** An actor takes the head of its queue; a handled delivery makes its context known. */
  function HandleStep(b: Bus, a: ActorId): Bus
    requires a in b.boxes && a in b.handled && b.boxes[a] != []
  {
    var mail, b := b.boxes[a][0], b.(boxes := b.boxes[a := b.boxes[a][1..]]);
    match mail
    case StopActor => b.(exited := b.exited + {a})
    case Deliver(n) =>
      b.(handled := b.handled[a := b.handled[a] + [n]],
         known := if n < |b.dispatched| then b.known + {b.dispatched[n].ctx} else b.known)
  }

  ghost function Next(d: Deltas, net: Net, b: Bus, a: Action): Bus
    requires Enabled(net, b, a)
  {
    match a
    case Put(event) => b.(put := b.put + [Send(event)])
    case RequestStop => b.(put := b.put + [StopBus])
    case Operate(op) => OperateStep(d, b, op)
    case ActorStep(actor) => HandleStep(b, actor)
    case BusStep(order, child) => BusNext(d, net, b, order, child)
  }

  ghost function BusNext(d: Deltas, net: Net, b: Bus, order: seq<SinkId>, child: ContextId): Bus
    requires Enabled(net, b, BusStep(order, child))
  {
    match b.phase
    case Idle =>
      if b.put[b.taken].StopBus?
        then b.(taken := b.taken + 1, phase := Stopped, boxes := StopBoxes(net, b.boxes, order))
      else TakeStep(d, net, b, b.put[b.taken].event, order)
    case Forking(_, _, _) => if b.taken == 0 then b else ForkStep(d, net, b, child)
    case Sending(_, _, _) => SendStep(net, b)
    case Stopped => b
  }

  /** A running system: empty queues, and a store with some contexts already handed out. */
  ghost predicate Initial(net: Net, b: Bus) {
    && Wired(net)
    && b.put == [] && b.taken == 0 && b.alive && b.phase == Idle && b.dispatched == [] && b.exited == {}
    && b.boxes == (map a | a in net.actors :: [])
    && b.handled == (map a | a in net.actors :: [])
    && WellKeyed(b.store) && b.known <= b.store.contexts.Keys
  }

  ghost predicate Run(d: Deltas, net: Net, b: Bus, actions: seq<Action>, b': Bus)
    decreases |actions|
  {
    if actions == [] then b' == b
    else Enabled(net, b, actions[0]) && Run(d, net, Next(d, net, b, actions[0]), actions[1..], b')
  }

  lemma {:induction false} RunThen(d: Deltas, net: Net, b: Bus, first: seq<Action>, b1: Bus, rest: seq<Action>,
                                   b2: Bus)
    requires Run(d, net, b, first, b1) && Run(d, net, b1, rest, b2)
    ensures Run(d, net, b, first + rest, b2)
    decreases |first|
  {
    hide Next;
    hide Enabled;
    if first == [] {
      assert first + rest == rest;
    } else {
      assert (first + rest)[0] == first[0] && (first + rest)[1..] == first[1..] + rest;
      RunThen(d, net, Next(d, net, b, first[0]), first[1..], b1, rest, b2);
    }
  }
}
