/**
 The bus loop and the loop of an actor, on mutable queues and the mutable context store.
 */
module EventBusRuntime {
  import opened Options
  import opened ContextLog
  import opened ContextStoreRuntime
  import opened Wiring
  import EB = EventBus

  datatype Forks = Forks(store: System, made: seq<EB.Delivery>, ok: bool)

  /** Child contexts for the taps `order[i..]`, in order; it stops at the first exception. */
  function ForkAll(d: Deltas, s: System, e: EB.Event, origin: nat, order: seq<EB.SinkId>, children: seq<ContextId>,
                   made: seq<EB.Delivery>): Forks
    requires WellKeyed(s) && |made| <= |order| <= |children|
    decreases |order| - |made|
  {
    if |made| == |order| then Forks(s, made, true)
    else
      var r := EB.MakeTap(d, s, e, origin, order[|made|], children[|made|]);
      if r.made.None? then Forks(r.store, made, false)
      else ForkAll(d, r.store, e, origin, order, children, made + [r.made.value])
  }

  function AllDeliveries(net: EB.Net, e: EB.Event, origin: nat, made: seq<EB.Delivery>): seq<EB.Delivery> {
    var primary := EB.TargetsOf(net, e.source).primary;
    (if primary.Some? then [EB.Delivery(origin, e, primary.value, e.ctx, false, map[])] else []) + made
  }

  /** Mail for the first `n` deliveries, numbered from `first`. */
  function SendAll(net: EB.Net, boxes: map<EB.ActorId, seq<EB.Mail>>, first: nat, all: seq<EB.Delivery>,
                   n: nat): (r: map<EB.ActorId, seq<EB.Mail>>)
    requires n <= |all| && forall j :: 0 <= j < n ==> all[j].sink in net.owner && net.owner[all[j].sink] in boxes
    ensures r.Keys == boxes.Keys
  {
    if n == 0 then boxes
    else
      var r := SendAll(net, boxes, first, all, n - 1);
      var a := net.owner[all[n - 1].sink];
      r[a := r[a] + [EB.Deliver(first + n - 1)]]
  }

  class EventBus {
    const net: EB.Net
    const contextStore: ContextStore
    var put: seq<EB.Item>
    var taken: nat
    var dispatched: seq<EB.Delivery>
    var pipes: map<EB.ActorId, seq<EB.Mail>>

    constructor (net: EB.Net, contextStore: ContextStore)
      requires EB.Wired(net)
      ensures this.net == net && this.contextStore == contextStore
      ensures put == [] && taken == 0 && dispatched == [] && pipes == map a | a in net.actors :: []
    {
      this.net, this.contextStore := net, contextStore;
      put, taken, dispatched := [], 0, [];
      pipes := map a | a in net.actors :: [];
    }

    ghost predicate Valid()
      reads this, contextStore, contextStore.persistence, contextStore.contexts.Values
    {
      contextStore.Valid() && EB.Wired(net) && pipes.Keys == net.actors && taken <= |put|
    }

    method RequestStop()
      requires Valid()
      modifies this`put
      ensures Valid() && put == old(put) + [EB.StopBus]
    {
      put := put + [EB.StopBus];
    }

    /** One stop signal for every sink, to the actor that owns it. */
    method StopActors(sinks: seq<EB.SinkId>)
      requires forall k :: k in sinks ==> k in net.owner && net.owner[k] in pipes
      modifies this`pipes
      ensures pipes == EB.StopBoxes(net, old(pipes), sinks)
    {
      for i := 0 to |sinks|
        invariant pipes == EB.StopBoxes(net, old(pipes), sinks[..i])
      {
        assert sinks[..i + 1][..i] == sinks[..i];
        var a := net.owner[sinks[i]];
        pipes := pipes[a := pipes[a] + [EB.StopActor]];
      }
      assert sinks[..|sinks|] == sinks;
    }

    predicate FreshIds(order: seq<EB.SinkId>, children: seq<ContextId>)
      reads contextStore, contextStore.persistence
    {
      && |order| <= |children|
      && (forall i :: 0 <= i < |children| ==> children[i] !in contextStore.persistence.data)
      && (forall i, j :: 0 <= i < j < |children| ==> children[i] != children[j])
    }

    /** One round of the loop; false if it is the last, after a stop request or an exception. */
    method LoopOnce(order: seq<EB.SinkId>, children: seq<ContextId>) returns (running: bool)
      requires Valid() && taken < |put|
      requires put[taken].Send? ==>
                 EB.Enumerates(order, EB.TargetsOf(net, put[taken].event.source).taps) && FreshIds(order, children)
      requires put[taken].StopBus? ==> EB.Enumerates(order, net.owner.Keys)
      modifies this`taken, this`pipes, this`dispatched, contextStore, contextStore.persistence,
               contextStore.contexts.Values
      ensures Valid() && taken == old(taken) + 1
      ensures put[taken - 1].StopBus? ==>
                && !running && contextStore.Abs() == old(contextStore.Abs()) && dispatched == old(dispatched)
                && (forall k :: k in order ==> k in net.owner && net.owner[k] in old(pipes))
                && pipes == EB.StopBoxes(net, old(pipes), order)
      ensures put[taken - 1].Send? ==>
                Processed(old(pipes), old(dispatched), old(contextStore.Abs()), put[taken - 1].event, taken - 1, order,
                          children, running)
    {
      hide ForkAll;
      hide SendAll;
      var item := put[taken];
      taken := taken + 1;
      if item.StopBus? {
        StopActors(order);
        running := false;
      } else {
        running := Process(item.event, taken - 1, order, children);
      }
    }

    /** The message is appended to the context first; then the event is passed on. */
    method Process(e: EB.Event, origin: nat, order: seq<EB.SinkId>, children: seq<ContextId>) returns (ok: bool)
      requires Valid() && EB.Enumerates(order, EB.TargetsOf(net, e.source).taps) && FreshIds(order, children)
      modifies this`pipes, this`dispatched, contextStore, contextStore.persistence, contextStore.contexts.Values
      ensures Valid() && Processed(old(pipes), old(dispatched), old(contextStore.Abs()), e, origin, order, children, ok)
    {
      ghost var s := contextStore.Abs();
      var context := contextStore.GetContext(e.ctx);
      if context.None? {
        return false;
      }
      var outcome := context.value.AppendMessage(e.source, e.payload);
      AppendedData(contextStore.d, s, e);
      if outcome != Done {
        return false;
      }
      ok := PassMessageDownstream(e, origin, order, children);
    }

    /** What processing event `e` leaves behind: an exception of the append ends it at once. */
    ghost predicate Processed(pipes0: map<EB.ActorId, seq<EB.Mail>>, dispatched0: seq<EB.Delivery>, s: System,
                              e: EB.Event, origin: nat,
                              order: seq<EB.SinkId>, children: seq<ContextId>, ok: bool)
      reads this, contextStore, contextStore.persistence, contextStore.contexts.Values
    {
      && WellKeyed(s)
      && var r := AppendMessage(contextStore.d, s, e.ctx, e.source, e.payload);
         if r.1 != Done then !ok && contextStore.Abs() == r.0 && dispatched == dispatched0 && pipes == pipes0
         else Passed(pipes0, dispatched0, r.0, e, origin, order, children, ok)
    }

    /** What a pass of event `e` leaves behind, from queues, deliveries and store before it. */
    ghost predicate Passed(pipes0: map<EB.ActorId, seq<EB.Mail>>, dispatched0: seq<EB.Delivery>, s: System, e: EB.Event,
                           origin: nat,
                           order: seq<EB.SinkId>, children: seq<ContextId>, ok: bool)
      reads this, contextStore, contextStore.persistence, contextStore.contexts.Values
    {
      && WellKeyed(s) && |order| <= |children|
      && var r := ForkAll(contextStore.d, s, e, origin, order, children, []);
         && contextStore.Abs() == r.store && ok == r.ok
         && (!ok ==> dispatched == dispatched0 && pipes == pipes0)
         && (ok ==>
               var all := AllDeliveries(net, e, origin, r.made);
               && (forall j :: 0 <= j < |all| ==> all[j].sink in net.owner && net.owner[all[j].sink] in pipes0)
               && dispatched == dispatched0 + all
               && pipes == SendAll(net, pipes0, |dispatched0|, all, |all|))
    }

    /** A child context for every tap, before anything is sent. */
    method MakeTaps(e: EB.Event, origin: nat, order: seq<EB.SinkId>, children: seq<ContextId>)
      returns (made: seq<EB.Delivery>, ok: bool)
      requires Valid() && |order| <= |children|
      requires forall i :: 0 <= i < |children| ==> children[i] !in contextStore.persistence.data
      requires forall i, j :: 0 <= i < j < |children| ==> children[i] != children[j]
      modifies contextStore, contextStore.persistence
      ensures Valid()
      ensures Forks(contextStore.Abs(), made, ok)
              == ForkAll(contextStore.d, old(contextStore.Abs()), e, origin, order, children, [])
    {
      made := [];
      ghost var s := contextStore.Abs();
      while |made| < |order|
        invariant Valid() && |made| <= |order|
        invariant forall i :: |made| <= i < |children| ==> children[i] !in contextStore.persistence.data
        invariant ForkAll(contextStore.d, contextStore.Abs(), e, origin, order, children, made)
               == ForkAll(contextStore.d, s, e, origin, order, children, [])
      {
        hide ForkAll;
        hide EB.MakeTap;
        ForkAllStep(contextStore.d, contextStore.Abs(), e, origin, order, children, made);
        var tap := MakeTap(e, origin, order[|made|], children[|made|]);
        if tap.None? {
          return made, false;
        }
        made := made + [tap.value];
      }
      ok := true;
    }

    method MakeTap(e: EB.Event, origin: nat, sink: EB.SinkId, child: ContextId) returns (made: Option<EB.Delivery>)
      requires Valid() && child !in contextStore.persistence.data
      modifies contextStore, contextStore.persistence
      ensures Valid() && WellKeyed(old(contextStore.Abs()))
      ensures EB.MakeTap(contextStore.d, old(contextStore.Abs()), e, origin, sink, child)
              == EB.Tap(contextStore.Abs(), made)
      ensures contextStore.persistence.data.Keys <= old(contextStore.persistence.data).Keys + {child}
    {
      var parentData := if e.ctx in contextStore.contexts then contextStore.contexts[e.ctx].userData else map[];
      ghost var before := contextStore.Abs();
      var context, outcome := contextStore.CreateContext([e.ctx], child);
      CreatedData(contextStore.d, before, e.ctx, child);
      if outcome != Done {
        return None;
      }
      made := Some(EB.Delivery(origin, e, sink, child, true, parentData));
    }

    method PassMessageToSink(x: EB.Delivery)
      requires x.sink in net.owner && net.owner[x.sink] in pipes
      modifies this`pipes, this`dispatched
      ensures dispatched == old(dispatched) + [x]
      ensures pipes == old(pipes)[net.owner[x.sink] := old(pipes)[net.owner[x.sink]] + [EB.Deliver(|old(dispatched)|)]]
    {
      var a := net.owner[x.sink];
      pipes := pipes[a := pipes[a] + [EB.Deliver(|dispatched|)]];
      dispatched := dispatched + [x];
    }

    /** Taps are forked, then the primary gets the event, then the taps do. */
    method PassMessageDownstream(e: EB.Event, origin: nat, order: seq<EB.SinkId>, children: seq<ContextId>)
      returns (ok: bool)
      requires Valid() && EB.Enumerates(order, EB.TargetsOf(net, e.source).taps) && |order| <= |children|
      requires forall i :: 0 <= i < |children| ==> children[i] !in contextStore.persistence.data
      requires forall i, j :: 0 <= i < j < |children| ==> children[i] != children[j]
      modifies this`pipes, this`dispatched, contextStore, contextStore.persistence
      ensures Valid() && Passed(old(pipes), old(dispatched), old(contextStore.Abs()), e, origin, order, children, ok)
    {
      var made;
      made, ok := MakeTaps(e, origin, order, children);
      if !ok {
        return;
      }
      ForkAllSinks(contextStore.d, old(contextStore.Abs()), e, origin, order, children, []);
      var all := AllDeliveries(net, e, origin, made);
      AllConnected(net, e, origin, order, made);
      SendEach(all);
    }

    method SendEach(all: seq<EB.Delivery>)
      requires forall j :: 0 <= j < |all| ==> all[j].sink in net.owner && net.owner[all[j].sink] in pipes
      modifies this`pipes, this`dispatched
      ensures dispatched == old(dispatched) + all
      ensures pipes == SendAll(net, old(pipes), |old(dispatched)|, all, |all|)
    {
      for j := 0 to |all|
        invariant dispatched == old(dispatched) + all[..j]
        invariant pipes == SendAll(net, old(pipes), |old(dispatched)|, all, j)
      {
        PassMessageToSink(all[j]);
        assert all[..j + 1] == all[..j] + [all[j]];
      }
      assert all[..|all|] == all;
    }
  }

  /** What a handler may do to its own context. */
  datatype ContextOp = SetData(key: Key, value: Value) | AddNote(note: string) | Finish

  function OpOf(c: ContextId, op: ContextOp): Op {
    match op
    case SetData(key, value) => OpUserData(c, key, value)
    case AddNote(note) => OpNote(c, note)
    case Finish => OpComplete(c)
  }

  /** A handler run: its changes of the context, and the events it returns unless it raises. */
  datatype Handling = Handling(ops: seq<ContextOp>, events: Option<seq<EB.Event>>)

  type Handler = (EB.Delivery, Ctx) -> Handling

  /** Every change is made: `states` holds the store before the first, between any two and after the last. */
  ghost predicate AllDone(d: Deltas, c: ContextId, ops: seq<ContextOp>, states: seq<System>) {
    && |states| == |ops| + 1
    && (forall i :: 0 <= i < |ops| ==>
          WellKeyed(states[i]) && Step(d, states[i], OpOf(c, ops[i])) == (states[i + 1], Done))
  }

  /** The change before the last state raises, and those before it are made. */
  ghost predicate Refused(d: Deltas, c: ContextId, ops: seq<ContextOp>, states: seq<System>) {
    && 1 < |states| <= |ops| + 1
    && var n := |states| - 2;
       && AllDone(d, c, ops[..n], states[..n + 1]) && WellKeyed(states[n])
       && Step(d, states[n], OpOf(c, ops[n])).0 == states[n + 1]
       && Step(d, states[n], OpOf(c, ops[n])).1 != Done
  }

  /**
   The message `x` takes the store through `states` and puts `sent` on the bus: for a known target and context
   the changes of its handler up to the first that raises, and its events if none raises; else nothing.
   */
  ghost predicate Answers(d: Deltas, sinks: set<EB.SinkId>, handler: Handler, x: EB.Delivery, states: seq<System>,
                          sent: seq<EB.Event>) {
    && states != []
    && if x.sink !in sinks || x.ctx !in states[0].contexts then |states| == 1 && sent == []
       else
         var h := handler(x, states[0].contexts[x.ctx]);
         || (AllDone(d, x.ctx, h.ops, states) && sent == if h.events.Some? then h.events.value else [])
         || (Refused(d, x.ctx, h.ops, states) && sent == [])
  }

  function Flat(parts: seq<seq<EB.Event>>): seq<EB.Event> {
    if parts == [] then [] else Flat(parts[..|parts| - 1]) + parts[|parts| - 1]
  }

  class Actor {
    const contextStore: ContextStore
    /** The keys of `handlers()`. */
    const sinks: set<EB.SinkId>
    var pipeFromBus: seq<EB.Mail>
    var pipeToBus: seq<EB.Event>
    var handled: seq<nat>
    var tasksDone: nat
    /** How often the start and stop hooks have been called. */
    var started: nat
    var stopped: nat
    var exited: bool

    constructor (contextStore: ContextStore, sinks: set<EB.SinkId>)
      ensures this.contextStore == contextStore && this.sinks == sinks
      ensures pipeFromBus == [] && pipeToBus == [] && handled == []
      ensures tasksDone == 0 && started == 0 && stopped == 0 && !exited
    {
      this.contextStore, this.sinks := contextStore, sinks;
      pipeFromBus, pipeToBus, handled, tasksDone, started, stopped, exited := [], [], [], 0, 0, 0, false;
    }

    /**
     The loop, once a stop signal is in the queue: it handles what is in front of the first one, and puts on the
     bus what these messages send, one after the other. `runs` holds the states of the store for each of them.
     */
    method Loop(dispatched: seq<EB.Delivery>, handler: Handler)
      returns (ghost runs: seq<seq<System>>, ghost sent: seq<seq<EB.Event>>)
      requires contextStore.Valid() && !exited && exists i :: 0 <= i < |pipeFromBus| && pipeFromBus[i].StopActor?
      requires forall i :: 0 <= i < |pipeFromBus| && pipeFromBus[i].Deliver? ==> pipeFromBus[i].number < |dispatched|
      modifies this, contextStore.persistence, contextStore.contexts.Values
      ensures contextStore.Valid() && exited && started == old(started) + 1 && stopped == old(stopped) + 1
      ensures var n := FirstStop(old(pipeFromBus));
              && n < |old(pipeFromBus)| && pipeFromBus == old(pipeFromBus)[n + 1..]
                 && tasksDone == old(tasksDone) + n + 1
              && handled == old(handled) + NumbersBefore(old(pipeFromBus), n)
              && |runs| == n
      ensures EachAnswered(contextStore.d, sinks, handler, dispatched, old(pipeFromBus), runs, sent)
      ensures Chained(old(contextStore.Abs()), runs, contextStore.Abs())
      ensures pipeToBus == old(pipeToBus) + Flat(sent)
    {
      hide *;
      NothingHandled(contextStore.d, contextStore.Abs(), sinks, handler, dispatched, pipeFromBus);
      started := started + 1;
      ghost var box, before, done, stops := pipeFromBus, handled, tasksDone, stopped;
      FirstStopIsStop(box);
      ghost var n := 0;
      runs, sent := [], [];
      while !exited
        invariant contextStore.Valid() && started == old(started) + 1
        invariant contextStore.contexts == old(contextStore.contexts)
        invariant n <= |box| && pipeFromBus == box[n..] && tasksDone == done + n
        invariant if exited then n == FirstStop(box) + 1 && stopped == stops + 1
                  else n <= FirstStop(box) && stopped == stops
        invariant handled == before + NumbersBefore(box, if exited then n - 1 else n)
        invariant |runs| == if exited then n - 1 else n
        invariant EachAnswered(contextStore.d, sinks, handler, dispatched, box, runs, sent)
        invariant Chained(old(contextStore.Abs()), runs, contextStore.Abs())
        invariant pipeToBus == old(pipeToBus) + Flat(sent)
        decreases |box| - n, !exited
      {
        NumbersMore(box, n);
        ghost var pipe := pipeToBus;
        ghost var states := LoopOnce(dispatched, handler);
        n := n + 1;
        if !exited {
          ghost var more := pipeToBus[|pipe|..];
          OneMoreAnswered(contextStore.d, sinks, handler, dispatched, box, runs, sent, states, more);
          ChainedMore(old(contextStore.Abs()), runs, states);
          runs, sent := runs + [states], sent + [more];
        }
      }
    }

    /**
     One round of the loop; a number in the queue stands for that delivery. The loop goes on unless the
     message is a stop signal, and every message is marked as done.
     */
    method LoopOnce(dispatched: seq<EB.Delivery>, handler: Handler) returns (ghost states: seq<System>)
      requires contextStore.Valid() && pipeFromBus != [] && !exited
      requires pipeFromBus[0].Deliver? ==> pipeFromBus[0].number < |dispatched|
      modifies this, contextStore.persistence, contextStore.contexts.Values
      ensures contextStore.Valid() && contextStore.contexts == old(contextStore.contexts)
      ensures pipeFromBus == old(pipeFromBus)[1..] && tasksDone == old(tasksDone) + 1
      ensures exited == old(pipeFromBus)[0].StopActor?
      ensures started == old(started) && stopped == old(stopped) + if exited then 1 else 0
      ensures handled == old(handled) + if exited then [] else [old(pipeFromBus)[0].number]
      ensures states != [] && states[0] == old(contextStore.Abs()) && states[|states| - 1] == contextStore.Abs()
      ensures exited ==> |states| == 1 && pipeToBus == old(pipeToBus)
      ensures !exited ==>
                var x, s := dispatched[old(pipeFromBus)[0].number], old(contextStore.Abs());
                if x.sink !in sinks || x.ctx !in s.contexts then |states| == 1 && pipeToBus == old(pipeToBus)
                else
                  var h := handler(x, s.contexts[x.ctx]);
                  if AllDone(contextStore.d, x.ctx, h.ops, states) && h.events.Some?
                    then pipeToBus == old(pipeToBus) + h.events.value
                  else pipeToBus == old(pipeToBus)
      ensures !exited ==>
                && old(pipeToBus) <= pipeToBus
                && Answers(contextStore.d, sinks, handler, dispatched[old(pipeFromBus)[0].number], states,
                           pipeToBus[|old(pipeToBus)|..])
    {
      hide *;
      var mail := pipeFromBus[0];
      pipeFromBus, tasksDone := pipeFromBus[1..], tasksDone + 1;
      if mail.StopActor? {
        stopped, exited := stopped + 1, true;
        states := [contextStore.Abs()];
        return;
      }
      handled := handled + [mail.number];
      ghost var sent;
      states, sent := HandleMessage(dispatched[mail.number], handler);
      assert pipeToBus[|old(pipeToBus)|..] == sent;
      AnswerSends(contextStore.d, sinks, handler, dispatched[mail.number], states, sent);
    }

    method HandleMessage(x: EB.Delivery, handler: Handler)
      returns (ghost states: seq<System>, ghost sent: seq<EB.Event>)
      requires contextStore.Valid()
      modifies this`pipeToBus, contextStore.persistence, contextStore.contexts.Values
      ensures contextStore.Valid() && contextStore.contexts == old(contextStore.contexts)
      ensures Answers(contextStore.d, sinks, handler, x, states, sent)
      ensures states[0] == old(contextStore.Abs()) && states[|states| - 1] == contextStore.Abs()
      ensures pipeToBus == old(pipeToBus) + sent
    {
      states, sent := [contextStore.Abs()], [];
      if x.sink !in sinks {
        return;
      }
      var context := contextStore.GetContext(x.ctx);
      if context.None? {
        return;
      }
      var c := context.value;
      assert contextStore.Abs().contexts[x.ctx] == c.State();
      var h := handler(x, Ctx(c.payload, c.userData, c.parents, c.isCompleted));
      var ok;
      ok, states := PerformAll(c, h.ops);
      if ok && h.events.Some? {
        pipeToBus := pipeToBus + h.events.value;
        sent := h.events.value;
      }
    }

    /** What the handler does to the context it has been given. */
    method PerformAll(context: Context, ops: seq<ContextOp>) returns (ok: bool, ghost states: seq<System>)
      requires contextStore.Valid() && context.store == contextStore && context.Registered()
      modifies contextStore.persistence, context
      ensures contextStore.Valid() && contextStore.contexts == old(contextStore.contexts)
      ensures states != [] && states[0] == old(contextStore.Abs()) && states[|states| - 1] == contextStore.Abs()
      ensures if ok then AllDone(contextStore.d, context.id, ops, states)
              else Refused(contextStore.d, context.id, ops, states)
    {
      hide Step;
      states := [contextStore.Abs()];
      for i := 0 to |ops|
        invariant contextStore.Valid() && context.Registered() && contextStore.contexts == old(contextStore.contexts)
        invariant states != [] && states[0] == old(contextStore.Abs()) && states[|states| - 1] == contextStore.Abs()
        invariant AllDone(contextStore.d, context.id, ops[..i], states)
      {
        ghost var before := states;
        var outcome := PerformOne(context, ops[i]);
        states := states + [contextStore.Abs()];
        assert states[..|before|] == before;
        if outcome != Done {
          return false, states;
        }
      }
      assert ops[..|ops|] == ops;
      ok := true;
    }

    method PerformOne(context: Context, op: ContextOp) returns (outcome: Outcome)
      requires contextStore.Valid() && context.store == contextStore && context.Registered()
      modifies contextStore.persistence, context
      ensures contextStore.Valid() && context.Registered() && contextStore.contexts == old(contextStore.contexts)
      ensures WellKeyed(contextStore.Abs()) && WellKeyed(old(contextStore.Abs()))
      ensures Step(contextStore.d, old(contextStore.Abs()), OpOf(context.id, op)) == (contextStore.Abs(), outcome)
      ensures var d, s, s1, c := contextStore.d, old(contextStore.Abs()), contextStore.Abs(), context.id;
              && (op.SetData? ==> Step(d, s, OpUserData(c, op.key, op.value)) == (s1, outcome))
              && (op.AddNote? ==> Step(d, s, OpNote(c, op.note)) == (s1, outcome))
              && (op.Finish? ==> Step(d, s, OpComplete(c)) == (s1, outcome))
    {
      hide AppendEntry;
      match op
      case SetData(key, value) => outcome := context.SetUserData(key, value);
      case AddNote(note) => outcome := context.AppendUserNote(note);
      case Finish => outcome := context.Complete();
    }
  }

  /** The runs follow one another, from store `s` to store `s1`. */
  ghost predicate Chained(s: System, runs: seq<seq<System>>, s1: System) {
    && (forall i :: 0 <= i < |runs| ==> runs[i] != [])
    && (runs == [] ==> s1 == s)
    && (runs != [] ==> runs[0][0] == s && var last := runs[|runs| - 1]; last[|last| - 1] == s1)
    && (forall i :: 0 < i < |runs| ==> runs[i][0] == runs[i - 1][|runs[i - 1]| - 1])
  }

  lemma ChainedMore(s: System, runs: seq<seq<System>>, states: seq<System>)
    requires states != [] && Chained(s, runs, states[0])
    ensures Chained(s, runs + [states], states[|states| - 1])
  {
  }

  /**
   A message sends the events of its handler if the target is known, the context exists, every change is made
   and the handler does not raise; in every other case it sends nothing.
   */
  lemma AnswerSends(d: Deltas, sinks: set<EB.SinkId>, handler: Handler, x: EB.Delivery, states: seq<System>,
                    sent: seq<EB.Event>)
    requires Answers(d, sinks, handler, x, states, sent)
    ensures if x.sink !in sinks || x.ctx !in states[0].contexts then |states| == 1 && sent == []
            else
              var h := handler(x, states[0].contexts[x.ctx]);
              sent == if AllDone(d, x.ctx, h.ops, states) && h.events.Some? then h.events.value else []
  {
  }

  ghost predicate EachAnswered(d: Deltas, sinks: set<EB.SinkId>, handler: Handler, dispatched: seq<EB.Delivery>,
                               box: seq<EB.Mail>, runs: seq<seq<System>>, sent: seq<seq<EB.Event>>) {
    && |runs| == |sent| <= |box|
    && forall i :: 0 <= i < |runs| ==>
         && box[i].Deliver? && box[i].number < |dispatched|
         && Answers(d, sinks, handler, dispatched[box[i].number], runs[i], sent[i])
  }

  lemma NothingHandled(d: Deltas, s: System, sinks: set<EB.SinkId>, handler: Handler, dispatched: seq<EB.Delivery>,
                       box: seq<EB.Mail>)
    ensures EachAnswered(d, sinks, handler, dispatched, box, [], []) && Chained(s, [], s)
    ensures Flat([]) == [] && NumbersBefore(box, 0) == []
  {
  }

  lemma OneMoreAnswered(d: Deltas, sinks: set<EB.SinkId>, handler: Handler, dispatched: seq<EB.Delivery>,
                        box: seq<EB.Mail>, runs: seq<seq<System>>, sent: seq<seq<EB.Event>>, states: seq<System>,
                        more: seq<EB.Event>)
    requires EachAnswered(d, sinks, handler, dispatched, box, runs, sent) && |runs| < |box|
    requires box[|runs|].Deliver? && box[|runs|].number < |dispatched|
    requires Answers(d, sinks, handler, dispatched[box[|runs|].number], states, more)
    ensures EachAnswered(d, sinks, handler, dispatched, box, runs + [states], sent + [more])
    ensures Flat(sent + [more]) == Flat(sent) + more
  {
    hide Answers;
    assert (sent + [more])[..|sent|] == sent;
  }

  /** The position of the first stop signal. */
  function FirstStop(box: seq<EB.Mail>): nat {
    if box == [] || box[0].StopActor? then 0 else 1 + FirstStop(box[1..])
  }

  lemma {:induction false} FirstStopIsStop(box: seq<EB.Mail>)
    requires exists i :: 0 <= i < |box| && box[i].StopActor?
    ensures FirstStop(box) < |box| && box[FirstStop(box)].StopActor?
    ensures forall i :: 0 <= i < FirstStop(box) ==> box[i].Deliver?
  {
    if box[0].Deliver? {
      var i :| 0 <= i < |box| && box[i].StopActor?;
      assert box[1..][i - 1].StopActor?;
      FirstStopIsStop(box[1..]);
      forall i | 0 <= i < FirstStop(box) ensures box[i].Deliver? {
        assert i > 0 ==> box[i] == box[1..][i - 1];
      }
    }
  }

  /** The delivery numbers among the first `n` messages. */
  function NumbersBefore(box: seq<EB.Mail>, n: nat): seq<nat>
    requires n <= |box|
  {
    if n == 0 then [] else NumbersBefore(box, n - 1) + if box[n - 1].Deliver? then [box[n - 1].number] else []
  }

  lemma NumbersMore(box: seq<EB.Mail>, n: nat)
    requires n < |box|
    ensures NumbersBefore(box, n + 1) == NumbersBefore(box, n) + if box[n].Deliver? then [box[n].number] else []
  {
  }

  lemma AllConnected(net: EB.Net, e: EB.Event, origin: nat, order: seq<EB.SinkId>, made: seq<EB.Delivery>)
    requires EB.Wired(net) && EB.Enumerates(order, EB.TargetsOf(net, e.source).taps) && |made| <= |order|
    requires forall j :: 0 <= j < |made| ==> made[j].sink == order[j]
    ensures var all := AllDeliveries(net, e, origin, made);
            forall j :: 0 <= j < |all| ==> all[j].sink in net.owner && net.owner[all[j].sink] in net.actors
  {
    var all := AllDeliveries(net, e, origin, made);
    forall j | 0 <= j < |all| ensures EB.Connected(net, e.source, all[j].sink) {
      if j >= |all| - |made| {
        assert all[j].sink == order[j - (|all| - |made|)];
      }
    }
  }

  lemma AppendedData(d: Deltas, s: System, e: EB.Event)
    requires WellKeyed(s)
    ensures AppendMessage(d, s, e.ctx, e.source, e.payload).0.data.Keys == s.data.Keys
  {
  }

  /** After a creation the other fresh ids are still unused. */
  lemma CreatedData(d: Deltas, s: System, c: ContextId, child: ContextId)
    requires WellKeyed(s) && child !in s.data
    ensures var r := CreateContext(d, s, [c], child);
            r.0.data.Keys <= s.data.Keys + {child} && (r.1 == Done ==> child in r.0.contexts)
  {
  }

  lemma {:induction false} ForkAllSinks(d: Deltas, s: System, e: EB.Event, origin: nat, order: seq<EB.SinkId>,
                                        children: seq<ContextId>, made: seq<EB.Delivery>)
    requires WellKeyed(s) && |made| <= |order| <= |children|
    requires forall j :: 0 <= j < |made| ==> made[j].sink == order[j]
    ensures var r := ForkAll(d, s, e, origin, order, children, made);
            |r.made| <= |order| && (forall j :: 0 <= j < |r.made| ==> r.made[j].sink == order[j])
              && (r.ok ==> |r.made| == |order|)
    decreases |order| - |made|
  {
    if |made| < |order| {
      var r := EB.MakeTap(d, s, e, origin, order[|made|], children[|made|]);
      if r.made.Some? {
        ForkAllSinks(d, r.store, e, origin, order, children, made + [r.made.value]);
      }
    }
  }

  lemma ForkAllStep(d: Deltas, s: System, e: EB.Event, origin: nat, order: seq<EB.SinkId>, children: seq<ContextId>,
                    made: seq<EB.Delivery>)
    requires WellKeyed(s) && |made| < |order| <= |children|
    ensures var r := EB.MakeTap(d, s, e, origin, order[|made|], children[|made|]);
            ForkAll(d, s, e, origin, order, children, made)
            == if r.made.None? then Forks(r.store, made, false)
              else ForkAll(d, r.store, e, origin, order, children, made + [r.made.value])
  {
  }
}
