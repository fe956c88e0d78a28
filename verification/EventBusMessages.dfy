/**
 The bus and the logs: every event that the bus takes is logged on its context as a message, in the order of the
 bus, and nothing else ever is.
 */
module EventBusMessages {
  import opened Options
  import opened ContextLog
  import opened ContextEffects
  import opened EventBus

  /** The sources of the messages in a log. */
  function Messages(log: seq<LogEntry>): seq<SourceId> {
    if log == [] then []
    else
      var e := log[|log| - 1];
      Messages(log[..|log| - 1]) + if e.data.MessageSent? then [e.data.source] else []
  }

  /** The sources of the events on context `c`. */
  function EventsOn(items: seq<Item>, c: ContextId): seq<SourceId> {
    if items == [] then []
    else
      var x := items[|items| - 1];
      EventsOn(items[..|items| - 1], c) + if x.Send? && x.event.ctx == c then [x.event.source] else []
  }

  /** The payload of the last event on context `c`. */
  function LastOn(items: seq<Item>, c: ContextId): Option<Value> {
    if items == [] then None
    else
      var x := items[|items| - 1];
      if x.Send? && x.event.ctx == c then Some(x.event.payload) else LastOn(items[..|items| - 1], c)
  }

  function Logged(s: System, c: ContextId): seq<SourceId> {
    if c in s.data then Messages(s.data[c]) else []
  }

  lemma MessagesSnoc(log: seq<LogEntry>, e: LogEntry)
    ensures Messages(log + [e]) == Messages(log) + if e.data.MessageSent? then [e.data.source] else []
  {
    assert (log + [e])[..|log|] == log;
  }

  lemma OneEntry(e: LogEntry)
    ensures !e.data.MessageSent? ==> Messages([e]) == []
  {
  }

  /** No messages are logged, and the contexts keep their payloads. */
  ghost predicate Quiet(s: System, s1: System) {
    && s.data.Keys <= s1.data.Keys
    && (forall c :: Logged(s1, c) == Logged(s, c))
    && (forall c :: c in s.data && c in s1.contexts ==>
          c in s.contexts && s1.contexts[c].payload == s.contexts[c].payload)
  }

  lemma CreateIsQuiet(d: Deltas, s: System, parents: seq<ContextId>, child: ContextId)
    requires WellKeyed(s) && child !in s.data
    ensures Quiet(s, CreateContext(d, s, parents, child).0)
  {
    var ids := Dedup(parents);
    if CreateGuard(s, ids) == Done {
      var s1 := CreateContext(d, s, parents, child).0;
      hide InitialCtx;
      hide Dedup;
      forall c ensures Logged(s1, c) == Logged(s, c) {
        if c == child {
          var first := LogEntry(child, 0, ContextCreated(ids));
          OneEntry(first);
          if ids != [] {
            MessagesSnoc([first], s1.data[child][1]);
          }
        } else if c in ids && c in s.data {
          MessagesSnoc(s.data[c], LogEntry(c, |s.data[c]|, ChildContextCreated(child)));
        }
      }
    }
  }

  /** A call on one context appends to its log at most the one entry of the call. */
  lemma CallIsLogged(d: Deltas, s: System, op: Op)
    requires WellKeyed(s) && OnContext?(op)
    ensures var r := Step(d, s, op);
            && r.0.data.Keys == s.data.Keys && r.0.contexts.Keys == s.contexts.Keys
            && (forall c :: c != op.ctx ==> Logged(r.0, c) == Logged(s, c))
            && (forall c :: c in s.contexts && !(op.OpMessage? && c == op.ctx) ==>
                  r.0.contexts[c].payload == s.contexts[c].payload)
            && (!op.OpMessage? ==> Logged(r.0, op.ctx) == Logged(s, op.ctx))
            && (op.OpMessage? && r.1 == Done ==>
                  && op.ctx in s.contexts && r.0.contexts[op.ctx].payload == op.payload
                  && Logged(r.0, op.ctx) == Logged(s, op.ctx) + [op.source])
            && (op.OpMessage? ==>
                  Logged(r.0, op.ctx) == Logged(s, op.ctx) || Logged(r.0, op.ctx) == Logged(s, op.ctx) + [op.source])
  {
    RefusedIff(d, s, op);
    if op.ctx in s.contexts && !s.contexts[op.ctx].completed {
      AcceptedIsWritten(d, s, op);
      hide Step;
      var log, log1 := s.data[op.ctx], Step(d, s, op).0.data[op.ctx];
      assert log1 == log + [log1[|log|]];
      MessagesSnoc(log, log1[|log|]);
    }
    hide Step;
  }

  /**
   The first `n` items are what has been logged since store `s0`: all that were taken, except that an exception
   may have kept the last one out.
   */
  ghost predicate Tracks(s0: System, b: Bus, n: nat) {
    && n <= |b.put| && n <= b.taken <= n + 1 && (b.alive ==> n == b.taken)
    && (forall c :: Logged(b.store, c) == Logged(s0, c) + EventsOn(b.put[..n], c))
    && (b.alive ==> forall c :: LastOn(b.put[..n], c).Some? ==>
          && c in b.store.data
          && (c in b.store.contexts ==> b.store.contexts[c].payload == LastOn(b.put[..n], c).value))
  }

  /** Steps that take no event and append no message. */
  lemma QuietTracks(s0: System, b: Bus, n: nat, b1: Bus)
    requires Tracks(s0, b, n) && Quiet(b.store, b1.store)
    requires b1.taken == b.taken && (b1.alive ==> b.alive) && b.put <= b1.put
    ensures Tracks(s0, b1, n)
  {
    assert b1.put[..n] == b.put[..n];
    hide Messages;
    hide EventsOn;
    hide LastOn;
  }

  lemma SameIsQuiet(s: System)
    ensures Quiet(s, s)
  {
  }

  lemma CallIsQuiet(d: Deltas, s: System, op: Op)
    requires WellKeyed(s) && OnContext?(op) && !op.OpMessage?
    ensures Quiet(s, Step(d, s, op).0)
  {
    CallIsLogged(d, s, op);
    hide Step;
    hide Logged;
  }

  lemma OperateTracks(d: Deltas, s0: System, b: Bus, n: nat, op: Op)
    requires Tracks(s0, b, n) && WellKeyed(b.store) && Allowed(b, op)
    ensures Tracks(s0, OperateStep(d, b, op), n)
  {
    if op.OpCreate? {
      CreateIsQuiet(d, b.store, op.parents, op.child);
      hide CreateContext;
    } else {
      CallIsQuiet(d, b.store, op);
    }
    hide Quiet;
    hide Tracks;
    QuietTracks(s0, b, n, OperateStep(d, b, op));
  }

  lemma SnocOn(put: seq<Item>, n: nat, c: ContextId)
    requires n < |put|
    ensures var x := put[n];
            && EventsOn(put[..n + 1], c)
               == EventsOn(put[..n], c) + (if x.Send? && x.event.ctx == c then [x.event.source] else [])
            && LastOn(put[..n + 1], c)
               == if x.Send? && x.event.ctx == c then Some(x.event.payload) else LastOn(put[..n], c)
  {
    assert put[..n + 1][..n] == put[..n];
  }

  /** Appending the message of an event logs it, or raises; and only then is the payload another one. */
  lemma AppendIsLogged(d: Deltas, s: System, e: Event)
    requires WellKeyed(s)
    ensures var r := AppendMessage(d, s, e.ctx, e.source, e.payload);
            && r.0.data.Keys == s.data.Keys && r.0.contexts.Keys == s.contexts.Keys <= s.data.Keys
            && (forall c :: c != e.ctx ==> Logged(r.0, c) == Logged(s, c))
            && (forall c :: c in s.contexts && c != e.ctx ==> r.0.contexts[c].payload == s.contexts[c].payload)
            && (r.1 == Done ==> e.ctx in s.contexts && r.0.contexts[e.ctx].payload == e.payload)
            && (Logged(r.0, e.ctx) == Logged(s, e.ctx) + [e.source]
                || (r.1 != Done && Logged(r.0, e.ctx) == Logged(s, e.ctx)))
  {
    var op := OpMessage(e.ctx, e.source, e.payload);
    CallIsLogged(d, s, op);
    assert Step(d, s, op) == AppendMessage(d, s, e.ctx, e.source, e.payload);
    hide AppendMessage;
    hide Step;
    hide Logged;
  }

  /** The bus takes an event and logs its message, or raises. */
  lemma TakeTracks(d: Deltas, net: Net, s0: System, b: Bus, order: seq<SinkId>) returns (n: nat)
    requires Tracks(s0, b, b.taken) && WellKeyed(b.store) && b.alive && b.taken < |b.put| && b.put[b.taken].Send?
    ensures Tracks(s0, TakeStep(d, net, b, b.put[b.taken].event, order), n)
  {
    hide AppendMessage;
    hide Logged;
    hide EventsOn;
    hide LastOn;
    var e := b.put[b.taken].event;
    var b1 := TakeStep(d, net, b, e, order);
    AppendIsLogged(d, b.store, e);
    if Logged(b1.store, e.ctx) == Logged(b.store, e.ctx) + [e.source] {
      n := b.taken + 1;
      forall c
        ensures Logged(b1.store, c) == Logged(s0, c) + EventsOn(b1.put[..n], c)
        ensures b1.alive && LastOn(b1.put[..n], c).Some? ==>
                  && c in b1.store.data
                  && (c in b1.store.contexts ==> b1.store.contexts[c].payload == LastOn(b1.put[..n], c).value)
      {
        SnocOn(b.put, b.taken, c);
      }
    } else {
      n := b.taken;
    }
  }

  lemma BusStepTracks(d: Deltas, net: Net, s0: System, b: Bus, n: nat, order: seq<SinkId>, child: ContextId)
    returns (n1: nat)
    requires Tracks(s0, b, n) && Enabled(net, b, BusStep(order, child))
    ensures Tracks(s0, BusNext(d, net, b, order, child), n1)
  {
    hide Tracks;
    hide TakeStep;
    hide ForkStep;
    hide StopBoxes;
    hide Quiet;
    hide Enumerates;
    n1 := n;
    var b1 := BusNext(d, net, b, order, child);
    AllTracked(s0, b, n);
    match b.phase
    case Idle =>
      if b.put[b.taken].StopBus? {
        n1 := n + 1;
        StopTracks(s0, b, n, b1);
      } else {
        n1 := TakeTracks(d, net, s0, b, order);
      }
    case Forking(e, _, made) =>
      ForkIsQuiet(d, net, b, child);
      QuietTracks(s0, b, n, b1);
    case Sending(_, _, _) =>
      SameIsQuiet(b.store);
      QuietTracks(s0, b, n, b1);
    case Stopped =>
  }

  lemma AllTracked(s0: System, b: Bus, n: nat)
    requires Tracks(s0, b, n)
    ensures b.alive ==> n == b.taken
  {
  }

  lemma StopTracks(s0: System, b: Bus, n: nat, b1: Bus)
    requires Tracks(s0, b, n) && b.alive && b.taken < |b.put| && b.put[b.taken].StopBus?
    requires b1.put == b.put && b1.store == b.store && b1.taken == b.taken + 1 && b1.alive
    ensures Tracks(s0, b1, n + 1)
  {
    forall c
      ensures EventsOn(b.put[..n + 1], c) == EventsOn(b.put[..n], c)
      ensures LastOn(b.put[..n + 1], c) == LastOn(b.put[..n], c)
    {
      SnocOn(b.put, n, c);
    }
  }

  lemma ForkIsQuiet(d: Deltas, net: Net, b: Bus, child: ContextId)
    requires WellKeyed(b.store) && b.phase.Forking? && child !in b.store.data && b.alive
    ensures var b1 := if b.taken == 0 then b else ForkStep(d, net, b, child);
            Quiet(b.store, b1.store) && b1.put == b.put && b1.taken == b.taken
  {
    CreateIsQuiet(d, b.store, [b.phase.event.ctx], child);
    SameIsQuiet(b.store);
    hide CreateContext;
    hide Quiet;
  }

  lemma StepTracks(d: Deltas, net: Net, s0: System, b: Bus, n: nat, a: Action) returns (n1: nat)
    requires Tracks(s0, b, n) && Enabled(net, b, a)
    ensures Tracks(s0, Next(d, net, b, a), n1)
  {
    n1 := n;
    SameIsQuiet(b.store);
    match a
    case Put(_) => QuietTracks(s0, b, n, Next(d, net, b, a));
    case RequestStop => QuietTracks(s0, b, n, Next(d, net, b, a));
    case Operate(op) => OperateTracks(d, s0, b, n, op);
    case ActorStep(_) => QuietTracks(s0, b, n, Next(d, net, b, a));
    case BusStep(order, child) => n1 := BusStepTracks(d, net, s0, b, n, order, child);
    hide Tracks;
    hide BusNext;
    hide OperateStep;
  }

  lemma {:induction false} RunTracks(d: Deltas, net: Net, s0: System, b: Bus, n: nat, actions: seq<Action>, b': Bus)
    returns (n': nat)
    requires Tracks(s0, b, n) && Run(d, net, b, actions, b')
    ensures Tracks(s0, b', n')
    decreases |actions|
  {
    hide Tracks;
    hide Next;
    hide Enabled;
    n' := n;
    if actions != [] {
      var n1 := StepTracks(d, net, s0, b, n, actions[0]);
      n' := RunTracks(d, net, s0, Next(d, net, b, actions[0]), n1, actions[1..], b');
    }
  }

  /**
   Main theorem: in every run, what each context's log has gained in messages is the events on it among the first
   `n` items of the bus, in their order. These are all that the bus has taken as long as it has not raised, and at
   most the last one less if it has; and a live context then holds the payload of the last event on it.
   */
  lemma EventsAreLogged(d: Deltas, net: Net, b0: Bus, actions: seq<Action>, b: Bus) returns (n: nat)
    requires Initial(net, b0) && Run(d, net, b0, actions, b)
    ensures n <= |b.put| && n <= b.taken <= n + 1 && (b.alive ==> n == b.taken)
    ensures forall c :: c in b.store.data ==>
              Messages(b.store.data[c])
              == (if c in b0.store.data then Messages(b0.store.data[c]) else []) + EventsOn(b.put[..n], c)
    ensures b.alive ==> forall c :: LastOn(b.put[..n], c).Some? && c in b.store.contexts ==>
              b.store.contexts[c].payload == LastOn(b.put[..n], c).value
  {
    assert b0.put[..0] == [];
    assert Tracks(b0.store, b0, 0);
    n := RunTracks(d, net, b0.store, b0, 0, actions, b);
    hide Run;
    hide EventsOn;
    hide LastOn;
    forall c | c in b.store.data
      ensures Messages(b.store.data[c])
              == (if c in b0.store.data then Messages(b0.store.data[c]) else []) + EventsOn(b.put[..n], c)
    {
      assert Logged(b.store, c) == Logged(b0.store, c) + EventsOn(b.put[..n], c);
    }
  }
}
