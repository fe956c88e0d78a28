/**
 The timestamper over all contexts: outputs wait in a queue for the first block beat. Every output
 received is emitted, dropped as stale, lost to an exception, or still queued, and as long as no flush
 has raised they are emitted in the order in which they came.
 */
module Timestamper {
  import opened Options
  import opened StableSort

  type ContextId = nat
  type Output(==,!new)
  type Beat(==,!new)
  type Time = int

  /** In seconds. */
  const QUEUE_AGE_ERROR_THRESHOLD := 300

  datatype Queued = Queued(ctx: ContextId, output: Output)

  datatype Stamped = Stamped(ctx: ContextId, output: Output, started: Time, finished: Time, beat: Beat)

  predicate AllStarted(queue: seq<Queued>, startedAt: map<ContextId, Time>) {
    forall i :: 0 <= i < |queue| ==> queue[i].ctx in startedAt
  }

  /** Young enough to be kept when a drop takes place. */
  function Young(startedAt: map<ContextId, Time>, now: Time): Queued -> bool {
    (q: Queued) => q.ctx in startedAt && now - startedAt[q.ctx] <= QUEUE_AGE_ERROR_THRESHOLD
  }

  function FlushedOutputs(queue: seq<Queued>, startedAt: map<ContextId, Time>, clock: nat -> Time,
                          beat: Beat): (r: seq<Stamped>)
    requires AllStarted(queue, startedAt)
  {
    seq(|queue|,
        i requires 0 <= i < |queue| => Stamped(queue[i].ctx, queue[i].output, startedAt[queue[i].ctx], clock(i), beat))
  }

  function Outputs(stamped: seq<Stamped>): seq<Queued> {
    seq(|stamped|, i requires 0 <= i < |stamped| => Queued(stamped[i].ctx, stamped[i].output))
  }

  /******* What has become of every output *******/

  datatype Fate = Waiting | Emitted | Dropped | Lost

  /** `emitted` is in the order of sending; `orderly` says that no flush has raised. */
  datatype Ledger = Ledger(received: seq<Queued>, fates: seq<Fate>, emitted: seq<Stamped>, orderly: bool)

  ghost function Select(received: seq<Queued>, fates: seq<Fate>, fate: Fate): seq<Queued>
    requires |received| == |fates|
  {
    if received == [] then []
    else
      var n := |received| - 1;
      Select(received[..n], fates[..n], fate) + if fates[n] == fate then [received[n]] else []
  }

  lemma SelectSnoc(received: seq<Queued>, fates: seq<Fate>, q: Queued, f: Fate, fate: Fate)
    requires |received| == |fates|
    ensures Select(received + [q], fates + [f], fate) == Select(received, fates, fate) + if f == fate then [q] else []
  {
    assert (received + [q])[..|received|] == received && (fates + [f])[..|fates|] == fates;
  }

  ghost function Flushed(fates: seq<Fate>): seq<Fate> {
    seq(|fates|, i requires 0 <= i < |fates| => if fates[i] == Waiting then Emitted else fates[i])
  }

  lemma {:induction false} FlushEmpties(received: seq<Queued>, fates: seq<Fate>)
    requires |received| == |fates|
    ensures Select(received, Flushed(fates), Waiting) == []
  {
    if received != [] {
      var n := |received| - 1;
      FlushEmpties(received[..n], fates[..n]);
      assert Flushed(fates)[..n] == Flushed(fates[..n]);
    }
  }

  lemma {:induction false} FlushEmits(received: seq<Queued>, fates: seq<Fate>)
    requires |received| == |fates|
    ensures multiset(Select(received, Flushed(fates), Emitted))
         == multiset(Select(received, fates, Emitted)) + multiset(Select(received, fates, Waiting))
  {
    if received != [] {
      var n := |received| - 1;
      FlushEmits(received[..n], fates[..n]);
      assert Flushed(fates)[..n] == Flushed(fates[..n]);
      assert Flushed(fates)[n] == if fates[n] == Waiting then Emitted else fates[n];
      hide Flushed;
      var emitted, waiting := Select(received[..n], fates[..n], Emitted), Select(received[..n], fates[..n], Waiting);
      var x := received[n];
      assert multiset(emitted + [x]) == multiset(emitted) + multiset{x};
      assert multiset(waiting + [x]) == multiset(waiting) + multiset{x};
    }
  }

  /** If only one of the two fates occurs, the flush keeps the order. */
  lemma {:induction false} FlushKeepsOrder(received: seq<Queued>, fates: seq<Fate>)
    requires |received| == |fates|
    ensures Select(received, fates, Emitted) == [] ==>
              Select(received, Flushed(fates), Emitted) == Select(received, fates, Waiting)
    ensures Select(received, fates, Waiting) == [] ==>
              Select(received, Flushed(fates), Emitted) == Select(received, fates, Emitted)
  {
    if received != [] {
      var n := |received| - 1;
      FlushKeepsOrder(received[..n], fates[..n]);
      assert Flushed(fates)[..n] == Flushed(fates[..n]);
    }
  }

  ghost function Aged(received: seq<Queued>, fates: seq<Fate>, young: Queued -> bool): seq<Fate>
    requires |received| == |fates|
  {
    seq(|fates|, i requires 0 <= i < |fates| =>
      if fates[i] == Waiting && !young(received[i]) then Dropped else fates[i])
  }

  lemma {:induction false} DropSelects(received: seq<Queued>, fates: seq<Fate>, young: Queued -> bool)
    requires |received| == |fates|
    ensures Select(received, Aged(received, fates, young), Waiting) == Filter(Select(received, fates, Waiting), young)
    ensures Select(received, Aged(received, fates, young), Emitted) == Select(received, fates, Emitted)
  {
    if received != [] {
      var n := |received| - 1;
      DropSelects(received[..n], fates[..n], young);
      assert Aged(received, fates, young)[..n] == Aged(received[..n], fates[..n], young);
      var before := Select(received[..n], fates[..n], Waiting);
      if fates[n] == Waiting {
        FilterSnoc(before, received[n], young);
      } else {
        assert before + [] == before && Filter(before, young) + [] == Filter(before, young);
      }
    }
  }

  /** Conservation: every output has one fate, the queue holds the waiting ones, the emitted ones were sent. */
  ghost predicate Accounted(g: Ledger, queue: seq<Queued>) {
    && |g.fates| == |g.received|
    && queue == Select(g.received, g.fates, Waiting)
    && multiset(Outputs(g.emitted)) == multiset(Select(g.received, g.fates, Emitted))
  }

  /** First come, first served; nothing is sent before the first beat, and nothing waits after it. */
  ghost predicate Orderly(g: Ledger, queue: seq<Queued>, beat: Option<Beat>) {
    && |g.fates| == |g.received|
    && Outputs(g.emitted) == Select(g.received, g.fates, Emitted)
    && (beat.None? ==> g.emitted == [])
    && (beat.Some? ==> queue == [])
  }

  ghost predicate Sound(g: Ledger, queue: seq<Queued>, beat: Option<Beat>) {
    Accounted(g, queue) && (g.orderly ==> Orderly(g, queue, beat))
  }

  lemma OutputsAppend(a: seq<Stamped>, b: seq<Stamped>)
    ensures Outputs(a + b) == Outputs(a) + Outputs(b)
  {
  }

  ghost function Receive(g: Ledger, q: Queued, fate: Fate): Ledger {
    g.(received := g.received + [q], fates := g.fates + [fate])
  }

  lemma ReceiveWaiting(g: Ledger, queue: seq<Queued>, q: Queued)
    requires Sound(g, queue, None)
    ensures Sound(Receive(g, q, Waiting), queue + [q], None)
  {
    SelectSnoc(g.received, g.fates, q, Waiting, Waiting);
    SelectSnoc(g.received, g.fates, q, Waiting, Emitted);
  }

  lemma ReceiveLost(g: Ledger, queue: seq<Queued>, beat: Option<Beat>, q: Queued)
    requires Sound(g, queue, beat)
    ensures Sound(Receive(g, q, Lost), queue, beat)
  {
    SelectSnoc(g.received, g.fates, q, Lost, Waiting);
    SelectSnoc(g.received, g.fates, q, Lost, Emitted);
  }

  ghost function Emit(g: Ledger, x: Stamped): Ledger {
    Receive(g, Queued(x.ctx, x.output), Emitted).(emitted := g.emitted + [x])
  }

  lemma ReceiveEmitted(g: Ledger, queue: seq<Queued>, beat: Option<Beat>, x: Stamped)
    requires Sound(g, queue, beat) && beat.Some?
    ensures Sound(Emit(g, x), queue, beat)
  {
    SelectSnoc(g.received, g.fates, Queued(x.ctx, x.output), Emitted, Waiting);
    SelectSnoc(g.received, g.fates, Queued(x.ctx, x.output), Emitted, Emitted);
    OutputsAppend(g.emitted, [x]);
  }

  lemma DropKeeps(g: Ledger, queue: seq<Queued>, beat: Option<Beat>, young: Queued -> bool)
    requires Sound(g, queue, beat)
    ensures Sound(g.(fates := Aged(g.received, g.fates, young)), Filter(queue, young), beat)
  {
    DropSelects(g.received, g.fates, young);
  }

  lemma FlushKeeps(g: Ledger, queue: seq<Queued>, before: Option<Beat>, beat: Beat, events: seq<Stamped>)
    requires Sound(g, queue, before) && Outputs(events) == queue
    ensures Sound(g.(fates := Flushed(g.fates), emitted := g.emitted + events), [], Some(beat))
  {
    FlushEmpties(g.received, g.fates);
    FlushEmits(g.received, g.fates);
    FlushKeepsOrder(g.received, g.fates);
    OutputsAppend(g.emitted, events);
    if g.orderly && before.None? {
      assert Outputs(g.emitted) == [] && [] + queue == queue;
    } else if g.orderly {
      assert events == [] && g.emitted + events == g.emitted;
    }
  }

  /******* The age of an output *******/

  lemma {:induction false} FilterCounts(queue: seq<Queued>, p: Queued -> bool, q: Queued)
    ensures multiset(Filter(queue, p))[q] == if p(q) then multiset(queue)[q] else 0
  {
    if queue != [] {
      FilterCounts(queue[1..], p, q);
      assert queue == [queue[0]] + queue[1..];
    }
  }

  /** What a drop leaves: of every output as many as there were if it is at most 300 seconds old, else none. */
  ghost predicate OnlyRecent(queue: seq<Queued>, startedAt: map<ContextId, Time>, now: Time, rest: seq<Queued>) {
    forall q ::
      multiset(rest)[q] == if q.ctx in startedAt && now - startedAt[q.ctx] <= 300 then multiset(queue)[q] else 0
  }

  lemma YoungIsRecent(queue: seq<Queued>, startedAt: map<ContextId, Time>, now: Time)
    ensures OnlyRecent(queue, startedAt, now, Filter(queue, Young(startedAt, now)))
  {
    forall q
      ensures multiset(Filter(queue, Young(startedAt, now)))[q]
           == if q.ctx in startedAt && now - startedAt[q.ctx] <= 300 then multiset(queue)[q] else 0
    {
      FilterCounts(queue, Young(startedAt, now), q);
    }
  }

  /******* Runs *******/

  datatype Call =
    | Input(ctx: ContextId, now: Time)
    | Output(ctx: ContextId, output: Output, now: Time)
    | BlockBeat(beat: Beat, clock: nat -> Time)

  datatype State = State(startedAt: map<ContextId, Time>, beat: Option<Beat>, queue: seq<Queued>, ledger: Ledger)

  /** The queue after its head has been looked at. */
  ghost function Checked(s: State, now: Time): State
    requires |s.ledger.fates| == |s.ledger.received|
  {
    if s.queue == [] || Young(s.startedAt, now)(s.queue[0]) || !AllStarted(s.queue, s.startedAt) then s
    else
      var young := Young(s.startedAt, now);
      s.(queue := Filter(s.queue, young), ledger := s.ledger.(fates := Aged(s.ledger.received, s.ledger.fates, young)))
  }

  ghost function Next(s: State, call: Call): (r: State)
    requires |s.ledger.fates| == |s.ledger.received|
    ensures |r.ledger.fates| == |r.ledger.received|
  {
    match call
    case Input(ctx, now) => s.(startedAt := s.startedAt[ctx := now])
    case Output(ctx, output, now) =>
      var q := Queued(ctx, output);
      if s.beat.None? then Checked(s.(queue := s.queue + [q], ledger := Receive(s.ledger, q, Waiting)), now)
      else if ctx !in s.startedAt then s.(ledger := Receive(s.ledger, q, Lost))
      else s.(ledger := Emit(s.ledger, Stamped(ctx, output, s.startedAt[ctx], now, s.beat.value)))
    case BlockBeat(beat, clock) =>
      if !AllStarted(s.queue, s.startedAt) then s.(beat := Some(beat), ledger := s.ledger.(orderly := false))
      else
        var sent := FlushedOutputs(s.queue, s.startedAt, clock, beat);
        s.(beat := Some(beat), queue := [],
           ledger := s.ledger.(fates := Flushed(s.ledger.fates), emitted := s.ledger.emitted + sent))
  }

  const Fresh := State(map[], None, [], Ledger([], [], [], true))

  ghost function Run(calls: seq<Call>): (r: State)
    ensures |r.ledger.fates| == |r.ledger.received|
  {
    if calls == [] then Fresh else Next(Run(calls[..|calls| - 1]), calls[|calls| - 1])
  }

  /** At call `k` output number `i` was looked at, waiting, and had been started more than 300 seconds before. */
  ghost predicate FoundStale(calls: seq<Call>, k: int, i: nat) {
    && 0 <= k < |calls| && calls[k].Output?
    && var s, g := Run(calls[..k]), Run(calls[..k + 1]).ledger;
       && i < |g.received| && s.beat.None?
       && g.received[i].ctx in s.startedAt && calls[k].now - s.startedAt[g.received[i].ctx] > 300
  }

  /** A drop changes the fate only of waiting outputs that are too old. */
  lemma CheckDrops(s: State, now: Time, i: nat)
    requires |s.ledger.fates| == |s.ledger.received| && i < |s.ledger.received|
    requires s.queue == Select(s.ledger.received, s.ledger.fates, Waiting)
    requires s.ledger.fates[i] != Dropped && Checked(s, now).ledger.fates[i] == Dropped
    ensures s.ledger.received[i].ctx in s.startedAt && now - s.startedAt[s.ledger.received[i].ctx] > 300
  {
    WaitingIsSelected(s.ledger.received, s.ledger.fates, i);
    assert s.ledger.received[i] in s.queue;
    var j :| 0 <= j < |s.queue| && s.queue[j] == s.ledger.received[i];
    assert s.queue[j].ctx in s.startedAt;
  }

  lemma {:induction false} WaitingIsSelected(received: seq<Queued>, fates: seq<Fate>, i: nat)
    requires |received| == |fates| && i < |received| && fates[i] == Waiting
    ensures received[i] in Select(received, fates, Waiting)
  {
    var n := |received| - 1;
    if i < n {
      WaitingIsSelected(received[..n], fates[..n], i);
    }
  }

  lemma NextKeeps(s: State, call: Call)
    requires Sound(s.ledger, s.queue, s.beat)
    ensures var r := Next(s, call);
            Sound(r.ledger, r.queue, r.beat)
  {
    hide Sound;
    match call
    case Input(ctx, now) =>
    case Output(ctx, output, now) =>
      var q := Queued(ctx, output);
      if s.beat.None? {
        ReceiveWaiting(s.ledger, s.queue, q);
        var s1 := s.(queue := s.queue + [q], ledger := Receive(s.ledger, q, Waiting));
        DropKeeps(s1.ledger, s1.queue, s1.beat, Young(s.startedAt, now));
      } else if ctx !in s.startedAt {
        ReceiveLost(s.ledger, s.queue, s.beat, q);
      } else {
        ReceiveEmitted(s.ledger, s.queue, s.beat, Stamped(ctx, output, s.startedAt[ctx], now, s.beat.value));
      }
    case BlockBeat(beat, clock) =>
      if AllStarted(s.queue, s.startedAt) {
        FlushKeeps(s.ledger, s.queue, s.beat, beat, FlushedOutputs(s.queue, s.startedAt, clock, beat));
      } else {
        DisorderKeeps(s.ledger, s.queue, s.beat, beat);
      }
  }

  lemma DisorderKeeps(g: Ledger, queue: seq<Queued>, before: Option<Beat>, beat: Beat)
    requires Sound(g, queue, before)
    ensures Sound(g.(orderly := false), queue, Some(beat))
  {
  }

  lemma {:induction false} RunIsSound(calls: seq<Call>)
    ensures var s := Run(calls);
            Sound(s.ledger, s.queue, s.beat)
  {
    if calls != [] {
      RunIsSound(calls[..|calls| - 1]);
      NextKeeps(Run(calls[..|calls| - 1]), calls[|calls| - 1]);
      hide Sound;
    }
  }

  lemma StepDrops(s: State, call: Call, i: nat)
    requires Sound(s.ledger, s.queue, s.beat) && i < |Next(s, call).ledger.received|
    requires Next(s, call).ledger.fates[i] == Dropped && (i < |s.ledger.fates| ==> s.ledger.fates[i] != Dropped)
    ensures call.Output? && s.beat.None?
    ensures var q := Next(s, call).ledger.received[i];
            q.ctx in s.startedAt && call.now - s.startedAt[q.ctx] > 300
  {
    if call.Output? && s.beat.None? {
      var q := Queued(call.ctx, call.output);
      ReceiveWaiting(s.ledger, s.queue, q);
      CheckDrops(s.(queue := s.queue + [q], ledger := Receive(s.ledger, q, Waiting)), call.now, i);
    }
  }

  /** An output that is at most 300 seconds old at every check is never dropped. */
  lemma {:induction false} DroppedWasStale(calls: seq<Call>, i: nat)
    requires i < |Run(calls).ledger.fates| && Run(calls).ledger.fates[i] == Dropped
    ensures exists k :: FoundStale(calls, k, i)
  {
    var n := |calls| - 1;
    var s := Run(calls[..n]);
    RunIsSound(calls[..n]);
    if i < |s.ledger.fates| && s.ledger.fates[i] == Dropped {
      DroppedWasStale(calls[..n], i);
      var k :| FoundStale(calls[..n], k, i);
      StaleInLonger(calls, n, k, i);
    } else {
      StepDrops(s, calls[n], i);
      assert calls[..n + 1] == calls;
      assert FoundStale(calls, n, i);
    }
  }

  lemma StaleInLonger(calls: seq<Call>, n: nat, k: int, i: nat)
    requires n <= |calls| && FoundStale(calls[..n], k, i)
    ensures FoundStale(calls, k, i)
  {
    hide Run;
    assert calls[..n][..k] == calls[..k] && calls[..n][..k + 1] == calls[..k + 1];
  }

  /** Every output that is due at a beat is stamped with what its context, the clock and the beat say. */
  ghost predicate StampedFrom(queue: seq<Queued>, startedAt: map<ContextId, Time>, clock: nat -> Time, beat: Beat,
                              sent: seq<Stamped>) {
    && |sent| == |queue|
    && forall i :: 0 <= i < |queue| ==>
         && queue[i].ctx in startedAt
         && sent[i].ctx == queue[i].ctx && sent[i].output == queue[i].output
         && sent[i].started == startedAt[queue[i].ctx] && sent[i].finished == clock(i) && sent[i].beat == beat
  }

  /******* The actor *******/

  class TimestamperActor {
    /** The start time that every context carries in its user data. */
    var startedAt: map<ContextId, Time>
    var latestBlockBeat: Option<Beat>
    var queuedOutputs: seq<Queued>
    ghost var ledger: Ledger

    constructor (startedAt: map<ContextId, Time>)
      ensures Valid() && this.startedAt == startedAt && latestBlockBeat.None? && queuedOutputs == []
      ensures ledger == Ledger([], [], [], true)
    {
      this.startedAt, latestBlockBeat, queuedOutputs := startedAt, None, [];
      ledger := Ledger([], [], [], true);
    }

    ghost predicate Valid()
      reads this
    {
      Sound(ledger, queuedOutputs, latestBlockBeat)
    }

    ghost function Now(): State
      reads this
    {
      State(startedAt, latestBlockBeat, queuedOutputs, ledger)
    }

    method HandleInput(ctx: ContextId, now: Time)
      requires Valid()
      modifies this`startedAt
      ensures Valid() && startedAt == old(startedAt)[ctx := now]
      ensures Now() == Next(old(Now()), Input(ctx, now))
    {
      startedAt := startedAt[ctx := now];
    }

    /** `None` is a raised exception. An output that is queued stays queued even if the check of the head raises. */
    method HandleOutput(ctx: ContextId, output: Output, now: Time) returns (sent: Option<seq<Stamped>>)
      requires Valid()
      modifies this`queuedOutputs, this`ledger
      ensures Valid() && ledger.orderly == old(ledger.orderly)
      ensures ledger.received == old(ledger.received) + [Queued(ctx, output)]
      ensures ledger.emitted == old(ledger.emitted) + if sent.Some? then sent.value else []
      ensures latestBlockBeat.Some? ==> queuedOutputs == old(queuedOutputs) && (sent.Some? <==> ctx in startedAt)
      ensures latestBlockBeat.Some? && sent.Some? ==>
                sent.value == [Stamped(ctx, output, startedAt[ctx], now, latestBlockBeat.value)]
      ensures Now() == Next(old(Now()), Output(ctx, output, now))
      ensures latestBlockBeat.None? ==>
                var queue := old(queuedOutputs) + [Queued(ctx, output)];
                if AllStarted(queue, startedAt) && now - startedAt[queue[0].ctx] > 300 then
                  OnlyRecent(queue, startedAt, now, queuedOutputs)
                else queuedOutputs == queue
      ensures latestBlockBeat.None? ==>
                var queue := old(queuedOutputs) + [Queued(ctx, output)];
                var due := !Young(startedAt, now)(queue[0]);
                && sent == (if due && !AllStarted(queue, startedAt) then None else Some([]))
                && queuedOutputs == if sent.Some? && due then Filter(queue, Young(startedAt, now)) else queue
    {
      hide Sound;
      var q := Queued(ctx, output);
      if latestBlockBeat.None? {
        Enqueue(q);
        var ok := DropIfFirstTooOld(now);
        sent := if ok then Some([]) else None;
      } else if ctx !in startedAt {
        ReceiveLost(ledger, queuedOutputs, latestBlockBeat, q);
        ledger := Receive(ledger, q, Lost);
        sent := None;
      } else {
        var stamped := Stamped(ctx, output, startedAt[ctx], now, latestBlockBeat.value);
        ReceiveEmitted(ledger, queuedOutputs, latestBlockBeat, stamped);
        ledger := Emit(ledger, stamped);
        sent := Some([stamped]);
      }
    }

    method Enqueue(q: Queued)
      requires Valid() && latestBlockBeat.None?
      modifies this`queuedOutputs, this`ledger
      ensures Valid() && queuedOutputs == old(queuedOutputs) + [q] && ledger == Receive(old(ledger), q, Waiting)
    {
      ReceiveWaiting(ledger, queuedOutputs, q);
      queuedOutputs := queuedOutputs + [q];
      ledger := Receive(ledger, q, Waiting);
    }

    /** The age of the head decides; a start time that cannot be read is an exception. */
    method DropIfFirstTooOld(now: Time) returns (ok: bool)
      requires Valid()
      modifies this`queuedOutputs, this`ledger
      ensures Valid() && ledger == old(ledger).(fates := ledger.fates)
      ensures Now() == Checked(old(Now()), now)
      ensures var queue := old(queuedOutputs);
              if AllStarted(queue, startedAt) && queue != [] && now - startedAt[queue[0].ctx] > 300 then
                OnlyRecent(queue, startedAt, now, queuedOutputs)
              else queuedOutputs == queue
      ensures var queue := old(queuedOutputs);
              var due := queue != [] && !Young(startedAt, now)(queue[0]);
              && (ok <==> due ==> AllStarted(queue, startedAt))
              && queuedOutputs == if ok && due then Filter(queue, Young(startedAt, now)) else queue
    {
      if |queuedOutputs| == 0 {
        return true;
      }
      if queuedOutputs[0].ctx !in startedAt {
        return false;
      }
      if now - startedAt[queuedOutputs[0].ctx] <= QUEUE_AGE_ERROR_THRESHOLD {
        return true;
      }
      var retained := EntriesWithinErrorThreshold(now);
      assert retained.None? ==> !AllStarted(queuedOutputs, startedAt);
      if retained.Some? {
        DropKeeps(ledger, queuedOutputs, latestBlockBeat, Young(startedAt, now));
        ledger := ledger.(fates := Aged(ledger.received, ledger.fates, Young(startedAt, now)));
        queuedOutputs := retained.value;
      }
      ok := retained.Some?;
    }

    method EntriesWithinErrorThreshold(now: Time) returns (retained: Option<seq<Queued>>)
      ensures retained.Some? <==> AllStarted(queuedOutputs, startedAt)
      ensures retained.Some? ==> retained.value == Filter(queuedOutputs, Young(startedAt, now))
      ensures retained.Some? ==> OnlyRecent(queuedOutputs, startedAt, now, retained.value)
    {
      var kept, queue := [], queuedOutputs;
      for i := 0 to |queue|
        invariant AllStarted(queue[..i], startedAt)
        invariant kept == Filter(queue[..i], Young(startedAt, now))
      {
        assert queue[..i + 1] == queue[..i] + [queue[i]];
        FilterSnoc(queue[..i], queue[i], Young(startedAt, now));
        if queue[i].ctx !in startedAt {
          return None;
        }
        if now - startedAt[queue[i].ctx] <= QUEUE_AGE_ERROR_THRESHOLD {
          kept := kept + [queue[i]];
        }
      }
      assert queue[..|queue|] == queue;
      YoungIsRecent(queue, startedAt, now);
      retained := Some(kept);
    }

    /**
     A beat flushes the whole queue, or raises at an entry whose start time cannot be read; then the
     beat is taken, nothing is sent, and the queue stays.
     */
    method HandleBlockBeat(beat: Beat, clock: nat -> Time) returns (sent: Option<seq<Stamped>>)
      requires Valid()
      modifies this`latestBlockBeat, this`queuedOutputs, this`ledger
      ensures Valid() && latestBlockBeat == Some(beat) && ledger.received == old(ledger.received)
      ensures sent.Some? <==> AllStarted(old(queuedOutputs), startedAt)
      ensures Now() == Next(old(Now()), BlockBeat(beat, clock))
      ensures sent.Some? ==> StampedFrom(old(queuedOutputs), startedAt, clock, beat, sent.value)
      ensures queuedOutputs == if sent.Some? then [] else old(queuedOutputs)
      ensures ledger.emitted == old(ledger.emitted) + if sent.Some? then sent.value else []
      ensures ledger.orderly == (old(ledger.orderly) && sent.Some?)
    {
      ghost var before := latestBlockBeat;
      latestBlockBeat := Some(beat);
      sent := StampQueue(beat, clock);
      if sent.None? {
        ledger := ledger.(orderly := false);
        return;
      }
      FlushKeeps(ledger, queuedOutputs, before, beat, sent.value);
      ledger := ledger.(fates := Flushed(ledger.fates), emitted := ledger.emitted + sent.value);
      queuedOutputs := [];
    }

    method StampQueue(beat: Beat, clock: nat -> Time) returns (sent: Option<seq<Stamped>>)
      ensures sent.Some? <==> AllStarted(queuedOutputs, startedAt)
      ensures sent.Some? ==>
                sent.value == FlushedOutputs(queuedOutputs, startedAt, clock, beat)
                && Outputs(sent.value) == queuedOutputs
    {
      var events, queue := [], queuedOutputs;
      for i := 0 to |queue|
        invariant AllStarted(queue[..i], startedAt)
        invariant events == FlushedOutputs(queue[..i], startedAt, clock, beat)
      {
        var q := queue[i];
        if q.ctx !in startedAt {
          return None;
        }
        events := events + [Stamped(q.ctx, q.output, startedAt[q.ctx], clock(i), beat)];
      }
      assert queue[..|queue|] == queue;
      sent := Some(events);
    }
  }

  /** After a flush that raised, a later output of any context with a start time overtakes the whole queue. */
  method OvertakeAfterRaisedFlush(actor: TimestamperActor, beat: Beat, clock: nat -> Time, ctx: ContextId, late: Output,
                                  now: Time)
    returns (sent: Option<seq<Stamped>>)
    requires actor.Valid() && !AllStarted(actor.queuedOutputs, actor.startedAt) && ctx in actor.startedAt
    modifies actor`latestBlockBeat, actor`queuedOutputs, actor`ledger
    ensures actor.Valid() && !actor.ledger.orderly
    ensures sent == Some([Stamped(ctx, late, actor.startedAt[ctx], now, beat)])
    ensures actor.ledger.received == old(actor.ledger.received) + [Queued(ctx, late)]
    ensures actor.ledger.emitted == old(actor.ledger.emitted) + sent.value
    ensures actor.queuedOutputs == old(actor.queuedOutputs) && actor.queuedOutputs != []
  {
    hide Sound;
    var flushed := actor.HandleBlockBeat(beat, clock);
    sent := actor.HandleOutput(ctx, late, now);
  }

  /** It happens: the first of two outputs belongs to a context without a start time, and the second is sent first. */
  method OvertakingHappens(early: Output, late: Output, beat: Beat, clock: nat -> Time)
    returns (actor: TimestamperActor)
    ensures actor.Valid() && actor.ledger.received == [Queued(0, early), Queued(1, late)]
    ensures Outputs(actor.ledger.emitted) == [Queued(1, late)] && actor.queuedOutputs == [Queued(0, early)]
  {
    hide Sound;
    actor := new TimestamperActor(map[]);
    var sent := actor.HandleOutput(0, early, 0);
    actor.HandleInput(1, 0);
    assert !AllStarted(actor.queuedOutputs, actor.startedAt) by { assert actor.queuedOutputs[0].ctx == 0; }
    sent := OvertakeAfterRaisedFlush(actor, beat, clock, 1, late, 0);
  }
}
