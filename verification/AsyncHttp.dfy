/**
 The async HTTP request protocol: the dispatcher, the sender workers, the callback server and the timeout
 sweep race on one pending-request store. Taking a request out of the store and emitting its outcome are
 separate atomic steps of the thread that took it.
 */
module AsyncHttp {
  import opened Options

  type RequestId = nat
  type ContextId = nat
  type Payload(==,!new)
  type Time = int

  datatype Request = Request(ctx: ContextId, expiresAt: Time)

  datatype Failure =
    | SenderNotRunning | EnqueueTimedOut | EnqueueFailed | SendFailed
    | RemoteError | MissingOutput | InvalidOutput | ResponseTimeout

  datatype Outcome = Processed(output: Payload) | Failed(failure: Failure)

  datatype Thread = Dispatcher | Worker(index: nat) | CallbackThread | Sweeper

  /** A request that `thread` has taken out of the store; it alone emits the outcome. */
  datatype Claim = Claim(thread: Thread, id: RequestId, ctx: ContextId, outcome: Outcome)

  datatype Item = Send(id: RequestId) | StopSignal

  /** The put that the dispatching thread waits for, and whether the sender loop has completed it. */
  datatype Enqueuing = Enqueuing(id: RequestId, put: bool)

  /** A busy worker names the queue position it took. */
  datatype WorkerState = Ready | Busy(position: nat) | Stopped

  /** The body of a callback after parsing; a payload that does not validate is `None`. */
  datatype Body = Malformed | Envelope(id: RequestId, remoteError: bool, hasOutput: bool, output: Option<Payload>)

  /**
   `registered`, `claims`, `emissions`, `queued` and `finished` are histories. `emissions` are positions
   in `claims`, in the order of emission; `taken` items of `queued` have left the queue. A put in `late`
   was given up by the dispatching thread and may still complete.
   */
  datatype Http = Http(
    registered: map<RequestId, Request>,
    pending: map<RequestId, Request>,
    claims: seq<Claim>,
    emissions: seq<nat>,
    enqueuing: Option<Enqueuing>,
    late: set<RequestId>,
    queued: seq<Item>,
    taken: nat,
    workers: seq<WorkerState>,
    finished: set<nat>)

  function Started(maxInFlight: nat): Http {
    Http(map[], map[], [], [], None, {}, [], 0, seq(maxInFlight, i => Ready), {})
  }

  datatype Action =
    | Dispatch(id: RequestId, request: Request)
    | PutCompletes
    | Enqueued
    | EnqueueFails(failure: Failure, late: bool)
    | LateEnqueue(id: RequestId)
    | Take(worker: nat)
    | Sent(worker: nat)
    | SendFails(worker: nat)
    | Callback(body: Body)
    | Sweep(now: Time, order: seq<RequestId>)
    | Emit(claim: nat)
    | SignalStop

  /** The thread still has an outcome to emit and does nothing else before it has. */
  predicate Owes(s: Http, thread: Thread) {
    exists i :: 0 <= i < |s.claims| && s.claims[i].thread == thread && i !in s.emissions
  }

  ghost predicate EnumeratesExpired(s: Http, now: Time, order: seq<RequestId>) {
    && (forall id :: id in order <==> id in s.pending && s.pending[id].expiresAt <= now)
    && (forall i, j :: 0 <= i < j < |order| ==> order[i] != order[j])
  }

  function StopsIn(queued: seq<Item>): nat {
    if queued == [] then 0
    else StopsIn(queued[..|queued| - 1]) + if queued[|queued| - 1].StopSignal? then 1 else 0
  }

  /** Request ids are never generated twice, and shutdown sends one stop signal per worker. */
  ghost predicate Enabled(s: Http, a: Action) {
    match a
    case Dispatch(id, _) => id !in s.registered && s.enqueuing.None? && !Owes(s, Dispatcher)
    case PutCompletes => s.enqueuing.Some? && !s.enqueuing.value.put
    case Enqueued => s.enqueuing.Some? && s.enqueuing.value.put
    case EnqueueFails(_, late) => s.enqueuing.Some? && (late ==> !s.enqueuing.value.put)
    case LateEnqueue(id) => id in s.late
    case Take(w) => w < |s.workers| && s.workers[w] == Ready && !Owes(s, Worker(w)) && s.taken < |s.queued|
    case Sent(w) => w < |s.workers| && s.workers[w].Busy?
    case SendFails(w) => w < |s.workers| && s.workers[w].Busy? && s.workers[w].position < |s.queued|
      && s.queued[s.workers[w].position].Send?
    case Callback(_) => true
    case Sweep(now, order) => !Owes(s, Sweeper) && EnumeratesExpired(s, now, order)
    case Emit(i) => i < |s.claims| && i !in s.emissions
    case SignalStop => StopsIn(s.queued) < |s.workers|
  }

  /** `pop`: at most one thread gets the request, and with it the duty to emit `outcome`. */
  function Resolve(s: Http, thread: Thread, id: RequestId, outcome: Outcome): Http {
    if id !in s.pending then s
    else s.(pending := s.pending - {id}, claims := s.claims + [Claim(thread, id, s.pending[id].ctx, outcome)])
  }

  function ResolveAll(s: Http, thread: Thread, ids: seq<RequestId>, outcome: Outcome): Http {
    if ids == [] then s
    else Resolve(ResolveAll(s, thread, ids[..|ids| - 1], outcome), thread, ids[|ids| - 1], outcome)
  }

  /** What an envelope for a pending request resolves it to. */
  function CallbackOutcome(body: Body): Outcome
    requires body.Envelope?
  {
    if body.remoteError then Failed(RemoteError)
    else if !body.hasOutput then Failed(MissingOutput)
    else if body.output.None? then Failed(InvalidOutput)
    else Processed(body.output.value)
  }

  ghost function Next(s: Http, a: Action): Http
    requires Enabled(s, a)
  {
    match a
    case Dispatch(id, request) =>
      s.(registered := s.registered[id := request], pending := s.pending[id := request],
         enqueuing := Some(Enqueuing(id, false)))
    case PutCompletes =>
      var id := s.enqueuing.value.id;
      s.(queued := s.queued + [Send(id)], enqueuing := Some(Enqueuing(id, true)))
    case Enqueued => s.(enqueuing := None)
    case EnqueueFails(failure, late) =>
      var id := s.enqueuing.value.id;
      Resolve(s, Dispatcher, id, Failed(failure)).(enqueuing := None, late := if late then s.late + {id} else s.late)
    case LateEnqueue(id) => s.(queued := s.queued + [Send(id)], late := s.late - {id})
    case Take(w) =>
      s.(taken := s.taken + 1,
         workers := s.workers[w := if s.queued[s.taken].StopSignal? then Stopped else Busy(s.taken)])
    case Sent(w) => s.(workers := s.workers[w := Ready], finished := s.finished + {s.workers[w].position})
    case SendFails(w) =>
      var p := s.workers[w].position;
      Resolve(s, Worker(w), s.queued[p].id, Failed(SendFailed)).(workers := s.workers[w := Ready],
                                                                 finished := s.finished + {p})
    case Callback(body) => if body.Malformed? then s else Resolve(s, CallbackThread, body.id, CallbackOutcome(body))
    case Sweep(_, order) => ResolveAll(s, Sweeper, order, Failed(ResponseTimeout))
    case Emit(i) => s.(emissions := s.emissions + [i])
    case SignalStop => s.(queued := s.queued + [StopSignal])
  }

  ghost predicate Run(s: Http, actions: seq<Action>, s': Http)
    decreases |actions|
  {
    if actions == [] then s' == s else Enabled(s, actions[0]) && Run(Next(s, actions[0]), actions[1..], s')
  }

  /******* Exactly one outcome *******/

  ghost predicate Claimed(s: Http, id: RequestId) {
    exists i :: 0 <= i < |s.claims| && s.claims[i].id == id
  }

  /** Every registered request is pending, or has exactly one claim; a claim is emitted at most once. */
  ghost predicate Resolved(s: Http) {
    && (forall id :: id in s.pending ==> id in s.registered && s.pending[id] == s.registered[id])
    && (forall id :: id in s.registered <==> id in s.pending || Claimed(s, id))
    && (forall i :: 0 <= i < |s.claims| ==>
          s.claims[i].id !in s.pending && s.claims[i].id in s.registered
            && s.claims[i].ctx == s.registered[s.claims[i].id].ctx)
    && (forall i, j :: 0 <= i < j < |s.claims| ==> s.claims[i].id != s.claims[j].id)
    && (forall i :: 0 <= i < |s.emissions| ==> s.emissions[i] < |s.claims|)
    && (forall i, j :: 0 <= i < j < |s.emissions| ==> s.emissions[i] != s.emissions[j])
  }

  lemma ResolveKeeps(s: Http, thread: Thread, id: RequestId, outcome: Outcome)
    requires Resolved(s)
    ensures Resolved(Resolve(s, thread, id, outcome))
  {
    var s1 := Resolve(s, thread, id, outcome);
    if id in s.pending {
      forall x ensures Claimed(s1, x) <==> Claimed(s, x) || x == id {
        if Claimed(s, x) {
          var i :| 0 <= i < |s.claims| && s.claims[i].id == x;
          assert s1.claims[i].id == x;
        }
        assert s1.claims[|s.claims|].id == id;
      }
    }
  }

  lemma {:induction false} ResolveAllKeeps(s: Http, thread: Thread, ids: seq<RequestId>, outcome: Outcome)
    requires Resolved(s)
    ensures Resolved(ResolveAll(s, thread, ids, outcome))
  {
    if ids != [] {
      ResolveAllKeeps(s, thread, ids[..|ids| - 1], outcome);
      ResolveKeeps(ResolveAll(s, thread, ids[..|ids| - 1], outcome), thread, ids[|ids| - 1], outcome);
    }
  }

  /** The step does not touch requests, claims or emissions. */
  lemma QuietKeeps(s: Http, s1: Http)
    requires Resolved(s)
    requires s1.registered == s.registered && s1.pending == s.pending && s1.claims == s.claims
    requires s1.emissions == s.emissions
    ensures Resolved(s1)
  {
    forall id ensures Claimed(s1, id) <==> Claimed(s, id) {
    }
  }

  lemma DispatchKeeps(s: Http, id: RequestId, request: Request)
    requires Resolved(s) && id !in s.registered
    ensures Resolved(s.(registered := s.registered[id := request], pending := s.pending[id := request],
                        enqueuing := Some(Enqueuing(id, false))))
  {
    var s1 :=
      s.(registered := s.registered[id := request], pending := s.pending[id := request],
      enqueuing := Some(Enqueuing(id, false)));
    forall x ensures Claimed(s1, x) <==> Claimed(s, x) {
    }
  }

  lemma EmitKeeps(s: Http, i: nat)
    requires Resolved(s) && i < |s.claims| && i !in s.emissions
    ensures Resolved(s.(emissions := s.emissions + [i]))
  {
    var s1 := s.(emissions := s.emissions + [i]);
    forall x ensures Claimed(s1, x) <==> Claimed(s, x) {
    }
  }

  lemma NextKeeps(s: Http, a: Action)
    requires Resolved(s) && Enabled(s, a)
    ensures Resolved(Next(s, a))
  {
    match a
    case Dispatch(id, request) => DispatchKeeps(s, id, request);
    case EnqueueFails(failure, late) =>
      ResolveKeeps(s, Dispatcher, s.enqueuing.value.id, Failed(failure));
      QuietKeeps(Resolve(s, Dispatcher, s.enqueuing.value.id, Failed(failure)), Next(s, a));
    case SendFails(w) =>
      var id := s.queued[s.workers[w].position].id;
      ResolveKeeps(s, Worker(w), id, Failed(SendFailed));
      QuietKeeps(Resolve(s, Worker(w), id, Failed(SendFailed)), Next(s, a));
    case Callback(body) =>
      if body.Envelope? {
        ResolveKeeps(s, CallbackThread, body.id, CallbackOutcome(body));
      }
    case Sweep(_, order) => ResolveAllKeeps(s, Sweeper, order, Failed(ResponseTimeout));
    case Emit(i) => EmitKeeps(s, i);
    case _ => QuietKeeps(s, Next(s, a));
  }

  lemma {:induction false} RunKeeps(s: Http, actions: seq<Action>, s': Http)
    requires Resolved(s) && Run(s, actions, s')
    ensures Resolved(s')
    decreases |actions|
  {
    if actions != [] {
      NextKeeps(s, actions[0]);
      RunKeeps(Next(s, actions[0]), actions[1..], s');
    }
  }

  /** How often request `id` has got an outcome emitted. */
  function Emissions(claims: seq<Claim>, emissions: seq<nat>, id: RequestId): nat
    requires forall i :: 0 <= i < |emissions| ==> emissions[i] < |claims|
  {
    if emissions == [] then 0
    else
      var n := |emissions| - 1;
      Emissions(claims, emissions[..n], id) + if claims[emissions[n]].id == id then 1 else 0
  }

  lemma {:induction false} EmittedOnce(claims: seq<Claim>, emissions: seq<nat>, i: nat)
    requires forall k :: 0 <= k < |emissions| ==> emissions[k] < |claims|
    requires i < |claims| && forall j :: 0 <= j < |claims| && j != i ==> claims[j].id != claims[i].id
    requires forall j, k :: 0 <= j < k < |emissions| ==> emissions[j] != emissions[k]
    ensures Emissions(claims, emissions, claims[i].id) == if i in emissions then 1 else 0
  {
    if emissions != [] {
      var n := |emissions| - 1;
      EmittedOnce(claims, emissions[..n], i);
      assert emissions == emissions[..n] + [emissions[n]];
    }
  }

  lemma {:induction false} NeverEmitted(claims: seq<Claim>, emissions: seq<nat>, id: RequestId)
    requires forall k :: 0 <= k < |emissions| ==> emissions[k] < |claims|
    requires forall j :: 0 <= j < |claims| ==> claims[j].id != id
    ensures Emissions(claims, emissions, id) == 0
  {
    if emissions != [] {
      NeverEmitted(claims, emissions[..|emissions| - 1], id);
    }
  }

  /**
   Main theorem: in every interleaving each registered request is in exactly one of three places: pending
   with nothing emitted, taken by one thread that has not emitted yet, or emitted exactly once. An id
   that was never registered never gets an outcome.
   */
  lemma ExactlyOneOutcome(n: nat, actions: seq<Action>, s: Http, id: RequestId)
    requires Run(Started(n), actions, s)
    ensures forall i :: 0 <= i < |s.emissions| ==> s.emissions[i] < |s.claims|
    ensures var count := Emissions(s.claims, s.emissions, id);
            && (id !in s.registered ==> id !in s.pending && count == 0)
            && (id in s.pending ==> count == 0)
            && (id in s.registered && id !in s.pending ==>
                  exists i :: 0 <= i < |s.claims| && s.claims[i].id == id && s.claims[i].ctx == s.registered[id].ctx
                              && count == if i in s.emissions then 1 else 0)
  {
    RunKeeps(Started(n), actions, s);
    if Claimed(s, id) {
      var i :| 0 <= i < |s.claims| && s.claims[i].id == id;
      EmittedOnce(s.claims, s.emissions, i);
    } else {
      NeverEmitted(s.claims, s.emissions, id);
    }
  }

  /******* Timeouts, late answers *******/

  lemma {:induction false} ResolveAllRemoves(s: Http, thread: Thread, ids: seq<RequestId>, outcome: Outcome)
    ensures forall id :: id in ResolveAll(s, thread, ids, outcome).pending <==> id in s.pending && id !in ids
    ensures s.claims <= ResolveAll(s, thread, ids, outcome).claims
    ensures ResolveAll(s, thread, ids, outcome).registered == s.registered
  {
    if ids != [] {
      var n := |ids| - 1;
      ResolveAllRemoves(s, thread, ids[..n], outcome);
      assert ids == ids[..n] + [ids[n]];
    }
  }

  /** Claims only grow, so an outcome that is settled stays what it is. */
  lemma {:induction false} ClaimsStay(s: Http, actions: seq<Action>, s': Http)
    requires Run(s, actions, s')
    ensures s.claims <= s'.claims
    decreases |actions|
  {
    if actions != [] {
      var a := actions[0];
      if a.Sweep? {
        ResolveAllRemoves(s, Sweeper, a.order, Failed(ResponseTimeout));
      }
      assert s.claims <= Next(s, a).claims;
      ClaimsStay(Next(s, a), actions[1..], s');
    }
  }

  /**
   Main theorem: after a sweep at time `now`, at every later moment, every request that was registered
   then with a deadline up to `now` has its outcome settled.
   */
  lemma SweepSettles(n: nat, before: seq<Action>, s: Http, now: Time, order: seq<RequestId>, after: seq<Action>,
                     s': Http, id: RequestId)
    requires Run(Started(n), before, s) && Enabled(s, Sweep(now, order)) && Run(Next(s, Sweep(now, order)), after, s')
    requires id in s.registered && s.registered[id].expiresAt <= now
    ensures Claimed(s', id)
  {
    RunKeeps(Started(n), before, s);
    var s1 := Next(s, Sweep(now, order));
    NextKeeps(s, Sweep(now, order));
    ResolveAllRemoves(s, Sweeper, order, Failed(ResponseTimeout));
    assert id !in s1.pending && id in s1.registered;
    var i :| 0 <= i < |s1.claims| && s1.claims[i].id == id;
    ClaimsStay(s1, after, s');
    assert s'.claims[i].id == id;
  }

  /** A callback that is late, repeated or for an unknown id changes nothing. */
  lemma StaleCallbackIsIgnored(n: nat, actions: seq<Action>, s: Http, body: Body)
    requires Run(Started(n), actions, s) && body.Envelope?
    requires body.id !in s.registered || Claimed(s, body.id)
    ensures Next(s, Callback(body)) == s
  {
    RunKeeps(Started(n), actions, s);
  }

  /******* Shutdown *******/

  function StoppedIn(workers: seq<WorkerState>): nat {
    if workers == [] then 0
    else StoppedIn(workers[..|workers| - 1]) + if workers[|workers| - 1].Stopped? then 1 else 0
  }

  ghost predicate InHand(s: Http, p: nat) {
    exists w :: 0 <= w < |s.workers| && s.workers[w] == Busy(p)
  }

  /** Items are taken in order; each taken send is finished or in a worker's hand, each taken stop stopped a worker. */
  ghost predicate Draining(s: Http) {
    && s.taken <= |s.queued|
    && StopsIn(s.queued[..s.taken]) == StoppedIn(s.workers)
    && StopsIn(s.queued) <= |s.workers|
    && (forall p: nat :: p < s.taken && s.queued[p].Send? ==> p in s.finished || InHand(s, p))
    && (forall w :: 0 <= w < |s.workers| && s.workers[w].Busy? ==> s.workers[w].position < s.taken)
  }

  lemma {:induction false} StoppedUpdate(workers: seq<WorkerState>, w: nat, x: WorkerState)
    requires w < |workers| && !workers[w].Stopped?
    ensures StoppedIn(workers[w := x]) == StoppedIn(workers) + if x.Stopped? then 1 else 0
  {
    var n := |workers| - 1;
    if w < n {
      StoppedUpdate(workers[..n], w, x);
      assert workers[w := x][..n] == workers[..n][w := x];
    } else {
      assert workers[w := x][..n] == workers[..n];
    }
  }

  lemma StopsSnoc(queued: seq<Item>, x: Item)
    ensures StopsIn(queued + [x]) == StopsIn(queued) + if x.StopSignal? then 1 else 0
  {
    assert (queued + [x])[..|queued|] == queued;
  }

  lemma {:induction false} StopsPrefix(queued: seq<Item>, n: nat)
    requires n <= |queued|
    ensures StopsIn(queued[..n]) <= StopsIn(queued)
    ensures (exists p :: n <= p < |queued| && queued[p].StopSignal?) ==> StopsIn(queued[..n]) < StopsIn(queued)
    decreases |queued|
  {
    if n == |queued| {
      assert queued[..n] == queued;
    } else {
      var m := |queued| - 1;
      StopsPrefix(queued[..m], n);
      assert queued[..m][..n] == queued[..n];
      if p :| n <= p < |queued| && queued[p].StopSignal? {
        assert p < m ==> queued[..m][p].StopSignal?;
      }
    }
  }

  lemma TakeDrains(s: Http, w: nat)
    requires Draining(s) && Enabled(s, Take(w))
    ensures Draining(Next(s, Take(w)))
  {
    var s1 := Next(s, Take(w));
    StoppedUpdate(s.workers, w, s1.workers[w]);
    assert s.queued[..s.taken + 1] == s.queued[..s.taken] + [s.queued[s.taken]];
    StopsSnoc(s.queued[..s.taken], s.queued[s.taken]);
    forall p: nat | p < s1.taken && s1.queued[p].Send? ensures p in s1.finished || InHand(s1, p) {
      if p == s.taken {
        assert s1.workers[w] == Busy(p);
      } else if p !in s.finished {
        var v :| 0 <= v < |s.workers| && s.workers[v] == Busy(p);
        assert s1.workers[v] == Busy(p);
      }
    }
  }

  /** A worker is done with its item. */
  lemma FinishDrains(s: Http, s1: Http, w: nat)
    requires Draining(s) && w < |s.workers| && s.workers[w].Busy?
    requires s1.workers == s.workers[w := Ready] && s1.finished == s.finished + {s.workers[w].position}
    requires s1.queued == s.queued && s1.taken == s.taken
    ensures Draining(s1)
  {
    StoppedUpdate(s.workers, w, Ready);
    forall p: nat | p < s1.taken && s1.queued[p].Send? ensures p in s1.finished || InHand(s1, p) {
      if p !in s.finished {
        var v :| 0 <= v < |s.workers| && s.workers[v] == Busy(p);
        assert v != w ==> s1.workers[v] == Busy(p);
      }
    }
  }

  lemma PutDrains(s: Http, s1: Http, x: Item)
    requires Draining(s) && s1.queued == s.queued + [x] && s1.taken == s.taken && s1.workers == s.workers
    requires s1.finished == s.finished
    requires x.StopSignal? ==> StopsIn(s.queued) < |s.workers|
    ensures Draining(s1)
  {
    StopsSnoc(s.queued, x);
    assert s1.queued[..s1.taken] == s.queued[..s.taken];
    forall p: nat | p < s1.taken && s1.queued[p].Send? ensures p in s1.finished || InHand(s1, p) {
      if p !in s.finished {
        var v :| 0 <= v < |s.workers| && s.workers[v] == Busy(p);
        assert s1.workers[v] == Busy(p);
      }
    }
  }

  lemma SameQueueDrains(s: Http, s1: Http)
    requires Draining(s) && s1.queued == s.queued && s1.taken == s.taken && s1.workers == s.workers
    requires s1.finished == s.finished
    ensures Draining(s1)
  {
    forall p: nat | p < s1.taken && s1.queued[p].Send? ensures p in s1.finished || InHand(s1, p) {
      if p !in s.finished {
        var v :| 0 <= v < |s.workers| && s.workers[v] == Busy(p);
        assert s1.workers[v] == Busy(p);
      }
    }
  }

  lemma {:induction false} ResolveAllSameQueue(s: Http, thread: Thread, ids: seq<RequestId>, outcome: Outcome)
    ensures var s1 := ResolveAll(s, thread, ids, outcome);
            s1.queued == s.queued && s1.taken == s.taken && s1.workers == s.workers && s1.finished == s.finished
  {
    if ids != [] {
      ResolveAllSameQueue(s, thread, ids[..|ids| - 1], outcome);
    }
  }

  lemma NextDrains(s: Http, a: Action)
    requires Draining(s) && Enabled(s, a)
    ensures Draining(Next(s, a))
  {
    match a
    case PutCompletes => PutDrains(s, Next(s, a), Send(s.enqueuing.value.id));
    case LateEnqueue(id) => PutDrains(s, Next(s, a), Send(id));
    case SignalStop => PutDrains(s, Next(s, a), StopSignal);
    case Take(w) => TakeDrains(s, w);
    case Sent(w) => FinishDrains(s, Next(s, a), w);
    case SendFails(w) => FinishDrains(s, Next(s, a), w);
    case Sweep(_, order) =>
      ResolveAllSameQueue(s, Sweeper, order, Failed(ResponseTimeout));
      SameQueueDrains(s, Next(s, a));
    case _ => SameQueueDrains(s, Next(s, a));
  }

  lemma {:induction false} RunDrains(s: Http, actions: seq<Action>, s': Http)
    requires Draining(s) && Run(s, actions, s')
    ensures Draining(s')
    decreases |actions|
  {
    if actions != [] {
      NextDrains(s, actions[0]);
      RunDrains(Next(s, actions[0]), actions[1..], s');
    }
  }

  lemma {:induction false} NoneStopped(n: nat)
    ensures StoppedIn(seq(n, i => Ready)) == 0
  {
    if n > 0 {
      NoneStopped(n - 1);
      assert seq(n, i => Ready)[..n - 1] == seq(n - 1, i => Ready);
    }
  }

  lemma {:induction false} AllStopped(workers: seq<WorkerState>)
    requires forall w :: 0 <= w < |workers| ==> workers[w].Stopped?
    ensures StoppedIn(workers) == |workers|
  {
    if workers != [] {
      AllStopped(workers[..|workers| - 1]);
    }
  }

  /** Only a ready worker can still have an outcome to emit. */
  ghost predicate WorkersPaid(s: Http) {
    forall i :: 0 <= i < |s.claims| && s.claims[i].thread.Worker? && i !in s.emissions ==>
      s.claims[i].thread.index < |s.workers| && s.workers[s.claims[i].thread.index].Ready?
  }

  lemma ResolvePays(s: Http, thread: Thread, id: RequestId, outcome: Outcome)
    requires WorkersPaid(s) && !thread.Worker?
    ensures WorkersPaid(Resolve(s, thread, id, outcome))
  {
  }

  lemma {:induction false} ResolveAllPays(s: Http, thread: Thread, ids: seq<RequestId>, outcome: Outcome)
    requires WorkersPaid(s) && !thread.Worker?
    ensures WorkersPaid(ResolveAll(s, thread, ids, outcome))
  {
    if ids != [] {
      ResolveAllPays(s, thread, ids[..|ids| - 1], outcome);
      ResolvePays(ResolveAll(s, thread, ids[..|ids| - 1], outcome), thread, ids[|ids| - 1], outcome);
    }
  }

  lemma NextPays(s: Http, a: Action)
    requires WorkersPaid(s) && Enabled(s, a)
    ensures WorkersPaid(Next(s, a))
  {
    match a
    case Sweep(_, order) => ResolveAllPays(s, Sweeper, order, Failed(ResponseTimeout));
    case Take(w) =>
      forall i | 0 <= i < |s.claims| && s.claims[i].thread.Worker? && i !in s.emissions
        ensures s.claims[i].thread.index != w {
        assert s.claims[i].thread != Worker(w);
      }
    case _ =>
  }

  lemma {:induction false} RunPays(s: Http, actions: seq<Action>, s': Http)
    requires WorkersPaid(s) && Run(s, actions, s')
    ensures WorkersPaid(s')
    decreases |actions|
  {
    if actions != [] {
      NextPays(s, actions[0]);
      RunPays(Next(s, actions[0]), actions[1..], s');
    }
  }

  /**
   Main theorem: once every worker has stopped, no stop signal is left in the queue, every send that was
   enqueued before any of the stop signals has been taken and dealt with, and no worker has an outcome
   left to emit.
   */
  lemma ShutdownDrains(n: nat, actions: seq<Action>, s: Http)
    requires Run(Started(n), actions, s)
    requires forall w :: 0 <= w < |s.workers| ==> s.workers[w].Stopped?
    ensures forall q :: 0 <= q < |s.queued| && s.queued[q].StopSignal? ==> q < s.taken
    ensures forall p: nat, q :: p < q < |s.queued| && s.queued[p].Send? && s.queued[q].StopSignal? ==> p in s.finished
    ensures forall i :: 0 <= i < |s.claims| && s.claims[i].thread.Worker? ==> i in s.emissions
  {
    NoneStopped(n);
    RunDrains(Started(n), actions, s);
    RunPays(Started(n), actions, s);
    AllStopped(s.workers);
    StopsPrefix(s.queued, s.taken);
  }
}
