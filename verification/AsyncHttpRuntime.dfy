/**
 The mutable parts of the async HTTP protocol: the pending-request store and the code of the threads that
 race on it, each proved to do what its steps in `AsyncHttp` do when nothing comes in between.
 */
module AsyncHttpRuntime {
  import opened Options
  import opened AsyncHttp

  /** What the communicator has put on the bus, in order. */
  datatype Emission = Emission(ctx: ContextId, outcome: Outcome)

  class InMemoryPendingAsyncHttpRequestStore {
    var requestsById: map<RequestId, Request>

    constructor ()
      ensures requestsById == map[]
    {
      requestsById := map[];
    }

    method Put(id: RequestId, request: Request) returns (ok: bool)
      modifies this
      ensures ok == (id !in old(requestsById))
      ensures requestsById == if ok then old(requestsById)[id := request] else old(requestsById)
    {
      ok := id !in requestsById;
      if ok {
        requestsById := requestsById[id := request];
      }
    }

    method Pop(id: RequestId) returns (request: Option<Request>)
      modifies this
      ensures request == if id in old(requestsById) then Some(old(requestsById)[id]) else None
      ensures requestsById == old(requestsById) - {id}
    {
      if id !in requestsById {
        return None;
      }
      request := Some(requestsById[id]);
      requestsById := requestsById - {id};
    }

    /** Takes out exactly the requests whose deadline has been reached, each once. */
    method PopExpired(now: Time) returns (expired: seq<RequestId>, requests: seq<Request>)
      modifies this
      ensures forall id :: id in expired <==> id in old(requestsById) && old(requestsById)[id].expiresAt <= now
      ensures forall i, j :: 0 <= i < j < |expired| ==> expired[i] != expired[j]
      ensures |requests| == |expired| && forall i :: 0 <= i < |expired| ==> requests[i] == old(requestsById)[expired[i]]
      ensures forall id :: id in requestsById <==> id in old(requestsById) && old(requestsById)[id].expiresAt > now
      ensures forall id :: id in requestsById ==> requestsById[id] == old(requestsById)[id]
    {
      expired, requests := Expired(requestsById, now);
      ghost var before := requestsById;
      for i := 0 to |expired|
        invariant forall id :: id in requestsById <==> id in before && id !in expired[..i]
        invariant forall id :: id in requestsById ==> requestsById[id] == before[id]
      {
        requestsById := requestsById - {expired[i]};
        assert expired[..i + 1] == expired[..i] + [expired[i]];
      }
      assert expired[..|expired|] == expired;
    }

    static method Expired(pending: map<RequestId, Request>, now: Time)
      returns (expired: seq<RequestId>, requests: seq<Request>)
      ensures forall id :: id in expired <==> id in pending && pending[id].expiresAt <= now
      ensures forall i, j :: 0 <= i < j < |expired| ==> expired[i] != expired[j]
      ensures |requests| == |expired| && forall i :: 0 <= i < |expired| ==> requests[i] == pending[expired[i]]
    {
      var todo := pending.Keys;
      expired, requests := [], [];
      while todo != {}
        invariant todo <= pending.Keys && |requests| == |expired|
        invariant forall id :: id in expired <==> id in pending && id !in todo && pending[id].expiresAt <= now
        invariant forall i, j :: 0 <= i < j < |expired| ==> expired[i] != expired[j]
        invariant forall i :: 0 <= i < |expired| ==> requests[i] == pending[expired[i]]
      {
        var id :| id in todo;
        if pending[id].expiresAt <= now {
          expired, requests := expired + [id], requests + [pending[id]];
        }
        todo := todo - {id};
      }
    }
  }

  /** What happened to one attempt to put a send on the sender queue. */
  datatype EnqueueResult = EnqueueOk | EnqueueFailure(failure: Failure)

  /** The emissions after a thread has tried to take `id` out of the store and to emit its outcome. */
  ghost function Settled(pending: map<RequestId, Request>, emitted: seq<Emission>, id: RequestId,
                         outcome: Outcome): seq<Emission> {
    if id in pending then emitted + [Emission(pending[id].ctx, outcome)] else emitted
  }

  /** What the steps of the protocol have emitted. */
  ghost function EmissionsOf(s: Http): seq<Emission>
    requires forall i :: 0 <= i < |s.emissions| ==> s.emissions[i] < |s.claims|
  {
    seq(|s.emissions|,
        i requires 0 <= i < |s.emissions| => Emission(s.claims[s.emissions[i]].ctx, s.claims[s.emissions[i]].outcome))
  }

  /** A pop step and the emit step of the same claim do what the thread code does in one go. */
  lemma PopThenEmit(s: Http, thread: Thread, id: RequestId, outcome: Outcome)
    requires Resolved(s)
    ensures var s1 := Resolve(s, thread, id, outcome);
            var s2 := if id in s.pending then s1.(emissions := s1.emissions + [|s.claims|]) else s1;
            && s2.pending == s.pending - {id}
            && (forall i :: 0 <= i < |s2.emissions| ==> s2.emissions[i] < |s2.claims|)
            && EmissionsOf(s2) == Settled(s.pending, EmissionsOf(s), id, outcome)
            && (id in s.pending ==> Enabled(s1, Emit(|s.claims|)) && s2 == Next(s1, Emit(|s.claims|)))
  {
  }

  function TimeoutsOf(pending: map<RequestId, Request>, ids: seq<RequestId>): seq<Emission>
    requires forall id :: id in ids ==> id in pending
  {
    if ids == [] then []
    else
      var n := |ids| - 1;
      TimeoutsOf(pending, ids[..n]) + [Emission(pending[ids[n]].ctx, Failed(ResponseTimeout))]
  }

  /** The part of the queue that no worker has taken. */
  function Waiting(s: Http): seq<Item>
    requires s.taken <= |s.queued|
  {
    s.queued[s.taken..]
  }

  class Communicator {
    const store: InMemoryPendingAsyncHttpRequestStore
    const maxInFlight: nat
    var emitted: seq<Emission>
    var queue: seq<Item>

    constructor (store: InMemoryPendingAsyncHttpRequestStore, maxInFlight: nat)
      ensures this.store == store && this.maxInFlight == maxInFlight && emitted == [] && queue == []
    {
      this.store, this.maxInFlight, emitted, queue := store, maxInFlight, [], [];
    }

    /** Whoever gets the request out of the store emits; for everybody else nothing happens. */
    method FailPendingRequest(id: RequestId, failure: Failure)
      modifies this`emitted, store
      ensures store.requestsById == old(store.requestsById) - {id}
      ensures emitted == Settled(old(store.requestsById), old(emitted), id, Failed(failure))
    {
      var request := store.Pop(id);
      if request.Some? {
        emitted := emitted + [Emission(request.value.ctx, Failed(failure))];
      }
    }

    /** The request is pending before it is enqueued; if enqueueing fails it is failed at once. */
    method Dispatch(id: RequestId, request: Request, result: EnqueueResult) returns (ok: bool)
      modifies this, store
      ensures ok == (id !in old(store.requestsById))
      ensures !ok ==> store.requestsById == old(store.requestsById) && emitted == old(emitted) && queue == old(queue)
      ensures ok && result.EnqueueOk? ==>
                && store.requestsById == old(store.requestsById)[id := request]
                && queue == old(queue) + [Send(id)] && emitted == old(emitted)
      ensures ok && result.EnqueueFailure? ==>
                && store.requestsById == old(store.requestsById) && queue == old(queue)
                && emitted == old(emitted) + [Emission(request.ctx, Failed(result.failure))]
    {
      ok := store.Put(id, request);
      if !ok {
        return;
      }
      if result.EnqueueOk? {
        queue := queue + [Send(id)];
      } else {
        FailPendingRequest(id, result.failure);
      }
    }

    /** One round of a sender worker; `sent` is the outcome of the HTTP request it may make. */
    method SenderWorkerRound(sent: bool) returns (running: bool)
      requires queue != []
      modifies this, store
      ensures queue == old(queue)[1..] && running == old(queue)[0].Send?
      ensures !running || sent ==> store.requestsById == old(store.requestsById) && emitted == old(emitted)
      ensures running && !sent ==>
                && store.requestsById == old(store.requestsById) - {old(queue)[0].id}
                && emitted == Settled(old(store.requestsById), old(emitted), old(queue)[0].id, Failed(SendFailed))
    {
      var item := queue[0];
      queue := queue[1..];
      if item.StopSignal? {
        return false;
      }
      if !sent {
        FailPendingRequest(item.id, SendFailed);
      }
      running := true;
    }

    method EnqueueStopSignals()
      modifies this`queue
      ensures queue == old(queue) + seq(maxInFlight, i => StopSignal)
    {
      ghost var before := queue;
      for k := 0 to maxInFlight
        invariant queue == before + seq(k, i => StopSignal)
      {
        queue := queue + [StopSignal];
        assert seq(k + 1, i => StopSignal) == seq(k, i => StopSignal) + [StopSignal];
      }
    }

    /**
     The status code of a callback. Output that does not validate is answered with 400, and the request
     is settled all the same.
     */
    method ProcessCallback(body: Body) returns (status: int)
      modifies this`emitted, store
      ensures body.Malformed? ==>
                status == 400 && store.requestsById == old(store.requestsById) && emitted == old(emitted)
      ensures body.Envelope? ==>
                && store.requestsById == old(store.requestsById) - {body.id}
                && emitted == Settled(old(store.requestsById), old(emitted), body.id,
                                      if body.remoteError then Failed(RemoteError)
                                      else if !body.hasOutput then Failed(MissingOutput)
                                      else if body.output.None? then Failed(InvalidOutput)
                                      else Processed(body.output.value))
                && status == if body.id !in old(store.requestsById) then 404
                             else if !body.remoteError && body.hasOutput && body.output.None? then 400 else 202
    {
      if body.Malformed? {
        return 400;
      }
      var request := store.Pop(body.id);
      if request.None? {
        return 404;
      }
      if body.remoteError {
        emitted := emitted + [Emission(request.value.ctx, Failed(RemoteError))];
        return 202;
      }
      if !body.hasOutput {
        emitted := emitted + [Emission(request.value.ctx, Failed(MissingOutput))];
        return 202;
      }
      if body.output.None? {
        emitted := emitted + [Emission(request.value.ctx, Failed(InvalidOutput))];
        return 400;
      }
      emitted := emitted + [Emission(request.value.ctx, Processed(body.output.value))];
      status := 202;
    }

    /** One round of the sweep: one timeout for every expired request, and none of them left. */
    method SweepRound(now: Time) returns (expired: seq<RequestId>)
      modifies this`emitted, store
      ensures forall id ::
                id in expired <==> id in old(store.requestsById) && old(store.requestsById)[id].expiresAt <= now
      ensures forall i, j :: 0 <= i < j < |expired| ==> expired[i] != expired[j]
      ensures emitted == old(emitted) + TimeoutsOf(old(store.requestsById), expired)
      ensures forall id ::
                && (id in store.requestsById ==> id in old(store.requestsById))
                && (id in old(store.requestsById) ==>
                      (id in store.requestsById <==> old(store.requestsById)[id].expiresAt > now))
      ensures forall id :: id in store.requestsById ==> store.requestsById[id] == old(store.requestsById)[id]
    {
      ghost var pending := store.requestsById;
      var requests;
      expired, requests := store.PopExpired(now);
      for k := 0 to |requests|
        modifies this`emitted
        invariant emitted == old(emitted) + TimeoutsOf(pending, expired[..k])
      {
        emitted := emitted + [Emission(requests[k].ctx, Failed(ResponseTimeout))];
        assert expired[..k + 1][..k] == expired[..k];
      }
      assert expired[..|expired|] == expired;
    }
  }

  /******* The methods are runs of the protocol *******/

  lemma {:induction false} RunThen(s: Http, a: seq<Action>, s1: Http, b: seq<Action>, s2: Http)
    requires Run(s, a, s1) && Run(s1, b, s2)
    ensures Run(s, a + b, s2)
    decreases |a|
  {
    if a == [] {
      assert a + b == b;
    } else {
      RunThen(Next(s, a[0]), a[1..], s1, b, s2);
      assert (a + b)[0] == a[0] && (a + b)[1..] == a[1..] + b;
    }
  }

  lemma RunOne(s: Http, a: Action)
    requires Enabled(s, a)
    ensures Run(s, [a], Next(s, a))
  {
    assert [a][1..] == [];
    assert Run(Next(s, a), [], Next(s, a));
  }

  /** The emission that goes with a request taken out of the store, if it was there. */
  function EmitIf(s: Http, id: RequestId): seq<Action> {
    if id in s.pending then [Emit(|s.claims|)] else []
  }

  /** Emitting what the step before has claimed. */
  lemma EmitSteps(s: Http, s1: Http, thread: Thread, id: RequestId, outcome: Outcome) returns (s2: Http)
    requires Resolved(s)
    requires s1
             == Resolve(s, thread, id, outcome).(enqueuing := s1.enqueuing, late := s1.late, workers := s1.workers,
             finished := s1.finished)
    ensures Run(s1, EmitIf(s, id), s2) && Resolved(s2)
    ensures s2.pending == s.pending - {id} && s2.queued == s.queued && s2.taken == s.taken && s2.workers == s1.workers
    ensures EmissionsOf(s2) == Settled(s.pending, EmissionsOf(s), id, outcome)
  {
    ResolveKeeps(s, thread, id, outcome);
    QuietKeeps(Resolve(s, thread, id, outcome), s1);
    if id in s.pending {
      s2 := Next(s1, Emit(|s.claims|));
      NextKeeps(s1, Emit(|s.claims|));
      RunOne(s1, Emit(|s.claims|));
    } else {
      s2 := s1;
      assert s.pending - {id} == s.pending;
    }
    PopThenEmit(s, thread, id, outcome);
  }

  function DispatchActions(s: Http, id: RequestId, request: Request, result: EnqueueResult): seq<Action> {
    if result.EnqueueOk? then [AsyncHttp.Action.Dispatch(id, request), PutCompletes, Enqueued]
    else [AsyncHttp.Action.Dispatch(id, request), EnqueueFails(result.failure, false), Emit(|s.claims|)]
  }

  lemma EnqueuedSteps(s: Http, id: RequestId, request: Request) returns (s1: Http)
    requires Resolved(s) && Enabled(s, AsyncHttp.Action.Dispatch(id, request))
    ensures Run(s, [AsyncHttp.Action.Dispatch(id, request), PutCompletes, Enqueued], s1) && Resolved(s1)
    ensures s1
            == s.(registered := s1.registered, pending := s.pending[id := request], queued := s.queued + [Send(id)],
            enqueuing := None)
  {
    var a := AsyncHttp.Action.Dispatch(id, request);
    var d := Next(s, a);
    NextKeeps(s, a);
    RunOne(s, a);
    var p := Next(d, PutCompletes);
    NextKeeps(d, PutCompletes);
    s1 := Next(p, Enqueued);
    NextKeeps(p, Enqueued);
    RunOne(d, PutCompletes);
    RunOne(p, Enqueued);
    hide Run;
    hide Resolved;
    RunThen(d, [PutCompletes], p, [Enqueued], s1);
    RunThen(s, [a], d, [PutCompletes] + [Enqueued], s1);
    assert [a] + ([PutCompletes] + [Enqueued]) == [a, PutCompletes, Enqueued];
  }

  lemma NotEnqueuedSteps(s: Http, id: RequestId, request: Request, failure: Failure) returns (s1: Http)
    requires Resolved(s) && Enabled(s, AsyncHttp.Action.Dispatch(id, request))
    ensures Run(s, [AsyncHttp.Action.Dispatch(id, request), EnqueueFails(failure, false), Emit(|s.claims|)], s1)
    ensures Resolved(s1)
    ensures s1.pending == s.pending && s1.queued == s.queued && s1.taken == s.taken
    ensures EmissionsOf(s1) == EmissionsOf(s) + [Emission(request.ctx, Failed(failure))]
  {
    var a, f := AsyncHttp.Action.Dispatch(id, request), EnqueueFails(failure, false);
    var d := Next(s, a);
    NextKeeps(s, a);
    RunOne(s, a);
    RunOne(d, f);
    hide Run;
    s1 := EmitSteps(d, Next(d, f), Dispatcher, id, Failed(failure));
    assert id !in s.pending;
    assert s.pending[id := request] - {id} == s.pending;
    assert EmissionsOf(d) == EmissionsOf(s);
    hide Resolved;
    RunThen(d, [f], Next(d, f), EmitIf(d, id), s1);
    RunThen(s, [a], d, [f] + EmitIf(d, id), s1);
    assert [a] + ([f] + EmitIf(d, id)) == [a, f, Emit(|s.claims|)];
  }

  /** `Dispatch` is a run of the protocol that nothing interrupts. */
  lemma DispatchSteps(s: Http, id: RequestId, request: Request, result: EnqueueResult) returns (s1: Http)
    requires Resolved(s) && s.taken <= |s.queued| && Enabled(s, AsyncHttp.Action.Dispatch(id, request))
    ensures Run(s, DispatchActions(s, id, request, result), s1) && Resolved(s1) && s1.taken == s.taken <= |s1.queued|
    ensures result.EnqueueOk? ==>
              s1.pending == s.pending[id := request] && Waiting(s1) == Waiting(s) + [Send(id)]
                && EmissionsOf(s1) == EmissionsOf(s)
    ensures result.EnqueueFailure? ==>
              s1.pending == s.pending && Waiting(s1) == Waiting(s)
              && EmissionsOf(s1) == EmissionsOf(s) + [Emission(request.ctx, Failed(result.failure))]
  {
    hide Run;
    if result.EnqueueOk? {
      s1 := EnqueuedSteps(s, id, request);
    } else {
      s1 := NotEnqueuedSteps(s, id, request, result.failure);
    }
  }

  function WorkerActions(s: Http, w: nat, sent: bool): seq<Action>
    requires s.taken < |s.queued|
  {
    var item := s.queued[s.taken];
    [Take(w)] + if item.StopSignal? then [] else if sent then [Sent(w)] else [SendFails(w)] + EmitIf(s, item.id)
  }

  /** So is a round of a sender worker. */
  lemma WorkerSteps(s: Http, w: nat, sent: bool) returns (s1: Http)
    requires Resolved(s) && Enabled(s, Take(w))
    ensures Run(s, WorkerActions(s, w, sent), s1) && Resolved(s1)
    ensures s1.taken == s.taken + 1 && s1.queued == s.queued && Waiting(s1) == Waiting(s)[1..]
    ensures var item := Waiting(s)[0];
            && s1.workers == s.workers[w := if item.Send? then Ready else Stopped]
            && (item.StopSignal? || sent ==> s1.pending == s.pending && EmissionsOf(s1) == EmissionsOf(s))
            && (item.Send? && !sent ==>
                  s1.pending == s.pending - {item.id}
                    && EmissionsOf(s1) == Settled(s.pending, EmissionsOf(s), item.id, Failed(SendFailed)))
  {
    var t, item := Next(s, Take(w)), s.queued[s.taken];
    NextKeeps(s, Take(w));
    RunOne(s, Take(w));
    if item.StopSignal? {
      s1 := t;
    } else if sent {
      s1 := Next(t, Sent(w));
      NextKeeps(t, Sent(w));
      RunOne(t, Sent(w));
      RunThen(s, [Take(w)], t, [Sent(w)], s1);
    } else {
      var f := Next(t, SendFails(w));
      RunOne(t, SendFails(w));
      s1 := EmitSteps(t, f, Worker(w), item.id, Failed(SendFailed));
      RunThen(t, [SendFails(w)], f, EmitIf(t, item.id), s1);
      RunThen(s, [Take(w)], t, [SendFails(w)] + EmitIf(t, item.id), s1);
    }
  }

  /** So is the handling of a callback. */
  lemma CallbackSteps(s: Http, body: Body) returns (s1: Http)
    requires Resolved(s)
    ensures Run(s, [Callback(body)] + if body.Malformed? then [] else EmitIf(s, body.id), s1) && Resolved(s1)
    ensures s1.queued == s.queued && s1.taken == s.taken
    ensures body.Malformed? ==> s1 == s
    ensures body.Envelope? ==>
              s1.pending == s.pending - {body.id}
                && EmissionsOf(s1) == Settled(s.pending, EmissionsOf(s), body.id, CallbackOutcome(body))
  {
    var t := Next(s, Callback(body));
    RunOne(s, Callback(body));
    if body.Malformed? {
      s1 := t;
      assert [Callback(body)] + [] == [Callback(body)];
    } else {
      s1 := EmitSteps(s, t, CallbackThread, body.id, CallbackOutcome(body));
      RunThen(s, [Callback(body)], t, EmitIf(s, body.id), s1);
    }
  }

  function EmitFrom(i: nat, n: nat): seq<Action> {
    if n == 0 then [] else EmitFrom(i, n - 1) + [Emit(i + n - 1)]
  }

  /** The claims of a sweep, in the order in which it took the requests. */
  lemma {:induction false} SweepClaims(s: Http, ids: seq<RequestId>)
    requires forall id :: id in ids ==> id in s.pending
    requires forall i, j :: 0 <= i < j < |ids| ==> ids[i] != ids[j]
    ensures var s1 := ResolveAll(s, Sweeper, ids, Failed(ResponseTimeout));
            && s1.claims
               == s.claims
               + seq(|ids|,
               k requires 0 <= k < |ids| => Claim(Sweeper, ids[k], s.pending[ids[k]].ctx, Failed(ResponseTimeout)))
            && s1 == s.(pending := s1.pending, claims := s1.claims)
            && (forall id :: id in s1.pending <==> id in s.pending && id !in ids)
            && (forall id :: id in s1.pending ==> s1.pending[id] == s.pending[id])
  {
    if ids != [] {
      var n := |ids| - 1;
      SweepClaims(s, ids[..n]);
      assert ids == ids[..n] + [ids[n]];
    }
  }

  ghost predicate EmittedBelow(s: Http, i: nat) {
    forall k :: 0 <= k < |s.emissions| ==> s.emissions[k] < i
  }

  lemma OneEmission(s: Http, i: nat) returns (s1: Http)
    requires Resolved(s) && i < |s.claims| && EmittedBelow(s, i)
    ensures Run(s, [Emit(i)], s1) && Resolved(s1) && s1.claims == s.claims && EmittedBelow(s1, i + 1)
    ensures s1 == s.(emissions := s1.emissions)
    ensures EmissionsOf(s1) == EmissionsOf(s) + [Emission(s.claims[i].ctx, s.claims[i].outcome)]
  {
    s1 := Next(s, Emit(i));
    NextKeeps(s, Emit(i));
    RunOne(s, Emit(i));
  }

  /** The emissions of the claims from `i` on. */
  function EmissionsFrom(claims: seq<Claim>, i: nat, n: nat): seq<Emission>
    requires i + n <= |claims|
  {
    if n == 0 then []
    else EmissionsFrom(claims, i, n - 1) + [Emission(claims[i + n - 1].ctx, claims[i + n - 1].outcome)]
  }

  lemma NothingToEmit(s: Http, i: nat)
    ensures Run(s, EmitFrom(i, 0), s)
  {
    hide Enabled;
    hide Next;
    assert EmitFrom(i, 0) == [];
  }

  /** Emitting `n` new claims one after the other. */
  lemma {:induction false} EmitAllSteps(s: Http, i: nat, n: nat) returns (s1: Http)
    requires Resolved(s) && i + n <= |s.claims| && EmittedBelow(s, i)
    ensures Run(s, EmitFrom(i, n), s1) && Resolved(s1) && EmittedBelow(s1, i + n) && s1 == s.(emissions := s1.emissions)
    ensures EmissionsOf(s1) == EmissionsOf(s) + EmissionsFrom(s.claims, i, n)
  {
    hide Run;
    hide Resolved;
    if n == 0 {
      s1 := s;
      NothingToEmit(s, i);
    } else {
      hide EmissionsOf;
      hide EmittedBelow;
      var t := EmitAllSteps(s, i, n - 1);
      s1 := OneEmission(t, i + n - 1);
      RunThen(s, EmitFrom(i, n - 1), t, [Emit(i + n - 1)], s1);
    }
  }

  predicate TimesOut(claim: Claim, request: Request) {
    claim.ctx == request.ctx && claim.outcome == Failed(ResponseTimeout)
  }

  lemma {:induction false} TimeoutsEmitted(pending: map<RequestId, Request>, claims: seq<Claim>, i: nat,
                                           ids: seq<RequestId>)
    requires i + |ids| <= |claims| && forall id :: id in ids ==> id in pending
    requires forall k :: 0 <= k < |ids| ==> TimesOut(claims[i + k], pending[ids[k]])
    ensures EmissionsFrom(claims, i, |ids|) == TimeoutsOf(pending, ids)
  {
    if ids != [] {
      var init := ids[..|ids| - 1];
      assert forall id :: id in init ==> id in ids;
      forall k | 0 <= k < |init| ensures TimesOut(claims[i + k], pending[init[k]]) {
        assert init[k] == ids[k];
      }
      TimeoutsEmitted(pending, claims, i, init);
    }
  }

  /** The state between the sweep's pops and its emissions. */
  lemma SweptState(s: Http, now: Time, expired: seq<RequestId>)
    requires Resolved(s) && Enabled(s, Sweep(now, expired))
    ensures var t := Next(s, Sweep(now, expired));
            && t.queued == s.queued && t.taken == s.taken && t.emissions == s.emissions
               && |t.claims| == |s.claims| + |expired|
            && EmittedBelow(t, |s.claims|) && EmissionsOf(t) == EmissionsOf(s)
            && EmissionsFrom(t.claims, |s.claims|, |expired|) == TimeoutsOf(s.pending, expired)
            && (forall id :: id in t.pending <==> id in s.pending && s.pending[id].expiresAt > now)
            && (forall id :: id in t.pending ==> t.pending[id] == s.pending[id])
  {
    SweepClaims(s, expired);
    var t := Next(s, Sweep(now, expired));
    TimeoutsEmitted(s.pending, t.claims, |s.claims|, expired);
  }

  /** So is a round of the sweep that takes the expired requests in this order. */
  lemma SweepSteps(s: Http, now: Time, expired: seq<RequestId>) returns (s1: Http)
    requires Resolved(s) && Enabled(s, Sweep(now, expired))
    ensures Run(s, [Sweep(now, expired)] + EmitFrom(|s.claims|, |expired|), s1) && Resolved(s1) && s1.queued == s.queued
    ensures s1.taken == s.taken
    ensures EmissionsOf(s1) == EmissionsOf(s) + TimeoutsOf(s.pending, expired)
    ensures forall id :: id in s1.pending <==> id in s.pending && s.pending[id].expiresAt > now
    ensures forall id :: id in s1.pending ==> s1.pending[id] == s.pending[id]
  {
    var a := Sweep(now, expired);
    var t := Next(s, a);
    NextKeeps(s, a);
    RunOne(s, a);
    SweptState(s, now, expired);
    hide Run;
    hide Resolved;
    hide EmissionsOf;
    hide EmittedBelow;
    hide EnumeratesExpired;
    hide Enabled;
    hide Next;
    s1 := EmitAllSteps(t, |s.claims|, |expired|);
    RunThen(s, [a], t, EmitFrom(|s.claims|, |expired|), s1);
  }
}
