/**
 Why an outcome is what it is, and that every request which is waited for has been handed to the sender.
 */
module AsyncHttpCauses {
  import opened Options
  import opened AsyncHttp

  /******* Every outcome has its cause *******/

  /** Step `a` takes the request of claim `c` out of the store, and the outcome is what the step says of it. */
  ghost predicate Causes(s: Http, a: Action, c: Claim) {
    && c.id in s.pending && c.ctx == s.pending[c.id].ctx
    && match a
       case Callback(body) =>
         c.thread == CallbackThread && body.Envelope? && body.id == c.id && Answers(body, c.outcome)
       case SendFails(w) =>
         && c.thread == Worker(w) && c.outcome == Failed(SendFailed)
         && w < |s.workers| && s.workers[w].Busy? && s.workers[w].position < |s.queued|
         && s.queued[s.workers[w].position] == Send(c.id)
       case Sweep(now, _) =>
         c.thread == Sweeper && c.outcome == Failed(ResponseTimeout) && s.pending[c.id].expiresAt <= now
       case EnqueueFails(failure, _) =>
         && c.thread == Dispatcher && c.outcome == Failed(failure)
         && s.enqueuing.Some? && s.enqueuing.value.id == c.id
       case _ => false
  }

  /** What the sender of the callback said: an error, nothing, something invalid, or a valid output. */
  ghost predicate Answers(body: Body, outcome: Outcome)
    requires body.Envelope?
  {
    && (outcome == Failed(RemoteError) <==> body.remoteError)
    && (outcome == Failed(MissingOutput) <==> !body.remoteError && !body.hasOutput)
    && (outcome == Failed(InvalidOutput) <==> !body.remoteError && body.hasOutput && body.output.None?)
    && (forall v :: outcome == Processed(v) <==> !body.remoteError && body.hasOutput && body.output == Some(v))
  }

  lemma {:induction false} NewClaimsOfAll(s: Http, thread: Thread, ids: seq<RequestId>, outcome: Outcome, i: nat)
    requires |s.claims| <= i < |ResolveAll(s, thread, ids, outcome).claims|
    ensures var c := ResolveAll(s, thread, ids, outcome).claims[i];
            && c.thread == thread && c.outcome == outcome
            && c.id in ids && c.id in s.pending && c.ctx == s.pending[c.id].ctx
  {
    if ids != [] {
      var n := |ids| - 1;
      var before := ResolveAll(s, thread, ids[..n], outcome);
      ResolveAllKeepsPending(s, thread, ids[..n], outcome);
      if i < |before.claims| {
        NewClaimsOfAll(s, thread, ids[..n], outcome, i);
      }
    }
  }

  lemma {:induction false} ResolveAllKeepsPending(s: Http, thread: Thread, ids: seq<RequestId>, outcome: Outcome)
    ensures var s1 := ResolveAll(s, thread, ids, outcome);
            forall id :: id in s1.pending ==> id in s.pending && s1.pending[id] == s.pending[id]
  {
    if ids != [] {
      ResolveAllKeepsPending(s, thread, ids[..|ids| - 1], outcome);
    }
  }

  lemma StepCauses(s: Http, a: Action, i: nat)
    requires Enabled(s, a) && |s.claims| <= i < |Next(s, a).claims|
    ensures Causes(s, a, Next(s, a).claims[i])
  {
    match a
    case Sweep(_, order) => NewClaimsOfAll(s, Sweeper, order, Failed(ResponseTimeout), i);
    case _ =>
  }

  lemma StepKeepsClaims(s: Http, a: Action)
    requires Enabled(s, a)
    ensures s.claims <= Next(s, a).claims
  {
    if a.Sweep? {
      ResolveAllRemoves(s, Sweeper, a.order, Failed(ResponseTimeout));
    }
  }

  /** The run reaches a state in which step `k` causes the claim. */
  ghost predicate CausedAt(s: Http, actions: seq<Action>, k: int, c: Claim) {
    0 <= k < |actions| && exists at :: Run(s, actions[..k], at) && Enabled(at, actions[k]) && Causes(at, actions[k], c)
  }

  lemma {:induction false} RunCauses(s: Http, actions: seq<Action>, s': Http, i: nat)
    requires Run(s, actions, s') && |s.claims| <= i < |s'.claims|
    ensures exists k :: CausedAt(s, actions, k, s'.claims[i])
    decreases |actions|
  {
    var a, rest := actions[0], actions[1..];
    var s1 := Next(s, a);
    StepKeepsClaims(s, a);
    ClaimsStay(s1, rest, s');
    if i < |s1.claims| {
      StepCauses(s, a, i);
      assert actions[..0] == [] && Run(s, actions[..0], s);
      assert CausedAt(s, actions, 0, s'.claims[i]);
    } else {
      RunCauses(s1, rest, s', i);
      var k :| CausedAt(s1, rest, k, s'.claims[i]);
      LaterCause(s, actions, k, s'.claims[i]);
    }
  }

  lemma LaterCause(s: Http, actions: seq<Action>, k: int, c: Claim)
    requires actions != [] && Enabled(s, actions[0]) && CausedAt(Next(s, actions[0]), actions[1..], k, c)
    ensures CausedAt(s, actions, k + 1, c)
  {
    hide Causes;
    var s1, rest := Next(s, actions[0]), actions[1..];
    var at :| Run(s1, rest[..k], at) && Enabled(at, rest[k]) && Causes(at, rest[k], c);
    assert actions[..k + 1][0] == actions[0] && actions[..k + 1][1..] == rest[..k];
    hide Next;
    hide Enabled;
    assert Run(s, actions[..k + 1], at);
  }

  /**
   Main theorem: in every run each settled outcome was settled by a step that took the pending request, and is
   what that step says: a processed output iff the callback carried no error and that valid output, a failure
   by the flags of the callback, a failed send by a worker, a timeout by a sweep after the deadline.
   */
  lemma OutcomesHaveCauses(n: nat, actions: seq<Action>, s: Http, i: nat)
    requires Run(Started(n), actions, s) && i < |s.claims|
    ensures exists k :: CausedAt(Started(n), actions, k, s.claims[i])
  {
    RunCauses(Started(n), actions, s, i);
  }

  lemma {:induction false} ClaimsOfAll(s: Http, thread: Thread, ids: seq<RequestId>, outcome: Outcome, id: RequestId)
    requires id in s.pending
    ensures var s1 := ResolveAll(s, thread, ids, outcome);
            if id in ids then Claim(thread, id, s.pending[id].ctx, outcome) in s1.claims
            else id in s1.pending && s1.pending[id] == s.pending[id]
  {
    if ids != [] {
      var n := |ids| - 1;
      ClaimsOfAll(s, thread, ids[..n], outcome, id);
      var before, s1 := ResolveAll(s, thread, ids[..n], outcome), ResolveAll(s, thread, ids, outcome);
      assert before.claims <= s1.claims;
      if id !in ids[..n] && id == ids[n] {
        assert s1.claims[|before.claims|] == Claim(thread, id, s.pending[id].ctx, outcome);
      }
    }
  }

  lemma SettlesAtOnce(s: Http, thread: Thread, c: Claim)
    requires c.id in s.pending && c.ctx == s.pending[c.id].ctx && c.thread == thread
    ensures c in Resolve(s, thread, c.id, c.outcome).claims
  {
    assert Resolve(s, thread, c.id, c.outcome).claims[|s.claims|] == c;
  }

  lemma CauseClaims(s: Http, a: Action, c: Claim)
    requires Enabled(s, a) && Causes(s, a, c)
    ensures c in Next(s, a).claims
  {
    match a
    case Sweep(now, order) =>
      assert EnumeratesExpired(s, now, order);
      ClaimsOfAll(s, Sweeper, order, Failed(ResponseTimeout), c.id);
    case Callback(body) => SettlesAtOnce(s, CallbackThread, c);
    case SendFails(w) => SettlesAtOnce(s, Worker(w), c);
    case EnqueueFails(_, _) => SettlesAtOnce(s, Dispatcher, c);
    case _ =>
  }

  /** Main theorem: and the other way round, a step that finds the request pending settles it as it says, for good. */
  lemma CausesSettle(n: nat, before: seq<Action>, at: Http, a: Action, c: Claim, after: seq<Action>, s: Http)
    requires Run(Started(n), before, at) && Enabled(at, a) && Causes(at, a, c) && Run(Next(at, a), after, s)
    ensures c in s.claims && c.id !in s.pending
  {
    CauseClaims(at, a, c);
    StartedIsResolved(n);
    RunKeeps(Started(n), before, at);
    NextKeeps(at, a);
    RunKeeps(Next(at, a), after, s);
    ClaimsStay(Next(at, a), after, s);
    hide Next;
    hide Run;
    hide Enabled;
    hide Causes;
    assert Next(at, a).claims <= s.claims;
    var i :| 0 <= i < |s.claims| && s.claims[i] == c;
  }

  lemma StartedIsResolved(n: nat)
    ensures Resolved(Started(n))
  {
  }

  /******* Every request is sent *******/

  ghost predicate InQueue(s: Http, id: RequestId) {
    exists p :: 0 <= p < |s.queued| && s.queued[p] == Send(id)
  }

  predicate BeingPut(s: Http, id: RequestId) {
    s.enqueuing == Some(Enqueuing(id, false))
  }

  ghost predicate SendsOk(s: Http) {
    && (forall p, q :: 0 <= p < q < |s.queued| && s.queued[p].Send? ==> s.queued[p] != s.queued[q])
    && (forall id :: InQueue(s, id) ==> id in s.registered && id !in s.late && !BeingPut(s, id))
    && (forall id :: id in s.late ==> id in s.registered && !BeingPut(s, id))
    && (s.enqueuing.Some? ==> s.enqueuing.value.id in s.registered)
    && (forall id :: id in s.pending ==> id in s.registered && (InQueue(s, id) || BeingPut(s, id)))
  }

  lemma PutSends(s: Http, s1: Http, id: RequestId)
    requires SendsOk(s) && !InQueue(s, id) && id in s.registered && s1.queued == s.queued + [Send(id)]
    requires s1.registered == s.registered && s1.pending == s.pending
    requires s1.late <= s.late && id !in s1.late && !BeingPut(s1, id)
    requires forall x :: BeingPut(s1, x) ==> BeingPut(s, x)
    requires forall x :: BeingPut(s, x) && x != id ==> BeingPut(s1, x)
    requires s1.enqueuing.Some? ==> s1.enqueuing.value.id in s.registered
    ensures SendsOk(s1)
  {
    forall x ensures InQueue(s1, x) <==> InQueue(s, x) || x == id {
      if InQueue(s, x) {
        var p :| 0 <= p < |s.queued| && s.queued[p] == Send(x);
        assert s1.queued[p] == Send(x);
      }
      assert s1.queued[|s.queued|] == Send(id);
    }
  }

  /** The queue has at most a stop signal more, and nothing new is pending. */
  lemma QuietSends(s: Http, s1: Http)
    requires SendsOk(s) && (s1.queued == s.queued || s1.queued == s.queued + [StopSignal])
    requires s1.registered == s.registered && s1.late == s.late && s1.enqueuing == s.enqueuing
    requires forall id :: id in s1.pending ==> id in s.pending
    ensures SendsOk(s1)
  {
    forall x ensures InQueue(s1, x) <==> InQueue(s, x) {
      if InQueue(s, x) {
        var p :| 0 <= p < |s.queued| && s.queued[p] == Send(x);
        assert s1.queued[p] == Send(x);
      }
    }
  }

  lemma DispatchSends(s: Http, id: RequestId, request: Request)
    requires SendsOk(s) && Enabled(s, Dispatch(id, request))
    ensures SendsOk(Next(s, Dispatch(id, request)))
  {
    var s1 := Next(s, Dispatch(id, request));
    forall x ensures InQueue(s1, x) <==> InQueue(s, x) {
    }
  }

  lemma FailSends(s: Http, a: Action)
    requires SendsOk(s) && a.EnqueueFails? && Enabled(s, a)
    ensures SendsOk(Next(s, a))
  {
    var s1, id := Next(s, a), s.enqueuing.value.id;
    forall x ensures InQueue(s1, x) <==> InQueue(s, x) {
    }
    assert id !in s1.pending;
  }

  lemma {:induction false} ResolveAllQuiet(s: Http, thread: Thread, ids: seq<RequestId>, outcome: Outcome)
    ensures var s1 := ResolveAll(s, thread, ids, outcome);
            s1 == s.(pending := s1.pending, claims := s1.claims) && forall id :: id in s1.pending ==> id in s.pending
  {
    if ids != [] {
      ResolveAllQuiet(s, thread, ids[..|ids| - 1], outcome);
    }
  }

  lemma StepSends(s: Http, a: Action)
    requires SendsOk(s) && Enabled(s, a)
    ensures SendsOk(Next(s, a))
  {
    match a
    case Dispatch(id, request) => DispatchSends(s, id, request);
    case PutCompletes => PutSends(s, Next(s, a), s.enqueuing.value.id);
    case LateEnqueue(id) => PutSends(s, Next(s, a), id);
    case EnqueueFails(_, _) => FailSends(s, a);
    case Enqueued => EnqueuedSends(s);
    case Sweep(_, order) =>
      ResolveAllQuiet(s, Sweeper, order, Failed(ResponseTimeout));
      QuietSends(s, Next(s, a));
    case _ => QuietSends(s, Next(s, a));
  }

  lemma EnqueuedSends(s: Http)
    requires SendsOk(s) && Enabled(s, Enqueued)
    ensures SendsOk(Next(s, Enqueued))
  {
    forall x ensures InQueue(Next(s, Enqueued), x) <==> InQueue(s, x) {
    }
  }

  lemma {:induction false} RunSends(s: Http, actions: seq<Action>, s': Http)
    requires SendsOk(s) && Run(s, actions, s')
    ensures SendsOk(s')
    decreases |actions|
  {
    hide SendsOk;
    if actions != [] {
      StepSends(s, actions[0]);
      RunSends(Next(s, actions[0]), actions[1..], s');
    }
  }

  /**
   Main theorem: a request that is waited for has been put into the sender's queue or is just being put, and
   no request is put there twice.
   */
  lemma PendingIsQueued(n: nat, actions: seq<Action>, s: Http)
    requires Run(Started(n), actions, s)
    ensures forall id :: id in s.pending ==> InQueue(s, id) || BeingPut(s, id)
    ensures forall p, q :: 0 <= p < q < |s.queued| && s.queued[p].Send? ==> s.queued[p] != s.queued[q]
    ensures forall p :: 0 <= p < |s.queued| && s.queued[p].Send? ==> s.queued[p].id in s.registered
  {
    RunSends(Started(n), actions, s);
    forall p | 0 <= p < |s.queued| && s.queued[p].Send? ensures s.queued[p].id in s.registered {
      assert InQueue(s, s.queued[p].id);
    }
  }
}
