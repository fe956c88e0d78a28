/**
 Progress: a task run is never stuck. As long as something is left to do, some step that loses nothing
 comes closer to the end, so every run can be brought to its one answer.
 */
module TaskProgress {
  import opened Options
  import opened TaskProtocol
  import opened TaskTokens
  import opened TaskAttribution
  import opened TaskOutcomes
  import TaskTermination

  ghost predicate Healthy(max: int, a0: nat, s: Task) {
    Attributed(s) && TaskTermination.Inv(max, a0, s)
  }

  lemma StepIsHealthy(max: int, a0: nat, s: Task, a: Action)
    requires Healthy(max, a0, s)
    ensures Healthy(max, a0, Step(max, s, a))
  {
    StepAttributes(max, s, a);
    TaskTermination.StepCounts(max, a0, s, a);
  }

  lemma {:induction false} FlushLowersQueued(left: nat, ud: TaskData, ts: seq<Token>, now: Time, beat: Beat, i: nat)
    requires ud.started.Some? && i < |ts| && ts[i].Queued?
    ensures TaskTermination.Measure(left, Flush(ud, ts, now, beat)) < TaskTermination.Measure(left, ts)
  {
    assert Flush(ud, ts, now, beat)[1..] == Flush(ud, ts[1..], now, beat);
    if i == 0 {
      TaskTermination.FlushLowers(left, ud, ts[1..], now, beat);
    } else {
      FlushLowersQueued(left, ud, ts[1..], now, beat, i - 1);
    }
  }

  lemma QueuedHasStart(s: Task, i: nat)
    requires Attributed(s) && i < |s.tokens| && s.tokens[i].Queued?
    ensures s.local.ud.started.Some?
  {
    assert Fits(s.tokens[i], s.local);
  }

  /** A queued output has its start time, so any beat takes it out of the queue. */
  lemma BeatMoves(max: int, s: Task, beat: Beat, i: nat)
    requires Attributed(s) && i < |s.tokens| && s.tokens[i].Queued?
    ensures TaskTermination.TaskMeasure(max, Step(max, s, BlockBeat(beat, 0, true)))
            < TaskTermination.TaskMeasure(max, s)
  {
    QueuedHasStart(s, i);
    hide Attributed;
    FlushLowersQueued(TaskTermination.Left(max, s.local.ud), s.local.ud, s.tokens, 0, beat, i);
  }

  /** The next step for one token: every stage fails where it can, and the clock stands at zero. */
  function NextMove(t: Token, i: nat, beat: Beat): Action {
    match t
    case Bus(_, _, _) => Deliver(i)
    case Box(sink, _, _) => Handle(i, if sink == TimestamperInput || sink == TimestamperOutput then At(0) else Fails)
    case Timer(_) => Fire(i)
    case Pending(request, _) => Callback(request, ExecutorFailed)
    case Queued(_, _) => BlockBeat(beat, 0, true)
  }

  lemma NextMoveApplies(s: Task, i: nat, beat: Beat)
    requires i < |s.tokens| && (s.tokens[i].Bus? ==> Route(s.tokens[i].source).Some?)
    ensures var a := NextMove(s.tokens[i], i, beat);
            && Lossless(s, a) && OnlyFailures(a)
            && (!s.tokens[i].Queued? ==> Consumes(s, a).Some?)
  {
  }

  /** Main theorem: in a state that is not quiescent some lossless step comes closer to the end. */
  lemma NeverStuck(max: int, a0: nat, s: Task, beat: Beat) returns (a: Action)
    requires Healthy(max, a0, s) && !Quiescent(s)
    ensures Lossless(s, a) && OnlyFailures(a)
    ensures TaskTermination.TaskMeasure(max, Step(max, s, a)) < TaskTermination.TaskMeasure(max, s)
  {
    var i :| 0 <= i < |s.tokens| && !(s.tokens[i].Bus? && Route(s.tokens[i].source).None?);
    a := NextMove(s.tokens[i], i, beat);
    NextMoveApplies(s, i, beat);
    if s.tokens[i].Queued? {
      BeatMoves(max, s, beat, i);
    } else {
      TaskTermination.StepDrops(max, a0, s, a);
    }
  }

  ghost predicate AllFail(actions: seq<Action>) {
    forall k :: 0 <= k < |actions| ==> OnlyFailures(actions[k])
  }

  lemma {:induction false} Drive(max: int, a0: nat, s: Task, beat: Beat) returns (more: seq<Action>)
    requires Healthy(max, a0, s)
    ensures LosslessRun(max, s, more) && AllFail(more) && Quiescent(Run(max, s, more))
    decreases TaskTermination.TaskMeasure(max, s)
  {
    if Quiescent(s) {
      more := [];
    } else {
      hide Step;
      hide Lossless;
      hide Quiescent;
      hide OnlyFailures;
      hide TaskTermination.TaskMeasure;
      var a := NeverStuck(max, a0, s, beat);
      StepIsHealthy(max, a0, s, a);
      var rest := Drive(max, a0, Step(max, s, a), beat);
      more := [a] + rest;
      assert more[0] == a && more[1..] == rest;
    }
  }

  lemma {:induction false} RunsJoin(max: int, s: Task, actions: seq<Action>, more: seq<Action>)
    ensures Run(max, s, actions + more) == Run(max, Run(max, s, actions), more)
    ensures LosslessRun(max, s, actions + more)
            <==> LosslessRun(max, s, actions) && LosslessRun(max, Run(max, s, actions), more)
    decreases |actions|
  {
    hide Step;
    hide Lossless;
    if actions == [] {
      assert actions + more == more;
    } else {
      assert (actions + more)[0] == actions[0] && (actions + more)[1..] == actions[1..] + more;
      RunsJoin(max, Step(max, s, actions[0]), actions[1..], more);
    }
  }

  /** Every run, whatever it has lost, can be brought to its end by steps that lose nothing more. */
  lemma RunsCanFinish(max: int, ud: TaskData, input: Input, actions: seq<Action>, beat: Beat)
    returns (more: seq<Action>)
    ensures var s := Run(max, Start(ud, input), actions);
            LosslessRun(max, s, more) && AllFail(more) && Quiescent(Run(max, s, more))
  {
    StartAttributes(ud, input);
    RunAttributes(max, Start(ud, input), actions);
    TaskTermination.StartCounts(max, ud, input);
    TaskTermination.RunCounts(max, TaskTermination.Attempts(ud), Start(ud, input), actions);
    more := Drive(max, TaskTermination.Attempts(ud), Run(max, Start(ud, input), actions), beat);
  }

  /** Main theorem: a run that has lost nothing so far can always be brought to exactly one answer. */
  lemma LosslessRunsCanAnswer(max: int, ud: TaskData, input: Input, actions: seq<Action>, beat: Beat)
    returns (more: seq<Action>, i: nat)
    requires LosslessRun(max, Start(ud, input), actions)
    ensures LosslessRun(max, Start(ud, input), actions + more)
    ensures var s := Run(max, Start(ud, input), actions + more);
            && Quiescent(s) && i < |s.tokens| && IsTerminal(s.tokens[i])
            && forall j :: 0 <= j < |s.tokens| && IsTerminal(s.tokens[j]) ==> j == i
  {
    hide LosslessRun;
    hide Quiescent;
    hide Run;
    more := RunsCanFinish(max, ud, input, actions, beat);
    RunsJoin(max, Start(ud, input), actions, more);
    i := LosslessRunAnswersOnce(max, ud, input, actions + more);
  }

  /**
   Main theorem: and if the executor has never succeeded, it can be brought to the exhaustion error after all
   attempts.
   */
  lemma FailingRunsCanExhaust(max: int, ud: TaskData, input: Input, actions: seq<Action>, beat: Beat)
    returns (more: seq<Action>, i: nat)
    requires LosslessRun(max, Start(ud, input), actions) && AllFail(actions)
    ensures LosslessRun(max, Start(ud, input), actions + more) && AllFail(actions + more)
    ensures var s := Run(max, Start(ud, input), actions + more);
            && Quiescent(s) && |s.local.trace| == TaskTermination.Bound(max, TaskTermination.Attempts(ud))
            && i < |s.tokens| && s.tokens[i].Bus? && s.tokens[i].source == TaskError
               && s.tokens[i].body == ErrorBody(Exhausted)
            && forall j :: 0 <= j < |s.tokens| && IsTerminal(s.tokens[j]) ==> j == i
  {
    hide LosslessRun;
    hide Quiescent;
    hide Run;
    hide OnlyFailures;
    more := RunsCanFinish(max, ud, input, actions, beat);
    RunsJoin(max, Start(ud, input), actions, more);
    i := FailingRunExhausts(max, ud, input, actions + more);
  }
}
