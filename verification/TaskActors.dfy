/**
 The actors of a task run that keep state in the context, and the constructor that wires the nodes.
 Every handler is proved to compute the function of `TaskProtocol` that the run is made of.
 */
module TaskActors {
  import opened Options
  import opened TaskProtocol
  import opened Wiring
  import opened WiringRuntime
  import RoundRobin

  /** The user data that the nodes of one task keep in a context. */
  class TaskContext {
    var retry: Option<RetryState>
    var started: Option<Time>
    var saved: Option<Routed>
    var slot: Slot
    var routedCount: Option<nat>
    const shuffle: seq<Neuron> -> seq<Neuron>

    constructor (shuffle: seq<Neuron> -> seq<Neuron>)
      ensures State() == TaskData(None, None, None, Missing, Routing(None, shuffle))
    {
      retry, started, saved, slot, routedCount := None, None, None, Missing, None;
      this.shuffle := shuffle;
    }

    ghost function State(): TaskData
      reads this
    {
      TaskData(retry, started, saved, slot, Routing(routedCount, shuffle))
    }
  }

  type TimerId = nat

  class RetryStrategyActor {
    const maxAttempts: int
    var timers: set<TimerId>

    constructor (maxAttempts: int)
      ensures this.maxAttempts == maxAttempts && timers == {}
    {
      this.maxAttempts, timers := maxAttempts, {};
    }

    method HandleInput(ctx: TaskContext, input: Input) returns (events: Events)
      modifies ctx
      ensures RetryOnInput(old(ctx.State()), input) == Reaction(ctx.State(), events)
    {
      var state := if ctx.retry.Some? then ctx.retry.value else RetryState(input, 0);
      events := NextAttemptMessage(ctx, state);
    }

    /** `timer` is the identity of the timer thread that is started if another attempt is due. */
    method HandleFailedAttempt(ctx: TaskContext, timer: TimerId) returns (events: Option<Events>)
      requires timer !in timers
      modifies this`timers
      ensures RetryOnFailure(maxAttempts, ctx.State()) ==
              if events.None? then Raised else Reaction(ctx.State(), events.value)
      ensures timers == old(timers) + if RetryRearms(maxAttempts, ctx.State()) then {timer} else {}
    {
      if ctx.retry.None? {
        return None;
      }
      if ctx.retry.value.attempts >= maxAttempts {
        return Some([(RetryError, ErrorBody(Exhausted))]);
      }
      timers := timers + {timer};
      events := Some([]);
    }

    /** What the timer thread does when the delay is over. */
    method TriggerNextAttempt(ctx: TaskContext, timer: TimerId) returns (events: Option<Events>)
      modifies this`timers, ctx
      ensures RetryOnTimer(old(ctx.State())) == if events.None? then Raised else Reaction(ctx.State(), events.value)
      ensures events.None? ==> ctx.State() == old(ctx.State())
      ensures timers == old(timers) - {timer}
    {
      timers := timers - {timer};
      if ctx.retry.None? {
        return None;
      }
      var sent := NextAttemptMessage(ctx, ctx.retry.value);
      events := Some(sent);
    }

    method NextAttemptMessage(ctx: TaskContext, state: RetryState) returns (events: Events)
      modifies ctx
      ensures IssueAttempt(old(ctx.State()), state) == Reaction(ctx.State(), events)
    {
      ctx.retry := Some(state.(attempts := state.attempts + 1));
      events := [(NextAttempt, InputBody(state.original))];
    }
  }

  class NeuronRouterActor {
    constructor () {}

    /** `offer` is what the neuron provider returned and the filter kept. */
    method Transform(ctx: TaskContext, payload: Payload, offer: seq<Neuron>) returns (events: Events)
      requires RoundRobin.Shuffles(ctx.shuffle)
      modifies ctx
      ensures RouteInput(old(ctx.State()), payload, offer) == Reaction(ctx.State(), events)
    {
      var router := new RoundRobin.RoundRobinNeuronRouterActor();
      router.routedCount := ctx.routedCount;
      var target := router.SelectNeuron(offer, ctx.shuffle);
      if target.None? {
        return [(RouterError, ErrorBody(Failure))];
      }
      ctx.routedCount := router.routedCount;
      events := [(RoutedOut, RoutedBody(Routed(payload, target.value)))];
    }
  }

  class CommunicatorActor {
    constructor () {}

    method StoreInputInContext(ctx: TaskContext, routed: Routed)
      modifies ctx
      ensures ctx.State() == SaveInput(old(ctx.State()), routed)
    {
      ctx.saved := Some(routed);
    }

    /** The processed and the executor-error event builders: they differ only in the result they wrap. */
    method ProcessedEvent(ctx: TaskContext, result: Result) returns (events: Option<Events>)
      ensures AnswerEvent(ctx.State(), result) == if events.None? then Raised else Reaction(ctx.State(), events.value)
    {
      if ctx.saved.None? {
        return None;
      }
      events := Some([(ProcessedOut, ProcessedBody(Processed(ctx.saved.value, result)))]);
    }
  }

  class TaskResultPreparerActor {
    constructor () {}

    method HandleTimestampedResult(ctx: TaskContext, stamped: Timestamped) returns (events: Events)
      modifies ctx
      ensures PrepareResult(old(ctx.State()), stamped) == Reaction(ctx.State(), events)
    {
      var result := stamped.output.result;
      if result.ExecutorFailed? {
        return [(PreparedFailure, FailureToPersist(stamped))];
      }
      if result.OtherException? {
        return [(PreparerError, ErrorBody(UnexpectedErrorType))];
      }
      if !ctx.slot.Missing? && !ctx.slot.Cleared? {
        return [(PreparerError, ErrorBody(DuplicateResult))];
      }
      ctx.slot := Holding(stamped);
      events := [(ForConversion, OutputBody(result.output))];
    }

    method HandleConvertedPublicOutput(ctx: TaskContext, public: Public) returns (events: Events)
      modifies ctx
      ensures PrepareConverted(old(ctx.State()), public) == Reaction(ctx.State(), events)
    {
      if ctx.slot.Missing? {
        return [(PreparerError, ErrorBody(MissingResult))];
      }
      var pending := ctx.slot;
      if !pending.Holding? {
        return [(PreparerError, ErrorBody(UnexpectedResultType))];
      }
      ctx.slot := Cleared;
      events := [(PreparedSuccess, ToPersist(pending.result, public))];
    }

    method HandleConversionFailed(ctx: TaskContext, error: Error) returns (events: Events)
      modifies ctx
      ensures PrepareConversionFailed(old(ctx.State()), error) == Reaction(ctx.State(), events)
    {
      if !ctx.slot.Missing? {
        ctx.slot := Cleared;
      }
      events := [(PreparerError, ErrorBody(error))];
    }
  }

  /** Every connected source has exactly the sink that `route` names, and no taps. */
  ghost predicate WiredAs(g: Graph<SourceName, SinkName>, route: SourceName -> Option<SinkName>) {
    forall s :: s in g ==> route(s).Some? && g[s] == Targets(route(s), {})
  }

  const AttemptSources := {NextAttempt, CreatedPayload, RoutedOut}
  const ExecutionSources := {ForwardedInput, ProcessedOut, TimestampedOutput}
  const ConversionSources := {ForConversion, ConvertedOut}
  const PreparationSources := {PreparedSuccess, PreparedFailure}
  const StorageSources := {StoredSuccess, StoredFailure}
  const ExecutionErrorSources := {CommunicatorError, SuccessStorerError, FailureStorerError}
  const RoutingErrorSources := {CreatorError, RouterError}
  const FinalErrorSources := {RetryError, PreparerError, ConverterError}
  const LeavingSources := {DispatchedSuccess, DispatchedFailure, ExecutorOutput}

  const AttemptSinks := {CreatorInput, RouterInput, TimestamperInput}
  const ExecutionSinks := {CommunicatorInput, TimestamperOutput, PreparerResult}
  const ConversionSinks := {ConverterInput, PreparerConverted}
  const PreparationSinks := {SuccessStorerInput, FailureStorerInput}
  const StorageSinks := {DispatcherSuccess, DispatcherFailure}
  const ExecutionErrorSinks := {FailedAttempt}
  const RoutingErrorSinks := {FailedAttempt}
  const FinalErrorSinks := {MuxLeft, MuxRight, PreparerConversionFailed}

  const StepSources := AttemptSources + ExecutionSources
  const ResultSources := ConversionSources + PreparationSources + StorageSources
  const ErrorSources := ExecutionErrorSources + RoutingErrorSources + FinalErrorSources

  const StepSinks := AttemptSinks + ExecutionSinks
  const ResultSinks := ConversionSinks + PreparationSinks + StorageSinks
  const ErrorSinks := ExecutionErrorSinks + RoutingErrorSinks + FinalErrorSinks

  lemma AllRouted(s: SourceName)
    ensures s in StepSources + ResultSources + ErrorSources <==> Route(s).Some?
    ensures s in LeavingSources + (StepSources + ResultSources + ErrorSources) <==> s != TaskError
  {
  }

  lemma AllReached(k: SinkName)
    ensures k in {RetryInput} + StepSinks + ResultSinks + ErrorSinks
  {
    match k
    case RetryInput =>
    case _ =>
  }

  lemma GroupsAreDisjoint()
    ensures StepSources !! ResultSources
    ensures StepSources + ResultSources !! ErrorSources
  {
  }

  /** The connections reach every sink, and leave out the sources that leave the task. */
  lemma WiringIsComplete(connected: set<SourceName>, sources: set<SourceName>, sinks: set<SinkName>)
    requires connected == StepSources + ResultSources + ErrorSources
    requires sources == LeavingSources + connected && sinks == {RetryInput} + StepSinks + ResultSinks + ErrorSinks
    ensures forall s :: s in connected <==> Route(s).Some?
    ensures forall s :: s in sources <==> s != TaskError
    ensures forall k :: k in sinks
  {
    forall s
      ensures s in connected <==> Route(s).Some?
      ensures s in sources <==> s != TaskError
    {
      AllRouted(s);
    }
    forall k ensures k in sinks {
      AllReached(k);
    }
  }

  /** The sinks that are fed from outside the task: its own ones, and the block beats for the timestamper. */
  datatype OwnSink = Inner(sink: SinkName) | BlockBeats

  ghost predicate Reached(g: Graph<SourceName, SinkName>, k: SinkName) {
    exists s :: s in g && g[s].primary == Some(k)
  }

  /** Exactly the sources that leave the task are not connected, and exactly the entry is not reached. */
  lemma EndsAreOwned(g: Graph<SourceName, SinkName>)
    requires WiredAs(g, Route) && forall s :: s in g <==> Route(s).Some?
    ensures forall s :: s in LeavingSources + {TaskError} <==> s !in g
    ensures forall k :: k == RetryInput <==> !Reached(g, k)
  {
    forall s ensures s in LeavingSources + {TaskError} <==> Route(s).None? {
      AllRouted(s);
    }
    forall k ensures k == RetryInput <==> !Reached(g, k) {
      if k != RetryInput {
        var s := Feeder(k);
        assert s in g && g[s].primary == Some(k);
      }
    }
  }

  /** A source that feeds the sink. */
  function Feeder(k: SinkName): (s: SourceName)
    ensures k != RetryInput ==> Route(s) == Some(k)
  {
    match k
    case RetryInput => TaskError
    case FailedAttempt => RouterError
    case CreatorInput => NextAttempt
    case RouterInput => CreatedPayload
    case TimestamperInput => RoutedOut
    case TimestamperOutput => ProcessedOut
    case CommunicatorInput => ForwardedInput
    case PreparerResult => TimestampedOutput
    case PreparerConverted => ConvertedOut
    case PreparerConversionFailed => ConverterError
    case ConverterInput => ForConversion
    case SuccessStorerInput => PreparedSuccess
    case FailureStorerInput => PreparedFailure
    case DispatcherSuccess => StoredSuccess
    case DispatcherFailure => StoredFailure
    case MuxLeft => RetryError
    case MuxRight => PreparerError
  }

  class NexusTask {
    const pipes: Pipes<SourceName, SinkName>
    var sources: set<SourceName>
    var sinks: set<SinkName>
    /** The ends of the internal flow; a single entry is the default, three exits have none. */
    const entrySink: SinkName
    const exitSources: set<SourceName>
    const defaultExit: Option<SourceName>
    const error: SourceName
    /** The endpoints that are marked as the task's own. */
    const ownedSources: set<SourceName>
    const ownedSinks: set<OwnSink>

    /**
     The wiring succeeds, and the graph it builds is the one the protocol runs on. The error output is
     the one source that the internal flow does not list.
     */
    constructor ()
      ensures fresh(pipes) && WiredAs(pipes.targets, Route)
      ensures forall s :: s in pipes.targets <==> Route(s).Some?
      ensures forall s :: s in sources <==> s != error
      ensures forall k :: k in sinks
      ensures forall s :: s in ownedSources <==> s !in pipes.targets
      ensures exitSources == ownedSources - {error} && error in ownedSources && defaultExit.None?
      ensures forall k :: k == entrySink <==> !Reached(pipes.targets, k)
      ensures forall k :: Inner(k) in ownedSinks <==> k == entrySink
      ensures BlockBeats in ownedSinks
    {
      entrySink, exitSources, defaultExit, error := RetryInput, LeavingSources, None, TaskError;
      ownedSources := LeavingSources + {TaskError};
      ownedSinks := {BlockBeats, Inner(RetryInput)};
      sinks := {RetryInput};
      sources := LeavingSources;
      pipes := new Pipes();
      new;
      ConnectAll();
      EndsAreOwned(pipes.targets);
    }

    method ConnectAll()
      requires pipes.targets == map[] && sources == LeavingSources && sinks == {RetryInput}
      modifies pipes, this`sources, this`sinks
      ensures WiredAs(pipes.targets, Route)
      ensures forall s :: s in pipes.targets <==> Route(s).Some?
      ensures forall s :: s in sources <==> s != TaskError
      ensures forall k :: k in sinks
    {
      hide Route;
      GroupsAreDisjoint();
      ConnectSteps(Route);
      assert pipes.targets.Keys == StepSources;
      ConnectResults(Route);
      assert pipes.targets.Keys == StepSources + ResultSources;
      ConnectErrors(Route);
      WiringIsComplete(pipes.targets.Keys, sources, sinks);
    }

    method ConnectSteps(ghost route: SourceName -> Option<SinkName>)
      requires WiredAs(pipes.targets, route) && pipes.targets.Keys !! StepSources
      requires forall s :: s in StepSources ==> route(s) == Route(s)
      modifies pipes, this`sources, this`sinks
      ensures WiredAs(pipes.targets, route)
      ensures pipes.targets.Keys == old(pipes.targets).Keys + StepSources
      ensures sources == old(sources) + StepSources
      ensures sinks == old(sinks) + StepSinks
    {
      ConnectAttempt(route);
      ConnectExecution(route);
    }

    method ConnectResults(ghost route: SourceName -> Option<SinkName>)
      requires WiredAs(pipes.targets, route) && pipes.targets.Keys !! ResultSources
      requires forall s :: s in ResultSources ==> route(s) == Route(s)
      modifies pipes, this`sources, this`sinks
      ensures WiredAs(pipes.targets, route)
      ensures pipes.targets.Keys == old(pipes.targets).Keys + ResultSources
      ensures sources == old(sources) + ResultSources
      ensures sinks == old(sinks) + ResultSinks
    {
      ConnectConversion(route);
      ConnectPreparation(route);
      ConnectStorage(route);
    }

    method ConnectErrors(ghost route: SourceName -> Option<SinkName>)
      requires WiredAs(pipes.targets, route) && pipes.targets.Keys !! ErrorSources
      requires forall s :: s in ErrorSources ==> route(s) == Route(s)
      modifies pipes, this`sources, this`sinks
      ensures WiredAs(pipes.targets, route)
      ensures pipes.targets.Keys == old(pipes.targets).Keys + ErrorSources
      ensures sources == old(sources) + ErrorSources
      ensures sinks == old(sinks) + ErrorSinks
    {
      ConnectExecutionError(route);
      ConnectRoutingError(route);
      ConnectFinalError(route);
    }

    method Connect(ghost route: SourceName -> Option<SinkName>, source: SourceName, sink: SinkName)
      requires source !in pipes.targets && WiredAs(pipes.targets, route) && route(source) == Some(sink)
      modifies pipes, this`sources, this`sinks
      ensures WiredAs(pipes.targets, route) && pipes.targets.Keys == old(pipes.targets).Keys + {source}
      ensures sources == old(sources) + {source} && sinks == old(sinks) + {sink}
    {
      var ok := pipes.Connect(source, Some(sink), {});
      sources := sources + {source};
      sinks := sinks + {sink};
    }

    method ConnectAttempt(ghost route: SourceName -> Option<SinkName>)
      requires WiredAs(pipes.targets, route) && pipes.targets.Keys !! AttemptSources
      requires forall s :: s in AttemptSources ==> route(s) == Route(s)
      modifies pipes, this`sources, this`sinks
      ensures WiredAs(pipes.targets, route) && pipes.targets.Keys == old(pipes.targets).Keys + AttemptSources
      ensures sources == old(sources) + AttemptSources && sinks == old(sinks) + AttemptSinks
    {
      Connect(route, NextAttempt, CreatorInput);
      Connect(route, CreatedPayload, RouterInput);
      Connect(route, RoutedOut, TimestamperInput);
    }

    method ConnectExecution(ghost route: SourceName -> Option<SinkName>)
      requires WiredAs(pipes.targets, route) && pipes.targets.Keys !! ExecutionSources
      requires forall s :: s in ExecutionSources ==> route(s) == Route(s)
      modifies pipes, this`sources, this`sinks
      ensures WiredAs(pipes.targets, route) && pipes.targets.Keys == old(pipes.targets).Keys + ExecutionSources
      ensures sources == old(sources) + ExecutionSources && sinks == old(sinks) + ExecutionSinks
    {
      Connect(route, ForwardedInput, CommunicatorInput);
      Connect(route, ProcessedOut, TimestamperOutput);
      Connect(route, TimestampedOutput, PreparerResult);
    }

    method ConnectConversion(ghost route: SourceName -> Option<SinkName>)
      requires WiredAs(pipes.targets, route) && pipes.targets.Keys !! ConversionSources
      requires forall s :: s in ConversionSources ==> route(s) == Route(s)
      modifies pipes, this`sources, this`sinks
      ensures WiredAs(pipes.targets, route) && pipes.targets.Keys == old(pipes.targets).Keys + ConversionSources
      ensures sources == old(sources) + ConversionSources && sinks == old(sinks) + ConversionSinks
    {
      Connect(route, ForConversion, ConverterInput);
      Connect(route, ConvertedOut, PreparerConverted);
    }

    method ConnectPreparation(ghost route: SourceName -> Option<SinkName>)
      requires WiredAs(pipes.targets, route) && pipes.targets.Keys !! PreparationSources
      requires forall s :: s in PreparationSources ==> route(s) == Route(s)
      modifies pipes, this`sources, this`sinks
      ensures WiredAs(pipes.targets, route) && pipes.targets.Keys == old(pipes.targets).Keys + PreparationSources
      ensures sources == old(sources) + PreparationSources && sinks == old(sinks) + PreparationSinks
    {
      Connect(route, PreparedSuccess, SuccessStorerInput);
      Connect(route, PreparedFailure, FailureStorerInput);
    }

    method ConnectStorage(ghost route: SourceName -> Option<SinkName>)
      requires WiredAs(pipes.targets, route) && pipes.targets.Keys !! StorageSources
      requires forall s :: s in StorageSources ==> route(s) == Route(s)
      modifies pipes, this`sources, this`sinks
      ensures WiredAs(pipes.targets, route) && pipes.targets.Keys == old(pipes.targets).Keys + StorageSources
      ensures sources == old(sources) + StorageSources && sinks == old(sinks) + StorageSinks
    {
      Connect(route, StoredSuccess, DispatcherSuccess);
      Connect(route, StoredFailure, DispatcherFailure);
    }

    method ConnectExecutionError(ghost route: SourceName -> Option<SinkName>)
      requires WiredAs(pipes.targets, route) && pipes.targets.Keys !! ExecutionErrorSources
      requires forall s :: s in ExecutionErrorSources ==> route(s) == Route(s)
      modifies pipes, this`sources, this`sinks
      ensures WiredAs(pipes.targets, route) && pipes.targets.Keys == old(pipes.targets).Keys + ExecutionErrorSources
      ensures sources == old(sources) + ExecutionErrorSources && sinks == old(sinks) + ExecutionErrorSinks
    {
      Connect(route, CommunicatorError, FailedAttempt);
      Connect(route, SuccessStorerError, FailedAttempt);
      Connect(route, FailureStorerError, FailedAttempt);
    }

    method ConnectRoutingError(ghost route: SourceName -> Option<SinkName>)
      requires WiredAs(pipes.targets, route) && pipes.targets.Keys !! RoutingErrorSources
      requires forall s :: s in RoutingErrorSources ==> route(s) == Route(s)
      modifies pipes, this`sources, this`sinks
      ensures WiredAs(pipes.targets, route) && pipes.targets.Keys == old(pipes.targets).Keys + RoutingErrorSources
      ensures sources == old(sources) + RoutingErrorSources && sinks == old(sinks) + RoutingErrorSinks
    {
      Connect(route, CreatorError, FailedAttempt);
      Connect(route, RouterError, FailedAttempt);
    }

    method ConnectFinalError(ghost route: SourceName -> Option<SinkName>)
      requires WiredAs(pipes.targets, route) && pipes.targets.Keys !! FinalErrorSources
      requires forall s :: s in FinalErrorSources ==> route(s) == Route(s)
      modifies pipes, this`sources, this`sinks
      ensures WiredAs(pipes.targets, route) && pipes.targets.Keys == old(pipes.targets).Keys + FinalErrorSources
      ensures sources == old(sources) + FinalErrorSources && sinks == old(sinks) + FinalErrorSinks
    {
      Connect(route, RetryError, MuxLeft);
      Connect(route, PreparerError, MuxRight);
      Connect(route, ConverterError, PreparerConversionFailed);
    }
  }
}
