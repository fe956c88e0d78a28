/**
 One task run on one context, as a step relation: messages on the bus and in actor queues, armed retry
 timers, pending executor requests and queued outputs, in any interleaving, with stages that may
 succeed, fail or lose their message. `TaskActors` holds the classes proved against the handlers.
 */
module TaskProtocol {
  import opened Options
  import RoundRobin

  type Input(==,!new)
  type Payload(==,!new)
  type Neuron = RoundRobin.Neuron
  type Output(==,!new)
  type Public(==,!new)
  type Beat(==,!new)
  type Time = int

  datatype Routed = Routed(input: Payload, target: Neuron)

  datatype Result = Succeeded(output: Output) | ExecutorFailed | OtherException

  datatype Processed = Processed(input: Routed, result: Result)

  datatype Timestamped = Timestamped(output: Processed, started: Time, finished: Time, beat: Beat)

  datatype Error = Exhausted | UnexpectedErrorType | DuplicateResult | MissingResult | UnexpectedResultType | Failure

  /** A stored task result; `tag` is the attempt that was stored. */
  datatype Record = Record(result: Timestamped, public: Option<Public>, tag: nat)

  datatype Body =
    | InputBody(input: Input)
    | PayloadBody(payload: Payload)
    | RoutedBody(routed: Routed)
    | ProcessedBody(processed: Processed)
    | StampedBody(stamped: Timestamped)
    | OutputBody(output: Output)
    | PublicBody(public: Public)
    | ToPersist(prepared: Timestamped, preparedPublic: Public)
    | FailureToPersist(failure: Timestamped)
    | RecordBody(record: Record)
    | ErrorBody(error: Error)

  datatype SourceName =
    | NextAttempt | RetryError
    | CreatedPayload | CreatorError
    | RoutedOut | RouterError
    | ForwardedInput | TimestampedOutput
    | ProcessedOut | CommunicatorError
    | ForConversion | PreparedSuccess | PreparedFailure | PreparerError
    | ConvertedOut | ConverterError
    | StoredSuccess | SuccessStorerError
    | StoredFailure | FailureStorerError
    | DispatchedSuccess | DispatchedFailure | ExecutorOutput
    | TaskError

  datatype SinkName =
    | RetryInput | FailedAttempt
    | CreatorInput | RouterInput
    | TimestamperInput | TimestamperOutput
    | CommunicatorInput
    | PreparerResult | PreparerConverted | PreparerConversionFailed
    | ConverterInput
    | SuccessStorerInput | FailureStorerInput
    | DispatcherSuccess | DispatcherFailure
    | MuxLeft | MuxRight

  /** Where the bus delivers an event; the last four sources leave the task. */
  function Route(source: SourceName): Option<SinkName> {
    match source
    case NextAttempt => Some(CreatorInput)
    case CreatedPayload => Some(RouterInput)
    case RoutedOut => Some(TimestamperInput)
    case ForwardedInput => Some(CommunicatorInput)
    case ProcessedOut => Some(TimestamperOutput)
    case TimestampedOutput => Some(PreparerResult)
    case ForConversion => Some(ConverterInput)
    case ConvertedOut => Some(PreparerConverted)
    case PreparedSuccess => Some(SuccessStorerInput)
    case PreparedFailure => Some(FailureStorerInput)
    case StoredSuccess => Some(DispatcherSuccess)
    case StoredFailure => Some(DispatcherFailure)
    case CommunicatorError => Some(FailedAttempt)
    case SuccessStorerError => Some(FailedAttempt)
    case FailureStorerError => Some(FailedAttempt)
    case CreatorError => Some(FailedAttempt)
    case RouterError => Some(FailedAttempt)
    case RetryError => Some(MuxLeft)
    case PreparerError => Some(MuxRight)
    case ConverterError => Some(PreparerConversionFailed)
    case DispatchedSuccess => None
    case DispatchedFailure => None
    case ExecutorOutput => None
    case TaskError => None
  }

  /******* The context's user data, one field per node *******/

  datatype RetryState = RetryState(original: Input, attempts: nat)

  /** The preparer's key: absent, present with `None`, a pending result, or some other object. */
  datatype Slot = Missing | Cleared | Holding(result: Timestamped) | Foreign

  /** The router's key, and the shuffle that the id of the context seeds. */
  datatype Routing = Routing(routedCount: Option<nat>, shuffle: seq<Neuron> -> seq<Neuron>)

  datatype TaskData = TaskData(
    retry: Option<RetryState>,
    started: Option<Time>,
    saved: Option<Routed>,
    slot: Slot,
    routing: Routing)

  /******* Handlers: new user data and the events returned *******/

  type Events = seq<(SourceName, Body)>

  datatype Reaction = Reaction(ud: TaskData, events: Events) | Raised

  function IssueAttempt(ud: TaskData, state: RetryState): Reaction {
    Reaction(ud.(retry := Some(state.(attempts := state.attempts + 1))), [(NextAttempt, InputBody(state.original))])
  }

  function RetryOnInput(ud: TaskData, input: Input): Reaction {
    IssueAttempt(ud, if ud.retry.Some? then ud.retry.value else RetryState(input, 0))
  }

  /** True if the handler arms a timer instead of giving up. */
  function RetryRearms(max: int, ud: TaskData): bool {
    ud.retry.Some? && ud.retry.value.attempts < max
  }

  function RetryOnFailure(max: int, ud: TaskData): Reaction {
    if ud.retry.None? then Raised
    else if ud.retry.value.attempts >= max then Reaction(ud, [(RetryError, ErrorBody(Exhausted))])
    else Reaction(ud, [])
  }

  function RetryOnTimer(ud: TaskData): Reaction {
    if ud.retry.None? then Raised else IssueAttempt(ud, ud.retry.value)
  }

  function RoutedCount(ud: TaskData): nat {
    if ud.routing.routedCount.Some? then ud.routing.routedCount.value else 0
  }

  /** The router picks by its counter from the neurons it is offered; with none of them it reports an error. */
  function RouteInput(ud: TaskData, payload: Payload, offer: seq<Neuron>): Reaction {
    var target := RoundRobin.SelectAt(offer, ud.routing.shuffle, RoutedCount(ud));
    if target.None? then Reaction(ud, [(RouterError, ErrorBody(Failure))])
    else Reaction(ud.(routing := ud.routing.(routedCount := Some(RoutedCount(ud) + 1))),
                  [(RoutedOut, RoutedBody(Routed(payload, target.value)))])
  }

  function StampInput(ud: TaskData, routed: Routed, now: Time): Reaction {
    Reaction(ud.(started := Some(now)), [(ForwardedInput, RoutedBody(routed))])
  }

  function StampOutput(ud: TaskData, processed: Processed, now: Time, beat: Beat): Reaction {
    if ud.started.None? then Raised
    else Reaction(ud, [(TimestampedOutput, StampedBody(Timestamped(processed, ud.started.value, now, beat)))])
  }

  function SaveInput(ud: TaskData, routed: Routed): TaskData {
    ud.(saved := Some(routed))
  }

  /** The executor's answer is paired with whatever input is saved when it arrives. */
  function AnswerEvent(ud: TaskData, result: Result): Reaction {
    if ud.saved.None? then Raised
    else Reaction(ud, [(ProcessedOut, ProcessedBody(Processed(ud.saved.value, result)))])
  }

  function PrepareResult(ud: TaskData, stamped: Timestamped): Reaction {
    match stamped.output.result
    case ExecutorFailed => Reaction(ud, [(PreparedFailure, FailureToPersist(stamped))])
    case OtherException => Reaction(ud, [(PreparerError, ErrorBody(UnexpectedErrorType))])
    case Succeeded(output) =>
      if ud.slot.Holding? || ud.slot.Foreign? then Reaction(ud, [(PreparerError, ErrorBody(DuplicateResult))])
      else Reaction(ud.(slot := Holding(stamped)), [(ForConversion, OutputBody(output))])
  }

  function PrepareConverted(ud: TaskData, public: Public): Reaction {
    match ud.slot
    case Missing => Reaction(ud, [(PreparerError, ErrorBody(MissingResult))])
    case Cleared => Reaction(ud, [(PreparerError, ErrorBody(UnexpectedResultType))])
    case Foreign => Reaction(ud, [(PreparerError, ErrorBody(UnexpectedResultType))])
    case Holding(result) => Reaction(ud.(slot := Cleared), [(PreparedSuccess, ToPersist(result, public))])
  }

  function PrepareConversionFailed(ud: TaskData, error: Error): Reaction {
    Reaction(if ud.slot.Missing? then ud else ud.(slot := Cleared), [(PreparerError, ErrorBody(error))])
  }

  /******* The run *******/

  /** A message on the bus stays there for good if its source leaves the task. */
  datatype Token =
    | Bus(source: SourceName, body: Body, tag: nat)
    | Box(sink: SinkName, body: Body, tag: nat)
    | Timer(tag: nat)
    | Pending(request: nat, tag: nat)
    | Queued(processed: Processed, tag: nat)

  /** What really happened in one attempt, written down stage by stage. */
  datatype Attempt = Attempt(payload: Option<Payload>, target: Option<Neuron>, started: Option<Time>,
                             result: Option<Result>)

  const Begun := Attempt(None, None, None, None)

  /** The user data of the context, the stored records, the next request id, and the history of attempts. */
  datatype Local = Local(ud: TaskData, records: seq<Record>, requests: nat, trace: seq<Attempt>)

  datatype Task = Task(local: Local, tokens: seq<Token>, beat: Option<Beat>)

  function Start(ud: TaskData, input: Input): Task {
    Task(Local(ud, [], 0, []), [Box(RetryInput, InputBody(input), 0)], None)
  }

  /** The nondeterminism of one handler call; `Raises` is an exception, after any write to the user data. */
  datatype Choice =
    | Raises(after: TaskData)
    | Fails
    | Creates(payload: Payload)
    | Routes(offer: seq<Neuron>)
    | At(now: Time)
    | Registers
    | Answers(result: Result)
    | Converts(public: Public)
    | Stores
    | StoresThenFails

  datatype Effect = Effect(local: Local, sent: seq<Token>)

  /** A reaction of a handler above: at most one event. */
  function Apply(l: Local, r: Reaction, tag: nat): Effect {
    if r.Raised? || r.events == [] then Effect(l, [])
    else Effect(l.(ud := r.ud), [Bus(r.events[0].0, r.events[0].1, tag)])
  }

  function NewAttempt(l: Local, r: Reaction): Effect {
    if r.Raised? then Effect(l, []) else Apply(l.(trace := l.trace + [Begun]), r, |l.trace|)
  }

  function Noted(l: Local, tag: nat): Attempt {
    if tag < |l.trace| then l.trace[tag] else Begun
  }

  function Note(l: Local, tag: nat, a: Attempt): Local {
    if tag < |l.trace| then l.(trace := l.trace[tag := a]) else l
  }

  function Failed(l: Local, source: SourceName, tag: nat): Effect {
    Effect(l, [Bus(source, ErrorBody(Failure), tag)])
  }

  function OnFailedAttempt(max: int, l: Local, tag: nat): Effect {
    if RetryRearms(max, l.ud) then Effect(l, [Timer(tag)]) else Apply(l, RetryOnFailure(max, l.ud), tag)
  }

  function OnCreator(l: Local, tag: nat, c: Choice): Effect {
    match c
    case Creates(payload) =>
      Effect(Note(l, tag, Noted(l, tag).(payload := Some(payload))), [Bus(CreatedPayload, PayloadBody(payload), tag)])
    case Fails => Failed(l, CreatorError, tag)
    case _ => Effect(l, [])
  }

  function OnRouter(l: Local, payload: Payload, tag: nat, c: Choice): Effect {
    match c
    case Routes(offer) =>
      var target := RoundRobin.SelectAt(offer, l.ud.routing.shuffle, RoutedCount(l.ud));
      Apply(if target.None? then l
        else Note(l, tag, Noted(l, tag).(target := target)), RouteInput(l.ud, payload, offer), tag)
    case Fails => Failed(l, RouterError, tag)
    case _ => Effect(l, [])
  }

  function OnTimestamperInput(l: Local, routed: Routed, tag: nat, c: Choice): Effect {
    if c.At? then Apply(Note(l, tag, Noted(l, tag).(started := Some(c.now))), StampInput(l.ud, routed, c.now), tag)
    else Effect(l, [])
  }

  /** The input is saved first; then the request is registered, answered at once, or refused. */
  function OnCommunicator(l: Local, routed: Routed, tag: nat, c: Choice): Effect {
    var l := l.(ud := SaveInput(l.ud, routed));
    match c
    case Registers => Effect(l.(requests := l.requests + 1), [Pending(l.requests, tag)])
    case Answers(result) => OnAnswer(l, result, tag)
    case Fails => Failed(l, CommunicatorError, tag)
    case _ => Effect(l, [])
  }

  function OnAnswer(l: Local, result: Result, tag: nat): Effect {
    Apply(Note(l, tag, Noted(l, tag).(result := Some(result))), AnswerEvent(l.ud, result), tag)
  }

  function OnTimestamperOutput(l: Local, beat: Option<Beat>, processed: Processed, tag: nat, c: Choice): Effect {
    if !c.At? then Effect(l, [])
    else if beat.None? then Effect(l, [Queued(processed, tag)])
    else Apply(l, StampOutput(l.ud, processed, c.now, beat.value), tag)
  }

  function OnConverter(l: Local, tag: nat, c: Choice): Effect {
    match c
    case Converts(public) => Effect(l, [Bus(ConvertedOut, PublicBody(public), tag)])
    case Fails => Failed(l, ConverterError, tag)
    case _ => Effect(l, [])
  }

  function OnSuccessStorer(l: Local, stamped: Timestamped, public: Public, tag: nat, c: Choice): Effect {
    var r := Record(stamped, Some(public), tag);
    match c
    case Stores => Effect(l.(records := l.records + [r]), [Bus(StoredSuccess, RecordBody(r), tag)])
    case StoresThenFails => Failed(l.(records := l.records + [r]), SuccessStorerError, tag)
    case Fails => Failed(l, SuccessStorerError, tag)
    case _ => Effect(l, [])
  }

  /** A stored failure is passed on and, as a second message on the same context, triggers the retry. */
  function OnFailureStorer(l: Local, stamped: Timestamped, tag: nat, c: Choice): Effect {
    var r := Record(stamped, None, tag);
    match c
    case Stores =>
      Effect(l.(records := l.records + [r]),
             [Bus(StoredFailure, RecordBody(r), tag), Bus(FailureStorerError, ErrorBody(Failure), tag)])
    case StoresThenFails => Failed(l.(records := l.records + [r]), FailureStorerError, tag)
    case Fails => Failed(l, FailureStorerError, tag)
    case _ => Effect(l, [])
  }

  function OnDispatcherSuccess(l: Local, r: Record, tag: nat): Effect {
    if r.public.None? then Effect(l, [])
    else Effect(l, [Bus(DispatchedSuccess, RecordBody(r), tag), Bus(ExecutorOutput, PublicBody(r.public.value), tag)])
  }

  /**
   One handler call. A message of another type than the sink's is an exception in the handler. The
   handler of stored failures writes no user data, so its exceptions leave the context alone.
   */
  function React(max: int, l: Local, beat: Option<Beat>, sink: SinkName, body: Body, tag: nat, c: Choice): Effect {
    if c.Raises? then Effect(if sink == DispatcherFailure then l else l.(ud := c.after), [])
    else
      match sink
      case RetryInput => if body.InputBody? then NewAttempt(l, RetryOnInput(l.ud, body.input)) else Effect(l, [])
      case FailedAttempt => OnFailedAttempt(max, l, tag)
      case CreatorInput => OnCreator(l, tag, c)
      case RouterInput => if body.PayloadBody? then OnRouter(l, body.payload, tag, c) else Effect(l, [])
      case TimestamperInput => if body.RoutedBody? then OnTimestamperInput(l, body.routed, tag, c) else Effect(l, [])
      case CommunicatorInput => if body.RoutedBody? then OnCommunicator(l, body.routed, tag, c) else Effect(l, [])
      case TimestamperOutput =>
        if body.ProcessedBody? then OnTimestamperOutput(l, beat, body.processed, tag, c) else Effect(l, [])
      case PreparerResult =>
        if body.StampedBody? then Apply(l, PrepareResult(l.ud, body.stamped), tag) else Effect(l, [])
      case PreparerConverted =>
        if body.PublicBody? then Apply(l, PrepareConverted(l.ud, body.public), tag) else Effect(l, [])
      case PreparerConversionFailed =>
        if body.ErrorBody? then Apply(l, PrepareConversionFailed(l.ud, body.error), tag) else Effect(l, [])
      case ConverterInput => OnConverter(l, tag, c)
      case SuccessStorerInput =>
        if body.ToPersist? then OnSuccessStorer(l, body.prepared, body.preparedPublic, tag, c) else Effect(l, [])
      case FailureStorerInput =>
        if body.FailureToPersist? then OnFailureStorer(l, body.failure, tag, c) else Effect(l, [])
      case DispatcherSuccess => if body.RecordBody? then OnDispatcherSuccess(l, body.record, tag) else Effect(l, [])
      case DispatcherFailure => Effect(l, [Bus(DispatchedFailure, body, tag)])
      case MuxLeft => Effect(l, [Bus(TaskError, body, tag)])
      case MuxRight => Effect(l, [Bus(TaskError, body, tag)])
  }

  /******* Steps *******/

  datatype Action =
    | Deliver(i: nat)
    | Handle(i: nat, choice: Choice)
    | Fire(i: nat)
    | Callback(request: nat, result: Result)
    | BlockBeat(beat: Beat, now: Time, flushes: bool)
    | DropStale(i: nat)

  /** Index of the pending request, if it is still pending. */
  function FindPending(ts: seq<Token>, request: nat): (r: Option<nat>)
    ensures r.Some? ==> r.value < |ts| && ts[r.value].Pending? && ts[r.value].request == request
    ensures r.None? ==> forall i :: 0 <= i < |ts| && ts[i].Pending? ==> ts[i].request != request
  {
    if ts == [] then None
    else if ts[0].Pending? && ts[0].request == request then Some(0)
    else
      var r := FindPending(ts[1..], request);
      if r.None? then None else Some(r.value + 1)
  }

  /** The token an action consumes, if the action applies; a late callback finds nothing pending. */
  function Consumes(s: Task, a: Action): (r: Option<nat>)
    ensures r.Some? ==> r.value < |s.tokens|
  {
    match a
    case Deliver(i) => if i < |s.tokens| && s.tokens[i].Bus? && Route(s.tokens[i].source).Some? then Some(i) else None
    case Handle(i, _) => if i < |s.tokens| && s.tokens[i].Box? then Some(i) else None
    case Fire(i) => if i < |s.tokens| && s.tokens[i].Timer? then Some(i) else None
    case Callback(request, _) => FindPending(s.tokens, request)
    case BlockBeat(_, _, _) => None
    case DropStale(i) => if i < |s.tokens| && s.tokens[i].Queued? && s.beat.None? then Some(i) else None
  }

  function EffectOf(max: int, s: Task, a: Action): Effect
    requires Consumes(s, a).Some?
  {
    var t := s.tokens[Consumes(s, a).value];
    match a
    case Deliver(_) => Effect(s.local, [Box(Route(t.source).value, t.body, t.tag)])
    case Handle(_, choice) => React(max, s.local, s.beat, t.sink, t.body, t.tag, choice)
    case Fire(_) => NewAttempt(s.local, RetryOnTimer(s.local.ud))
    case Callback(_, result) => OnAnswer(s.local, result, t.tag)
    case _ => Effect(s.local, [])
  }

  function Flush(ud: TaskData, ts: seq<Token>, now: Time, beat: Beat): (r: seq<Token>)
    requires ud.started.Some?
  {
    seq(|ts|, i requires 0 <= i < |ts| =>
      if ts[i].Queued? then
        Bus(TimestampedOutput, StampedBody(Timestamped(ts[i].processed, ud.started.value, now, beat)), ts[i].tag)
      else ts[i])
  }

  function Without(ts: seq<Token>, i: nat): seq<Token>
    requires i < |ts|
  {
    ts[..i] + ts[i + 1..]
  }

  /**
   One atomic step; an action that does not apply changes nothing. A block beat flushes the queued
   outputs of all contexts; if one of them raises, the whole flush is lost and the queue kept.
   */
  function Step(max: int, s: Task, a: Action): Task {
    if Consumes(s, a).Some? then
      var e := EffectOf(max, s, a);
      Task(e.local, Without(s.tokens, Consumes(s, a).value) + e.sent, s.beat)
    else if a.BlockBeat? then
      Task(s.local,
           if a.flushes && s.local.ud.started.Some? then Flush(s.local.ud, s.tokens, a.now, a.beat) else s.tokens,
           Some(a.beat))
    else s
  }

  function Run(max: int, s: Task, actions: seq<Action>): Task
    decreases |actions|
  {
    if actions == [] then s else Run(max, Step(max, s, actions[0]), actions[1..])
  }
}
