/**
 What a record says belongs to the attempt it was stored for, although the user data it is put together
 from is overwritten by every attempt and callbacks come late. From any starting user data.
 */
module TaskAttribution {
  import opened Options
  import opened TaskProtocol
  import opened TaskTokens
  import RoundRobin

  /** The result names the payload, target, start time and outcome of attempt `tag`. */
  ghost predicate About(trace: seq<Attempt>, tag: nat, x: Timestamped) {
    && tag < |trace|
    && trace[tag]
       == Attempt(Some(x.output.input.input), Some(x.output.input.target), Some(x.started), Some(x.output.result))
  }

  /** Successes are stored with a public output, failures of the executor without one, and nothing else is. */
  ghost predicate KindOk(r: Record) {
    match r.result.output.result
    case Succeeded(_) => r.public.Some?
    case ExecutorFailed => r.public.None?
    case OtherException => false
  }

  /** Records are in attempt order, one per attempt at most, each about its own attempt and of its kind. */
  ghost predicate RecordsOk(l: Local) {
    && (forall i :: 0 <= i < |l.records| ==>
          About(l.trace, l.records[i].tag, l.records[i].result) && KindOk(l.records[i]))
    && (forall i, j :: 0 <= i < j < |l.records| ==> l.records[i].tag < l.records[j].tag)
  }

  /** Nothing is stored for the latest attempt yet. */
  ghost predicate Unstored(l: Local) {
    l.trace != [] && forall i :: 0 <= i < |l.records| ==> l.records[i].tag < |l.trace| - 1
  }

  /** The message carries what the current attempt `a` has settled on so far. */
  ghost predicate CarriesInput(sink: SinkName, body: Body, ud: TaskData, a: Attempt) {
    match sink
    case CreatorInput => body.InputBody? && a == Begun
    case RouterInput => body.PayloadBody? && a == Attempt(Some(body.payload), None, None, None)
    case TimestamperInput => body.RoutedBody?
      && a == Attempt(Some(body.routed.input), Some(body.routed.target), None, None)
    case CommunicatorInput =>
      body.RoutedBody? && ud.started.Some?
        && a == Attempt(Some(body.routed.input), Some(body.routed.target), ud.started, None)
    case _ => false
  }

  ghost predicate CarriesProcessed(p: Processed, ud: TaskData, a: Attempt) {
    ud.started.Some? && a == Attempt(Some(p.input.input), Some(p.input.target), ud.started, Some(p.result))
  }

  ghost predicate CarriesStamped(x: Timestamped, a: Attempt) {
    a == Attempt(Some(x.output.input.input), Some(x.output.input.target), Some(x.started), Some(x.output.result))
  }

  predicate Conversion?(sink: SinkName) {
    sink == ConverterInput || sink == PreparerConverted || sink == PreparerConversionFailed
  }

  /** What a message headed for `sink` on behalf of the latest attempt carries. */
  ghost predicate BoxFits(sink: SinkName, body: Body, l: Local) {
    if Input?(sink) then Unstored(l) && CarriesInput(sink, body, l.ud, l.trace[|l.trace| - 1])
    else if sink == TimestamperOutput then
      Unstored(l) && body.ProcessedBody? && CarriesProcessed(body.processed, l.ud, l.trace[|l.trace| - 1])
    else if sink == PreparerResult
      then Unstored(l) && body.StampedBody? && CarriesStamped(body.stamped, l.trace[|l.trace| - 1])
    else if Conversion?(sink) then
      && Unstored(l) && l.ud.slot.Holding? && CarriesStamped(l.ud.slot.result, l.trace[|l.trace| - 1])
      && l.ud.slot.result.output.result.Succeeded?
      && (sink == PreparerConverted ==> body.PublicBody?)
      && (sink == PreparerConversionFailed ==> body.ErrorBody?)
    else if sink == SuccessStorerInput then
      && Unstored(l) && body.ToPersist? && CarriesStamped(body.prepared, l.trace[|l.trace| - 1])
      && body.prepared.output.result.Succeeded?
    else if sink == FailureStorerInput then
      && Unstored(l) && body.FailureToPersist? && CarriesStamped(body.failure, l.trace[|l.trace| - 1])
      && body.failure.output.result.ExecutorFailed?
    else l.trace != []
  }

  /** Copies of records, on the way out of the task, are records that are stored. */
  ghost predicate CopyFits(t: Token, l: Local) {
    && (t.Bus? && (t.source == StoredSuccess || t.source == DispatchedSuccess) ==>
          t.body.RecordBody? && t.body.record in l.records && t.body.record.public.Some?)
    && (t.Box? && t.sink == DispatcherSuccess ==>
          t.body.RecordBody? && t.body.record in l.records && t.body.record.public.Some?)
    && (t.Bus? && (t.source == StoredFailure || t.source == DispatchedFailure) ==>
          t.body.RecordBody? && t.body.record in l.records && t.body.record.public.None?)
    && (t.Box? && t.sink == DispatcherFailure ==>
          t.body.RecordBody? && t.body.record in l.records && t.body.record.public.None?)
    && (t.Bus? && t.source == ExecutorOutput ==>
          t.body.PublicBody? && exists r :: r in l.records && r.public == Some(t.body.public))
  }

  /** A control token speaks for the latest attempt. */
  ghost predicate ControlFits(t: Token, l: Local) {
    match t
    case Box(RetryInput, body, _) => body.InputBody? && l.trace == [] && l.records == []
    case Box(sink, body, tag) => tag + 1 == |l.trace| && BoxFits(sink, body, l)
    case Bus(source, body, tag) =>
      && tag + 1 == |l.trace|
      && (Route(source).Some? ==> BoxFits(Route(source).value, body, l))
    case Timer(_) => l.trace != []
    case Pending(_, tag) =>
      && tag + 1 == |l.trace| && Unstored(l) && l.ud.saved.Some?
      && CarriesInput(CommunicatorInput, RoutedBody(l.ud.saved.value), l.ud, l.trace[tag])
    case Queued(processed, tag) =>
      && tag + 1 == |l.trace| && Unstored(l)
      && CarriesProcessed(processed, l.ud, l.trace[tag])
  }

  ghost predicate Fits(t: Token, l: Local) {
    CopyFits(t, l) && (TokenWeight(t) == 1 ==> ControlFits(t, l))
  }

  ghost predicate AllFit(ts: seq<Token>, l: Local) {
    forall i :: 0 <= i < |ts| ==> Fits(ts[i], l)
  }

  ghost predicate Attributed(s: Task) {
    Weight(s.tokens) <= 1 && RecordsOk(s.local) && AllFit(s.tokens, s.local)
  }

  /******* One handler call *******/

  lemma RetryFits(max: int, l: Local, beat: Option<Beat>, t: Token, c: Choice)
    requires t.Box? && (t.sink == RetryInput || t.sink == FailedAttempt) && RecordsOk(l) && Fits(t, l) && !c.Raises?
    ensures var e := React(max, l, beat, t.sink, t.body, t.tag, c);
            RecordsOk(e.local) && e.local.records == l.records && AllFit(e.sent, e.local)
  {
  }

  /** Writing down more about an attempt that has no record yet leaves the records alone. */
  lemma NoteKeepsRecords(l: Local, a: Attempt)
    requires RecordsOk(l) && Unstored(l)
    ensures var l1 := Note(l, |l.trace| - 1, a);
            && RecordsOk(l1) && Unstored(l1) && l1.records == l.records && l1.ud == l.ud && l1.requests == l.requests
            && |l1.trace| == |l.trace| && l1.trace[|l1.trace| - 1] == a
  {
  }

  lemma PayloadFits(l: Local, payload: Payload, tag: nat)
    requires tag + 1 == |l.trace| && Unstored(l) && l.trace[tag] == Attempt(Some(payload), None, None, None)
    ensures Fits(Bus(CreatedPayload, PayloadBody(payload), tag), l)
  {
  }

  lemma RoutedFits(l: Local, routed: Routed, tag: nat)
    requires tag + 1 == |l.trace| && Unstored(l)
    requires l.trace[tag] == Attempt(Some(routed.input), Some(routed.target), None, None)
    ensures Fits(Bus(RoutedOut, RoutedBody(routed), tag), l)
  {
  }

  lemma AttemptErrorFits(l: Local, source: SourceName, tag: nat)
    requires tag + 1 == |l.trace| && (source == CreatorError || source == RouterError)
    ensures Fits(Bus(source, ErrorBody(Failure), tag), l)
  {
  }

  lemma CreatorFits(l: Local, body: Body, tag: nat, c: Choice)
    requires RecordsOk(l) && tag + 1 == |l.trace| && BoxFits(CreatorInput, body, l)
    ensures var e := OnCreator(l, tag, c);
            RecordsOk(e.local) && e.local.records == l.records && AllFit(e.sent, e.local)
  {
    if c.Creates? {
      NoteKeepsRecords(l, Noted(l, tag).(payload := Some(c.payload)));
      PayloadFits(OnCreator(l, tag, c).local, c.payload, tag);
    } else if c.Fails? {
      AttemptErrorFits(l, CreatorError, tag);
    }
    hide Fits;
  }

  lemma RouterFits(l: Local, body: Body, tag: nat, c: Choice)
    requires RecordsOk(l) && tag + 1 == |l.trace| && BoxFits(RouterInput, body, l)
    ensures var e := OnRouter(l, body.payload, tag, c);
            RecordsOk(e.local) && e.local.records == l.records && AllFit(e.sent, e.local)
  {
    if c.Routes? {
      hide RoundRobin.SelectAt;
      var target := RoundRobin.SelectAt(c.offer, l.ud.routing.shuffle, RoutedCount(l.ud));
      if target.Some? {
        NoteKeepsRecords(l, Noted(l, tag).(target := target));
        RoutedFits(OnRouter(l, body.payload, tag, c).local, Routed(body.payload, target.value), tag);
      } else {
        AttemptErrorFits(l, RouterError, tag);
      }
    } else if c.Fails? {
      AttemptErrorFits(l, RouterError, tag);
    }
    hide Fits;
  }

  lemma ForwardedFits(l: Local, routed: Routed, tag: nat)
    requires tag + 1 == |l.trace| && Unstored(l)
    requires CarriesInput(CommunicatorInput, RoutedBody(routed), l.ud, l.trace[tag])
    ensures Fits(Bus(ForwardedInput, RoutedBody(routed), tag), l)
  {
  }

  lemma StampFits(l: Local, body: Body, tag: nat, c: Choice)
    requires RecordsOk(l) && tag + 1 == |l.trace| && BoxFits(TimestamperInput, body, l)
    ensures var e := OnTimestamperInput(l, body.routed, tag, c);
            RecordsOk(e.local) && e.local.records == l.records && AllFit(e.sent, e.local)
  {
    if c.At? {
      NoteKeepsRecords(l, Noted(l, tag).(started := Some(c.now)));
      ForwardedFits(OnTimestamperInput(l, body.routed, tag, c).local, body.routed, tag);
    }
    hide Fits;
  }

  lemma AnswerFits(l: Local, result: Result, tag: nat)
    requires RecordsOk(l) && Unstored(l) && tag + 1 == |l.trace| && l.ud.saved.Some?
    requires CarriesInput(CommunicatorInput, RoutedBody(l.ud.saved.value), l.ud, l.trace[tag])
    ensures var e := OnAnswer(l, result, tag);
            RecordsOk(e.local) && e.local.records == l.records && AllFit(e.sent, e.local)
  {
    NoteKeepsRecords(l, Noted(l, tag).(result := Some(result)));
  }

  lemma CommunicatorFits(l: Local, body: Body, tag: nat, c: Choice)
    requires RecordsOk(l) && tag + 1 == |l.trace| && BoxFits(CommunicatorInput, body, l)
    ensures var e := OnCommunicator(l, body.routed, tag, c);
            RecordsOk(e.local) && e.local.records == l.records && AllFit(e.sent, e.local)
  {
    if c.Answers? {
      AnswerFits(l.(ud := SaveInput(l.ud, body.routed)), c.result, tag);
    }
  }

  lemma InputFits(max: int, l: Local, beat: Option<Beat>, t: Token, c: Choice)
    requires t.Box? && Input?(t.sink) && RecordsOk(l) && Fits(t, l) && !c.Raises?
    ensures var e := React(max, l, beat, t.sink, t.body, t.tag, c);
            RecordsOk(e.local) && e.local.records == l.records && AllFit(e.sent, e.local)
  {
    match t.sink
    case CreatorInput => CreatorFits(l, t.body, t.tag, c);
    case RouterInput => RouterFits(l, t.body, t.tag, c);
    case TimestamperInput => StampFits(l, t.body, t.tag, c);
    case CommunicatorInput => CommunicatorFits(l, t.body, t.tag, c);
  }

  lemma TimestamperOutputFits(l: Local, beat: Option<Beat>, body: Body, tag: nat, c: Choice)
    requires RecordsOk(l) && tag + 1 == |l.trace| && BoxFits(TimestamperOutput, body, l)
    ensures var e := OnTimestamperOutput(l, beat, body.processed, tag, c);
            e.local == l && AllFit(e.sent, l)
  {
  }

  lemma PreparerErrorFits(l: Local, error: Error, tag: nat)
    requires tag + 1 == |l.trace|
    ensures Fits(Bus(PreparerError, ErrorBody(error), tag), l)
  {
  }

  lemma ForwardedResultFits(l: Local, x: Timestamped, tag: nat)
    requires RecordsOk(l) && tag + 1 == |l.trace| && Unstored(l) && CarriesStamped(x, l.trace[tag])
    ensures x.output.result.ExecutorFailed? ==> Fits(Bus(PreparedFailure, FailureToPersist(x), tag), l)
    ensures x.output.result.Succeeded? ==>
              Fits(Bus(ForConversion, OutputBody(x.output.result.output), tag), l.(ud := l.ud.(slot := Holding(x))))
  {
  }

  lemma PrepareResultFits(l: Local, x: Timestamped, tag: nat)
    requires RecordsOk(l) && tag + 1 == |l.trace| && Unstored(l) && CarriesStamped(x, l.trace[tag])
    ensures var e := Apply(l, PrepareResult(l.ud, x), tag);
            RecordsOk(e.local) && e.local.records == l.records && AllFit(e.sent, e.local)
  {
    PreparerErrorFits(l, UnexpectedErrorType, tag);
    PreparerErrorFits(l, DuplicateResult, tag);
    ForwardedResultFits(l, x, tag);
  }

  lemma PrepareConvertedFits(l: Local, public: Public, tag: nat)
    requires RecordsOk(l) && tag + 1 == |l.trace| && BoxFits(PreparerConverted, PublicBody(public), l)
    ensures var e := Apply(l, PrepareConverted(l.ud, public), tag);
            RecordsOk(e.local) && e.local.records == l.records && AllFit(e.sent, e.local)
  {
  }

  lemma PrepareConversionFailedFits(l: Local, error: Error, tag: nat)
    requires RecordsOk(l) && tag + 1 == |l.trace|
    ensures var e := Apply(l, PrepareConversionFailed(l.ud, error), tag);
            RecordsOk(e.local) && e.local.records == l.records && AllFit(e.sent, e.local)
  {
    PreparerErrorFits(l.(ud := PrepareConversionFailed(l.ud, error).ud), error, tag);
  }

  lemma ConverterFits(l: Local, body: Body, tag: nat, c: Choice)
    requires tag + 1 == |l.trace| && BoxFits(ConverterInput, body, l)
    ensures var e := OnConverter(l, tag, c);
            e.local == l && AllFit(e.sent, l)
  {
  }

  lemma OutputFits(max: int, l: Local, beat: Option<Beat>, t: Token, c: Choice)
    requires t.Box? && (t.sink == TimestamperOutput || t.sink == PreparerResult || Conversion?(t.sink))
    requires RecordsOk(l) && Fits(t, l) && !c.Raises?
    ensures var e := React(max, l, beat, t.sink, t.body, t.tag, c);
            RecordsOk(e.local) && e.local.records == l.records && AllFit(e.sent, e.local)
  {
    if t.sink == TimestamperOutput {
      TimestamperOutputFits(l, beat, t.body, t.tag, c);
    } else if t.sink == ConverterInput {
      ConverterFits(l, t.body, t.tag, c);
    } else if t.sink == PreparerResult {
      PrepareResultFits(l, t.body.stamped, t.tag);
    } else if t.sink == PreparerConverted {
      PrepareConvertedFits(l, t.body.public, t.tag);
    } else {
      PrepareConversionFailedFits(l, t.body.error, t.tag);
    }
  }

  /** The first record of the latest attempt goes to the end of the store. */
  lemma RecordAppends(l: Local, r: Record)
    requires RecordsOk(l) && Unstored(l) && About(l.trace, r.tag, r.result) && r.tag + 1 == |l.trace| && KindOk(r)
    ensures var l1 := l.(records := l.records + [r]);
            RecordsOk(l1) && l.records <= l1.records && r in l1.records
  {
    assert r == (l.records + [r])[|l.records|];
  }

  /** The messages a storer sends once record `r` is stored, or is not. */
  lemma ErrorFits(l: Local, source: SourceName, tag: nat)
    requires tag + 1 == |l.trace| && (source == SuccessStorerError || source == FailureStorerError)
    ensures Fits(Bus(source, ErrorBody(Failure), tag), l)
  {
  }

  lemma StoredSuccessFits(l: Local, r: Record, tag: nat)
    requires tag + 1 == |l.trace| && r in l.records && r.public.Some?
    ensures Fits(Bus(StoredSuccess, RecordBody(r), tag), l)
  {
  }

  lemma StoredFailureFits(l: Local, r: Record, tag: nat)
    requires tag + 1 == |l.trace| && r in l.records && r.public.None?
    ensures Fits(Bus(StoredFailure, RecordBody(r), tag), l)
  {
  }

  lemma SuccessStorerFits(l: Local, stamped: Timestamped, public: Public, tag: nat, c: Choice)
    requires RecordsOk(l) && tag + 1 == |l.trace| && Unstored(l) && About(l.trace, tag, stamped)
    requires stamped.output.result.Succeeded?
    ensures var e := OnSuccessStorer(l, stamped, public, tag, c);
            RecordsOk(e.local) && l.records <= e.local.records && AllFit(e.sent, e.local)
  {
    var r := Record(stamped, Some(public), tag);
    var l1 := l.(records := l.records + [r]);
    RecordAppends(l, r);
    ErrorFits(l, SuccessStorerError, tag);
    ErrorFits(l1, SuccessStorerError, tag);
    StoredSuccessFits(l1, r, tag);
  }

  lemma FailureStorerFits(l: Local, stamped: Timestamped, tag: nat, c: Choice)
    requires RecordsOk(l) && tag + 1 == |l.trace| && Unstored(l) && About(l.trace, tag, stamped)
    requires stamped.output.result.ExecutorFailed?
    ensures var e := OnFailureStorer(l, stamped, tag, c);
            RecordsOk(e.local) && l.records <= e.local.records && AllFit(e.sent, e.local)
  {
    var r := Record(stamped, None, tag);
    var l1 := l.(records := l.records + [r]);
    RecordAppends(l, r);
    ErrorFits(l, FailureStorerError, tag);
    ErrorFits(l1, FailureStorerError, tag);
    StoredFailureFits(l1, r, tag);
  }

  lemma StorerFits(max: int, l: Local, beat: Option<Beat>, t: Token, c: Choice)
    requires t.Box? && (t.sink == SuccessStorerInput || t.sink == FailureStorerInput) && RecordsOk(l) && Fits(t, l)
    requires !c.Raises?
    ensures var e := React(max, l, beat, t.sink, t.body, t.tag, c);
            RecordsOk(e.local) && l.records <= e.local.records && AllFit(e.sent, e.local)
  {
    if t.sink == SuccessStorerInput {
      SuccessStorerFits(l, t.body.prepared, t.body.preparedPublic, t.tag, c);
    } else {
      FailureStorerFits(l, t.body.failure, t.tag, c);
    }
  }

  lemma DispatcherFits(max: int, l: Local, beat: Option<Beat>, t: Token, c: Choice)
    requires t.Box? && (t.sink == DispatcherSuccess || t.sink == DispatcherFailure)
    requires RecordsOk(l) && Fits(t, l) && !c.Raises?
    ensures var e := React(max, l, beat, t.sink, t.body, t.tag, c);
            e.local == l && AllFit(e.sent, l)
  {
  }

  lemma TaskErrorFits(l: Local, body: Body, tag: nat)
    requires tag + 1 == |l.trace|
    ensures Fits(Bus(TaskError, body, tag), l)
  {
    hide BoxFits;
  }

  lemma MuxFits(max: int, l: Local, beat: Option<Beat>, t: Token, c: Choice)
    requires t.Box? && (t.sink == MuxLeft || t.sink == MuxRight) && Fits(t, l) && !c.Raises?
    ensures var e := React(max, l, beat, t.sink, t.body, t.tag, c);
            e.local == l && AllFit(e.sent, l)
  {
    assert t.tag + 1 == |l.trace|;
    TaskErrorFits(l, t.body, t.tag);
    hide Fits;
  }

  lemma RaisedSendsNothing(max: int, l: Local, beat: Option<Beat>, sink: SinkName, body: Body, tag: nat, c: Choice)
    requires c.Raises? && RecordsOk(l)
    ensures var e := React(max, l, beat, sink, body, tag, c);
            && e.sent == [] && e.local.records == l.records && RecordsOk(e.local)
            && (sink == DispatcherFailure ==> e.local == l)
  {
  }

  /** The stages from the storers on. */
  lemma LateFits(max: int, l: Local, beat: Option<Beat>, t: Token, c: Choice)
    requires t.Box? && RecordsOk(l) && Fits(t, l) && !c.Raises?
    requires t.sink == SuccessStorerInput || t.sink == FailureStorerInput || t.sink == MuxLeft || t.sink == MuxRight
             || t.sink == DispatcherSuccess || t.sink == DispatcherFailure
    ensures var e := React(max, l, beat, t.sink, t.body, t.tag, c);
            && RecordsOk(e.local) && l.records <= e.local.records && AllFit(e.sent, e.local)
            && (TokenWeight(t) == 0 ==> e.local == l)
  {
    hide React;
    hide Fits;
    hide RecordsOk;
    if t.sink == SuccessStorerInput || t.sink == FailureStorerInput {
      StorerFits(max, l, beat, t, c);
    } else if t.sink == MuxLeft || t.sink == MuxRight {
      MuxFits(max, l, beat, t, c);
    } else {
      DispatcherFits(max, l, beat, t, c);
    }
  }

  lemma ReactFits(max: int, l: Local, beat: Option<Beat>, t: Token, c: Choice)
    requires t.Box? && RecordsOk(l) && Fits(t, l)
    ensures var e := React(max, l, beat, t.sink, t.body, t.tag, c);
            && RecordsOk(e.local) && l.records <= e.local.records && AllFit(e.sent, e.local)
            && (TokenWeight(t) == 0 ==> e.local == l)
  {
    hide React;
    hide Fits;
    hide RecordsOk;
    if c.Raises? {
      RaisedSendsNothing(max, l, beat, t.sink, t.body, t.tag, c);
    } else if Input?(t.sink) {
      InputFits(max, l, beat, t, c);
    } else if t.sink == RetryInput || t.sink == FailedAttempt {
      RetryFits(max, l, beat, t, c);
    } else if t.sink == TimestamperOutput || t.sink == PreparerResult || Conversion?(t.sink) {
      OutputFits(max, l, beat, t, c);
    } else {
      LateFits(max, l, beat, t, c);
    }
  }

  /******* One step *******/

  lemma FireFits(l: Local)
    requires RecordsOk(l) && l.trace != []
    ensures var e := NewAttempt(l, RetryOnTimer(l.ud));
            RecordsOk(e.local) && e.local.records == l.records && AllFit(e.sent, e.local)
  {
  }

  lemma DeliverFits(t: Token, l: Local)
    requires t.Bus? && Route(t.source).Some? && Fits(t, l)
    ensures Fits(Box(Route(t.source).value, t.body, t.tag), l)
  {
  }

  lemma EffectFits(max: int, s: Task, a: Action)
    requires Attributed(s) && Consumes(s, a).Some?
    ensures var t, e := s.tokens[Consumes(s, a).value], EffectOf(max, s, a);
            && RecordsOk(e.local) && s.local.records <= e.local.records && AllFit(e.sent, e.local)
            && (TokenWeight(t) == 0 ==> e.local == s.local)
  {
    var t := s.tokens[Consumes(s, a).value];
    assert Fits(t, s.local);
    match a
    case Deliver(_) => DeliverFits(t, s.local);
    case Handle(_, choice) => ReactFits(max, s.local, s.beat, t, choice);
    case Fire(_) => FireFits(s.local);
    case Callback(_, result) => AnswerFits(s.local, result, t.tag);
    case _ =>
  }

  lemma CopyStays(t: Token, l: Local, l1: Local)
    requires TokenWeight(t) == 0 && Fits(t, l) && l.records <= l1.records
    ensures Fits(t, l1)
  {
  }

  lemma RestFits(s: Task, i: nat, l1: Local, sent: seq<Token>)
    requires Attributed(s) && i < |s.tokens| && s.local.records <= l1.records && AllFit(sent, l1)
    requires TokenWeight(s.tokens[i]) == 0 ==> l1 == s.local
    ensures AllFit(Without(s.tokens, i) + sent, l1)
  {
    hide RecordsOk;
    var rest := Without(s.tokens, i);
    var ts := rest + sent;
    forall j | 0 <= j < |ts| ensures Fits(ts[j], l1) {
      if j < |rest| {
        var k := if j < i then j else j + 1;
        assert ts[j] == s.tokens[k];
        WeightOfTwo(s.tokens, k, i);
        if TokenWeight(s.tokens[k]) == 0 {
          CopyStays(s.tokens[k], s.local, l1);
        }
      } else {
        assert ts[j] == sent[j - |rest|];
      }
    }
  }

  lemma FlushFits(l: Local, ts: seq<Token>, now: Time, beat: Beat)
    requires l.ud.started.Some? && AllFit(ts, l)
    ensures AllFit(Flush(l.ud, ts, now, beat), l)
  {
    var r := Flush(l.ud, ts, now, beat);
    forall i | 0 <= i < |r| ensures Fits(r[i], l) {
      assert Fits(ts[i], l);
    }
  }

  lemma StepAttributes(max: int, s: Task, a: Action)
    requires Attributed(s)
    ensures Attributed(Step(max, s, a)) && s.local.records <= Step(max, s, a).local.records
  {
    StepNeverAdds(max, s, a);
    var i := Consumes(s, a);
    if i.Some? {
      EffectFits(max, s, a);
      var e := EffectOf(max, s, a);
      RestFits(s, i.value, e.local, e.sent);
    } else if a.BlockBeat? && s.local.ud.started.Some? {
      FlushFits(s.local, s.tokens, a.now, a.beat);
    }
  }

  /******* Whole runs *******/

  lemma {:induction false} RunAttributes(max: int, s: Task, actions: seq<Action>)
    requires Attributed(s)
    ensures Attributed(Run(max, s, actions)) && s.local.records <= Run(max, s, actions).local.records
    decreases |actions|
  {
    if actions != [] {
      StepAttributes(max, s, actions[0]);
      RunAttributes(max, Step(max, s, actions[0]), actions[1..]);
    }
  }

  lemma StartAttributes(ud: TaskData, input: Input)
    ensures Attributed(Start(ud, input))
  {
    WeightOfShort(Start(ud, input).tokens);
  }

  /**
   Main theorem: after any run, every stored record is about the attempt it is filed under and has a public
   output just when that attempt succeeded, and no two records are filed under one attempt.
   */
  lemma RecordsAreAttributed(max: int, ud: TaskData, input: Input, actions: seq<Action>)
    ensures var l := Run(max, Start(ud, input), actions).local;
            && (forall r :: r in l.records ==>
                  && About(l.trace, r.tag, r.result)
                  && (r.public.Some? <==> r.result.output.result.Succeeded?)
                  && (r.public.None? <==> r.result.output.result.ExecutorFailed?))
            && (forall i, j :: 0 <= i < j < |l.records| ==> l.records[i].tag < l.records[j].tag)
  {
    StartAttributes(ud, input);
    RunAttributes(max, Start(ud, input), actions);
    var l := Run(max, Start(ud, input), actions).local;
    forall r | r in l.records ensures About(l.trace, r.tag, r.result) && KindOk(r) {
      var i :| 0 <= i < |l.records| && l.records[i] == r;
    }
  }

  /**
   What leaves the task as a result was stored: every dispatched record is in the store, under the kind
   it is dispatched as, and an executor output is the public form of a stored success.
   */
  lemma DispatchedIsStored(max: int, ud: TaskData, input: Input, actions: seq<Action>, t: Token)
    requires t in Run(max, Start(ud, input), actions).tokens && t.Bus?
    ensures var records := Run(max, Start(ud, input), actions).local.records;
            && (t.source == DispatchedSuccess || t.source == DispatchedFailure ==>
                  t.body.RecordBody? && t.body.record in records
                    && (t.body.record.public.Some? <==> t.source == DispatchedSuccess))
            && (t.source == ExecutorOutput ==>
                  t.body.PublicBody? && exists r :: r in records && r.public == Some(t.body.public))
  {
    StartAttributes(ud, input);
    RunAttributes(max, Start(ud, input), actions);
    var s := Run(max, Start(ud, input), actions);
    var i :| 0 <= i < |s.tokens| && s.tokens[i] == t;
    assert Fits(s.tokens[i], s.local);
  }
}
