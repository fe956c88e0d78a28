/**
 What the messages of a task say is what happened: every time stamp was taken at a step of the run with the beat
 of that moment, and the one answer of the task says how its last attempt came out.
 */
module TaskReasons {
  import opened Options
  import opened TaskProtocol
  import opened TaskTokens
  import opened TaskAttribution
  import opened TaskOutcomes
  import RoundRobin

  type Clock = (Time, Beat)

  /** The moments at which a step may stamp outputs: an output is handled with a beat there, or a beat flushes. */
  function ClockOf(s: Task, a: Action): set<Clock> {
    match a
    case Handle(_, choice) => if choice.At? && s.beat.Some? then {(choice.now, s.beat.value)} else {}
    case BlockBeat(beat, now, flushes) => if flushes then {(now, beat)} else {}
    case _ => {}
  }

  function Clocks(max: int, s: Task, actions: seq<Action>): set<Clock>
    decreases |actions|
  {
    if actions == [] then {} else ClockOf(s, actions[0]) + Clocks(max, Step(max, s, actions[0]), actions[1..])
  }

  predicate StampIn(x: Timestamped, clocks: set<Clock>) {
    (x.finished, x.beat) in clocks
  }

  function LastResult(l: Local): Option<Result> {
    if l.trace == [] then None else l.trace[|l.trace| - 1].result
  }

  /** The last attempt is one to try again after: not answered, failed by the executor, or not stored. */
  predicate Retryable(r: Option<Result>, free: bool) {
    r.Some? ==> r.value.ExecutorFailed? || (r.value.Succeeded? && free)
  }

  /** The error is the one that the preparer or the converter raises about such an answer. */
  predicate Explained(body: Body, r: Option<Result>, free: bool) {
    && body.ErrorBody? && r.Some?
    && match body.error
       case UnexpectedErrorType => r.value.OtherException?
       case DuplicateResult => r.value.Succeeded? && !free
       case Failure => r.value.Succeeded? && free
       case _ => false
  }

  /** What a message headed for `sink` says about the last attempt. */
  predicate BoxTells(sink: SinkName, body: Body, l: Local, free: bool, clocks: set<Clock>) {
    match sink
    case FailedAttempt => Retryable(LastResult(l), free)
    case MuxLeft => body == ErrorBody(Exhausted) && Retryable(LastResult(l), free)
    case MuxRight => Explained(body, LastResult(l), free)
    case PreparerResult => body.StampedBody? && StampIn(body.stamped, clocks)
    case ConverterInput => l.ud.slot.Holding? && StampIn(l.ud.slot.result, clocks)
    case PreparerConverted => l.ud.slot.Holding? && StampIn(l.ud.slot.result, clocks)
    case PreparerConversionFailed => body == ErrorBody(Failure)
    case SuccessStorerInput => body.ToPersist? && StampIn(body.prepared, clocks)
    case FailureStorerInput => body.FailureToPersist? && StampIn(body.failure, clocks)
    case DispatcherSuccess => LastResult(l).Some? && LastResult(l).value.Succeeded? && free
    case _ => true
  }

  predicate Tells(t: Token, l: Local, free: bool, clocks: set<Clock>) {
    match t
    case Box(sink, body, _) => BoxTells(sink, body, l, free, clocks)
    case Bus(source, body, _) =>
      if Route(source).Some? then BoxTells(Route(source).value, body, l, free, clocks)
      else if source == ExecutorOutput then LastResult(l).Some? && LastResult(l).value.Succeeded? && free
      else if source == TaskError then
        (body == ErrorBody(Exhausted) && Retryable(LastResult(l), free)) || Explained(body, LastResult(l), free)
      else true
    case Timer(_) => Retryable(LastResult(l), free)
    case _ => true
  }

  ghost predicate AllTell(ts: seq<Token>, l: Local, free: bool, clocks: set<Clock>) {
    forall i :: 0 <= i < |ts| && TokenWeight(ts[i]) == 1 ==> Tells(ts[i], l, free, clocks)
  }

  predicate RecordsStamped(l: Local, clocks: set<Clock>) {
    forall r :: r in l.records ==> StampIn(r.result, clocks)
  }

  /** What consuming `t` must come to. */
  ghost predicate Told(e: Effect, free: bool, clocks: set<Clock>) {
    RecordsStamped(e.local, clocks) && AllTell(e.sent, e.local, free, clocks)
  }

  lemma FirstInputsTell(max: int, l: Local, beat: Option<Beat>, t: Token, c: Choice, free: bool, clocks: set<Clock>)
    requires t.Box? && (t.sink == CreatorInput || t.sink == TimestamperInput || t.sink == CommunicatorInput)
    requires Fits(t, l) && !c.Raises? && RecordsStamped(l, clocks)
    ensures Told(React(max, l, beat, t.sink, t.body, t.tag, c), free, clocks)
  {
  }

  lemma RouterTells(l: Local, payload: Payload, tag: nat, c: Choice, free: bool, clocks: set<Clock>)
    requires LastResult(l).None? && tag + 1 == |l.trace| && RecordsStamped(l, clocks)
    ensures Told(OnRouter(l, payload, tag, c), free, clocks)
  {
    hide RoundRobin.SelectAt;
  }

  lemma InputsTell(max: int, l: Local, beat: Option<Beat>, t: Token, c: Choice, free: bool, clocks: set<Clock>)
    requires t.Box? && Input?(t.sink) && Fits(t, l) && !c.Raises? && RecordsStamped(l, clocks)
    ensures Told(React(max, l, beat, t.sink, t.body, t.tag, c), free, clocks)
  {
    if t.sink == RouterInput {
      RouterTells(l, t.body.payload, t.tag, c, free, clocks);
    } else {
      FirstInputsTell(max, l, beat, t, c, free, clocks);
    }
    hide Told;
    hide OnRouter;
  }

  lemma RetryTells(max: int, l: Local, beat: Option<Beat>, t: Token, c: Choice, free: bool, clocks: set<Clock>)
    requires t.Box? && Retry?(t.sink) && Fits(t, l) && !c.Raises? && RecordsStamped(l, clocks)
    requires Tells(t, l, free, clocks)
    ensures Told(React(max, l, beat, t.sink, t.body, t.tag, c), free, clocks)
  {
  }

  lemma StampTells(max: int, l: Local, beat: Option<Beat>, t: Token, c: Choice, free: bool, clocks: set<Clock>)
    requires t.Box? && t.sink == TimestamperOutput && Fits(t, l) && !c.Raises? && RecordsStamped(l, clocks)
    requires c.At? && beat.Some? ==> (c.now, beat.value) in clocks
    ensures Told(React(max, l, beat, t.sink, t.body, t.tag, c), free, clocks)
  {
  }

  lemma PreparedTells(l: Local, stamped: Timestamped, tag: nat, free: bool, clocks: set<Clock>)
    requires RecordsStamped(l, clocks) && StampIn(stamped, clocks)
    requires LastResult(l) == Some(stamped.output.result) && Free(l.ud.slot) == free
    ensures Told(Apply(l, PrepareResult(l.ud, stamped), tag), free, clocks)
  {
    var e := Apply(l, PrepareResult(l.ud, stamped), tag);
    assert e.local.records == l.records && LastResult(e.local) == LastResult(l);
    assert |e.sent| == 1 && Tells(e.sent[0], e.local, free, clocks);
    hide Tells;
  }

  lemma ResultTells(max: int, l: Local, beat: Option<Beat>, t: Token, c: Choice, original: Input, free: bool,
                    clocks: set<Clock>)
    requires t.Box? && t.sink == PreparerResult && Fits(t, l) && Kept(original, free, l.ud, t)
    requires !c.Raises? && RecordsStamped(l, clocks) && Tells(t, l, free, clocks)
    ensures Told(React(max, l, beat, t.sink, t.body, t.tag, c), free, clocks)
  {
    PreparedTells(l, t.body.stamped, t.tag, free, clocks);
    hide Told;
    hide PrepareResult;
  }

  lemma ConverterTells(max: int, l: Local, beat: Option<Beat>, t: Token, c: Choice, free: bool, clocks: set<Clock>)
    requires t.Box? && t.sink == ConverterInput && !c.Raises?
    requires RecordsStamped(l, clocks) && Tells(t, l, free, clocks)
    ensures Told(React(max, l, beat, t.sink, t.body, t.tag, c), free, clocks)
  {
  }

  lemma ConversionTells(max: int, l: Local, beat: Option<Beat>, t: Token, c: Choice, original: Input, free: bool,
                        clocks: set<Clock>)
    requires t.Box? && (t.sink == PreparerConverted || t.sink == PreparerConversionFailed)
    requires Fits(t, l) && Kept(original, free, l.ud, t)
    requires !c.Raises? && RecordsStamped(l, clocks) && Tells(t, l, free, clocks)
    ensures Told(React(max, l, beat, t.sink, t.body, t.tag, c), free, clocks)
  {
  }

  lemma SuccessStorerTells(l: Local, stamped: Timestamped, public: Public, tag: nat, c: Choice, clocks: set<Clock>)
    requires RecordsStamped(l, clocks) && StampIn(stamped, clocks) && LastResult(l).Some?
    requires LastResult(l).value.Succeeded?
    ensures Told(OnSuccessStorer(l, stamped, public, tag, c), true, clocks)
  {
  }

  lemma FailureStorerTells(l: Local, stamped: Timestamped, tag: nat, c: Choice, free: bool, clocks: set<Clock>)
    requires RecordsStamped(l, clocks) && StampIn(stamped, clocks) && LastResult(l) == Some(ExecutorFailed)
    ensures Told(OnFailureStorer(l, stamped, tag, c), free, clocks)
  {
  }

  lemma StorersTell(max: int, l: Local, beat: Option<Beat>, t: Token, c: Choice, original: Input, free: bool,
                    clocks: set<Clock>)
    requires t.Box? && Storer?(t.sink) && Fits(t, l) && Kept(original, free, l.ud, t)
    requires !c.Raises? && RecordsStamped(l, clocks) && Tells(t, l, free, clocks)
    ensures Told(React(max, l, beat, t.sink, t.body, t.tag, c), free, clocks)
  {
    if t.sink == SuccessStorerInput {
      SuccessStorerTells(l, t.body.prepared, t.body.preparedPublic, t.tag, c, clocks);
    } else {
      FailureStorerTells(l, t.body.failure, t.tag, c, free, clocks);
    }
    hide Told;
    hide OnSuccessStorer;
    hide OnFailureStorer;
  }

  lemma LastTell(max: int, l: Local, beat: Option<Beat>, t: Token, c: Choice, free: bool, clocks: set<Clock>)
    requires t.Box?
    requires t.sink == DispatcherSuccess || t.sink == DispatcherFailure || t.sink == MuxLeft || t.sink == MuxRight
    requires !c.Raises? && RecordsStamped(l, clocks) && (TokenWeight(t) == 1 ==> Tells(t, l, free, clocks))
    ensures Told(React(max, l, beat, t.sink, t.body, t.tag, c), free, clocks)
  {
  }

  lemma MiddleTells(max: int, l: Local, beat: Option<Beat>, t: Token, c: Choice, original: Input, free: bool,
                    clocks: set<Clock>)
    requires t.Box? && (Preparer?(t.sink) || t.sink == ConverterInput || t.sink == TimestamperOutput) && !c.Raises?
    requires Fits(t, l) && Kept(original, free, l.ud, t) && RecordsStamped(l, clocks) && Tells(t, l, free, clocks)
    requires c.At? && beat.Some? ==> (c.now, beat.value) in clocks
    ensures Told(React(max, l, beat, t.sink, t.body, t.tag, c), free, clocks)
  {
    hide Told;
    hide Fits;
    hide Kept;
    hide Tells;
    hide React;
    hide RecordsStamped;
    if t.sink == ConverterInput {
      ConverterTells(max, l, beat, t, c, free, clocks);
    } else if t.sink == TimestamperOutput {
      StampTells(max, l, beat, t, c, free, clocks);
    } else if t.sink == PreparerResult {
      ResultTells(max, l, beat, t, c, original, free, clocks);
    } else {
      ConversionTells(max, l, beat, t, c, original, free, clocks);
    }
  }

  lemma HandleTells(max: int, l: Local, beat: Option<Beat>, t: Token, c: Choice, original: Input, free: bool,
                    clocks: set<Clock>)
    requires t.Box? && Fits(t, l) && Kept(original, free, l.ud, t) && RecordsStamped(l, clocks)
    requires TokenWeight(t) == 1 ==> Tells(t, l, free, clocks)
    requires c.At? && beat.Some? ==> (c.now, beat.value) in clocks
    ensures Told(React(max, l, beat, t.sink, t.body, t.tag, c), free, clocks)
  {
    hide Told;
    hide Fits;
    hide Kept;
    hide Tells;
    hide React;
    hide RecordsStamped;
    if c.Raises? {
      RaisedTells(max, l, beat, t, c, free, clocks);
    } else if Input?(t.sink) {
      InputsTell(max, l, beat, t, c, free, clocks);
    } else if Retry?(t.sink) {
      RetryTells(max, l, beat, t, c, free, clocks);
    } else if Storer?(t.sink) {
      StorersTell(max, l, beat, t, c, original, free, clocks);
    } else if Preparer?(t.sink) || t.sink == ConverterInput || t.sink == TimestamperOutput {
      MiddleTells(max, l, beat, t, c, original, free, clocks);
    } else {
      LastTell(max, l, beat, t, c, free, clocks);
    }
  }

  lemma RaisedTells(max: int, l: Local, beat: Option<Beat>, t: Token, c: Choice, free: bool, clocks: set<Clock>)
    requires t.Box? && c.Raises? && RecordsStamped(l, clocks)
    ensures Told(React(max, l, beat, t.sink, t.body, t.tag, c), free, clocks)
  {
  }

  lemma FireTells(l: Local, t: Token, free: bool, clocks: set<Clock>)
    requires RecordsStamped(l, clocks)
    ensures Told(NewAttempt(l, RetryOnTimer(l.ud)), free, clocks)
  {
  }

  lemma AnswerTells(l: Local, result: Result, t: Token, free: bool, clocks: set<Clock>)
    requires RecordsStamped(l, clocks)
    ensures Told(OnAnswer(l, result, t.tag), free, clocks)
  {
  }

  lemma EffectTells(max: int, s: Task, a: Action, original: Input, free: bool, clocks: set<Clock>)
    requires Attributed(s) && AllKept(original, free, s.local.ud, s.tokens) && Consumes(s, a).Some?
    requires RecordsStamped(s.local, clocks) && AllTell(s.tokens, s.local, free, clocks) && ClockOf(s, a) <= clocks
    ensures Told(EffectOf(max, s, a), free, clocks)
  {
    var t := s.tokens[Consumes(s, a).value];
    assert Fits(t, s.local) && Kept(original, free, s.local.ud, t);
    match a
    case Deliver(_) => assert TokenWeight(t) == 1 ==> Tells(t, s.local, free, clocks);
    case Handle(_, choice) => HandleTells(max, s.local, s.beat, t, choice, original, free, clocks);
    case Fire(_) => FireTells(s.local, t, free, clocks);
    case Callback(_, result) => AnswerTells(s.local, result, t, free, clocks);
    case _ =>
    hide React;
    hide NewAttempt;
    hide OnAnswer;
    hide Fits;
    hide Kept;
  }

  ghost predicate AllTold(s: Task, free: bool, clocks: set<Clock>) {
    RecordsStamped(s.local, clocks) && AllTell(s.tokens, s.local, free, clocks)
  }

  lemma MoreClocks(s: Task, free: bool, clocks: set<Clock>, more: set<Clock>)
    requires AllTold(s, free, clocks) && clocks <= more
    ensures AllTold(s, free, more)
  {
    forall i | 0 <= i < |s.tokens| && TokenWeight(s.tokens[i]) == 1 ensures Tells(s.tokens[i], s.local, free, more) {
      assert Tells(s.tokens[i], s.local, free, clocks);
    }
  }

  lemma RestTells(s: Task, i: nat, e: Effect, free: bool, clocks: set<Clock>)
    requires Weight(s.tokens) <= 1 && i < |s.tokens| && (TokenWeight(s.tokens[i]) == 0 ==> e.local == s.local)
    requires AllTold(s, free, clocks) && Told(e, free, clocks)
    ensures AllTell(Without(s.tokens, i) + e.sent, e.local, free, clocks)
  {
    hide Tells;
    var rest := Without(s.tokens, i);
    var ts := rest + e.sent;
    forall j | 0 <= j < |ts| && TokenWeight(ts[j]) == 1 ensures Tells(ts[j], e.local, free, clocks) {
      if j < |rest| {
        var k := if j < i then j else j + 1;
        assert ts[j] == s.tokens[k];
        WeightOfTwo(s.tokens, k, i);
      } else {
        assert ts[j] == e.sent[j - |rest|];
      }
    }
  }

  lemma FlushTells(s: Task, now: Time, beat: Beat, free: bool, clocks: set<Clock>)
    requires s.local.ud.started.Some? && AllTold(s, free, clocks) && (now, beat) in clocks
    ensures AllTell(Flush(s.local.ud, s.tokens, now, beat), s.local, free, clocks)
  {
    var r := Flush(s.local.ud, s.tokens, now, beat);
    forall i | 0 <= i < |r| && TokenWeight(r[i]) == 1 ensures Tells(r[i], s.local, free, clocks) {
      assert TokenWeight(s.tokens[i]) == 1 ==> Tells(s.tokens[i], s.local, free, clocks);
    }
  }

  lemma StepTells(max: int, s: Task, a: Action, original: Input, free: bool, clocks: set<Clock>)
    requires Attributed(s) && AllKept(original, free, s.local.ud, s.tokens) && AllTold(s, free, clocks)
    ensures AllTold(Step(max, s, a), free, clocks + ClockOf(s, a))
  {
    var more := clocks + ClockOf(s, a);
    MoreClocks(s, free, clocks, more);
    var i := Consumes(s, a);
    if i.Some? {
      EffectFits(max, s, a);
      EffectTells(max, s, a, original, free, more);
      RestTells(s, i.value, EffectOf(max, s, a), free, more);
    } else if a.BlockBeat? && a.flushes && s.local.ud.started.Some? {
      FlushTells(s, a.now, a.beat, free, more);
    }
    hide EffectOf;
    hide Tells;
  }

  lemma {:induction false} RunTells(max: int, s: Task, actions: seq<Action>, original: Input, free: bool,
                                    clocks: set<Clock>)
    requires Attributed(s) && AllKept(original, free, s.local.ud, s.tokens) && AllTold(s, free, clocks)
    ensures AllTold(Run(max, s, actions), free, clocks + Clocks(max, s, actions))
    decreases |actions|
  {
    hide Step;
    hide Attributed;
    hide AllKept;
    hide AllTold;
    if actions == [] {
      assert clocks + {} == clocks;
    } else {
      StepTells(max, s, actions[0], original, free, clocks);
      StepAttributes(max, s, actions[0]);
      StepKeeps(original, free, max, s, actions[0]);
      RunTells(max, Step(max, s, actions[0]), actions[1..], original, free, clocks + ClockOf(s, actions[0]));
      assert clocks + Clocks(max, s, actions)
             == clocks + ClockOf(s, actions[0]) + Clocks(max, Step(max, s, actions[0]), actions[1..]);
    }
  }

  /** The run has a step that stamps outputs with this clock. */
  lemma {:induction false} ClockIsTaken(max: int, s: Task, actions: seq<Action>, clock: Clock) returns (k: nat)
    requires clock in Clocks(max, s, actions)
    ensures k < |actions|
    ensures var b, a := Run(max, s, actions[..k]).beat, actions[k];
            || (a.BlockBeat? && a.flushes && clock == (a.now, a.beat))
            || (a.Handle? && a.choice.At? && b.Some? && clock == (a.choice.now, b.value))
    decreases |actions|
  {
    hide Step;
    if clock in ClockOf(s, actions[0]) {
      k := 0;
      assert Run(max, s, actions[..0]) == s;
    } else {
      var s1 := Step(max, s, actions[0]);
      k := ClockIsTaken(max, s1, actions[1..], clock);
      k := k + 1;
      assert actions[..k][1..] == actions[1..][..k - 1] && actions[..k][0] == actions[0];
      assert Run(max, s, actions[..k]) == Run(max, s1, actions[1..][..k - 1]);
    }
  }

  lemma StartTells(max: int, ud: TaskData, input: Input, actions: seq<Action>)
    ensures AllTold(Run(max, Start(ud, input), actions), Free(ud.slot), Clocks(max, Start(ud, input), actions))
  {
    StartAttributes(ud, input);
    var s := Start(ud, input);
    RunTells(max, s, actions, Original(ud, input), Free(ud.slot), {});
    assert {} + Clocks(max, s, actions) == Clocks(max, s, actions);
  }

  /**
   Main theorem: a stored record was stamped by a step of the run, an output that was handled or a beat, with the
   time of that step as its finish time and the beat the task had then.
   */
  lemma StampsAreReal(max: int, ud: TaskData, input: Input, actions: seq<Action>, r: Record) returns (k: nat)
    requires r in Run(max, Start(ud, input), actions).local.records
    ensures k < |actions|
    ensures var b, a, x := Run(max, Start(ud, input), actions[..k]).beat, actions[k], r.result;
            || (a.BlockBeat? && a.flushes && x.finished == a.now && x.beat == a.beat)
            || (a.Handle? && a.choice.At? && b == Some(x.beat) && x.finished == a.choice.now)
  {
    StartTells(max, ud, input, actions);
    hide Run;
    hide Clocks;
    k := ClockIsTaken(max, Start(ud, input), actions, (r.result.finished, r.result.beat));
  }

  /** The terminal event that answers for a last attempt with result `r`. */
  ghost predicate AnswersFor(t: Token, r: Option<Result>, free: bool)
    requires IsTerminal(t)
  {
    && (t.source == ExecutorOutput ==> r.Some? && r.value.Succeeded? && free)
    && (t.source == TaskError ==> t.body.ErrorBody?)
    && (r == Some(OtherException) <==> t.source == TaskError && t.body == ErrorBody(UnexpectedErrorType))
    && (r.Some? && r.value.Succeeded? && !free <==> t.source == TaskError && t.body == ErrorBody(DuplicateResult))
    && (t.source == TaskError && t.body == ErrorBody(Failure) ==> r.Some? && r.value.Succeeded? && free)
    && (t.source == TaskError && t.body == ErrorBody(Exhausted) ==>
          r.None? || r == Some(ExecutorFailed) || (r.value.Succeeded? && free))
    && (t.source == TaskError ==> t.body.error != MissingResult && t.body.error != UnexpectedResultType)
  }

  lemma TerminalTells(t: Token, l: Local, free: bool, clocks: set<Clock>)
    requires IsTerminal(t) && Tells(t, l, free, clocks)
    ensures AnswersFor(t, LastResult(l), free)
  {
  }

  /**
   Main theorem: the answer of the task says how its last attempt came out: an output means a success with a free
   slot; an error other than exhaustion means an exception of another kind, a success with a taken slot, or a
   success that could not be converted, and each of these is named; exhaustion means none of the first two.
   */
  lemma TerminalSaysWhy(max: int, ud: TaskData, input: Input, actions: seq<Action>, t: Token)
    requires t in Run(max, Start(ud, input), actions).tokens && IsTerminal(t)
    ensures AnswersFor(t, LastResult(Run(max, Start(ud, input), actions).local), Free(ud.slot))
  {
    StartTells(max, ud, input, actions);
    var s := Run(max, Start(ud, input), actions);
    hide Run;
    hide Tells;
    hide AnswersFor;
    var i :| 0 <= i < |s.tokens| && s.tokens[i] == t;
    TerminalTells(t, s.local, Free(ud.slot), Clocks(max, Start(ud, input), actions));
  }

  /******* Outputs wait for a flush *******/

  predicate Flushes(actions: seq<Action>) {
    exists k :: 0 <= k < |actions| && actions[k].BlockBeat? && actions[k].flushes
  }

  /** After a flush there is a beat, and nothing waits. */
  ghost predicate NothingWaits(s: Task) {
    s.beat.Some? && forall i :: 0 <= i < |s.tokens| ==> !s.tokens[i].Queued?
  }

  lemma FlushEmpties(max: int, s: Task, a: Action)
    requires Attributed(s) && a.BlockBeat? && a.flushes
    ensures NothingWaits(Step(max, s, a))
  {
    forall i | 0 <= i < |s.tokens| && s.tokens[i].Queued? ensures s.local.ud.started.Some? {
      assert Fits(s.tokens[i], s.local);
    }
  }

  /** With a beat there a handled output is stamped at once. */
  lemma NothingIsQueued(max: int, l: Local, beat: Option<Beat>, sink: SinkName, body: Body, tag: nat, c: Choice)
    requires beat.Some?
    ensures forall i :: 0 <= i < |React(max, l, beat, sink, body, tag, c).sent| ==>
                          !React(max, l, beat, sink, body, tag, c).sent[i].Queued?
  {
  }

  lemma StillNothingWaits(max: int, s: Task, a: Action)
    requires Attributed(s) && NothingWaits(s)
    ensures NothingWaits(Step(max, s, a))
  {
    var i := Consumes(s, a);
    if i.Some? {
      var t, e := s.tokens[i.value], EffectOf(max, s, a);
      if a.Handle? {
        NothingIsQueued(max, s.local, s.beat, t.sink, t.body, t.tag, a.choice);
      }
      assert forall j :: 0 <= j < |e.sent| ==> !e.sent[j].Queued?;
      hide EffectOf;
    }
  }

  lemma {:induction false} RunWaits(max: int, s: Task, actions: seq<Action>)
    requires Attributed(s) && (NothingWaits(s) || Flushes(actions))
    ensures NothingWaits(Run(max, s, actions))
    decreases |actions|
  {
    hide Step;
    hide Attributed;
    hide NothingWaits;
    if actions != [] {
      var a := actions[0];
      if NothingWaits(s) {
        StillNothingWaits(max, s, a);
      } else if a.BlockBeat? && a.flushes {
        FlushEmpties(max, s, a);
      } else {
        var k :| 0 <= k < |actions| && actions[k].BlockBeat? && actions[k].flushes;
        assert actions[1..][k - 1] == actions[k];
      }
      StepAttributes(max, s, a);
      RunWaits(max, Step(max, s, a), actions[1..]);
    }
  }

  /** Main theorem: an output waits for its stamp only as long as no beat has flushed the queue in the whole run. */
  lemma WaitsBeforeFlush(max: int, ud: TaskData, input: Input, actions: seq<Action>, t: Token)
    requires t in Run(max, Start(ud, input), actions).tokens && t.Queued?
    ensures forall k :: 0 <= k < |actions| && actions[k].BlockBeat? ==> !actions[k].flushes
  {
    StartAttributes(ud, input);
    if Flushes(actions) {
      RunWaits(max, Start(ud, input), actions);
    }
    hide Run;
  }

  /** The beat of the task is the last one of the run. */
  lemma {:induction false} BeatIsLatest(max: int, s: Task, actions: seq<Action>, k: nat)
    requires k < |actions| && actions[k].BlockBeat?
    requires forall j :: k < j < |actions| ==> !actions[j].BlockBeat?
    ensures Run(max, s, actions).beat == Some(actions[k].beat)
    decreases |actions|
  {
    if k > 0 {
      BeatIsLatest(max, Step(max, s, actions[0]), actions[1..], k - 1);
    } else {
      SameBeat(max, Step(max, s, actions[0]), actions[1..]);
    }
    hide EffectOf;
    hide Flush;
  }

  lemma {:induction false} SameBeat(max: int, s: Task, actions: seq<Action>)
    requires forall j :: 0 <= j < |actions| ==> !actions[j].BlockBeat?
    ensures Run(max, s, actions).beat == s.beat
    decreases |actions|
  {
    if actions != [] {
      SameBeat(max, Step(max, s, actions[0]), actions[1..]);
    }
  }
}
