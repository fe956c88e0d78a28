/**
 How runs come out: every attempt gets the original input, the preparer's guards fire exactly when its
 slot was taken before the run, a run that loses nothing ends in one terminal event, and a run in which
 every attempt fails uses up all attempts and ends in one `Exhausted`.
 */
module TaskOutcomes {
  import opened Options
  import opened TaskProtocol
  import opened TaskTokens
  import opened TaskAttribution
  import RoundRobin
  import TaskTermination

  /******* Original input and pending slot *******/

  predicate Free(slot: Slot) {
    slot.Missing? || slot.Cleared?
  }

  predicate GuardError(body: Body) {
    body.ErrorBody?
      && (body.error == DuplicateResult || body.error == MissingResult || body.error == UnexpectedResultType)
  }

  predicate SuccessSink(sink: SinkName) {
    Conversion?(sink) || sink == SuccessStorerInput || sink == DispatcherSuccess
  }

  predicate AtConversion(t: Token) {
    (t.Box? && Conversion?(t.sink)) || (t.Bus? && Route(t.source).Some? && Conversion?(Route(t.source).value))
  }

  /** The token is on the way from a successful answer to an executor output. */
  predicate OnSuccessPath(t: Token) {
    || (t.Box? && SuccessSink(t.sink))
    || (t.Bus? && (t.source == ExecutorOutput || t.source == DispatchedSuccess))
    || (t.Bus? && Route(t.source).Some? && SuccessSink(Route(t.source).value))
  }

  function Original(ud: TaskData, input: Input): Input {
    if ud.retry.Some? then ud.retry.value.original else input
  }

  /** `original` is the input of the first attempt, `free` whether the slot was free before the run. */
  ghost predicate Kept(original: Input, free: bool, ud: TaskData, t: Token) {
    && (TokenWeight(t) == 1 ==>
          && (if AtConversion(t) then ud.slot.Holding? else Free(ud.slot) == free)
          && (if t.Box? && t.sink == RetryInput then t.body.InputBody? && original == Original(ud, t.body.input)
              else ud.retry.Some? && ud.retry.value.original == original))
    && (t.Bus? && t.source == NextAttempt ==> t.body == InputBody(original))
    && (t.Box? && t.sink == CreatorInput ==> t.body == InputBody(original))
    && (t.Bus? || t.Box? ==> !(free && GuardError(t.body)))
    && (!free ==> !OnSuccessPath(t))
  }

  ghost predicate AllKept(original: Input, free: bool, ud: TaskData, ts: seq<Token>) {
    forall i :: 0 <= i < |ts| ==> Kept(original, free, ud, ts[i])
  }

  lemma KeptByPreparer(original: Input, free: bool, l: Local, beat: Option<Beat>, max: int, t: Token, c: Choice)
    requires t.Box? && (t.sink == PreparerResult || t.sink == PreparerConverted || t.sink == PreparerConversionFailed)
    requires !c.Raises?
    requires Kept(original, free, l.ud, t)
    ensures var e := React(max, l, beat, t.sink, t.body, t.tag, c);
            AllKept(original, free, e.local.ud, e.sent)
  {
  }

  predicate Preparer?(sink: SinkName) {
    sink == PreparerResult || sink == PreparerConverted || sink == PreparerConversionFailed
  }

  predicate Retry?(sink: SinkName) {
    sink == RetryInput || sink == FailedAttempt
  }

  lemma KeptByRetry(original: Input, free: bool, l: Local, beat: Option<Beat>, max: int, t: Token, c: Choice)
    requires t.Box? && Retry?(t.sink) && !c.Raises? && Kept(original, free, l.ud, t)
    ensures var e := React(max, l, beat, t.sink, t.body, t.tag, c);
            AllKept(original, free, e.local.ud, e.sent)
  {
  }

  /** What the other nodes send: no new attempt, no guard error of their own, and never a shortcut to success. */
  ghost predicate Passes(sink: SinkName, body: Body, x: Token) {
    && !x.Box?
    && (x.Bus? ==> x.source != NextAttempt && (GuardError(x.body) ==> x.body == body))
    && (AtConversion(x) <==> sink == ConverterInput)
    && (OnSuccessPath(x) ==> SuccessSink(sink))
    && TokenWeight(x) <= SinkWeight(sink)
  }

  lemma CreatorRouterPass(max: int, l: Local, beat: Option<Beat>, t: Token, c: Choice)
    requires t.Box? && (t.sink == CreatorInput || t.sink == RouterInput) && !c.Raises?
    ensures var e := React(max, l, beat, t.sink, t.body, t.tag, c);
            && e.local.ud.retry == l.ud.retry && e.local.ud.slot == l.ud.slot
            && forall i :: 0 <= i < |e.sent| ==> Passes(t.sink, t.body, e.sent[i])
  {
  }

  lemma ExecutionPass(max: int, l: Local, beat: Option<Beat>, t: Token, c: Choice)
    requires t.Box? && (t.sink == TimestamperInput || t.sink == CommunicatorInput) && !c.Raises?
    ensures var e := React(max, l, beat, t.sink, t.body, t.tag, c);
            && e.local.ud.retry == l.ud.retry && e.local.ud.slot == l.ud.slot
            && forall i :: 0 <= i < |e.sent| ==> Passes(t.sink, t.body, e.sent[i])
  {
  }

  lemma InputsPass(max: int, l: Local, beat: Option<Beat>, t: Token, c: Choice)
    requires t.Box? && Input?(t.sink) && !c.Raises?
    ensures var e := React(max, l, beat, t.sink, t.body, t.tag, c);
            && e.local.ud.retry == l.ud.retry && e.local.ud.slot == l.ud.slot
            && forall i :: 0 <= i < |e.sent| ==> Passes(t.sink, t.body, e.sent[i])
  {
    if t.sink == CreatorInput || t.sink == RouterInput {
      CreatorRouterPass(max, l, beat, t, c);
    } else {
      ExecutionPass(max, l, beat, t, c);
    }
  }

  lemma HalfwayPass(max: int, l: Local, beat: Option<Beat>, t: Token, c: Choice)
    requires t.Box? && (t.sink == TimestamperOutput || t.sink == ConverterInput) && !c.Raises?
    ensures var e := React(max, l, beat, t.sink, t.body, t.tag, c);
            && e.local.ud.retry == l.ud.retry && e.local.ud.slot == l.ud.slot
            && forall i :: 0 <= i < |e.sent| ==> Passes(t.sink, t.body, e.sent[i])
  {
  }

  predicate Storer?(sink: SinkName) {
    sink == SuccessStorerInput || sink == FailureStorerInput
  }

  lemma StorersPass(max: int, l: Local, beat: Option<Beat>, t: Token, c: Choice)
    requires t.Box? && Storer?(t.sink) && !c.Raises?
    ensures var e := React(max, l, beat, t.sink, t.body, t.tag, c);
            && e.local.ud.retry == l.ud.retry && e.local.ud.slot == l.ud.slot
            && forall i :: 0 <= i < |e.sent| ==> Passes(t.sink, t.body, e.sent[i])
  {
  }

  lemma LeavingPass(max: int, l: Local, beat: Option<Beat>, t: Token, c: Choice)
    requires t.Box? && !Input?(t.sink) && !Retry?(t.sink) && !Preparer?(t.sink) && !Storer?(t.sink)
    requires t.sink != TimestamperOutput && t.sink != ConverterInput && !c.Raises?
    ensures var e := React(max, l, beat, t.sink, t.body, t.tag, c);
            && e.local.ud.retry == l.ud.retry && e.local.ud.slot == l.ud.slot
            && forall i :: 0 <= i < |e.sent| ==> Passes(t.sink, t.body, e.sent[i])
  {
  }

  lemma OthersPass(max: int, l: Local, beat: Option<Beat>, t: Token, c: Choice)
    requires t.Box? && !Retry?(t.sink) && !Preparer?(t.sink) && !c.Raises?
    ensures var e := React(max, l, beat, t.sink, t.body, t.tag, c);
            && e.local.ud.retry == l.ud.retry && e.local.ud.slot == l.ud.slot
            && forall i :: 0 <= i < |e.sent| ==> Passes(t.sink, t.body, e.sent[i])
  {
    if Input?(t.sink) {
      InputsPass(max, l, beat, t, c);
    } else if t.sink == TimestamperOutput || t.sink == ConverterInput {
      HalfwayPass(max, l, beat, t, c);
    } else if Storer?(t.sink) {
      StorersPass(max, l, beat, t, c);
    } else {
      LeavingPass(max, l, beat, t, c);
    }
  }

  lemma PassedIsKept(original: Input, free: bool, ud: TaskData, ud1: TaskData, t: Token, x: Token)
    requires t.Box? && !Retry?(t.sink) && !Preparer?(t.sink) && Kept(original, free, ud, t)
    requires Passes(t.sink, t.body, x) && ud1.retry == ud.retry && ud1.slot == ud.slot
    ensures Kept(original, free, ud1, x)
  {
  }

  lemma ReactKeeps(original: Input, free: bool, l: Local, beat: Option<Beat>, max: int, t: Token, c: Choice)
    requires t.Box? && Kept(original, free, l.ud, t)
    ensures var e := React(max, l, beat, t.sink, t.body, t.tag, c);
            AllKept(original, free, e.local.ud, e.sent)
  {
    var e := React(max, l, beat, t.sink, t.body, t.tag, c);
    if c.Raises? {
      assert e.sent == [];
    } else if Retry?(t.sink) {
      KeptByRetry(original, free, l, beat, max, t, c);
    } else if Preparer?(t.sink) {
      KeptByPreparer(original, free, l, beat, max, t, c);
    } else {
      OthersPass(max, l, beat, t, c);
      forall i | 0 <= i < |e.sent| ensures Kept(original, free, e.local.ud, e.sent[i]) {
        PassedIsKept(original, free, l.ud, e.local.ud, t, e.sent[i]);
      }
    }
  }

  lemma DeliveredIsKept(original: Input, free: bool, ud: TaskData, t: Token)
    requires t.Bus? && Route(t.source).Some? && Kept(original, free, ud, t)
    ensures Kept(original, free, ud, Box(Route(t.source).value, t.body, t.tag))
  {
  }

  lemma AnswerIsKept(original: Input, free: bool, l: Local, result: Result, t: Token)
    requires t.Pending? && Kept(original, free, l.ud, t)
    ensures var e := OnAnswer(l, result, t.tag);
            AllKept(original, free, e.local.ud, e.sent)
  {
  }

  lemma FiredIsKept(original: Input, free: bool, l: Local, t: Token)
    requires t.Timer? && Kept(original, free, l.ud, t)
    ensures var e := NewAttempt(l, RetryOnTimer(l.ud));
            AllKept(original, free, e.local.ud, e.sent)
  {
  }

  lemma EffectKeeps(original: Input, free: bool, max: int, s: Task, a: Action)
    requires AllKept(original, free, s.local.ud, s.tokens) && Consumes(s, a).Some?
    ensures var e := EffectOf(max, s, a);
            AllKept(original, free, e.local.ud, e.sent)
  {
    var t := s.tokens[Consumes(s, a).value];
    match a
    case Deliver(_) => DeliveredIsKept(original, free, s.local.ud, t);
    case Handle(_, choice) => ReactKeeps(original, free, s.local, s.beat, max, t, choice);
    case Fire(_) => FiredIsKept(original, free, s.local, t);
    case Callback(_, result) => AnswerIsKept(original, free, s.local, result, t);
    case _ =>
  }

  lemma CopyIsKept(original: Input, free: bool, ud: TaskData, ud1: TaskData, t: Token)
    requires TokenWeight(t) == 0 && Kept(original, free, ud, t)
    ensures Kept(original, free, ud1, t)
  {
  }

  /** Beside a consumed control token only copies are left, and these say nothing about the user data. */
  lemma RestIsKept(original: Input, free: bool, s: Task, i: nat, l1: Local, sent: seq<Token>)
    requires Weight(s.tokens) <= 1 && AllKept(original, free, s.local.ud, s.tokens) && i < |s.tokens|
    requires (TokenWeight(s.tokens[i]) == 0 ==> l1 == s.local) && AllKept(original, free, l1.ud, sent)
    ensures AllKept(original, free, l1.ud, Without(s.tokens, i) + sent)
  {
    var rest := Without(s.tokens, i);
    var ts := rest + sent;
    forall j | 0 <= j < |ts| ensures Kept(original, free, l1.ud, ts[j]) {
      if j < |rest| {
        var k := if j < i then j else j + 1;
        assert ts[j] == s.tokens[k];
        WeightOfTwo(s.tokens, k, i);
        assert Kept(original, free, s.local.ud, s.tokens[k]);
        if TokenWeight(s.tokens[k]) == 0 {
          CopyIsKept(original, free, s.local.ud, l1.ud, s.tokens[k]);
        }
      } else {
        assert ts[j] == sent[j - |rest|];
      }
    }
  }

  lemma FlushKeeps(original: Input, free: bool, ud: TaskData, ts: seq<Token>, now: Time, beat: Beat)
    requires ud.started.Some? && AllKept(original, free, ud, ts)
    ensures AllKept(original, free, ud, Flush(ud, ts, now, beat))
  {
    var r := Flush(ud, ts, now, beat);
    forall i | 0 <= i < |r| ensures Kept(original, free, ud, r[i]) {
      assert Kept(original, free, ud, ts[i]);
    }
  }

  lemma StepKeeps(original: Input, free: bool, max: int, s: Task, a: Action)
    requires Attributed(s) && AllKept(original, free, s.local.ud, s.tokens)
    ensures AllKept(original, free, Step(max, s, a).local.ud, Step(max, s, a).tokens)
  {
    var i := Consumes(s, a);
    if i.Some? {
      EffectKeeps(original, free, max, s, a);
      EffectFits(max, s, a);
      var e := EffectOf(max, s, a);
      RestIsKept(original, free, s, i.value, e.local, e.sent);
    } else if a.BlockBeat? && s.local.ud.started.Some? {
      FlushKeeps(original, free, s.local.ud, s.tokens, a.now, a.beat);
    }
  }

  lemma {:induction false} RunKeeps(original: Input, free: bool, max: int, s: Task, actions: seq<Action>)
    requires Attributed(s) && AllKept(original, free, s.local.ud, s.tokens)
    ensures Attributed(Run(max, s, actions))
    ensures AllKept(original, free, Run(max, s, actions).local.ud, Run(max, s, actions).tokens)
    decreases |actions|
  {
    if actions != [] {
      StepAttributes(max, s, actions[0]);
      StepKeeps(original, free, max, s, actions[0]);
      RunKeeps(original, free, max, Step(max, s, actions[0]), actions[1..]);
    }
  }

  /** Main theorem: every attempt starts from the first input the retry node ever saw. */
  lemma AttemptsGetOriginalInput(max: int, ud: TaskData, input: Input, actions: seq<Action>, t: Token)
    requires t in Run(max, Start(ud, input), actions).tokens
    requires (t.Bus? && t.source == NextAttempt) || (t.Box? && t.sink == CreatorInput)
    ensures t.body == InputBody(Original(ud, input))
  {
    StartAttributes(ud, input);
    RunKeeps(Original(ud, input), Free(ud.slot), max, Start(ud, input), actions);
    var s := Run(max, Start(ud, input), actions);
    var i :| 0 <= i < |s.tokens| && s.tokens[i] == t;
    assert Kept(Original(ud, input), Free(ud.slot), s.local.ud, s.tokens[i]);
  }

  /**
   Main theorem: with a free slot the preparer's duplicate, missing and wrong-type branches are never
   taken; with a slot that was taken before the run no answer ever gets past the preparer.
   */
  lemma GuardsNeedTakenSlot(max: int, ud: TaskData, input: Input, actions: seq<Action>, t: Token)
    requires t in Run(max, Start(ud, input), actions).tokens
    ensures Free(ud.slot) && (t.Bus? || t.Box?) ==> !GuardError(t.body)
    ensures !Free(ud.slot) ==> !OnSuccessPath(t)
  {
    StartAttributes(ud, input);
    RunKeeps(Original(ud, input), Free(ud.slot), max, Start(ud, input), actions);
    var s := Run(max, Start(ud, input), actions);
    var i :| 0 <= i < |s.tokens| && s.tokens[i] == t;
    assert Kept(Original(ud, input), Free(ud.slot), s.local.ud, s.tokens[i]);
  }

  /******* Runs that lose nothing *******/

  /** The handler of this sink comes back with an event instead of raising or dropping. */
  predicate Answered(sink: SinkName, c: Choice) {
    match sink
    case CreatorInput => c.Creates? || c.Fails?
    case RouterInput => c.Routes? || c.Fails?
    case TimestamperInput => c.At?
    case TimestamperOutput => c.At?
    case CommunicatorInput => c.Registers? || c.Answers? || c.Fails?
    case ConverterInput => c.Converts? || c.Fails?
    case SuccessStorerInput => c.Stores? || c.StoresThenFails? || c.Fails?
    case FailureStorerInput => c.Stores? || c.StoresThenFails? || c.Fails?
    case _ => !c.Raises?
  }

  predicate Lossless(s: Task, a: Action) {
    match a
    case Handle(i, c) => Consumes(s, a).Some? ==> Answered(s.tokens[i].sink, c)
    case DropStale(_) => Consumes(s, a).None?
    case _ => true
  }

  predicate LosslessRun(max: int, s: Task, actions: seq<Action>)
    decreases |actions|
  {
    actions == [] || (Lossless(s, actions[0]) && LosslessRun(max, Step(max, s, actions[0]), actions[1..]))
  }

  /** Nothing is left to do: only events that have left the task. */
  predicate Quiescent(s: Task) {
    forall i :: 0 <= i < |s.tokens| ==> s.tokens[i].Bus? && Route(s.tokens[i].source).None?
  }

  lemma EarlyStageConserves(max: int, l: Local, beat: Option<Beat>, t: Token, c: Choice, original: Input, free: bool)
    requires t.Box? && (Input?(t.sink) || t.sink == TimestamperOutput || Retry?(t.sink)) && Fits(t, l)
    requires Kept(original, free, l.ud, t) && Answered(t.sink, c)
    ensures var sent := React(max, l, beat, t.sink, t.body, t.tag, c).sent;
            && 1 <= |sent| <= 2
            && (|sent| == 1 ==> TokenWeight(sent[0]) == SinkWeight(t.sink))
            && (|sent| == 2 ==> TokenWeight(sent[0]) + TokenWeight(sent[1]) == SinkWeight(t.sink))
  {
  }

  lemma PreparerConserves(max: int, l: Local, beat: Option<Beat>, t: Token, c: Choice, original: Input, free: bool)
    requires t.Box? && (Preparer?(t.sink) || t.sink == ConverterInput) && Fits(t, l) && Kept(original, free, l.ud, t)
    requires Answered(t.sink, c)
    ensures var sent := React(max, l, beat, t.sink, t.body, t.tag, c).sent;
            && 1 <= |sent| <= 2
            && (|sent| == 1 ==> TokenWeight(sent[0]) == SinkWeight(t.sink))
            && (|sent| == 2 ==> TokenWeight(sent[0]) + TokenWeight(sent[1]) == SinkWeight(t.sink))
  {
  }

  lemma StorerConserves(max: int, l: Local, beat: Option<Beat>, t: Token, c: Choice)
    requires t.Box? && Storer?(t.sink) && Fits(t, l) && Answered(t.sink, c)
    ensures var sent := React(max, l, beat, t.sink, t.body, t.tag, c).sent;
            && 1 <= |sent| <= 2
            && (|sent| == 1 ==> TokenWeight(sent[0]) == SinkWeight(t.sink))
            && (|sent| == 2 ==> TokenWeight(sent[0]) + TokenWeight(sent[1]) == SinkWeight(t.sink))
  {
  }

  lemma LastStageConserves(max: int, l: Local, beat: Option<Beat>, t: Token, c: Choice)
    requires t.Box? && !(Input?(t.sink) || t.sink == TimestamperOutput || Retry?(t.sink))
    requires !(Preparer?(t.sink) || t.sink == ConverterInput)
    requires !Storer?(t.sink) && Fits(t, l) && Answered(t.sink, c)
    ensures var sent := React(max, l, beat, t.sink, t.body, t.tag, c).sent;
            && 1 <= |sent| <= 2
            && (|sent| == 1 ==> TokenWeight(sent[0]) == SinkWeight(t.sink))
            && (|sent| == 2 ==> TokenWeight(sent[0]) + TokenWeight(sent[1]) == SinkWeight(t.sink))
  {
  }

  lemma StageConserves(max: int, l: Local, beat: Option<Beat>, t: Token, c: Choice, original: Input, free: bool)
    requires t.Box? && Fits(t, l) && Kept(original, free, l.ud, t) && Answered(t.sink, c)
    ensures var sent := React(max, l, beat, t.sink, t.body, t.tag, c).sent;
            && 1 <= |sent| <= 2
            && (|sent| == 1 ==> TokenWeight(sent[0]) == SinkWeight(t.sink))
            && (|sent| == 2 ==> TokenWeight(sent[0]) + TokenWeight(sent[1]) == SinkWeight(t.sink))
  {
    if Input?(t.sink) || t.sink == TimestamperOutput || Retry?(t.sink) {
      EarlyStageConserves(max, l, beat, t, c, original, free);
    } else {
      if Preparer?(t.sink) || t.sink == ConverterInput {
        PreparerConserves(max, l, beat, t, c, original, free);
      } else if Storer?(t.sink) {
        StorerConserves(max, l, beat, t, c);
      } else {
        LastStageConserves(max, l, beat, t, c);
      }
    }
    hide React;
  }

  lemma DeliverConserves(t: Token)
    requires t.Bus? && Route(t.source).Some?
    ensures SourceWeight(t.source) == SinkWeight(Route(t.source).value)
  {
  }

  lemma AnswerConserves(original: Input, free: bool, l: Local, result: Result, t: Token)
    requires t.Pending? && Fits(t, l)
    ensures var sent := OnAnswer(l, result, t.tag).sent;
            |sent| == 1 && TokenWeight(sent[0]) == 1
  {
  }

  lemma FireConserves(original: Input, free: bool, l: Local, t: Token)
    requires t.Timer? && Kept(original, free, l.ud, t)
    ensures var sent := NewAttempt(l, RetryOnTimer(l.ud)).sent;
            |sent| == 1 && TokenWeight(sent[0]) == 1
  {
  }

  lemma EffectConserves(original: Input, free: bool, max: int, s: Task, a: Action)
    requires Attributed(s) && AllKept(original, free, s.local.ud, s.tokens) && Lossless(s, a) && Consumes(s, a).Some?
    ensures Weight(EffectOf(max, s, a).sent) == TokenWeight(s.tokens[Consumes(s, a).value])
  {
    var t := s.tokens[Consumes(s, a).value];
    assert Fits(t, s.local) && Kept(original, free, s.local.ud, t);
    match a
    case Deliver(_) =>
      DeliverConserves(t);
      WeightOfShort([Box(Route(t.source).value, t.body, t.tag)]);
    case Handle(_, choice) =>
      StageConserves(max, s.local, s.beat, t, choice, original, free);
      WeightOfShort(React(max, s.local, s.beat, t.sink, t.body, t.tag, choice).sent);
    case Fire(_) =>
      FireConserves(original, free, s.local, t);
      WeightOfShort(NewAttempt(s.local, RetryOnTimer(s.local.ud)).sent);
    case Callback(_, result) =>
      AnswerConserves(original, free, s.local, result, t);
      WeightOfShort(OnAnswer(s.local, result, t.tag).sent);
    case _ =>
  }

  lemma StepConserves(original: Input, free: bool, max: int, s: Task, a: Action)
    requires Attributed(s) && AllKept(original, free, s.local.ud, s.tokens) && Lossless(s, a)
    ensures Weight(Step(max, s, a).tokens) == Weight(s.tokens)
  {
    var i := Consumes(s, a);
    if i.Some? {
      EffectConserves(original, free, max, s, a);
      WeightWithout(s.tokens, i.value);
      WeightAppend(Without(s.tokens, i.value), EffectOf(max, s, a).sent);
    } else if a.BlockBeat? && s.local.ud.started.Some? {
      FlushWeighs(s.local.ud, s.tokens, a.now, a.beat);
    }
  }

  lemma {:induction false} RunConserves(original: Input, free: bool, max: int, s: Task, actions: seq<Action>)
    requires Attributed(s) && AllKept(original, free, s.local.ud, s.tokens) && LosslessRun(max, s, actions)
    ensures Weight(Run(max, s, actions).tokens) == Weight(s.tokens)
    decreases |actions|
  {
    if actions != [] {
      StepConserves(original, free, max, s, actions[0]);
      StepAttributes(max, s, actions[0]);
      StepKeeps(original, free, max, s, actions[0]);
      RunConserves(original, free, max, Step(max, s, actions[0]), actions[1..]);
    }
  }

  lemma {:induction false} SomeWeighs(ts: seq<Token>) returns (i: nat)
    requires Weight(ts) == 1
    ensures i < |ts| && TokenWeight(ts[i]) == 1
  {
    if TokenWeight(ts[0]) == 1 {
      i := 0;
    } else {
      i := SomeWeighs(ts[1..]);
      i := i + 1;
    }
  }

  lemma OneTerminal(s: Task) returns (i: nat)
    requires Weight(s.tokens) == 1 && Quiescent(s)
    ensures i < |s.tokens| && IsTerminal(s.tokens[i])
    ensures forall j :: 0 <= j < |s.tokens| && IsTerminal(s.tokens[j]) ==> j == i
  {
    i := SomeWeighs(s.tokens);
    forall j | 0 <= j < |s.tokens| && IsTerminal(s.tokens[j]) ensures j == i {
      if j != i {
        WeightOfTwo(s.tokens, i, j);
      }
    }
  }

  /** Main theorem: a run that loses nothing and has nothing left to do has emitted exactly one terminal event. */
  lemma LosslessRunAnswersOnce(max: int, ud: TaskData, input: Input, actions: seq<Action>) returns (i: nat)
    requires var s := Start(ud, input);
             LosslessRun(max, s, actions) && Quiescent(Run(max, s, actions))
    ensures var ts := Run(max, Start(ud, input), actions).tokens;
            && i < |ts| && IsTerminal(ts[i])
            && forall j :: 0 <= j < |ts| && IsTerminal(ts[j]) ==> j == i
  {
    StartAttributes(ud, input);
    WeightOfShort(Start(ud, input).tokens);
    RunConserves(Original(ud, input), Free(ud.slot), max, Start(ud, input), actions);
    i := OneTerminal(Run(max, Start(ud, input), actions));
  }

  /******* Runs in which every attempt fails *******/

  /** The executor only ever answers with a failure. */
  predicate OnlyFailures(a: Action) {
    && (a.Handle? && a.choice.Answers? ==> a.choice.result.ExecutorFailed?)
    && (a.Callback? ==> a.result.ExecutorFailed?)
  }

  ghost predicate SaysOnlyExhausted(t: Token) {
    && !OnSuccessPath(t)
    && (t.Bus? && t.source == PreparerError ==> false)
    && (t.Box? && t.sink == MuxRight ==> false)
    && (t.Bus? && (t.source == RetryError || t.source == TaskError) ==> t.body == ErrorBody(Exhausted))
    && (t.Box? && t.sink == MuxLeft ==> t.body == ErrorBody(Exhausted))
    && (t.Queued? ==> t.processed.result.ExecutorFailed?)
    && (t.Bus? && t.source == ProcessedOut ==> t.body.ProcessedBody? && t.body.processed.result.ExecutorFailed?)
    && (t.Box? && t.sink == TimestamperOutput ==> t.body.ProcessedBody? && t.body.processed.result.ExecutorFailed?)
    && (t.Bus? && t.source == TimestampedOutput ==> t.body.StampedBody? && t.body.stamped.output.result.ExecutorFailed?)
    && (t.Box? && t.sink == PreparerResult ==> t.body.StampedBody? && t.body.stamped.output.result.ExecutorFailed?)
  }

  ghost predicate AllSayExhausted(ts: seq<Token>) {
    forall i :: 0 <= i < |ts| ==> SaysOnlyExhausted(ts[i])
  }

  lemma InputFails(max: int, l: Local, beat: Option<Beat>, t: Token, c: Choice)
    requires t.Box? && Input?(t.sink) && !c.Raises? && (c.Answers? ==> c.result.ExecutorFailed?)
    ensures AllSayExhausted(React(max, l, beat, t.sink, t.body, t.tag, c).sent)
  {
    hide RoundRobin.SelectAt;
  }

  lemma RetryFails(max: int, l: Local, beat: Option<Beat>, t: Token, c: Choice)
    requires t.Box? && Retry?(t.sink) && !c.Raises?
    ensures AllSayExhausted(React(max, l, beat, t.sink, t.body, t.tag, c).sent)
  {
  }

  lemma OutputFails(max: int, l: Local, beat: Option<Beat>, t: Token, c: Choice)
    requires t.Box? && !Input?(t.sink) && !Retry?(t.sink) && !c.Raises? && SaysOnlyExhausted(t)
    ensures AllSayExhausted(React(max, l, beat, t.sink, t.body, t.tag, c).sent)
  {
  }

  lemma EffectFails(max: int, s: Task, a: Action)
    requires AllSayExhausted(s.tokens) && OnlyFailures(a) && Consumes(s, a).Some?
    ensures AllSayExhausted(EffectOf(max, s, a).sent)
  {
    var t := s.tokens[Consumes(s, a).value];
    assert SaysOnlyExhausted(t);
    if a.Handle? {
      if a.choice.Raises? {
        assert EffectOf(max, s, a).sent == [];
      } else if Input?(t.sink) {
        InputFails(max, s.local, s.beat, t, a.choice);
      } else if Retry?(t.sink) {
        RetryFails(max, s.local, s.beat, t, a.choice);
      } else {
        OutputFails(max, s.local, s.beat, t, a.choice);
      }
    }
  }

  lemma RestFails(ts: seq<Token>, i: nat, sent: seq<Token>)
    requires i < |ts| && AllSayExhausted(ts) && AllSayExhausted(sent)
    ensures AllSayExhausted(Without(ts, i) + sent)
  {
    var rest := Without(ts, i);
    forall j | 0 <= j < |rest + sent| ensures SaysOnlyExhausted((rest + sent)[j]) {
      assert (rest + sent)[j] == if j < i then ts[j] else if j < |rest| then ts[j + 1] else sent[j - |rest|];
    }
  }

  lemma StepFails(max: int, s: Task, a: Action)
    requires AllSayExhausted(s.tokens) && OnlyFailures(a)
    ensures AllSayExhausted(Step(max, s, a).tokens)
  {
    var s1, i := Step(max, s, a), Consumes(s, a);
    if i.Some? {
      EffectFails(max, s, a);
      RestFails(s.tokens, i.value, EffectOf(max, s, a).sent);
    } else {
      forall j | 0 <= j < |s1.tokens| ensures SaysOnlyExhausted(s1.tokens[j]) {
        assert SaysOnlyExhausted(s.tokens[j]);
      }
    }
  }

  lemma {:induction false} RunFails(max: int, s: Task, actions: seq<Action>)
    requires AllSayExhausted(s.tokens) && forall i :: 0 <= i < |actions| ==> OnlyFailures(actions[i])
    ensures AllSayExhausted(Run(max, s, actions).tokens)
    decreases |actions|
  {
    if actions != [] {
      StepFails(max, s, actions[0]);
      RunFails(max, Step(max, s, actions[0]), actions[1..]);
    }
  }

  /**
   Main theorem: a run that loses nothing, in which the executor never succeeds, ends with exactly one
   terminal event, an `Exhausted`, after exactly as many attempts as allowed.
   */
  lemma FailingRunExhausts(max: int, ud: TaskData, input: Input, actions: seq<Action>) returns (i: nat)
    requires forall k :: 0 <= k < |actions| ==> OnlyFailures(actions[k])
    requires var s := Start(ud, input);
             LosslessRun(max, s, actions) && Quiescent(Run(max, s, actions))
    ensures var s := Run(max, Start(ud, input), actions);
            && |s.local.trace| == TaskTermination.Bound(max, TaskTermination.Attempts(ud))
            && i < |s.tokens| && s.tokens[i].Bus? && s.tokens[i].source == TaskError
               && s.tokens[i].body == ErrorBody(Exhausted)
            && forall j :: 0 <= j < |s.tokens| && IsTerminal(s.tokens[j]) ==> j == i
  {
    i := LosslessRunAnswersOnce(max, ud, input, actions);
    RunFails(max, Start(ud, input), actions);
    var s := Run(max, Start(ud, input), actions);
    assert SaysOnlyExhausted(s.tokens[i]);
    TaskTermination.AttemptsBounded(max, ud, input, actions);
    assert s.tokens[i] in s.tokens;
  }
}
