/**
 Every run ends: a measure made of the attempts left and the stage drops at every step that moves a
 token. The number of attempts is bounded, and an exhausted run has used exactly that bound. All of it
 from any starting user data, so also on a context that has been through the retry node before.
 */
module TaskTermination {
  import opened Options
  import opened TaskProtocol
  import opened TaskTokens

  function Attempts(ud: TaskData): nat {
    if ud.retry.Some? then ud.retry.value.attempts else 0
  }

  function Left(max: int, ud: TaskData): nat {
    if max > Attempts(ud) then max - Attempts(ud) else 0
  }

  const LapLength := 26

  /** Stages still ahead of a message within its attempt. */
  function BusRank(source: SourceName): nat {
    match source
    case NextAttempt => 24
    case CreatedPayload => 22
    case RoutedOut => 20
    case ForwardedInput => 18
    case ProcessedOut => 15
    case TimestampedOutput => 12
    case ForConversion => 10
    case ConvertedOut => 8
    case PreparedFailure => 8
    case PreparedSuccess => 6
    case StoredSuccess => 2
    case StoredFailure => 2
    case RetryError => 2
    case PreparerError => 2
    case DispatchedSuccess => 0
    case DispatchedFailure => 0
    case ExecutorOutput => 0
    case TaskError => 0
    case _ => 4
  }

  function BoxRank(sink: SinkName): nat {
    match sink
    case RetryInput => 25
    case CreatorInput => 23
    case RouterInput => 21
    case TimestamperInput => 19
    case CommunicatorInput => 17
    case TimestamperOutput => 14
    case PreparerResult => 11
    case ConverterInput => 9
    case PreparerConverted => 7
    case FailureStorerInput => 7
    case SuccessStorerInput => 5
    case FailedAttempt => 3
    case PreparerConversionFailed => 3
    case _ => 1
  }

  function Rank(t: Token): nat {
    match t
    case Bus(source, _, _) => BusRank(source)
    case Box(sink, _, _) => BoxRank(sink)
    case Pending(_, _) => 16
    case Queued(_, _) => 13
    case Timer(_) => 1
  }

  /** Lexicographic in the attempts left and the rank; record copies never start an attempt. */
  function TokenMeasure(left: nat, t: Token): nat {
    if TokenWeight(t) == 0 then Rank(t) else left * LapLength + Rank(t)
  }

  function Measure(left: nat, ts: seq<Token>): nat {
    if ts == [] then 0 else TokenMeasure(left, ts[0]) + Measure(left, ts[1..])
  }

  function TaskMeasure(max: int, s: Task): nat {
    Measure(Left(max, s.local.ud), s.tokens)
  }

  lemma {:induction false} MeasureAppend(left: nat, a: seq<Token>, b: seq<Token>)
    ensures Measure(left, a + b) == Measure(left, a) + Measure(left, b)
  {
    hide TokenMeasure;
    if a == [] {
      assert a + b == b;
    } else {
      MeasureAppend(left, a[1..], b);
      assert (a + b)[1..] == a[1..] + b;
    }
  }

  lemma MeasureWithout(left: nat, ts: seq<Token>, i: nat)
    requires i < |ts|
    ensures Measure(left, ts) == Measure(left, Without(ts, i)) + TokenMeasure(left, ts[i])
  {
    assert ts == ts[..i] + ([ts[i]] + ts[i + 1..]);
    MeasureAppend(left, ts[..i], [ts[i]] + ts[i + 1..]);
    MeasureAppend(left, [ts[i]], ts[i + 1..]);
    MeasureAppend(left, ts[..i], ts[i + 1..]);
    assert [ts[i]][1..] == [];
  }

  lemma MeasureOfShort(left: nat, ts: seq<Token>)
    requires |ts| <= 2
    ensures Measure(left, ts) == (if |ts| > 0 then TokenMeasure(left, ts[0]) else 0)
            + if |ts| > 1 then TokenMeasure(left, ts[1]) else 0
  {
    if |ts| == 2 {
      assert ts[1..] == [ts[1]] && [ts[1]][1..] == [];
    }
  }

  lemma {:induction false} MeasureWithoutControl(left: nat, left1: nat, ts: seq<Token>)
    requires Weight(ts) == 0
    ensures Measure(left, ts) == Measure(left1, ts)
  {
    if ts != [] {
      MeasureWithoutControl(left, left1, ts[1..]);
    }
  }

  /******* Attempt counting *******/

  /** What a control token says about the retry state; `a0` attempts were on record at the start. */
  ghost predicate CountsFrom(max: int, a0: nat, l: Local, t: Token) {
    if TokenWeight(t) == 0 then true
    else if t.Box? && t.sink == RetryInput then l.trace == [] && Attempts(l.ud) == a0
    else
      && l.ud.retry.Some?
      && |l.trace| >= 1
      && Attempts(l.ud) == a0 + |l.trace|
      && (t.Timer? ==> Attempts(l.ud) < max)
  }

  function Bound(max: int, a0: nat): nat {
    if max - a0 > 1 then max - a0 else 1
  }

  ghost predicate SaysExhausted(t: Token) {
    (t.Bus? && (t.source == RetryError || t.source == TaskError) && t.body == ErrorBody(Exhausted))
    || (t.Box? && (t.sink == MuxLeft || t.sink == MuxRight) && t.body == ErrorBody(Exhausted))
  }

  /** `Exhausted` is only ever said by a run that has issued all its attempts. */
  ghost predicate Honest(max: int, a0: nat, l: Local, t: Token) {
    (SaysExhausted(t) ==> |l.trace| == Bound(max, a0))
    && (t.Bus? && (t.source == PreparerError || t.source == ConverterError) ==>
       t.body.ErrorBody? && t.body.error != Exhausted)
    && (t.Box? && (t.sink == MuxRight || t.sink == PreparerConversionFailed) ==>
       t.body.ErrorBody? && t.body.error != Exhausted)
  }

  ghost predicate Sound(max: int, a0: nat, l: Local, t: Token) {
    CountsFrom(max, a0, l, t) && Honest(max, a0, l, t)
  }

  ghost predicate Inv(max: int, a0: nat, s: Task) {
    && Weight(s.tokens) <= 1
    && |s.local.trace| <= Bound(max, a0)
    && forall i :: 0 <= i < |s.tokens| ==> Sound(max, a0, s.local, s.tokens[i])
  }

  /** Outside the retry node an attempt stays the same attempt, and no one says `Exhausted` anew. */
  lemma ReactKeepsAttempt(max: int, a0: nat, l: Local, beat: Option<Beat>, t: Token, c: Choice)
    requires t.Box? && t.sink != RetryInput && t.sink != FailedAttempt && !c.Raises?
    requires Honest(max, a0, l, t)
    ensures var e := React(max, l, beat, t.sink, t.body, t.tag, c);
            && |e.local.trace| == |l.trace| && e.local.ud.retry == l.ud.retry
            && forall i :: 0 <= i < |e.sent| ==> !e.sent[i].Timer? && !e.sent[i].Box? && Honest(max, a0, l, e.sent[i])
  {
  }

  lemma RetryCounts(max: int, a0: nat, l: Local, beat: Option<Beat>, t: Token, c: Choice)
    requires t.Box? && (t.sink == RetryInput || t.sink == FailedAttempt)
    requires Sound(max, a0, l, t) && |l.trace| <= Bound(max, a0)
    ensures var e := React(max, l, beat, t.sink, t.body, t.tag, c);
            && |e.local.trace| <= Bound(max, a0)
            && forall i :: 0 <= i < |e.sent| ==> Sound(max, a0, e.local, e.sent[i])
  {
  }

  lemma ReactCounts(max: int, a0: nat, l: Local, beat: Option<Beat>, t: Token, c: Choice)
    requires t.Box? && Sound(max, a0, l, t) && |l.trace| <= Bound(max, a0)
    ensures var e := React(max, l, beat, t.sink, t.body, t.tag, c);
            && |e.local.trace| <= Bound(max, a0)
            && (TokenWeight(t) == 0 ==> e.local == l)
            && forall i :: 0 <= i < |e.sent| ==> Sound(max, a0, e.local, e.sent[i])
  {
    var e := React(max, l, beat, t.sink, t.body, t.tag, c);
    if c.Raises? {
      assert e.sent == [];
    } else if t.sink == RetryInput || t.sink == FailedAttempt {
      RetryCounts(max, a0, l, beat, t, c);
    } else {
      ReactKeepsAttempt(max, a0, l, beat, t, c);
      SameAttemptCounts(max, a0, l, e.local, t, e.sent);
      if t.sink == DispatcherFailure {
        assert TokenWeight(e.sent[0]) == 0;
      }
    }
  }

  lemma SameAttemptCounts(max: int, a0: nat, l: Local, l1: Local, t: Token, sent: seq<Token>)
    requires t.Box? && t.sink != RetryInput && CountsFrom(max, a0, l, t)
    requires |l1.trace| == |l.trace| && l1.ud.retry == l.ud.retry
    requires forall i :: 0 <= i < |sent| ==> !sent[i].Timer? && !sent[i].Box? && Honest(max, a0, l, sent[i])
    ensures TokenWeight(t) == 1 ==> forall i :: 0 <= i < |sent| ==> Sound(max, a0, l1, sent[i])
    ensures forall i :: 0 <= i < |sent| && TokenWeight(sent[i]) == 0 ==> Sound(max, a0, l1, sent[i])
  {
  }

  lemma AnswerCounts(max: int, a0: nat, l: Local, t: Token, result: Result)
    requires t.Pending? && Sound(max, a0, l, t) && |l.trace| <= Bound(max, a0)
    ensures var e := OnAnswer(l, result, t.tag);
            |e.local.trace| <= Bound(max, a0) && forall i :: 0 <= i < |e.sent| ==> Sound(max, a0, e.local, e.sent[i])
  {
  }

  lemma FireCounts(max: int, a0: nat, l: Local, t: Token)
    requires t.Timer? && Sound(max, a0, l, t) && |l.trace| <= Bound(max, a0)
    ensures var e := NewAttempt(l, RetryOnTimer(l.ud));
            |e.local.trace| <= Bound(max, a0) && forall i :: 0 <= i < |e.sent| ==> Sound(max, a0, e.local, e.sent[i])
  {
  }

  lemma DeliverCounts(max: int, a0: nat, l: Local, t: Token)
    requires t.Bus? && Route(t.source).Some? && Sound(max, a0, l, t)
    ensures Sound(max, a0, l, Box(Route(t.source).value, t.body, t.tag))
  {
  }

  lemma EffectCounts(max: int, a0: nat, s: Task, a: Action)
    requires Inv(max, a0, s) && Consumes(s, a).Some?
    ensures var t, e := s.tokens[Consumes(s, a).value], EffectOf(max, s, a);
            && |e.local.trace| <= Bound(max, a0)
            && (TokenWeight(t) == 0 ==> e.local == s.local)
            && forall i :: 0 <= i < |e.sent| ==> Sound(max, a0, e.local, e.sent[i])
  {
    var t := s.tokens[Consumes(s, a).value];
    match a
    case Deliver(_) => DeliverCounts(max, a0, s.local, t);
    case Handle(_, choice) => ReactCounts(max, a0, s.local, s.beat, t, choice);
    case Fire(_) => FireCounts(max, a0, s.local, t);
    case Callback(_, result) => AnswerCounts(max, a0, s.local, t, result);
    case _ =>
  }

  /** What is left beside a consumed control token is record copies, which say nothing. */
  lemma RestStaysSound(max: int, a0: nat, s: Task, i: nat, l1: Local, sent: seq<Token>)
    requires Inv(max, a0, s) && i < |s.tokens|
    requires TokenWeight(s.tokens[i]) == 0 ==> l1 == s.local
    requires forall j :: 0 <= j < |sent| ==> Sound(max, a0, l1, sent[j])
    requires forall j :: 0 <= j < |s.tokens| && TokenWeight(s.tokens[j]) == 0 ==> Sound(max, a0, l1, s.tokens[j])
    ensures var ts := Without(s.tokens, i) + sent;
            forall j :: 0 <= j < |ts| ==> Sound(max, a0, l1, ts[j])
  {
    var rest := Without(s.tokens, i);
    var ts := rest + sent;
    forall j | 0 <= j < |ts| ensures Sound(max, a0, l1, ts[j]) {
      if j < |rest| {
        var k := if j < i then j else j + 1;
        assert ts[j] == s.tokens[k];
        WeightOfTwo(s.tokens, k, i);
        assert Sound(max, a0, s.local, s.tokens[k]);
      } else {
        assert ts[j] == sent[j - |rest|];
      }
    }
  }

  /** A record copy is sound whatever the local state. */
  lemma CopiesAreSound(max: int, a0: nat, l: Local, l1: Local, t: Token)
    requires TokenWeight(t) == 0 && Sound(max, a0, l, t)
    ensures Sound(max, a0, l1, t)
  {
  }

  lemma StepCounts(max: int, a0: nat, s: Task, a: Action)
    requires Inv(max, a0, s)
    ensures Inv(max, a0, Step(max, s, a))
  {
    StepNeverAdds(max, s, a);
    var i := Consumes(s, a);
    if i.Some? {
      EffectCounts(max, a0, s, a);
      var e := EffectOf(max, s, a);
      forall j | 0 <= j < |s.tokens| && TokenWeight(s.tokens[j]) == 0 ensures Sound(max, a0, e.local, s.tokens[j]) {
        CopiesAreSound(max, a0, s.local, e.local, s.tokens[j]);
      }
      RestStaysSound(max, a0, s, i.value, e.local, e.sent);
    } else if a.BlockBeat? {
      BeatCounts(max, a0, s, a);
    }
  }

  lemma BeatCounts(max: int, a0: nat, s: Task, a: Action)
    requires Inv(max, a0, s) && a.BlockBeat?
    ensures var s1 := Step(max, s, a);
            s1.local == s.local && forall j :: 0 <= j < |s1.tokens| ==> Sound(max, a0, s.local, s1.tokens[j])
  {
    var s1 := Step(max, s, a);
    forall j | 0 <= j < |s1.tokens| ensures Sound(max, a0, s.local, s1.tokens[j]) {
      assert Sound(max, a0, s.local, s.tokens[j]);
    }
  }

  /******* The measure drops *******/

  /** Only the retry node changes the number of attempts. */
  lemma ReactKeepsRetry(max: int, l: Local, beat: Option<Beat>, sink: SinkName, body: Body, tag: nat, c: Choice)
    requires sink != RetryInput && !c.Raises?
    ensures React(max, l, beat, sink, body, tag, c).local.ud.retry == l.ud.retry
  {
  }

  predicate EarlyStage?(sink: SinkName) {
    Input?(sink) || sink == TimestamperOutput
  }

  predicate MiddleStage?(sink: SinkName) {
    || sink == PreparerResult || sink == PreparerConverted || sink == PreparerConversionFailed
    || sink == ConverterInput || sink == SuccessStorerInput || sink == FailureStorerInput
  }

  lemma EarlyStagesGoOn(max: int, l: Local, beat: Option<Beat>, sink: SinkName, body: Body, tag: nat, c: Choice)
    requires EarlyStage?(sink) && !c.Raises?
    ensures var sent := React(max, l, beat, sink, body, tag, c).sent;
            && (|sent| == 1 ==> Rank(sent[0]) < BoxRank(sink) && TokenWeight(sent[0]) <= SinkWeight(sink))
            && (|sent| == 2 ==>
               Rank(sent[0]) + Rank(sent[1]) < BoxRank(sink)
               && TokenWeight(sent[0]) + TokenWeight(sent[1]) <= SinkWeight(sink))
            && |sent| <= 2
  {
  }

  lemma MiddleStagesGoOn(max: int, l: Local, beat: Option<Beat>, sink: SinkName, body: Body, tag: nat, c: Choice)
    requires MiddleStage?(sink) && !c.Raises?
    ensures var sent := React(max, l, beat, sink, body, tag, c).sent;
            && (|sent| == 1 ==> Rank(sent[0]) < BoxRank(sink) && TokenWeight(sent[0]) <= SinkWeight(sink))
            && (|sent| == 2 ==>
               Rank(sent[0]) + Rank(sent[1]) < BoxRank(sink)
               && TokenWeight(sent[0]) + TokenWeight(sent[1]) <= SinkWeight(sink))
            && |sent| <= 2
  {
  }

  lemma LastStagesGoOn(max: int, l: Local, beat: Option<Beat>, sink: SinkName, body: Body, tag: nat, c: Choice)
    requires sink != RetryInput && sink != FailedAttempt && !EarlyStage?(sink)
    requires !MiddleStage?(sink) && !c.Raises?
    ensures var sent := React(max, l, beat, sink, body, tag, c).sent;
            && (|sent| == 1 ==> Rank(sent[0]) < BoxRank(sink) && TokenWeight(sent[0]) <= SinkWeight(sink))
            && (|sent| == 2 ==>
               Rank(sent[0]) + Rank(sent[1]) < BoxRank(sink)
               && TokenWeight(sent[0]) + TokenWeight(sent[1]) <= SinkWeight(sink))
            && |sent| <= 2
  {
  }

  lemma ReactGoesOn(max: int, l: Local, beat: Option<Beat>, sink: SinkName, body: Body, tag: nat, c: Choice)
    requires sink != RetryInput && sink != FailedAttempt && !c.Raises?
    ensures var sent := React(max, l, beat, sink, body, tag, c).sent;
            && (|sent| == 1 ==> Rank(sent[0]) < BoxRank(sink) && TokenWeight(sent[0]) <= SinkWeight(sink))
            && (|sent| == 2 ==>
               Rank(sent[0]) + Rank(sent[1]) < BoxRank(sink)
               && TokenWeight(sent[0]) + TokenWeight(sent[1]) <= SinkWeight(sink))
            && |sent| <= 2
  {
    if EarlyStage?(sink) {
      EarlyStagesGoOn(max, l, beat, sink, body, tag, c);
    } else {
      if MiddleStage?(sink) {
        MiddleStagesGoOn(max, l, beat, sink, body, tag, c);
      } else {
        LastStagesGoOn(max, l, beat, sink, body, tag, c);
      }
    }
  }

  lemma ReactDrops(max: int, a0: nat, l: Local, beat: Option<Beat>, t: Token, c: Choice)
    requires t.Box? && CountsFrom(max, a0, l, t)
    ensures var e := React(max, l, beat, t.sink, t.body, t.tag, c);
            Measure(Left(max, e.local.ud), e.sent) < TokenMeasure(Left(max, l.ud), t)
  {
    var e := React(max, l, beat, t.sink, t.body, t.tag, c);
    if c.Raises? {
      assert e.sent == [];
    } else if t.sink == RetryInput || t.sink == FailedAttempt {
      MeasureOfShort(Left(max, e.local.ud), e.sent);
    } else {
      ReactKeepsRetry(max, l, beat, t.sink, t.body, t.tag, c);
      ReactGoesOn(max, l, beat, t.sink, t.body, t.tag, c);
      SmallerMeasure(Left(max, l.ud), t, e.sent);
    }
  }

  lemma SmallerMeasure(left: nat, t: Token, sent: seq<Token>)
    requires |sent| <= 2 && t.Box? && BoxRank(t.sink) > 0
    requires |sent| == 1 ==> Rank(sent[0]) < Rank(t) && TokenWeight(sent[0]) <= TokenWeight(t)
    requires |sent| == 2 ==>
               Rank(sent[0]) + Rank(sent[1]) < Rank(t) && TokenWeight(sent[0]) + TokenWeight(sent[1]) <= TokenWeight(t)
    ensures Measure(left, sent) < TokenMeasure(left, t)
  {
    MeasureOfShort(left, sent);
  }

  lemma AnswerDrops(max: int, a0: nat, l: Local, t: Token, result: Result)
    requires t.Pending?
    ensures var e := OnAnswer(l, result, t.tag);
            Measure(Left(max, e.local.ud), e.sent) < TokenMeasure(Left(max, l.ud), t)
  {
    var e := OnAnswer(l, result, t.tag);
    MeasureOfShort(Left(max, e.local.ud), e.sent);
  }

  lemma FireDrops(max: int, a0: nat, l: Local, t: Token)
    requires t.Timer? && CountsFrom(max, a0, l, t)
    ensures var e := NewAttempt(l, RetryOnTimer(l.ud));
            Measure(Left(max, e.local.ud), e.sent) < TokenMeasure(Left(max, l.ud), t)
  {
    var e := NewAttempt(l, RetryOnTimer(l.ud));
    MeasureOfShort(Left(max, e.local.ud), e.sent);
  }

  lemma DeliverDrops(left: nat, t: Token)
    requires t.Bus? && Route(t.source).Some?
    ensures Measure(left, [Box(Route(t.source).value, t.body, t.tag)]) < TokenMeasure(left, t)
  {
    MeasureOfShort(left, [Box(Route(t.source).value, t.body, t.tag)]);
  }

  lemma EffectDrops(max: int, a0: nat, s: Task, a: Action)
    requires Inv(max, a0, s) && Consumes(s, a).Some?
    ensures var t, e := s.tokens[Consumes(s, a).value], EffectOf(max, s, a);
            Measure(Left(max, e.local.ud), e.sent) < TokenMeasure(Left(max, s.local.ud), t)
  {
    var t := s.tokens[Consumes(s, a).value];
    match a
    case Deliver(_) => DeliverDrops(Left(max, s.local.ud), t);
    case Handle(_, choice) => ReactDrops(max, a0, s.local, s.beat, t, choice);
    case Fire(_) => FireDrops(max, a0, s.local, t);
    case Callback(_, result) => AnswerDrops(max, a0, s.local, t, result);
    case _ => MeasureOfShort(Left(max, s.local.ud), []);
  }

  lemma StepDrops(max: int, a0: nat, s: Task, a: Action)
    requires Inv(max, a0, s)
    ensures Consumes(s, a).Some? ==> TaskMeasure(max, Step(max, s, a)) < TaskMeasure(max, s)
    ensures Consumes(s, a).None? ==> TaskMeasure(max, Step(max, s, a)) <= TaskMeasure(max, s)
  {
    var i := Consumes(s, a);
    var left := Left(max, s.local.ud);
    if i.Some? {
      var t, e, rest := s.tokens[i.value], EffectOf(max, s, a), Without(s.tokens, i.value);
      EffectDrops(max, a0, s, a);
      EffectCounts(max, a0, s, a);
      MeasureWithout(left, s.tokens, i.value);
      MeasureAppend(Left(max, e.local.ud), rest, e.sent);
      WeightWithout(s.tokens, i.value);
      if TokenWeight(t) == 1 {
        MeasureWithoutControl(left, Left(max, e.local.ud), rest);
      }
    } else if a.BlockBeat? && s.local.ud.started.Some? {
      FlushLowers(left, s.local.ud, s.tokens, a.now, a.beat);
    }
  }

  lemma {:induction false} FlushLowers(left: nat, ud: TaskData, ts: seq<Token>, now: Time, beat: Beat)
    requires ud.started.Some?
    ensures Measure(left, Flush(ud, ts, now, beat)) <= Measure(left, ts)
  {
    if ts != [] {
      FlushLowers(left, ud, ts[1..], now, beat);
      assert Flush(ud, ts, now, beat)[1..] == Flush(ud, ts[1..], now, beat);
    }
  }

  /******* Whole runs *******/

  /** How many actions of the run moved a token. */
  function Moves(max: int, s: Task, actions: seq<Action>): nat
    decreases |actions|
  {
    if actions == [] then 0
    else (if Consumes(s, actions[0]).Some? then 1 else 0) + Moves(max, Step(max, s, actions[0]), actions[1..])
  }

  lemma {:induction false} RunCounts(max: int, a0: nat, s: Task, actions: seq<Action>)
    requires Inv(max, a0, s)
    ensures Inv(max, a0, Run(max, s, actions))
    ensures Moves(max, s, actions) + TaskMeasure(max, Run(max, s, actions)) <= TaskMeasure(max, s)
    decreases |actions|
  {
    if actions != [] {
      StepCounts(max, a0, s, actions[0]);
      StepDrops(max, a0, s, actions[0]);
      RunCounts(max, a0, Step(max, s, actions[0]), actions[1..]);
    }
  }

  lemma StartCounts(max: int, ud: TaskData, input: Input)
    ensures Inv(max, Attempts(ud), Start(ud, input))
  {
    WeightOfShort(Start(ud, input).tokens);
  }

  /** Main theorem: however the run goes, it moves tokens only so many times. */
  lemma RunsEnd(max: int, ud: TaskData, input: Input, actions: seq<Action>)
    ensures Moves(max, Start(ud, input), actions) <= Left(max, ud) * LapLength + 25
  {
    StartCounts(max, ud, input);
    RunCounts(max, Attempts(ud), Start(ud, input), actions);
    MeasureOfShort(Left(max, ud), Start(ud, input).tokens);
  }

  /**
   Main theorem: a run that starts with `a` attempts on record issues at most max(1, max - a) more,
   and exactly that many if it ends in `Exhausted`.
   */
  lemma AttemptsBounded(max: int, ud: TaskData, input: Input, actions: seq<Action>)
    ensures var s := Run(max, Start(ud, input), actions);
            && |s.local.trace| <= Bound(max, Attempts(ud))
            && forall t :: t in s.tokens && t.Bus? && t.source == TaskError && t.body == ErrorBody(Exhausted) ==>
               |s.local.trace| == Bound(max, Attempts(ud))
  {
    StartCounts(max, ud, input);
    RunCounts(max, Attempts(ud), Start(ud, input), actions);
    ExhaustedIsHonest(max, Attempts(ud), Run(max, Start(ud, input), actions));
  }

  lemma ExhaustedIsHonest(max: int, a0: nat, s: Task)
    requires Inv(max, a0, s)
    ensures forall t :: t in s.tokens && t.Bus? && t.source == TaskError && t.body == ErrorBody(Exhausted) ==>
              |s.local.trace| == Bound(max, a0)
  {
    forall t | t in s.tokens && t.Bus? && t.source == TaskError && t.body == ErrorBody(Exhausted)
      ensures |s.local.trace| == Bound(max, a0) {
      var i :| 0 <= i < |s.tokens| && s.tokens[i] == t;
      assert Sound(max, a0, s.local, s.tokens[i]);
    }
  }
}
