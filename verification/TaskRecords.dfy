/**
 What becomes of a stored record: it is passed on once, and once only, and leaves the task under its kind,
 unless the storer raised after storing it. And if the stages before the storers do their work, every answer of
 the executor gets its record.
 */
module TaskRecords {
  import opened Options
  import opened TaskProtocol
  import opened TaskTokens
  import opened TaskAttribution
  import opened TaskOutcomes
  import RoundRobin

  /******* Record copies *******/

  /** The message carries record `r`, on the stages for records of its kind. */
  predicate CarriesRecord(t: Token, r: Record) {
    match t
    case Bus(source, body, _) =>
      && body == RecordBody(r)
      && (if r.public.Some? then source == StoredSuccess || source == DispatchedSuccess
          else source == StoredFailure || source == DispatchedFailure)
    case Box(sink, body, _) =>
      body == RecordBody(r) && sink == if r.public.Some? then DispatcherSuccess else DispatcherFailure
    case _ => false
  }

  function Copies(ts: seq<Token>, r: Record): nat {
    if ts == [] then 0 else (if CarriesRecord(ts[0], r) then 1 else 0) + Copies(ts[1..], r)
  }

  lemma {:induction false} CopiesAppend(a: seq<Token>, b: seq<Token>, r: Record)
    ensures Copies(a + b, r) == Copies(a, r) + Copies(b, r)
  {
    if a == [] {
      assert a + b == b;
    } else {
      CopiesAppend(a[1..], b, r);
      assert (a + b)[1..] == a[1..] + b;
    }
  }

  lemma CopiesWithout(ts: seq<Token>, i: nat, r: Record)
    requires i < |ts|
    ensures Copies(ts, r) == Copies(Without(ts, i), r) + if CarriesRecord(ts[i], r) then 1 else 0
  {
    assert ts == ts[..i] + ([ts[i]] + ts[i + 1..]);
    CopiesAppend(ts[..i], [ts[i]] + ts[i + 1..], r);
    CopiesAppend([ts[i]], ts[i + 1..], r);
    CopiesAppend(ts[..i], ts[i + 1..], r);
    assert [ts[i]][1..] == [];
  }

  lemma CopiesOfShort(ts: seq<Token>, r: Record)
    requires |ts| <= 2
    ensures Copies(ts, r)
            == (if |ts| > 0 && CarriesRecord(ts[0], r) then 1 else 0)
               + if |ts| > 1 && CarriesRecord(ts[1], r) then 1 else 0
  {
    if |ts| == 2 {
      assert ts[1..] == [ts[1]] && [ts[1]][1..] == [];
    }
  }

  lemma {:induction false} FlushCopies(ud: TaskData, ts: seq<Token>, now: Time, beat: Beat, r: Record)
    requires ud.started.Some?
    ensures Copies(Flush(ud, ts, now, beat), r) == Copies(ts, r)
  {
    if ts != [] {
      FlushCopies(ud, ts[1..], now, beat, r);
      assert Flush(ud, ts, now, beat)[1..] == Flush(ud, ts[1..], now, beat);
    }
  }

  /** The attempts whose record is stored by a step, after which the storer raises. */
  function SilentIn(s: Task, a: Action): set<nat> {
    if a.Handle? && Consumes(s, a).Some? && Storer?(s.tokens[a.i].sink) && a.choice.StoresThenFails?
      then {s.tokens[a.i].tag}
    else {}
  }

  function Silent(max: int, s: Task, actions: seq<Action>): set<nat>
    decreases |actions|
  {
    if actions == [] then {} else SilentIn(s, actions[0]) + Silent(max, Step(max, s, actions[0]), actions[1..])
  }

  lemma SuccessStorerCopies(l: Local, stamped: Timestamped, public: Public, tag: nat, c: Choice, r: Record)
    requires Unstored(l) && tag + 1 == |l.trace|
    ensures var e := OnSuccessStorer(l, stamped, public, tag, c);
            && (r in e.local.records && r !in l.records ==> r.tag == tag) && l.records <= e.local.records
            && (c.StoresThenFails? ==> exists x :: x in e.local.records && x.tag == tag)
            && Copies(e.sent, r)
               == if r in e.local.records && r !in l.records && !c.StoresThenFails? then 1 else 0
  {
    var e := OnSuccessStorer(l, stamped, public, tag, c);
    CopiesOfShort(e.sent, r);
    if c.StoresThenFails? {
      assert e.local.records[|l.records|].tag == tag;
    }
  }

  lemma FailureStorerCopies(l: Local, stamped: Timestamped, tag: nat, c: Choice, r: Record)
    requires Unstored(l) && tag + 1 == |l.trace|
    ensures var e := OnFailureStorer(l, stamped, tag, c);
            && (r in e.local.records && r !in l.records ==> r.tag == tag) && l.records <= e.local.records
            && (c.StoresThenFails? ==> exists x :: x in e.local.records && x.tag == tag)
            && Copies(e.sent, r)
               == if r in e.local.records && r !in l.records && !c.StoresThenFails? then 1 else 0
  {
    var e := OnFailureStorer(l, stamped, tag, c);
    CopiesOfShort(e.sent, r);
    if c.StoresThenFails? {
      assert e.local.records[|l.records|].tag == tag;
    }
  }

  /** A storer sends a copy of the record that it stores, unless it raises after it. */
  lemma StorerCopies(max: int, l: Local, beat: Option<Beat>, t: Token, c: Choice, r: Record)
    requires t.Box? && Storer?(t.sink) && Fits(t, l)
    ensures var e := React(max, l, beat, t.sink, t.body, t.tag, c);
            && Unstored(l) && t.tag + 1 == |l.trace| && !CarriesRecord(t, r) && l.records <= e.local.records
            && (r in e.local.records && r !in l.records ==> r.tag == t.tag)
            && (c.StoresThenFails? ==> exists x :: x in e.local.records && x.tag == t.tag)
            && Copies(e.sent, r)
               == if r in e.local.records && r !in l.records && !c.StoresThenFails? then 1 else 0
  {
    if !c.Raises? {
      if t.sink == SuccessStorerInput {
        SuccessStorerCopies(l, t.body.prepared, t.body.preparedPublic, t.tag, c, r);
      } else {
        FailureStorerCopies(l, t.body.failure, t.tag, c, r);
      }
    }
    hide OnSuccessStorer;
    hide OnFailureStorer;
  }

  /** The stages up to the storers have no records to pass on. */
  lemma EarlierCopies(max: int, l: Local, beat: Option<Beat>, t: Token, c: Choice, r: Record)
    requires t.Box? && !Storer?(t.sink) && t.sink != DispatcherSuccess && t.sink != DispatcherFailure
    ensures var e := React(max, l, beat, t.sink, t.body, t.tag, c);
            && e.local.records == l.records
            && !CarriesRecord(t, r) && Copies(e.sent, r) == 0
  {
    CopiesOfShort(React(max, l, beat, t.sink, t.body, t.tag, c).sent, r);
  }

  lemma DispatcherCopies(max: int, l: Local, beat: Option<Beat>, t: Token, c: Choice, r: Record)
    requires t.Box? && (t.sink == DispatcherSuccess || t.sink == DispatcherFailure) && Fits(t, l)
    ensures var e := React(max, l, beat, t.sink, t.body, t.tag, c);
            && e.local.records == l.records
            && Copies(e.sent, r) == if CarriesRecord(t, r) && !c.Raises? then 1 else 0
  {
    CopiesOfShort(React(max, l, beat, t.sink, t.body, t.tag, c).sent, r);
  }

  /** Every stage but the storers passes on the record it got, if it loses nothing. */
  lemma OtherCopies(max: int, l: Local, beat: Option<Beat>, t: Token, c: Choice, r: Record)
    requires t.Box? && !Storer?(t.sink) && Fits(t, l)
    ensures var e := React(max, l, beat, t.sink, t.body, t.tag, c);
            && e.local.records == l.records
            && Copies(e.sent, r) <= (if CarriesRecord(t, r) then 1 else 0)
            && (Answered(t.sink, c) ==> Copies(e.sent, r) == if CarriesRecord(t, r) then 1 else 0)
  {
    if t.sink == DispatcherSuccess || t.sink == DispatcherFailure {
      DispatcherCopies(max, l, beat, t, c, r);
    } else {
      EarlierCopies(max, l, beat, t, c, r);
    }
    hide React;
    hide Fits;
    hide Copies;
    hide CarriesRecord;
  }

  /** How many copies of record `r` there should be: one from the storing on, unless the storer raised after it. */
  function Due(l: Local, silent: set<nat>, r: Record): nat {
    if r in l.records && r.tag !in silent then 1 else 0
  }

  ghost predicate SilentStored(l: Local, silent: set<nat>) {
    forall n :: n in silent ==> exists x :: x in l.records && x.tag == n
  }

  /** What an effect must do about record `r`; `carried` is the copy in the message it consumes. */
  ghost predicate PassesOn(l: Local, e: Effect, silent: set<nat>, silent1: set<nat>, t: Token, r: Record, all: bool) {
    var carried := if CarriesRecord(t, r) then 1 else 0;
    && l.records <= e.local.records && SilentStored(e.local, silent1)
    && Copies(e.sent, r) + Due(l, silent, r) <= carried + Due(e.local, silent1, r)
    && (all ==> Copies(e.sent, r) + Due(l, silent, r) == carried + Due(e.local, silent1, r))
  }

  lemma StorerPassesOn(max: int, l: Local, beat: Option<Beat>, t: Token, c: Choice, silent: set<nat>, r: Record)
    requires t.Box? && Storer?(t.sink) && Fits(t, l) && SilentStored(l, silent)
    ensures PassesOn(l, React(max, l, beat, t.sink, t.body, t.tag, c), silent,
                     silent + if c.StoresThenFails? then {t.tag} else {}, t, r, true)
  {
    StorerCopies(max, l, beat, t, c, r);
    hide React;
    hide Copies;
    hide CarriesRecord;
    hide Fits;
    assert t.tag !in silent;
    var records := React(max, l, beat, t.sink, t.body, t.tag, c).local.records;
    assert forall x :: x in l.records ==> x in records;
  }

  lemma QuietPassesOn(l: Local, e: Effect, silent: set<nat>, t: Token, r: Record)
    requires SilentStored(l, silent) && e.local.records == l.records
    requires Copies(e.sent, r) == if CarriesRecord(t, r) then 1 else 0
    ensures PassesOn(l, e, silent, silent + {}, t, r, true)
  {
    assert silent + {} == silent;
  }

  lemma HandlePassesOn(max: int, l: Local, beat: Option<Beat>, t: Token, c: Choice, silent: set<nat>, r: Record)
    requires t.Box? && RecordsOk(l) && Fits(t, l) && SilentStored(l, silent)
    ensures PassesOn(l, React(max, l, beat, t.sink, t.body, t.tag, c), silent,
                     silent + if Storer?(t.sink) && c.StoresThenFails? then {t.tag} else {}, t, r, Answered(t.sink, c))
  {
    if Storer?(t.sink) {
      StorerPassesOn(max, l, beat, t, c, silent, r);
    } else {
      OtherCopies(max, l, beat, t, c, r);
      assert silent + {} == silent;
      hide React;
      hide Copies;
      hide CarriesRecord;
      hide Fits;
    }
  }

  lemma DeliverCopies(t: Token, r: Record)
    requires t.Bus? && Route(t.source).Some?
    ensures Copies([Box(Route(t.source).value, t.body, t.tag)], r) == if CarriesRecord(t, r) then 1 else 0
  {
    CopiesOfShort([Box(Route(t.source).value, t.body, t.tag)], r);
  }

  lemma FireCopies(l: Local, r: Record)
    ensures Copies(NewAttempt(l, RetryOnTimer(l.ud)).sent, r) == 0
    ensures NewAttempt(l, RetryOnTimer(l.ud)).local.records == l.records
  {
    CopiesOfShort(NewAttempt(l, RetryOnTimer(l.ud)).sent, r);
  }

  lemma AnswerCopies(l: Local, result: Result, tag: nat, r: Record)
    ensures Copies(OnAnswer(l, result, tag).sent, r) == 0 && OnAnswer(l, result, tag).local.records == l.records
  {
    CopiesOfShort(OnAnswer(l, result, tag).sent, r);
  }

  lemma EffectCopies(max: int, s: Task, a: Action, silent: set<nat>, r: Record)
    requires Attributed(s) && SilentStored(s.local, silent) && Consumes(s, a).Some?
    ensures PassesOn(s.local, EffectOf(max, s, a), silent, silent + SilentIn(s, a), s.tokens[Consumes(s, a).value], r,
                     Lossless(s, a))
  {
    var t := s.tokens[Consumes(s, a).value];
    assert Fits(t, s.local);
    match a
    case Deliver(_) =>
      DeliverCopies(t, r);
      QuietPassesOn(s.local, EffectOf(max, s, a), silent, t, r);
    case Handle(_, choice) => HandlePassesOn(max, s.local, s.beat, t, choice, silent, r);
    case Fire(_) =>
      FireCopies(s.local, r);
      QuietPassesOn(s.local, EffectOf(max, s, a), silent, t, r);
    case Callback(_, result) =>
      AnswerCopies(s.local, result, t.tag, r);
      QuietPassesOn(s.local, EffectOf(max, s, a), silent, t, r);
    case DropStale(_) => QuietPassesOn(s.local, EffectOf(max, s, a), silent, t, r);
    case BlockBeat(_, _, _) =>
    hide PassesOn;
    hide Fits;
    hide React;
    hide OnAnswer;
    hide NewAttempt;
    hide Copies;
  }

  lemma StepCopies(max: int, s: Task, a: Action, silent: set<nat>, r: Record)
    requires Attributed(s) && SilentStored(s.local, silent) && Copies(s.tokens, r) <= Due(s.local, silent, r)
    ensures var s1, silent1 := Step(max, s, a), silent + SilentIn(s, a);
            && SilentStored(s1.local, silent1)
            && Copies(s1.tokens, r) <= Due(s1.local, silent1, r)
            && (Lossless(s, a) && Copies(s.tokens, r) == Due(s.local, silent, r) ==>
                  Copies(s1.tokens, r) == Due(s1.local, silent1, r))
  {
    var i := Consumes(s, a);
    if i.Some? {
      EffectCopies(max, s, a, silent, r);
      CopiesWithout(s.tokens, i.value, r);
      CopiesAppend(Without(s.tokens, i.value), EffectOf(max, s, a).sent, r);
      hide EffectOf;
    } else if a.BlockBeat? && s.local.ud.started.Some? {
      FlushCopies(s.local.ud, s.tokens, a.now, a.beat, r);
    }
  }

  lemma {:induction false} RunCopies(max: int, s: Task, actions: seq<Action>, silent: set<nat>, r: Record)
    requires Attributed(s) && SilentStored(s.local, silent) && Copies(s.tokens, r) <= Due(s.local, silent, r)
    ensures var s1, silent1 := Run(max, s, actions), silent + Silent(max, s, actions);
            && Copies(s1.tokens, r) <= Due(s1.local, silent1, r)
            && (LosslessRun(max, s, actions) && Copies(s.tokens, r) == Due(s.local, silent, r) ==>
                  Copies(s1.tokens, r) == Due(s1.local, silent1, r))
    decreases |actions|
  {
    hide Step;
    hide Lossless;
    hide Due;
    if actions == [] {
      assert silent + {} == silent;
    } else {
      StepCopies(max, s, actions[0], silent, r);
      StepAttributes(max, s, actions[0]);
      RunCopies(max, Step(max, s, actions[0]), actions[1..], silent + SilentIn(s, actions[0]), r);
      assert silent + Silent(max, s, actions)
             == silent + SilentIn(s, actions[0]) + Silent(max, Step(max, s, actions[0]), actions[1..]);
    }
  }

  /**
   Main theorem: in every run a record is on the way, or has left the task, at most once, and not at all if it is
   not stored or its storer raised after storing it. In a run that loses nothing it is exactly once.
   */
  lemma RecordsArePassedOn(max: int, ud: TaskData, input: Input, actions: seq<Action>, r: Record)
    ensures var s := Run(max, Start(ud, input), actions);
            var silent := Silent(max, Start(ud, input), actions);
            && (r !in s.local.records || r.tag in silent ==> Copies(s.tokens, r) == 0)
            && Copies(s.tokens, r) <= 1
            && (LosslessRun(max, Start(ud, input), actions) && r in s.local.records && r.tag !in silent ==>
                  Copies(s.tokens, r) == 1)
  {
    StartAttributes(ud, input);
    var s := Start(ud, input);
    CopiesOfShort(s.tokens, r);
    RunCopies(max, s, actions, {}, r);
    assert {} + Silent(max, s, actions) == Silent(max, s, actions);
  }

  lemma {:induction false} OneCopy(ts: seq<Token>, r: Record) returns (i: nat)
    requires Copies(ts, r) == 1
    ensures i < |ts| && CarriesRecord(ts[i], r)
    ensures forall j :: 0 <= j < |ts| && CarriesRecord(ts[j], r) ==> j == i
  {
    if CarriesRecord(ts[0], r) {
      i := 0;
      forall j | 0 <= j < |ts| && CarriesRecord(ts[j], r) ensures j == i {
        if j > 0 {
          CopiesWithout(ts[1..], j - 1, r);
        }
      }
    } else {
      i := OneCopy(ts[1..], r);
      i := i + 1;
    }
  }

  /** The record has left the task as a result of its kind. */
  predicate Left(t: Token, r: Record) {
    t.Bus? && t.body == RecordBody(r) && t.source == if r.public.Some? then DispatchedSuccess else DispatchedFailure
  }

  lemma LeavesAsRecord(t: Token, r: Record)
    requires t.Bus? && Route(t.source).None?
    ensures CarriesRecord(t, r) <==> Left(t, r)
  {
  }

  /**
   Main theorem: when a run that loses nothing has nothing left to do, exactly the records whose storer did not
   raise have left the task, each in one result of its kind.
   */
  lemma RecordsLeaveOnce(max: int, ud: TaskData, input: Input, actions: seq<Action>, r: Record) returns (i: nat)
    requires LosslessRun(max, Start(ud, input), actions) && Quiescent(Run(max, Start(ud, input), actions))
    ensures var s := Run(max, Start(ud, input), actions);
            if r in s.local.records && r.tag !in Silent(max, Start(ud, input), actions)
              then i < |s.tokens| && forall j :: 0 <= j < |s.tokens| ==> (Left(s.tokens[j], r) <==> j == i)
            else forall j :: 0 <= j < |s.tokens| ==> !Left(s.tokens[j], r)
  {
    RecordsArePassedOn(max, ud, input, actions, r);
    hide LosslessRun;
    hide Silent;
    var s := Run(max, Start(ud, input), actions);
    hide Run;
    forall j | 0 <= j < |s.tokens| ensures CarriesRecord(s.tokens[j], r) <==> Left(s.tokens[j], r) {
      LeavesAsRecord(s.tokens[j], r);
    }
    hide Quiescent;
    hide Left;
    hide CarriesRecord;
    i := 0;
    if Copies(s.tokens, r) == 1 {
      i := OneCopy(s.tokens, r);
    } else {
      forall j | 0 <= j < |s.tokens| ensures !CarriesRecord(s.tokens[j], r) {
        CopiesWithout(s.tokens, j, r);
      }
    }
  }

  /******* Every answer gets its record *******/

  /** No loss, and no failure between the answer of the executor and the end of the storing. */
  predicate Diligent(s: Task, a: Action) {
    && Lossless(s, a)
    && (a.Handle? && Consumes(s, a).Some? ==>
          && (s.tokens[a.i].sink == ConverterInput ==> a.choice.Converts?)
          && (Storer?(s.tokens[a.i].sink) ==> a.choice.Stores?))
  }

  predicate DiligentRun(max: int, s: Task, actions: seq<Action>)
    decreases |actions|
  {
    actions == [] || (Diligent(s, actions[0]) && DiligentRun(max, Step(max, s, actions[0]), actions[1..]))
  }

  predicate AnswerStage(sink: SinkName) {
    sink == TimestamperOutput || sink == PreparerResult || sink == ConverterInput || sink == PreparerConverted
      || Storer?(sink)
  }

  /** The message is on the way from an answer of the executor to a storer. */
  predicate Working(t: Token) {
    || t.Queued?
    || (t.Box? && AnswerStage(t.sink))
    || (t.Bus? && Route(t.source).Some? && AnswerStage(Route(t.source).value))
  }

  ghost predicate AnyWorking(ts: seq<Token>) {
    exists i :: 0 <= i < |ts| && Working(ts[i])
  }

  predicate Storable(a: Attempt, free: bool) {
    a.result.Some? && (a.result.value.ExecutorFailed? || (a.result.value.Succeeded? && free))
  }

  ghost predicate HasRecord(l: Local, tag: nat) {
    exists r :: r in l.records && r.tag == tag
  }

  /** The first `n` attempts have their records. */
  ghost predicate Settled(l: Local, free: bool, n: int) {
    forall tag :: 0 <= tag < n && tag < |l.trace| && Storable(l.trace[tag], free) ==> HasRecord(l, tag)
  }

  /** All attempts but the last are settled, and the last one is settled or still being worked on. */
  ghost predicate OnlyLastOpen(l: Local, free: bool, ts: seq<Token>) {
    Settled(l, free, |l.trace| - 1) && (Settled(l, free, |l.trace|) || AnyWorking(ts))
  }

  /** Nothing was answered: attempts are added, or an attempt without a result is described further. */
  ghost predicate NoNewResult(l: Local, l1: Local) {
    && l1.records == l.records && |l.trace| <= |l1.trace| <= |l.trace| + 1
    && (forall tag :: 0 <= tag < |l.trace| ==> l1.trace[tag].result == l.trace[tag].result)
    && (forall tag :: |l.trace| <= tag < |l1.trace| ==> l1.trace[tag].result.None?)
  }

  lemma StaysSettled(l: Local, l1: Local, free: bool, ts: seq<Token>)
    requires Settled(l, free, |l.trace|) && NoNewResult(l, l1)
    ensures OnlyLastOpen(l1, free, ts)
  {
    forall tag | 0 <= tag < |l1.trace| && Storable(l1.trace[tag], free) ensures HasRecord(l1, tag) {
      assert tag < |l.trace| && Storable(l.trace[tag], free);
      assert HasRecord(l, tag);
    }
  }

  lemma InputAnswers(max: int, l: Local, beat: Option<Beat>, t: Token, c: Choice)
    requires t.Box? && (t.sink == CreatorInput || t.sink == RouterInput || t.sink == TimestamperInput)
    requires Fits(t, l) && Answered(t.sink, c)
    ensures NoNewResult(l, React(max, l, beat, t.sink, t.body, t.tag, c).local)
  {
    hide RoundRobin.SelectAt;
  }

  lemma AnswerWorks(l: Local, l1: Local, free: bool, result: Result, tag: nat)
    requires Settled(l, free, |l.trace| - 1) && l1.trace == l.trace && l1.records == l.records
    requires l1.ud.saved.Some? && tag + 1 == |l.trace|
    ensures var e := OnAnswer(l1, result, tag);
            OnlyLastOpen(e.local, free, e.sent)
  {
    var e := OnAnswer(l1, result, tag);
    assert Working(e.sent[0]);
    forall n | 0 <= n < |e.local.trace| - 1 && Storable(e.local.trace[n], free) ensures HasRecord(e.local, n) {
      assert Storable(l.trace[n], free);
      assert HasRecord(l, n);
    }
  }

  lemma CommunicatorAnswers(l: Local, routed: Routed, tag: nat, c: Choice, free: bool)
    requires tag + 1 == |l.trace| && Settled(l, free, |l.trace|)
    ensures var e := OnCommunicator(l, routed, tag, c);
            OnlyLastOpen(e.local, free, e.sent)
  {
    var l1 := l.(ud := SaveInput(l.ud, routed));
    if c.Answers? {
      AnswerWorks(l, l1, free, c.result, tag);
    } else {
      StaysSettled(l, OnCommunicator(l, routed, tag, c).local, free, OnCommunicator(l, routed, tag, c).sent);
    }
  }

  lemma QuietStages(max: int, l: Local, beat: Option<Beat>, t: Token, c: Choice)
    requires t.Box? && !Input?(t.sink) && !AnswerStage(t.sink) && !c.Raises?
    ensures NoNewResult(l, React(max, l, beat, t.sink, t.body, t.tag, c).local)
  {
  }

  lemma LastSettles(l: Local, l1: Local, free: bool, ts: seq<Token>)
    requires Settled(l, free, |l.trace| - 1) && l1.trace == l.trace && l.records <= l1.records
    requires l.trace != [] && Storable(l.trace[|l.trace| - 1], free) ==> HasRecord(l1, |l.trace| - 1)
    ensures OnlyLastOpen(l1, free, ts)
  {
    forall tag | 0 <= tag < |l1.trace| && Storable(l1.trace[tag], free) ensures HasRecord(l1, tag) {
      if tag < |l.trace| - 1 {
        assert HasRecord(l, tag);
        var r :| r in l.records && r.tag == tag;
        assert r in l1.records;
      }
    }
  }

  lemma StillWorks(l: Local, l1: Local, free: bool, ts: seq<Token>)
    requires Settled(l, free, |l.trace| - 1) && l1.trace == l.trace && l1.records == l.records && AnyWorking(ts)
    ensures OnlyLastOpen(l1, free, ts)
  {
    forall tag | 0 <= tag < |l1.trace| - 1 && Storable(l1.trace[tag], free) ensures HasRecord(l1, tag) {
      assert HasRecord(l, tag);
    }
  }

  lemma SenderWorks(max: int, l: Local, beat: Option<Beat>, t: Token, c: Choice, original: Input, free: bool)
    requires t.Box? && AnswerStage(t.sink) && !Storer?(t.sink) && t.sink != PreparerResult
    requires Fits(t, l) && Kept(original, free, l.ud, t)
    requires Answered(t.sink, c) && (t.sink == ConverterInput ==> c.Converts?)
    ensures var e := React(max, l, beat, t.sink, t.body, t.tag, c);
            e.local.trace == l.trace && e.local.records == l.records && AnyWorking(e.sent)
  {
    var e := React(max, l, beat, t.sink, t.body, t.tag, c);
    assert Working(e.sent[0]);
  }

  /** The preparer works on, unless the answer is not one to be stored. */
  lemma PreparerWorks(max: int, l: Local, beat: Option<Beat>, t: Token, c: Choice, original: Input, free: bool)
    requires t.Box? && t.sink == PreparerResult && Fits(t, l) && Kept(original, free, l.ud, t) && Answered(t.sink, c)
    ensures var e := React(max, l, beat, t.sink, t.body, t.tag, c);
            && e.local.trace == l.trace && e.local.records == l.records && l.trace != []
            && (Storable(l.trace[|l.trace| - 1], free) ==> AnyWorking(e.sent))
  {
    var e := React(max, l, beat, t.sink, t.body, t.tag, c);
    if Storable(l.trace[|l.trace| - 1], free) {
      assert Working(e.sent[0]);
    }
  }

  lemma StorerSettles(max: int, l: Local, beat: Option<Beat>, t: Token, c: Choice)
    requires t.Box? && Storer?(t.sink) && Fits(t, l) && c.Stores?
    ensures var e := React(max, l, beat, t.sink, t.body, t.tag, c);
            && l.trace != [] && e.local.trace == l.trace
            && l.records <= e.local.records && HasRecord(e.local, |l.trace| - 1)
  {
    var e := React(max, l, beat, t.sink, t.body, t.tag, c);
    assert e.local.records[|l.records|].tag == |l.trace| - 1;
  }

  lemma HandleSettles(max: int, l: Local, beat: Option<Beat>, t: Token, c: Choice, original: Input, free: bool)
    requires t.Box? && Fits(t, l) && Kept(original, free, l.ud, t) && Answered(t.sink, c)
    requires (t.sink == ConverterInput ==> c.Converts?) && (Storer?(t.sink) ==> c.Stores?)
    requires Settled(l, free, |l.trace| - 1) && (!Working(t) ==> Settled(l, free, |l.trace|))
    ensures var e := React(max, l, beat, t.sink, t.body, t.tag, c);
            OnlyLastOpen(e.local, free, e.sent)
  {
    var e := React(max, l, beat, t.sink, t.body, t.tag, c);
    if t.sink == CommunicatorInput {
      CommunicatorAnswers(l, t.body.routed, t.tag, c, free);
    } else if Storer?(t.sink) {
      StorerSettles(max, l, beat, t, c);
      LastSettles(l, e.local, free, e.sent);
    } else if t.sink == PreparerResult {
      PreparerWorks(max, l, beat, t, c, original, free);
      if Storable(l.trace[|l.trace| - 1], free) {
        StillWorks(l, e.local, free, e.sent);
      } else {
        LastSettles(l, e.local, free, e.sent);
      }
    } else if AnswerStage(t.sink) {
      SenderWorks(max, l, beat, t, c, original, free);
      StillWorks(l, e.local, free, e.sent);
    } else {
      if Input?(t.sink) {
        InputAnswers(max, l, beat, t, c);
      } else {
        QuietStages(max, l, beat, t, c);
      }
      StaysSettled(l, e.local, free, e.sent);
    }
    hide React;
    hide OnlyLastOpen;
    hide Fits;
    hide Kept;
    hide Settled;
  }

  lemma WorkingWeighs(t: Token)
    ensures Working(t) ==> TokenWeight(t) == 1
  {
  }

  /** With a control token in hand that is not working none is. */
  lemma OnlyControlWorks(ts: seq<Token>, i: nat)
    requires Weight(ts) <= 1 && i < |ts| && TokenWeight(ts[i]) == 1 && !Working(ts[i])
    ensures !AnyWorking(ts)
  {
    forall j | 0 <= j < |ts| ensures !Working(ts[j]) {
      WorkingWeighs(ts[j]);
      if j != i {
        WeightOfTwo(ts, i, j);
      }
    }
  }

  lemma WorkingStays(ts: seq<Token>, i: nat, sent: seq<Token>)
    requires i < |ts|
    ensures AnyWorking(sent) || (AnyWorking(ts) && !Working(ts[i])) ==> AnyWorking(Without(ts, i) + sent)
  {
    var rest := Without(ts, i);
    if AnyWorking(sent) {
      var j :| 0 <= j < |sent| && Working(sent[j]);
      assert (rest + sent)[|rest| + j] == sent[j];
    } else if AnyWorking(ts) && !Working(ts[i]) {
      var j :| 0 <= j < |ts| && Working(ts[j]);
      assert (rest + sent)[if j < i then j else j - 1] == ts[j];
    }
  }

  lemma FlushWorks(ud: TaskData, ts: seq<Token>, now: Time, beat: Beat)
    requires ud.started.Some? && AnyWorking(ts)
    ensures AnyWorking(Flush(ud, ts, now, beat))
  {
    var i :| 0 <= i < |ts| && Working(ts[i]);
    assert Working(Flush(ud, ts, now, beat)[i]);
  }

  lemma DeliveredWorks(t: Token)
    requires t.Bus? && Route(t.source).Some?
    ensures var b := Box(Route(t.source).value, t.body, t.tag);
            Working([b][0]) <==> Working(t)
  {
  }

  lemma FiredIsQuiet(l: Local)
    ensures NoNewResult(l, NewAttempt(l, RetryOnTimer(l.ud)).local)
  {
  }

  lemma EffectSettles(max: int, s: Task, a: Action, original: Input, free: bool)
    requires Attributed(s) && AllKept(original, free, s.local.ud, s.tokens) && Diligent(s, a)
    requires Consumes(s, a).Some? && OnlyLastOpen(s.local, free, s.tokens)
    requires TokenWeight(s.tokens[Consumes(s, a).value]) == 1
    ensures var e := EffectOf(max, s, a);
            OnlyLastOpen(e.local, free, e.sent)
  {
    var i := Consumes(s, a).value;
    var l, t, e := s.local, s.tokens[i], EffectOf(max, s, a);
    assert Fits(t, l) && Kept(original, free, l.ud, t);
    if !Working(t) {
      OnlyControlWorks(s.tokens, i);
    }
    match a
    case Deliver(_) => DeliveredWorks(t);
    case Handle(_, choice) => HandleSettles(max, l, s.beat, t, choice, original, free);
    case Fire(_) =>
      FiredIsQuiet(l);
      StaysSettled(l, e.local, free, e.sent);
    case Callback(_, result) => AnswerWorks(l, l, free, result, t.tag);
    case _ =>
    hide React;
    hide Fits;
    hide Kept;
    hide Settled;
    hide OnAnswer;
    hide NewAttempt;
  }

  lemma StepSettles(max: int, s: Task, a: Action, original: Input, free: bool)
    requires Attributed(s) && AllKept(original, free, s.local.ud, s.tokens) && Diligent(s, a)
    requires OnlyLastOpen(s.local, free, s.tokens)
    ensures OnlyLastOpen(Step(max, s, a).local, free, Step(max, s, a).tokens)
  {
    var i := Consumes(s, a);
    if i.Some? {
      var t, e := s.tokens[i.value], EffectOf(max, s, a);
      WorkingStays(s.tokens, i.value, e.sent);
      WorkingWeighs(t);
      if TokenWeight(t) == 1 {
        EffectSettles(max, s, a, original, free);
      } else {
        EffectFits(max, s, a);
      }
      hide EffectOf;
      hide Working;
      hide Settled;
    } else if a.BlockBeat? && s.local.ud.started.Some? && AnyWorking(s.tokens) {
      FlushWorks(s.local.ud, s.tokens, a.now, a.beat);
    }
  }

  lemma {:induction false} RunSettles(max: int, s: Task, actions: seq<Action>, original: Input, free: bool)
    requires Attributed(s) && AllKept(original, free, s.local.ud, s.tokens) && DiligentRun(max, s, actions)
    requires OnlyLastOpen(s.local, free, s.tokens)
    ensures OnlyLastOpen(Run(max, s, actions).local, free, Run(max, s, actions).tokens)
    decreases |actions|
  {
    hide Step;
    hide Attributed;
    hide AllKept;
    hide Diligent;
    hide OnlyLastOpen;
    if actions != [] {
      StepSettles(max, s, actions[0], original, free);
      StepAttributes(max, s, actions[0]);
      StepKeeps(original, free, max, s, actions[0]);
      RunSettles(max, Step(max, s, actions[0]), actions[1..], original, free);
    }
  }

  lemma {:induction false} DiligentIsLossless(max: int, s: Task, actions: seq<Action>)
    requires DiligentRun(max, s, actions)
    ensures LosslessRun(max, s, actions) && Silent(max, s, actions) == {}
    decreases |actions|
  {
    hide Step;
    if actions != [] {
      DiligentIsLossless(max, Step(max, s, actions[0]), actions[1..]);
    }
  }

  /**
   Main theorem: in a run that loses nothing, with a free slot, a converter and storers that do their work, every
   attempt that the executor answered with a success or a failure of its own ends up as one record of that
   attempt, which leaves the task once, as the kind the answer says. With a slot that was taken before the run
   this holds of the failures.
   */
  lemma AnswersAreReported(max: int, ud: TaskData, input: Input, actions: seq<Action>, tag: nat)
    returns (r: Record, i: nat)
    requires DiligentRun(max, Start(ud, input), actions) && Quiescent(Run(max, Start(ud, input), actions))
    requires var trace := Run(max, Start(ud, input), actions).local.trace;
             && tag < |trace| && trace[tag].result.Some?
             && (trace[tag].result.value.ExecutorFailed? || (trace[tag].result.value.Succeeded? && Free(ud.slot)))
    ensures var s := Run(max, Start(ud, input), actions);
            && r in s.local.records && r.tag == tag && About(s.local.trace, tag, r.result)
            && i < |s.tokens| && s.tokens[i].Bus? && s.tokens[i].body == RecordBody(r)
            && (s.tokens[i].source == DispatchedFailure <==> s.local.trace[tag].result == Some(ExecutorFailed))
            && (s.tokens[i].source == DispatchedSuccess <==> s.local.trace[tag].result.value.Succeeded?)
            && forall j :: 0 <= j < |s.tokens| ==> (Left(s.tokens[j], r) <==> j == i)
  {
    var s0, s := Start(ud, input), Run(max, Start(ud, input), actions);
    var original, free := Original(ud, input), Free(ud.slot);
    StartAttributes(ud, input);
    RunSettles(max, s0, actions, original, free);
    NothingWorks(s);
    assert Storable(s.local.trace[tag], free);
    assert HasRecord(s.local, tag);
    r :| r in s.local.records && r.tag == tag;
    DiligentIsLossless(max, s0, actions);
    RecordsAreAttributed(max, ud, input, actions);
    i := RecordsLeaveOnce(max, ud, input, actions, r);
    hide Run;
    hide Silent;
    hide LosslessRun;
    hide DiligentRun;
    hide Attributed;
    assert Left(s.tokens[i], r);
  }

  lemma NothingWorks(s: Task)
    requires Quiescent(s)
    ensures !AnyWorking(s.tokens)
  {
  }
}
