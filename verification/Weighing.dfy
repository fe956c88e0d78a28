/**
 The demo's weighing: the score of a mining result is the last valid one, and a hotkey's weight scales its
 average score up to all its mining results, failures counting as zero. Floats are reals.
 */
module Weighing {
  import opened Options
  import opened Epochs
  import opened StableSort
  import opened Store = TaskResultStore

  /** The text of a result's id, by which validations name it. */
  type ResultText = string

  datatype Mined = Mined(id: ResultText, hotkey: Hotkey)

  /** `requested` is `None` if the request payload is malformed. */
  datatype Validation = Validation(requested: Option<set<ResultText>>, returned: map<ResultText, int>)

  datatype Accumulator = Accumulator(miningCount: nat, scoredCount: nat, scoredSum: real, unscoredSuccessCount: nat)

  const NoResults := Accumulator(0, 0, 0.0, 0)

  /******* The declarative form *******/

  /** A validation of one result must have returned exactly that one. */
  predicate Counts(v: Validation) {
    v.requested.Some? && (|v.requested.value| == 1 ==> v.returned.Keys == v.requested.value)
  }

  /** The last valid score, in chronological order. */
  function LastScore(validations: seq<Validation>, id: ResultText): Option<int> {
    if validations == [] then None
    else
      var v := validations[|validations| - 1];
      if Counts(v) && id in v.requested.value && id in v.returned then Some(v.returned[id])
      else LastScore(validations[..|validations| - 1], id)
  }

  /** The validation asks for `id` and scores it; one that asks for it alone must return it and nothing else. */
  ghost predicate Scores(v: Validation, id: ResultText) {
    && v.requested.Some? && id in v.requested.value && id in v.returned
    && (v.requested == Some({id}) ==> v.returned.Keys == {id})
  }

  lemma OneScore(v: Validation, id: ResultText)
    ensures LastScore([v], id) == if Scores(v, id) then Some(v.returned[id]) else None
  {
    assert LastScore([v][..0], id) == None;
    if v.requested.Some? && id in v.requested.value {
      var others := v.requested.value - {id};
      assert |v.requested.value| == 1 + |others|;
      assert |others| == 0 ==> others == {};
      assert v.requested.value == {id} <==> others == {};
    }
  }

  /** Main theorem: of two lists of validations the later one decides, unless it has no valid score. */
  lemma {:induction false} LaterScoreWins(a: seq<Validation>, b: seq<Validation>, id: ResultText)
    ensures LastScore(a + b, id) == if LastScore(b, id).Some? then LastScore(b, id) else LastScore(a, id)
  {
    if b == [] {
      assert a + b == a;
    } else {
      var n := |b| - 1;
      assert (a + b)[..|a| + n] == a + b[..n];
      LaterScoreWins(a, b[..n], id);
    }
  }

  /** Main theorem: the score of a result is the one of the last validation that scores it, and none if none does. */
  lemma {:induction false} LastScoreIff(validations: seq<Validation>, id: ResultText, x: int)
    ensures LastScore(validations, id) == Some(x) <==>
            exists i :: 0 <= i < |validations| && Scores(validations[i], id) && validations[i].returned[id] == x
                        && forall j :: i < j < |validations| ==> !Scores(validations[j], id)
    ensures LastScore(validations, id) == None <==> forall i :: 0 <= i < |validations| ==> !Scores(validations[i], id)
  {
    if validations != [] {
      var n := |validations| - 1;
      LastScoreIff(validations[..n], id, x);
      OneScore(validations[n], id);
      assert validations == validations[..n] + [validations[n]];
      LaterScoreWins(validations[..n], [validations[n]], id);
    }
  }

  function MinedBy(mined: seq<Mined>, h: Hotkey): nat {
    if mined == [] then 0 else MinedBy(mined[..|mined| - 1], h) + if mined[|mined| - 1].hotkey == h then 1 else 0
  }

  function FailedBy(failures: seq<Hotkey>, h: Hotkey): nat {
    if failures == [] then 0
    else
      FailedBy(failures[..|failures| - 1], h)
      + if failures[|failures| - 1] == h then 1 else 0
  }

  function ScoredBy(mined: seq<Mined>, validations: seq<Validation>, h: Hotkey): nat {
    if mined == [] then 0
    else
      var m := mined[|mined| - 1];
      ScoredBy(mined[..|mined| - 1], validations, h)
        + if m.hotkey == h && LastScore(validations, m.id).Some? then 1 else 0
  }

  function SumBy(mined: seq<Mined>, validations: seq<Validation>, h: Hotkey): real {
    if mined == [] then 0.0
    else
      var m := mined[|mined| - 1];
      SumBy(mined[..|mined| - 1], validations, h)
      + if m.hotkey == h && LastScore(validations, m.id).Some? then LastScore(validations, m.id).value as real else 0.0
  }

  /** (successes + failures) times the sum of scores over (scored successes + failures), or 0 if nothing is scored. */
  function Weight(successes: nat, failures: nat, scored: nat, sum: real): real {
    if scored + failures == 0 then 0.0
    else (successes + failures) as real * sum / (scored + failures) as real
  }

  function WeightOf(mined: seq<Mined>, failures: seq<Hotkey>, validations: seq<Validation>, h: Hotkey): real {
    Weight(MinedBy(mined, h), FailedBy(failures, h), ScoredBy(mined, validations, h), SumBy(mined, validations, h))
  }

  ghost predicate Occurs(mined: seq<Mined>, failures: seq<Hotkey>, h: Hotkey) {
    MinedBy(mined, h) + FailedBy(failures, h) > 0
  }

  /******* The loops *******/

  ghost predicate ScoresAre(scores: map<ResultText, int>, validations: seq<Validation>) {
    forall id :: if id in scores then LastScore(validations, id) == Some(scores[id])
      else LastScore(validations, id).None?
  }

  method CollectScores(validations: seq<Validation>) returns (scores: map<ResultText, int>)
    ensures ScoresAre(scores, validations)
  {
    scores := map[];
    for i := 0 to |validations|
      invariant ScoresAre(scores, validations[..i])
    {
      var v := validations[i];
      assert validations[..i + 1][..i] == validations[..i];
      if v.requested.None? {
        continue;
      }
      if |v.requested.value| == 1 && v.returned.Keys != v.requested.value {
        continue;
      }
      ghost var before := scores;
      scores := TakeScores(scores, v.requested.value, v.returned);
      forall id
        ensures if id in scores then LastScore(validations[..i + 1], id) == Some(scores[id])
        else LastScore(validations[..i + 1], id).None? {
        assert if id in before then LastScore(validations[..i], id) == Some(before[id])
               else LastScore(validations[..i], id).None?;
      }
    }
    assert validations[..|validations|] == validations;
  }

  /** The ids of a set come in no particular order. */
  method TakeScores(scores: map<ResultText, int>, requested: set<ResultText>, returned: map<ResultText, int>)
    returns (r: map<ResultText, int>)
    ensures forall id :: id in r <==> id in scores || (id in requested && id in returned)
    ensures forall id :: id in r ==> r[id] == if id in requested && id in returned then returned[id] else scores[id]
  {
    var todo := requested;
    r := scores;
    while todo != {}
      invariant todo <= requested
      invariant forall id :: id in r <==> id in scores || (id in requested - todo && id in returned)
      invariant forall id :: id in r ==>
                  r[id] == if id in requested - todo && id in returned then returned[id] else scores[id]
    {
      var id :| id in todo;
      if id in returned {
        r := r[id := returned[id]];
      }
      todo := todo - {id};
    }
  }

  function Get(accumulators: map<Hotkey, Accumulator>, h: Hotkey): Accumulator {
    if h in accumulators then accumulators[h] else NoResults
  }

  /** What the accumulators hold once these results have been gone through. */
  function Accumulated(mined: seq<Mined>, failures: seq<Hotkey>, validations: seq<Validation>, h: Hotkey): Accumulator {
    var scored := ScoredBy(mined, validations, h);
    Accumulator(MinedBy(mined, h) + FailedBy(failures, h), scored + FailedBy(failures, h), SumBy(mined, validations, h),
                if MinedBy(mined, h) >= scored then MinedBy(mined, h) - scored else 0)
  }

  ghost predicate AccumulatorsAre(accumulators: map<Hotkey, Accumulator>, mined: seq<Mined>, failures: seq<Hotkey>,
                                  validations: seq<Validation>) {
    forall h ::
      && (h in accumulators <==> Occurs(mined, failures, h))
      && Get(accumulators, h) == Accumulated(mined, failures, validations, h)
  }

  method Accumulate(mined: seq<Mined>, failures: seq<Hotkey>, scores: map<ResultText, int>,
                    ghost validations: seq<Validation>)
    returns (accumulators: map<Hotkey, Accumulator>)
    requires ScoresAre(scores, validations)
    ensures AccumulatorsAre(accumulators, mined, failures, validations)
  {
    accumulators := map[];
    for i := 0 to |mined|
      invariant AccumulatorsAre(accumulators, mined[..i], [], validations)
    {
      var m := mined[i];
      assert mined[..i + 1][..i] == mined[..i];
      var a := Get(accumulators, m.hotkey);
      ghost var before := accumulators;
      assert LastScore(validations, m.id) == if m.id in scores then Some(scores[m.id]) else None;
      if m.id !in scores {
        accumulators :=
          accumulators[m.hotkey :=
          a.(miningCount := a.miningCount + 1, unscoredSuccessCount := a.unscoredSuccessCount + 1)];
      } else {
        accumulators := accumulators[m.hotkey :=
          a.(miningCount := a.miningCount + 1, scoredCount := a.scoredCount + 1,
             scoredSum := a.scoredSum + scores[m.id] as real)];
      }
      forall h
        ensures h in accumulators <==> Occurs(mined[..i + 1], [], h)
        ensures Get(accumulators, h) == Accumulated(mined[..i + 1], [], validations, h)
      {
        assert h in before <==> Occurs(mined[..i], [], h);
        assert Get(before, h) == Accumulated(mined[..i], [], validations, h);
        ScoredAreMined(mined[..i], validations, h);
      }
    }
    assert mined[..|mined|] == mined;
    for i := 0 to |failures|
      invariant AccumulatorsAre(accumulators, mined, failures[..i], validations)
    {
      var f := failures[i];
      assert failures[..i + 1][..i] == failures[..i];
      var a := Get(accumulators, f);
      ghost var before := accumulators;
      accumulators := accumulators[f := a.(miningCount := a.miningCount + 1, scoredCount := a.scoredCount + 1)];
      forall h
        ensures h in accumulators <==> Occurs(mined, failures[..i + 1], h)
        ensures Get(accumulators, h) == Accumulated(mined, failures[..i + 1], validations, h)
      {
        assert h in before <==> Occurs(mined, failures[..i], h);
        assert Get(before, h) == Accumulated(mined, failures[..i], validations, h);
      }
    }
    assert failures[..|failures|] == failures;
  }

  /******* The results in the store *******/

  /** What the weighing reads off a stored result; a malformed validation request is `None`. */
  datatype Reading = Reading(
    text: Store.ResultId -> ResultText,
    requested: Payload -> Option<set<ResultText>>,
    returned: Output -> map<ResultText, int>)

  function MinedIn(entries: seq<Entry>, reading: Reading): seq<Mined> {
    seq(|entries|, i requires 0 <= i < |entries| => Mined(reading.text(entries[i].id), entries[i].hotkey))
  }

  function HotkeysIn(entries: seq<Entry>): seq<Hotkey> {
    seq(|entries|, i requires 0 <= i < |entries| => entries[i].hotkey)
  }

  function ValidationIn(r: Entry, reading: Reading): Validation {
    Validation(reading.requested(r.payload), if r.content.Success? then reading.returned(r.content.output) else map[])
  }

  function ValidationsIn(entries: seq<Entry>, reading: Reading): seq<Validation> {
    seq(|entries|, i requires 0 <= i < |entries| => ValidationIn(entries[i], reading))
  }

  /** From the first block of the previous epoch to the last of the current one. */
  function Window(current: Epoch): Epoch
    requires current.Previous().Some?
  {
    Epoch(current.Previous().value.firstBlock, current.lastBlock)
  }

  /** Main theorem: the queries of both epochs, one after the other, are one chronological query of both. */
  lemma QueriesJoin(entries: seq<Entry>, current: Epoch)
    requires current.Previous().Some?
    ensures EpochQuery(entries, current.Previous().value) + EpochQuery(entries, current)
            == EpochQuery(entries, Window(current))
  {
    SortSplits(entries, BlockOf(), InEpoch(current.Previous().value), InEpoch(current), InEpoch(Window(current)));
  }

  lemma InQuery(entries: seq<Entry>, e: Epoch, r: Entry)
    ensures r in EpochQuery(entries, e) <==> r in entries && e.Contains(r.block)
  {
    SortPermutes(Filter(entries, InEpoch(e)), BlockOf());
    FilterMember(entries, InEpoch(e), r);
    assert r in EpochQuery(entries, e) <==> r in multiset(EpochQuery(entries, e));
    assert r in Filter(entries, InEpoch(e)) <==> r in multiset(Filter(entries, InEpoch(e)));
  }

  lemma {:induction false} MinedByEntries(entries: seq<Entry>, reading: Reading, h: Hotkey)
    ensures MinedBy(MinedIn(entries, reading), h) == FailedBy(HotkeysIn(entries), h)
    ensures FailedBy(HotkeysIn(entries), h) > 0 <==> exists r :: r in entries && r.hotkey == h
  {
    if entries != [] {
      var n := |entries| - 1;
      assert entries == entries[..n] + [entries[n]];
      MinedByEntries(entries[..n], reading, h);
      assert MinedIn(entries, reading)[..n] == MinedIn(entries[..n], reading);
      assert HotkeysIn(entries)[..n] == HotkeysIn(entries[..n]);
    }
  }

  /** A hotkey occurs iff the store holds a success or a failure of it in that epoch. */
  lemma OccursIffStored(successes: seq<Entry>, failures: seq<Entry>, e: Epoch, reading: Reading, h: Hotkey)
    ensures Occurs(MinedIn(EpochQuery(successes, e), reading), HotkeysIn(EpochQuery(failures, e)), h)
       <==> exists r :: (r in successes || r in failures) && e.Contains(r.block) && r.hotkey == h
  {
    MinedByEntries(EpochQuery(successes, e), reading, h);
    MinedByEntries(EpochQuery(failures, e), reading, h);
    forall r
      ensures r in EpochQuery(successes, e) <==> r in successes && e.Contains(r.block)
      ensures r in EpochQuery(failures, e) <==> r in failures && e.Contains(r.block)
    {
      InQuery(successes, e, r);
      InQuery(failures, e, r);
    }
  }

  /**
   The weights of the epoch before `current`: from the mining results in that epoch, and the validations of
   both epochs, oldest block first. An exception if there is no epoch before.
   */
  method WeighingFunc(miningTask: TaskName, validationTask: TaskName, current: Epoch, store: InMemoryTaskResultStore,
                      reading: Reading)
    returns (weights: Option<map<Hotkey, real>>)
    requires store.Valid()
    ensures weights.Some? <==> current.Previous().Some?
    ensures weights.Some? ==>
              var e := current.Previous().value;
              var mined := MinedIn(EpochQuery(EntriesOf(store.successfulStore, miningTask), e), reading);
              var failures := HotkeysIn(EpochQuery(EntriesOf(store.executorFailureStore, miningTask), e));
              var validations :=
                ValidationsIn(EpochQuery(EntriesOf(store.successfulStore, validationTask), Window(current)), reading);
              && (forall h :: h in weights.value <==> Occurs(mined, failures, h))
              && (forall h :: h in weights.value ==> weights.value[h] == WeightOf(mined, failures, validations, h))
  {
    var previous := current.Previous();
    if previous.None? {
      return None;
    }
    var successes := store.GetSuccessfulTasksForEpoch(miningTask, previous.value);
    var failures := store.GetExecutorFailuresForEpoch(miningTask, previous.value);
    var validated := store.GetSuccessfulTasksForEpoch(validationTask, previous.value);
    var alsoValidated := store.GetSuccessfulTasksForEpoch(validationTask, current);
    QueriesJoin(EntriesOf(store.successfulStore, validationTask), current);
    var r := WeightsOf(MinedIn(successes, reading), HotkeysIn(failures),
                       ValidationsIn(validated + alsoValidated, reading));
    weights := Some(r);
  }

  method WeightsOf(mined: seq<Mined>, failures: seq<Hotkey>, validations: seq<Validation>)
    returns (weights: map<Hotkey, real>)
    ensures forall h :: h in weights <==> Occurs(mined, failures, h)
    ensures forall h :: h in weights ==> weights[h] == WeightOf(mined, failures, validations, h)
  {
    var scores := CollectScores(validations);
    var accumulators := Accumulate(mined, failures, scores, validations);
    weights := map[];
    var todo := accumulators.Keys;
    while todo != {}
      invariant todo <= accumulators.Keys && weights.Keys == accumulators.Keys - todo
      invariant forall h :: h in weights ==> weights[h] == TotalScore(accumulators[h])
    {
      var h :| h in todo;
      weights := weights[h := TotalScore(accumulators[h])];
      todo := todo - {h};
    }
    forall h | h in weights ensures weights[h] == WeightOf(mined, failures, validations, h) {
      assert Get(accumulators, h) == Accumulated(mined, failures, validations, h);
      TotalScoreIsWeight(mined, failures, validations, h);
    }
  }

  function TotalScore(a: Accumulator): real {
    var average := if a.scoredCount > 0 then a.scoredSum / a.scoredCount as real else 0.0;
    a.miningCount as real * average
  }

  lemma TotalScoreIsWeight(mined: seq<Mined>, failures: seq<Hotkey>, validations: seq<Validation>, h: Hotkey)
    ensures TotalScore(Accumulated(mined, failures, validations, h)) == WeightOf(mined, failures, validations, h)
  {
    TotalOfCounts(MinedBy(mined, h), FailedBy(failures, h), ScoredBy(mined, validations, h),
                  SumBy(mined, validations, h), Accumulated(mined, failures, validations, h));
    hide TotalScore;
    hide Weight;
  }

  lemma TotalOfCounts(successes: nat, failures: nat, scored: nat, sum: real, a: Accumulator)
    requires a.miningCount == successes + failures && a.scoredCount == scored + failures && a.scoredSum == sum
    ensures TotalScore(a) == Weight(successes, failures, scored, sum)
  {
    if a.scoredCount > 0 {
      MultiplyDivide(a.miningCount as real, a.scoredSum, a.scoredCount as real);
    }
  }

  lemma MultiplyDivide(x: real, y: real, z: real)
    requires z > 0.0
    ensures x * (y / z) == x * y / z
  {
    var q := y / z;
    assert y == q * z;
    assert x * y == (x * q) * z;
  }

  /******* What the weights are good for *******/

  lemma {:induction false} ScoredAreMined(mined: seq<Mined>, validations: seq<Validation>, h: Hotkey)
    ensures ScoredBy(mined, validations, h) <= MinedBy(mined, h)
  {
    if mined != [] {
      ScoredAreMined(mined[..|mined| - 1], validations, h);
    }
  }

  /** Scores lie between 1 and 100. */
  ghost predicate ScoresInRange(validations: seq<Validation>) {
    forall i, id :: 0 <= i < |validations| && id in validations[i].returned ==> 1 <= validations[i].returned[id] <= 100
  }

  lemma {:induction false} LastScoreInRange(validations: seq<Validation>, id: ResultText)
    requires ScoresInRange(validations)
    ensures LastScore(validations, id).Some? ==> 1 <= LastScore(validations, id).value <= 100
  {
    if validations != [] {
      LastScoreInRange(validations[..|validations| - 1], id);
    }
  }

  lemma {:induction false} SumInRange(mined: seq<Mined>, validations: seq<Validation>, h: Hotkey)
    requires ScoresInRange(validations)
    ensures ScoredBy(mined, validations, h) as real <= SumBy(mined, validations, h)
            <= 100.0 * ScoredBy(mined, validations, h) as real
  {
    if mined != [] {
      SumInRange(mined[..|mined| - 1], validations, h);
      LastScoreInRange(validations, mined[|mined| - 1].id);
    }
  }

  lemma SignOfProduct(d: real, scale: real, p: real)
    requires scale > 0.0 && d * scale == p
    ensures p >= 0.0 ==> d >= 0.0
    ensures d > 0.0 <==> p > 0.0
  {
    if d < 0.0 {
      assert d * scale < 0.0;
    } else if d > 0.0 {
      assert d * scale > 0.0;
    }
  }

  lemma DivideBounds(a: real, sum: real, b: real, limit: real)
    requires a >= 0.0 && b > 0.0 && 0.0 <= sum <= limit * b
    ensures 0.0 <= a * sum / b <= limit * a
  {
    var q := sum / b;
    assert sum == q * b;
    MultiplyDivide(a, sum, b);
    SignOfProduct(q, b, sum);
    assert (limit - q) * b == limit * b - sum;
    SignOfProduct(limit - q, b, limit * b - sum);
    assert a * q >= 0.0 && a * (limit - q) >= 0.0;
    assert a * (limit - q) == limit * a - a * q;
  }

  /** Main theorem: a weight is never negative, and at most 100 per mining result. */
  lemma WeightInRange(mined: seq<Mined>, failures: seq<Hotkey>, validations: seq<Validation>, h: Hotkey)
    requires ScoresInRange(validations)
    ensures 0.0 <= WeightOf(mined, failures, validations, h)
            <= 100.0 * (MinedBy(mined, h) + FailedBy(failures, h)) as real
  {
    SumInRange(mined, validations, h);
    WeightBounds(MinedBy(mined, h), FailedBy(failures, h), ScoredBy(mined, validations, h),
                 SumBy(mined, validations, h));
  }

  lemma WeightBounds(s: nat, f: nat, k: nat, sum: real)
    requires 0.0 <= sum <= 100.0 * k as real
    ensures 0.0 <= Weight(s, f, k, sum) <= 100.0 * (s + f) as real
  {
    if k + f > 0 {
      DivideBounds((s + f) as real, sum, (k + f) as real, 100.0);
    }
  }

  /** Main theorem: if every success is scored, the weight is the plain sum of the scores. */
  lemma FullyScoredWeightIsSum(mined: seq<Mined>, failures: seq<Hotkey>, validations: seq<Validation>, h: Hotkey)
    requires ScoredBy(mined, validations, h) == MinedBy(mined, h) && Occurs(mined, failures, h)
    ensures WeightOf(mined, failures, validations, h) == SumBy(mined, validations, h)
  {
    TimesOver((MinedBy(mined, h) + FailedBy(failures, h)) as real, SumBy(mined, validations, h));
  }

  lemma TimesOver(n: real, x: real)
    requires n > 0.0
    ensures n * x / n == x
  {
    MultiplyDivide(x, n, n);
    assert n / n == 1.0;
  }

  lemma {:induction false} SumOfNone(mined: seq<Mined>, validations: seq<Validation>, h: Hotkey)
    requires ScoredBy(mined, validations, h) == 0
    ensures SumBy(mined, validations, h) == 0.0
  {
    if mined != [] {
      SumOfNone(mined[..|mined| - 1], validations, h);
    }
  }

  /** With b <= a, one more on both sides of a / b lowers the quotient unless a == b. */
  lemma OneMoreOnBoth(a: real, b: real, sum: real)
    requires 0.0 < b <= a && sum >= 0.0
    ensures (a + 1.0) * sum / (b + 1.0) <= a * sum / b
    ensures (a + 1.0) * sum / (b + 1.0) < a * sum / b <==> sum > 0.0 && b < a
  {
    var x, y := (a + 1.0) * sum / (b + 1.0), a * sum / b;
    assert x * (b + 1.0) == (a + 1.0) * sum && y * b == a * sum;
    var scale := b * (b + 1.0);
    assert x * scale == (x * (b + 1.0)) * b == ((a + 1.0) * sum) * b;
    assert y * scale == (y * b) * (b + 1.0) == (a * sum) * (b + 1.0);
    assert (y - x) * scale == y * scale - x * scale;
    assert (a * sum) * (b + 1.0) - ((a + 1.0) * sum) * b == sum * (a - b);
    SignOfProduct(y - x, scale, sum * (a - b));
    if sum > 0.0 && b < a {
      assert sum * (a - b) > 0.0;
    }
  }

  /**
   Main theorem: an executor failure more never raises a weight; it lowers it iff some success has a score
   and some success has none.
   */
  lemma FailureNeverRaises(mined: seq<Mined>, failures: seq<Hotkey>, validations: seq<Validation>, h: Hotkey)
    requires ScoresInRange(validations)
    ensures var before, after := WeightOf(mined, failures, validations, h),
            WeightOf(mined, failures + [h], validations, h);
            && after <= before
            && (after < before <==> 0 < ScoredBy(mined, validations, h) < MinedBy(mined, h))
  {
    assert (failures + [h])[..|failures|] == failures;
    SumInRange(mined, validations, h);
    ScoredAreMined(mined, validations, h);
    if ScoredBy(mined, validations, h) == 0 {
      SumOfNone(mined, validations, h);
    }
    FailureOnWeight(MinedBy(mined, h), FailedBy(failures, h), ScoredBy(mined, validations, h),
                    SumBy(mined, validations, h));
  }

  lemma FailureOnWeight(s: nat, f: nat, k: nat, sum: real)
    requires k <= s && sum >= 0.0 && (sum > 0.0 <==> k > 0)
    ensures Weight(s, f + 1, k, sum) <= Weight(s, f, k, sum)
    ensures Weight(s, f + 1, k, sum) < Weight(s, f, k, sum) <==> 0 < k < s
  {
    assert (s + (f + 1)) as real == (s + f) as real + 1.0 && (k + (f + 1)) as real == (k + f) as real + 1.0;
    if k + f > 0 {
      var a, b := (s + f) as real, (k + f) as real;
      OneMoreOnBoth(a, b, sum);
      assert Weight(s, f, k, sum) == a * sum / b;
      assert Weight(s, f + 1, k, sum) == (a + 1.0) * sum / (b + 1.0) by {
        assert (s + (f + 1)) as real == a + 1.0 && (k + (f + 1)) as real == b + 1.0;
      }
    } else {
      assert sum == 0.0 && (s + (f + 1)) as real * sum == 0.0;
      assert Weight(s, f + 1, k, sum) == 0.0 / (k + (f + 1)) as real == 0.0;
    }
  }

  /** The mining counts of a set of hotkeys. */
  ghost function TotalMined(keys: set<Hotkey>, mined: seq<Mined>, failures: seq<Hotkey>): nat {
    if keys == {} then 0
    else
      var h :| h in keys;
      MinedBy(mined, h) + FailedBy(failures, h) + TotalMined(keys - {h}, mined, failures)
  }

  /** One record more counts once, for its own hotkey. */
  lemma {:induction false} TotalOneMore(keys: set<Hotkey>, mined: seq<Mined>, failures: seq<Hotkey>, mined1: seq<Mined>,
                                        failures1: seq<Hotkey>, own: Hotkey)
    requires forall h ::
               MinedBy(mined1, h) + FailedBy(failures1, h)
               == MinedBy(mined, h) + FailedBy(failures, h) + if h == own then 1 else 0
    ensures TotalMined(keys, mined1, failures1) == TotalMined(keys, mined, failures) + if own in keys then 1 else 0
  {
    if keys != {} {
      var h :| h in keys
        && TotalMined(keys, mined1, failures1)
        == MinedBy(mined1, h) + FailedBy(failures1, h) + TotalMined(keys - {h}, mined1, failures1);
      TotalOneMore(keys - {h}, mined, failures, mined1, failures1, own);
      TotalPick(keys, h, mined, failures);
    }
  }

  lemma {:induction false} TotalPick(keys: set<Hotkey>, h: Hotkey, mined: seq<Mined>, failures: seq<Hotkey>)
    requires h in keys
    ensures TotalMined(keys, mined, failures)
            == MinedBy(mined, h) + FailedBy(failures, h) + TotalMined(keys - {h}, mined, failures)
  {
    var k :| k in keys
      && TotalMined(keys, mined, failures)
      == MinedBy(mined, k) + FailedBy(failures, k) + TotalMined(keys - {k}, mined, failures);
    if k != h {
      TotalPick(keys - {k}, h, mined, failures);
      TotalPick(keys - {h}, k, mined, failures);
      assert keys - {k} - {h} == keys - {h} - {k};
    }
  }

  lemma {:induction false} TotalOfNothing(keys: set<Hotkey>)
    ensures TotalMined(keys, [], []) == 0
  {
    if keys != {} {
      var h :| h in keys
        && TotalMined(keys, [], []) == MinedBy([], h) + FailedBy([], h) + TotalMined(keys - {h}, [], []);
      TotalOfNothing(keys - {h});
      assert MinedBy([], h) == 0 && FailedBy([], h) == 0;
    }
  }

  /** Main theorem: over all hotkeys that occur, the mining counts add up to the number of mining records. */
  lemma {:induction false} MiningCountsAddUp(keys: set<Hotkey>, mined: seq<Mined>, failures: seq<Hotkey>)
    requires forall i :: 0 <= i < |mined| ==> mined[i].hotkey in keys
    requires forall i :: 0 <= i < |failures| ==> failures[i] in keys
    ensures TotalMined(keys, mined, failures) == |mined| + |failures|
    decreases |mined| + |failures|
  {
    if mined != [] {
      MiningCountsAddUp(keys, mined[..|mined| - 1], failures);
      TotalOneMore(keys, mined[..|mined| - 1], failures, mined, failures, mined[|mined| - 1].hotkey);
    } else if failures != [] {
      MiningCountsAddUp(keys, mined, failures[..|failures| - 1]);
      TotalOneMore(keys, mined, failures[..|failures| - 1], mined, failures, failures[|failures| - 1]);
    } else {
      TotalOfNothing(keys);
    }
  }
}
