/**
 The beats derived from block numbers: one per new epoch, and the weight-setting beats of an epoch, which
 stop once weights have been submitted for it.
 */
module ChainBeats {
  import opened Modular
  import opened Options
  import opened Epochs

  /** The subnet default that the epoch beat uses. */
  const DEFAULT_TEMPO := 360

  ghost predicate Nondecreasing(blocks: seq<int>) {
    forall i, j :: 0 <= i < j < |blocks| ==> blocks[i] <= blocks[j]
  }

  /******* Epoch beats *******/

  function BeatEpoch(block: int, netuid: int, delay: int): (e: Epoch)
    ensures EpochContainingBlock(block - delay, netuid, DEFAULT_TEMPO) == Some(e)
  {
    EpochContainingBlock(block - delay, netuid, DEFAULT_TEMPO).value
  }

  /** The epochs emitted over a sequence of polls; a failed poll is `None`. */
  function EpochBeats(polls: seq<Option<int>>, netuid: int, delay: int): seq<Epoch> {
    if polls == [] then []
    else
      var before := EpochBeats(polls[..|polls| - 1], netuid, delay);
      var poll := polls[|polls| - 1];
      if poll.None? || (before != [] && before[|before| - 1] == BeatEpoch(poll.value, netuid, delay)) then before
      else before + [BeatEpoch(poll.value, netuid, delay)]
  }

  class EpochBeatActor {
    const netuid: int
    const delayBlocks: int
    var lastEmitted: Option<Epoch>

    constructor (netuid: int, delayBlocks: int)
      ensures this.netuid == netuid && this.delayBlocks == delayBlocks && lastEmitted == None
    {
      this.netuid, this.delayBlocks, lastEmitted := netuid, delayBlocks, None;
    }

    /** The producer loop until it is stopped, with what each poll returned. */
    method Produce(polls: seq<Option<int>>) returns (beats: seq<Epoch>)
      requires lastEmitted.None?
      modifies this`lastEmitted
      ensures beats == EpochBeats(polls, netuid, delayBlocks)
      ensures lastEmitted == if beats == [] then None else Some(beats[|beats| - 1])
    {
      beats := [];
      for i := 0 to |polls|
        invariant beats == EpochBeats(polls[..i], netuid, delayBlocks)
        invariant lastEmitted == if beats == [] then None else Some(beats[|beats| - 1])
      {
        assert polls[..i + 1][..i] == polls[..i];
        if polls[i].Some? {
          var epoch := EpochContainingBlock(polls[i].value - delayBlocks, netuid, DEFAULT_TEMPO).value;
          if lastEmitted != Some(epoch) {
            lastEmitted := Some(epoch);
            beats := beats + [epoch];
          }
        }
      }
      assert polls[..|polls|] == polls;
    }
  }

  ghost predicate PollsNondecreasing(polls: seq<Option<int>>) {
    forall i, j :: 0 <= i < j < |polls| && polls[i].Some? && polls[j].Some? ==> polls[i].value <= polls[j].value
  }

  /** A beat comes from a poll that is at least `delay` blocks into its epoch. */
  ghost predicate ComesFrom(polls: seq<Option<int>>, netuid: int, delay: int, e: Epoch) {
    exists i :: 0 <= i < |polls| && polls[i].Some? && BeatEpoch(polls[i].value, netuid, delay) == e
      && polls[i].value >= e.firstBlock + delay
  }

  lemma {:induction false} BeatsComeFromPolls(polls: seq<Option<int>>, netuid: int, delay: int)
    ensures forall e :: e in EpochBeats(polls, netuid, delay) ==> ComesFrom(polls, netuid, delay, e)
    ensures forall i :: 0 <= i < |polls| && polls[i].Some? ==>
              BeatEpoch(polls[i].value, netuid, delay) in EpochBeats(polls, netuid, delay)
  {
    if polls != [] {
      var n := |polls| - 1;
      BeatsComeFromPolls(polls[..n], netuid, delay);
      forall e | e in EpochBeats(polls, netuid, delay) ensures ComesFrom(polls, netuid, delay, e) {
        if e in EpochBeats(polls[..n], netuid, delay) {
          var i :| 0 <= i < n && polls[i].Some? && BeatEpoch(polls[i].value, netuid, delay) == e
            && polls[i].value >= e.firstBlock + delay by {
            assert ComesFrom(polls[..n], netuid, delay, e);
          }
        } else {
          EpochIsWindow(polls[n].value - delay, netuid, DEFAULT_TEMPO);
        }
      }
    }
  }

  /**
   Main theorem: as long as the polled block does not go back, the beats are strictly increasing,
   pairwise disjoint epochs; each comes no earlier than `delay` blocks into its epoch; and every polled
   epoch gets its beat.
   */
  lemma {:induction false} EpochBeatsIncrease(polls: seq<Option<int>>, netuid: int, delay: int)
    requires PollsNondecreasing(polls)
    ensures var beats := EpochBeats(polls, netuid, delay);
            && (forall i, j :: 0 <= i < j < |beats| ==> beats[i].lastBlock < beats[j].firstBlock)
            && (forall e :: e in beats ==> ComesFrom(polls, netuid, delay, e))
            && (forall i :: 0 <= i < |polls| && polls[i].Some? ==> BeatEpoch(polls[i].value, netuid, delay) in beats)
  {
    BeatsComeFromPolls(polls, netuid, delay);
    BeatsIncrease(polls, netuid, delay);
  }

  lemma {:induction false} BeatsIncrease(polls: seq<Option<int>>, netuid: int, delay: int)
    requires PollsNondecreasing(polls)
    ensures var beats := EpochBeats(polls, netuid, delay);
            forall i, j :: 0 <= i < j < |beats| ==> beats[i].lastBlock < beats[j].firstBlock
  {
    if polls != [] {
      var n := |polls| - 1;
      BeatsIncrease(polls[..n], netuid, delay);
      if polls[n].Some? && EpochBeats(polls[..n], netuid, delay) != [] {
        LatestBeatIsBefore(polls[..n], netuid, delay, polls[n].value);
      }
    }
  }

  /**
   Main theorem: in whatever order the polls come, after a poll that succeeds the latest beat is the epoch of
   `DEFAULT_TEMPO` + 1 blocks that holds the delayed block, after one that fails it is what it was before, and
   consecutive beats differ.
   */
  lemma LatestBeatIsPolled(polls: seq<Option<int>>, netuid: int, delay: int, k: nat)
    requires k < |polls|
    ensures var before, beats := EpochBeats(polls[..k], netuid, delay), EpochBeats(polls[..k + 1], netuid, delay);
            && before <= beats <= EpochBeats(polls, netuid, delay) && |beats| <= |before| + 1
            && (polls[k].None? ==> beats == before)
            && (polls[k].Some? ==>
                  && beats != []
                  && var last := beats[|beats| - 1];
                     last.Contains(polls[k].value - delay) && last.lastBlock - last.firstBlock == 360)
            && (|before| < |beats| && before != [] ==> beats[|before|] != beats[|before| - 1])
  {
    assert polls[..k + 1][..k] == polls[..k];
    BeatsStay(polls, netuid, delay, k + 1);
    if polls[k].Some? {
      EpochIsWindow(polls[k].value - delay, netuid, DEFAULT_TEMPO);
    }
  }

  /** A beat that has been emitted stays emitted. */
  lemma {:induction false} BeatsStay(polls: seq<Option<int>>, netuid: int, delay: int, k: nat)
    requires k <= |polls|
    ensures EpochBeats(polls[..k], netuid, delay) <= EpochBeats(polls, netuid, delay)
  {
    if k == |polls| {
      assert polls[..k] == polls;
    } else {
      BeatsStay(polls[..|polls| - 1], netuid, delay, k);
      assert polls[..|polls| - 1][..k] == polls[..k];
    }
  }

  lemma EpochOrder(block: int, other: int, netuid: int, delay: int)
    requires block <= other
    ensures var e, f := BeatEpoch(block, netuid, delay), BeatEpoch(other, netuid, delay);
            e.firstBlock <= e.lastBlock && (e == f || e.lastBlock < f.firstBlock)
  {
    EpochIsWindow(block - delay, netuid, DEFAULT_TEMPO);
    EpochsTile(block - delay, other - delay, netuid, DEFAULT_TEMPO);
  }

  /** A block that is not before any poll is in the epoch of the latest beat, or beyond it. */
  lemma LatestBeatIsBefore(polls: seq<Option<int>>, netuid: int, delay: int, block: int)
    requires EpochBeats(polls, netuid, delay) != []
    requires forall k :: 0 <= k < |polls| && polls[k].Some? ==> polls[k].value <= block
    ensures var beats, e := EpochBeats(polls, netuid, delay), BeatEpoch(block, netuid, delay);
            var last := beats[|beats| - 1];
            last.firstBlock <= last.lastBlock && (last == e || last.lastBlock < e.firstBlock)
  {
    var beats := EpochBeats(polls, netuid, delay);
    var last := beats[|beats| - 1];
    BeatsComeFromPolls(polls, netuid, delay);
    assert last in beats;
    assert ComesFrom(polls, netuid, delay, last);
    var k :| 0 <= k < |polls| && polls[k].Some? && BeatEpoch(polls[k].value, netuid, delay) == last;
    EpochOrder(polls[k].value, block, netuid, delay);
  }

  /******* Weight beats *******/

  datatype Spec = Spec(netuid: int, tempo: int, epochStartOffset: int, attemptsCooldown: int)

  /** What the weights status query would give at a block: an answer, a transient error, or another exception. */
  datatype Status = Submitted | NotSubmitted | TransientError | OtherError

  datatype WeightsState = WeightsState(lastSuccess: Option<Epoch>, lastBeatAt: Option<int>)

  datatype Beat = Beat(epoch: Epoch, block: int)

  const Fresh := WeightsState(None, None)

  /** Whether the status is queried at this block. */
  predicate Queries(spec: Spec, s: WeightsState, block: int) {
    var e := EpochContainingBlock(block, spec.netuid, spec.tempo);
    && e.Some?
    && block - e.value.firstBlock >= spec.epochStartOffset
    && s.lastSuccess != e
    && (s.lastBeatAt.Some? ==> block - s.lastBeatAt.value >= spec.attemptsCooldown)
  }

  predicate Beats(spec: Spec, s: WeightsState, block: int, status: Status) {
    Queries(spec, s, block) && status.NotSubmitted?
  }

  function Observe(spec: Spec, s: WeightsState, block: int, status: Status): WeightsState {
    if !Queries(spec, s, block) then s
    else
      match status
      case Submitted => s.(lastSuccess := EpochContainingBlock(block, spec.netuid, spec.tempo))
      case NotSubmitted => s.(lastBeatAt := Some(block))
      case _ => s
  }

  class SetWeightsBeatActor {
    const spec: Spec
    var lastSuccessEpoch: Option<Epoch>
    var lastBeatAtBlock: Option<int>

    constructor (spec: Spec)
      ensures this.spec == spec && State() == Fresh
    {
      this.spec, lastSuccessEpoch, lastBeatAtBlock := spec, None, None;
    }

    function State(): WeightsState
      reads this
    {
      WeightsState(lastSuccessEpoch, lastBeatAtBlock)
    }

    /** `raised` is an exception that the actor loop logs: a tempo that is not positive, or a failing client. */
    method OnBlockBeat(block: int, status: Status) returns (beat: Option<Beat>, raised: bool)
      modifies this
      ensures State() == Observe(spec, old(State()), block, status)
      ensures beat.Some? <==> Queries(spec, old(State()), block) && status == NotSubmitted
      ensures State() != old(State()) ==>
                Queries(spec, old(State()), block) && (status == Submitted || status == NotSubmitted)
      ensures beat.Some? ==>
                Some(beat.value.epoch) == EpochContainingBlock(block, spec.netuid, spec.tempo)
                && beat.value.block == block
      ensures raised <==> spec.tempo <= 0 || (Queries(spec, old(State()), block) && status.OtherError?)
    {
      beat, raised := None, false;
      var containing := EpochContainingBlock(block, spec.netuid, spec.tempo);
      if containing.None? {
        raised := true;
        return;
      }
      var epoch := containing.value;
      if block - epoch.firstBlock < spec.epochStartOffset {
        return;
      }
      if lastSuccessEpoch == Some(epoch) {
        return;
      }
      if lastBeatAtBlock.Some? && block - lastBeatAtBlock.value < spec.attemptsCooldown {
        return;
      }
      if status.TransientError? {
        return;
      }
      if status.OtherError? {
        raised := true;
        return;
      }
      if status.Submitted? {
        lastSuccessEpoch := Some(epoch);
        return;
      }
      lastBeatAtBlock := Some(block);
      beat := Some(Beat(epoch, block));
    }
  }

  /** A run: blocks in whatever order they come, each with what the query would give. */
  function After(spec: Spec, run: seq<(int, Status)>): WeightsState {
    if run == [] then Fresh
    else Observe(spec, After(spec, run[..|run| - 1]), run[|run| - 1].0, run[|run| - 1].1)
  }

  /** The blocks at which beats are emitted. */
  function BeatBlocks(spec: Spec, run: seq<(int, Status)>): seq<int> {
    if run == [] then []
    else
      var n := |run| - 1;
      BeatBlocks(spec, run[..n]) + if Beats(spec, After(spec, run[..n]), run[n].0, run[n].1) then [run[n].0] else []
  }

  lemma BeatIsRemembered(spec: Spec, s: WeightsState, block: int, status: Status)
    ensures Observe(spec, s, block, status).lastBeatAt ==
            if Beats(spec, s, block, status) then Some(block) else s.lastBeatAt
    ensures Beats(spec, s, block, status) && s.lastBeatAt.Some? ==> block - s.lastBeatAt.value >= spec.attemptsCooldown
  {
  }

  /** Main theorem: for any sequence of blocks, beats are at least the cooldown apart, one by one. */
  lemma {:induction false} BeatsKeepCooldown(spec: Spec, run: seq<(int, Status)>)
    ensures var beats := BeatBlocks(spec, run);
            && After(spec, run).lastBeatAt == (if beats == [] then None else Some(beats[|beats| - 1]))
            && forall i :: 0 < i < |beats| ==> beats[i] - beats[i - 1] >= spec.attemptsCooldown
  {
    hide Beats;
    hide Observe;
    if run != [] {
      var n := |run| - 1;
      BeatsKeepCooldown(spec, run[..n]);
      BeatIsRemembered(spec, After(spec, run[..n]), run[n].0, run[n].1);
    }
  }

  lemma {:induction false} BeatsSpread(spec: Spec, beats: seq<int>, i: nat, j: nat)
    requires i <= j < |beats| && forall k :: 0 < k < |beats| ==> beats[k] - beats[k - 1] >= spec.attemptsCooldown
    ensures beats[j] - beats[i] >= (j - i) * spec.attemptsCooldown
    decreases j
  {
    if i < j {
      BeatsSpread(spec, beats, i, j - 1);
    }
  }

  function CountIn(blocks: seq<int>, e: Epoch): nat {
    if blocks == [] then 0
    else CountIn(blocks[..|blocks| - 1], e) + if e.Contains(blocks[|blocks| - 1]) then 1 else 0
  }

  /** With a positive cooldown the beats of an epoch use up cooldowns after the first possible block `low`. */
  lemma {:induction false} CountUsesCooldowns(spec: Spec, beats: seq<int>, e: Epoch, low: int) returns (last: nat)
    requires spec.attemptsCooldown >= 1
    requires forall k :: 0 < k < |beats| ==> beats[k] - beats[k - 1] >= spec.attemptsCooldown
    requires forall k :: 0 <= k < |beats| && e.Contains(beats[k]) ==> beats[k] >= low
    ensures CountIn(beats, e) > 0 ==>
              last < |beats| && e.Contains(beats[last])
                && (CountIn(beats, e) - 1) * spec.attemptsCooldown <= beats[last] - low
  {
    last := 0;
    if beats != [] {
      var n := |beats| - 1;
      last := CountUsesCooldowns(spec, beats[..n], e, low);
      if e.Contains(beats[n]) {
        var c := CountIn(beats[..n], e);
        if c > 0 {
          BeatsSpread(spec, beats, last, n);
          OneMoreCooldown(c, n - last, spec.attemptsCooldown, beats[last] - low, beats[n] - beats[last]);
        }
        last := n;
      }
    }
  }

  lemma OneMoreCooldown(c: int, k: int, m: int, used: int, gap: int)
    requires c >= 1 && k >= 1 && m >= 1 && (c - 1) * m <= used && gap >= k * m
    ensures c * m <= used + gap
  {
    assert k * m == (k - 1) * m + m && (k - 1) * m >= 0;
    assert c * m == (c - 1) * m + m;
  }

  lemma DivideCount(c: int, m: int, room: int)
    requires m >= 1 && c >= 1 && (c - 1) * m <= room
    ensures c <= room / m + 1
  {
    var q := room / m;
    assert room == q * m + room % m;
    if c - 1 > q {
      MultiplesApart(q, c - 1, m);
    }
  }

  lemma {:induction false} BeatsAreLateEnough(spec: Spec, run: seq<(int, Status)>, e: Epoch, block: int)
    requires spec.tempo > 0 && EpochContainingBlock(block, spec.netuid, spec.tempo) == Some(e)
    ensures forall k :: 0 <= k < |BeatBlocks(spec, run)| && e.Contains(BeatBlocks(spec, run)[k]) ==>
              BeatBlocks(spec, run)[k] - e.firstBlock >= spec.epochStartOffset
  {
    if run != [] {
      var n := |run| - 1;
      BeatsAreLateEnough(spec, run[..n], e, block);
      EpochOfItsBlocks(block, run[n].0, spec.netuid, spec.tempo);
    }
  }

  /**
   Main theorem: with a cooldown of at least one block, an epoch gets at most (tempo - offset) / cooldown + 1
   beats, and none at all if the offset is beyond the epoch; a negative offset counts as zero.
   */
  lemma BeatsPerEpoch(spec: Spec, run: seq<(int, Status)>, block: int)
    requires spec.tempo > 0 && spec.attemptsCooldown >= 1
    ensures var e := EpochContainingBlock(block, spec.netuid, spec.tempo).value;
            var offset := if spec.epochStartOffset < 0 then 0 else spec.epochStartOffset;
            CountIn(BeatBlocks(spec, run), e) <= if offset > spec.tempo then 0
              else (spec.tempo - offset) / spec.attemptsCooldown + 1
  {
    var e := EpochContainingBlock(block, spec.netuid, spec.tempo).value;
    EpochIsWindow(block, spec.netuid, spec.tempo);
    BeatsKeepCooldown(spec, run);
    BeatsAreLateEnough(spec, run, e, block);
    CountIsBounded(spec, BeatBlocks(spec, run), e, if spec.epochStartOffset < 0 then 0 else spec.epochStartOffset);
  }

  lemma CountIsBounded(spec: Spec, beats: seq<int>, e: Epoch, offset: nat)
    requires e.lastBlock - e.firstBlock == spec.tempo && spec.attemptsCooldown >= 1
    requires forall k :: 0 < k < |beats| ==> beats[k] - beats[k - 1] >= spec.attemptsCooldown
    requires forall k :: 0 <= k < |beats| && e.Contains(beats[k]) ==> beats[k] >= e.firstBlock + offset
    ensures CountIn(beats, e) <= if offset > spec.tempo then 0 else (spec.tempo - offset) / spec.attemptsCooldown + 1
  {
    var last := CountUsesCooldowns(spec, beats, e, e.firstBlock + offset);
    var c := CountIn(beats, e);
    if c > 0 && offset <= spec.tempo {
      DivideCount(c, spec.attemptsCooldown, spec.tempo - offset);
    }
  }

  /** The query at position `i` of `more` sees weights submitted for another epoch than `e`. */
  ghost predicate OtherSuccessAt(spec: Spec, before: seq<(int, Status)>, more: seq<(int, Status)>, e: Epoch, i: nat) {
    && i < |more| && Queries(spec, After(spec, before + more[..i]), more[i].0) && more[i].1.Submitted?
    && EpochContainingBlock(more[i].0, spec.netuid, spec.tempo) != Some(e)
  }

  ghost predicate OtherSuccess(spec: Spec, before: seq<(int, Status)>, more: seq<(int, Status)>, e: Epoch) {
    exists i :: OtherSuccessAt(spec, before, more, e, i)
  }

  lemma OtherSuccessOfPrefix(spec: Spec, before: seq<(int, Status)>, more: seq<(int, Status)>, n: nat, e: Epoch)
    requires n <= |more| && !OtherSuccess(spec, before, more, e)
    ensures !OtherSuccess(spec, before, more[..n], e)
  {
    forall i: nat ensures !OtherSuccessAt(spec, before, more[..n], e, i) {
      assert !OtherSuccessAt(spec, before, more, e, i);
      if i < n {
        assert more[..n][..i] == more[..i];
      }
    }
  }

  lemma ObserveRemembers(spec: Spec, s: WeightsState, x: (int, Status), e: Epoch)
    requires s.lastSuccess == Some(e)
    requires !(Queries(spec, s, x.0) && x.1.Submitted? && EpochContainingBlock(x.0, spec.netuid, spec.tempo) != Some(e))
    ensures Observe(spec, s, x.0, x.1).lastSuccess == Some(e)
  {
  }

  /** Until another epoch's submission is seen, the last one seen is remembered. */
  lemma {:induction false} SuccessIsRemembered(spec: Spec, before: seq<(int, Status)>, more: seq<(int, Status)>,
                                               e: Epoch)
    requires After(spec, before).lastSuccess == Some(e) && !OtherSuccess(spec, before, more, e)
    ensures After(spec, before + more).lastSuccess == Some(e)
  {
    if more == [] {
      assert before + more == before;
    } else {
      var n := |more| - 1;
      assert (before + more)[..|before| + n] == before + more[..n];
      OtherSuccessOfPrefix(spec, before, more, n, e);
      SuccessIsRemembered(spec, before, more[..n], e);
      assert !OtherSuccessAt(spec, before, more, e, n);
      ObserveRemembers(spec, After(spec, before + more[..n]), more[n], e);
    }
  }

  /**
   Main theorem: once an epoch is seen as submitted it is not queried again, and gets no beat, until a
   submission of another epoch has been seen.
   */
  lemma NoQueryAfterSuccess(spec: Spec, before: seq<(int, Status)>, more: seq<(int, Status)>, e: Epoch, block: int)
    requires After(spec, before).lastSuccess == Some(e) && !OtherSuccess(spec, before, more, e)
    requires EpochContainingBlock(block, spec.netuid, spec.tempo) == Some(e)
    ensures !Queries(spec, After(spec, before + more), block)
  {
    SuccessIsRemembered(spec, before, more, e);
  }

  /** The query at position `i` of the run finds weights submitted. */
  ghost predicate SuccessAt(spec: Spec, run: seq<(int, Status)>, i: int) {
    0 <= i < |run| && Queries(spec, After(spec, run[..i]), run[i].0) && run[i].1.Submitted?
  }

  /** The last success that the run has seen is of epoch `e`. */
  ghost predicate LastSeen(spec: Spec, run: seq<(int, Status)>, e: Epoch) {
    exists i :: LastSuccessAt(spec, run, e, i)
  }

  ghost predicate LastSuccessAt(spec: Spec, run: seq<(int, Status)>, e: Epoch, i: int) {
    && SuccessAt(spec, run, i) && EpochContainingBlock(run[i].0, spec.netuid, spec.tempo) == Some(e)
    && forall j :: i < j ==> !SuccessAt(spec, run, j)
  }

  lemma SuccessOfPrefix(spec: Spec, run: seq<(int, Status)>, n: nat, i: int)
    requires i < n <= |run|
    ensures SuccessAt(spec, run[..n], i) <==> SuccessAt(spec, run, i)
  {
    if 0 <= i {
      assert run[..n][..i] == run[..i];
    }
  }

  /** What is remembered is the last success seen. */
  lemma {:induction false} RemembersLastSeen(spec: Spec, run: seq<(int, Status)>, e: Epoch)
    ensures After(spec, run).lastSuccess == Some(e) <==> LastSeen(spec, run, e)
  {
    if run != [] {
      var n := |run| - 1;
      forall i | i < n ensures SuccessAt(spec, run[..n], i) <==> SuccessAt(spec, run, i) {
        SuccessOfPrefix(spec, run, n, i);
      }
      if SuccessAt(spec, run, n) {
        OnlyLastCounts(spec, run, e);
      } else {
        RemembersLastSeen(spec, run[..n], e);
        SameLastSeen(spec, run, e);
      }
    }
  }

  lemma OnlyLastCounts(spec: Spec, run: seq<(int, Status)>, e: Epoch)
    requires SuccessAt(spec, run, |run| - 1)
    ensures LastSeen(spec, run, e) <==> EpochContainingBlock(run[|run| - 1].0, spec.netuid, spec.tempo) == Some(e)
  {
    var n := |run| - 1;
    assert forall j :: n < j ==> !SuccessAt(spec, run, j);
    assert LastSuccessAt(spec, run, e, n) <==> EpochContainingBlock(run[n].0, spec.netuid, spec.tempo) == Some(e);
    assert forall i :: LastSuccessAt(spec, run, e, i) ==> !(i < n);
  }

  lemma SameLastSeen(spec: Spec, run: seq<(int, Status)>, e: Epoch)
    requires run != [] && !SuccessAt(spec, run, |run| - 1)
    requires forall i :: i < |run| - 1 ==> (SuccessAt(spec, run[..|run| - 1], i) <==> SuccessAt(spec, run, i))
    ensures LastSeen(spec, run[..|run| - 1], e) <==> LastSeen(spec, run, e)
  {
    hide Queries;
    hide After;
    hide EpochContainingBlock;
    var init := run[..|run| - 1];
    if i :| LastSuccessAt(spec, init, e, i) {
      assert SuccessAt(spec, run, i);
      forall j | i < j ensures !SuccessAt(spec, run, j) {
        assert j < |init| ==> !SuccessAt(spec, init, j);
      }
      assert LastSuccessAt(spec, run, e, i);
    }
    if i :| LastSuccessAt(spec, run, e, i) {
      assert i < |init|;
      assert SuccessAt(spec, init, i);
      forall j | i < j ensures !SuccessAt(spec, init, j) {
        assert j < |init| ==> !SuccessAt(spec, run, j);
      }
      assert LastSuccessAt(spec, init, e, i);
    }
  }

  /** Enough blocks into the epoch, and enough blocks after the last beat of the run. */
  predicate Due(spec: Spec, run: seq<(int, Status)>, e: Epoch, block: int) {
    var beats := BeatBlocks(spec, run);
    block - e.firstBlock >= spec.epochStartOffset
      && (beats == [] || block - beats[|beats| - 1] >= spec.attemptsCooldown)
  }

  /**
   Main theorem: after any run, a block is queried iff it is due and the last success seen is not one of
   its epoch.
   */
  lemma QueriesIff(spec: Spec, run: seq<(int, Status)>, block: int)
    requires spec.tempo > 0
    ensures var e := EpochContainingBlock(block, spec.netuid, spec.tempo).value;
            Queries(spec, After(spec, run), block) <==> Due(spec, run, e, block) && !LastSeen(spec, run, e)
  {
    RemembersLastSeen(spec, run, EpochContainingBlock(block, spec.netuid, spec.tempo).value);
    BeatsKeepCooldown(spec, run);
  }

  /**
   Main theorem: what a run does at each position, from what it did before it. A block gives a beat iff it is due,
   the last success seen is not of its epoch, and the answer is that weights are not submitted: never on an error
   of the query. It is a success seen, and then the last one, iff the same holds and the answer is that they are.
   */
  lemma BeatsIff(spec: Spec, run: seq<(int, Status)>, k: nat, f: Epoch)
    requires spec.tempo > 0 && k < |run|
    ensures var before, block := run[..k], run[k].0;
            var e := EpochContainingBlock(block, spec.netuid, spec.tempo).value;
            var asked := Due(spec, before, e, block) && !LastSeen(spec, before, e);
            && BeatBlocks(spec, run[..k + 1])
               == BeatBlocks(spec, before) + (if asked && run[k].1 == NotSubmitted then [block] else [])
            && (SuccessAt(spec, run, k) <==> asked && run[k].1 == Submitted)
            && (LastSeen(spec, run[..k + 1], f)
                <==> if asked && run[k].1 == Submitted then f == e else LastSeen(spec, before, f))
  {
    hide *;
    QueriesIff(spec, run[..k], run[k].0);
    OneMoreBlock(spec, run, k);
    RemembersLastSeen(spec, run[..k + 1], f);
    RemembersLastSeen(spec, run[..k], f);
  }

  lemma OneMoreBlock(spec: Spec, run: seq<(int, Status)>, k: nat)
    requires spec.tempo > 0 && k < |run|
    ensures var asked := Queries(spec, After(spec, run[..k]), run[k].0);
            && BeatBlocks(spec, run[..k + 1])
               == BeatBlocks(spec, run[..k]) + (if asked && run[k].1 == NotSubmitted then [run[k].0] else [])
            && After(spec, run[..k + 1]).lastSuccess
               == (if asked && run[k].1 == Submitted then EpochContainingBlock(run[k].0, spec.netuid, spec.tempo)
                   else After(spec, run[..k]).lastSuccess)
            && (SuccessAt(spec, run, k) <==> asked && run[k].1 == Submitted)
            && EpochContainingBlock(run[k].0, spec.netuid, spec.tempo).Some?
  {
    assert run[..k + 1][..k] == run[..k];
    EpochIsWindow(run[k].0, spec.netuid, spec.tempo);
    hide EpochContainingBlock;
  }

  function Blocks(run: seq<(int, Status)>): seq<int> {
    seq(|run|, i requires 0 <= i < |run| => run[i].0)
  }

  /** Hence never again if the blocks of the run do not go back, wherever in the run the success was seen. */
  lemma NoQueryAfterSuccessInOrder(spec: Spec, run: seq<(int, Status)>, i: nat, block: int)
    requires spec.tempo > 0 && SuccessAt(spec, run, i) && Nondecreasing(Blocks(run) + [block])
    requires EpochContainingBlock(block, spec.netuid, spec.tempo)
             == EpochContainingBlock(run[i].0, spec.netuid, spec.tempo)
    ensures !Queries(spec, After(spec, run), block)
  {
    var before, more, e := run[..i + 1], run[i + 1..], EpochContainingBlock(block, spec.netuid, spec.tempo).value;
    EpochIsWindow(block, spec.netuid, spec.tempo);
    EpochIsWindow(run[i].0, spec.netuid, spec.tempo);
    assert before[..i] == run[..i];
    assert After(spec, before).lastSuccess == Some(e);
    forall k | 0 <= k < |more| ensures EpochContainingBlock(more[k].0, spec.netuid, spec.tempo) == Some(e) {
      var blocks := Blocks(run) + [block];
      assert blocks[i] <= blocks[i + 1 + k] <= blocks[|run|];
      EpochOfItsBlocks(block, more[k].0, spec.netuid, spec.tempo);
    }
    NoQueryAfterSuccess(spec, before, more, e, block);
    assert before + more == run;
  }

  /**
   Main theorem: when another epoch's success is seen in between, a block of an epoch that was seen as submitted
   is queried again as soon as it is due, and gets a beat if the answer has changed.
   */
  lemma GoingBackQueriesAgain(spec: Spec, before: seq<(int, Status)>, e: Epoch, other: int, block: int)
    requires spec.tempo > 0 && LastSeen(spec, before, e) && Queries(spec, After(spec, before), other)
    requires EpochContainingBlock(block, spec.netuid, spec.tempo) == Some(e)
    ensures EpochContainingBlock(other, spec.netuid, spec.tempo) != Some(e)
    ensures var run := before + [(other, Submitted)];
            && (Queries(spec, After(spec, run), block) <==> Due(spec, before, e, block))
            && (Due(spec, before, e, block) ==> Beats(spec, After(spec, run), block, NotSubmitted))
  {
    var run := before + [(other, Submitted)];
    assert run[..|before|] == before;
    RemembersLastSeen(spec, before, e);
    BeatsKeepCooldown(spec, before);
  }

  /** It happens with two epochs of two blocks each. */
  lemma GoingBackHappens()
    ensures var spec := Spec(0, 1, 0, 0);
            var run := [(0, Submitted), (2, Submitted)];
            && After(spec, [(0, Submitted)]).lastSuccess == EpochContainingBlock(0, 0, 1)
            && Beats(spec, After(spec, run), 0, NotSubmitted)
  {
    var spec := Spec(0, 1, 0, 0);
    var run := [(0, Submitted), (2, Submitted)];
    var none: seq<(int, Status)> := [];
    assert run[..1] == [(0, Submitted)] && run[..1][..0] == none;
    assert After(spec, none) == Fresh;
    assert After(spec, run[..1]) == WeightsState(Some(Epoch(0, 1)), None);
    assert After(spec, run) == WeightsState(Some(Epoch(2, 3)), None);
  }
}
