/**
 One control token per run, from any starting user data: messages that carry the attempt on, armed
 timers, pending requests, queued outputs and terminal events are never more than one together. The
 record copies of executor failures are not control tokens.
 */
module TaskTokens {
  import opened Options
  import opened TaskProtocol

  /** The stages that a payload goes through on its way to the executor. */
  predicate Input?(sink: SinkName) {
    sink == CreatorInput || sink == RouterInput || sink == TimestamperInput || sink == CommunicatorInput
  }

  function SinkWeight(sink: SinkName): nat {
    if sink == DispatcherFailure then 0 else 1
  }

  /** Of the events that leave the task only the two terminal ones count. */
  function SourceWeight(source: SourceName): nat {
    if source == StoredFailure || source == DispatchedSuccess || source == DispatchedFailure then 0 else 1
  }

  function TokenWeight(t: Token): nat {
    match t
    case Bus(source, _, _) => SourceWeight(source)
    case Box(sink, _, _) => SinkWeight(sink)
    case _ => 1
  }

  function Weight(ts: seq<Token>): nat {
    if ts == [] then 0 else TokenWeight(ts[0]) + Weight(ts[1..])
  }

  predicate IsTerminal(t: Token) {
    t.Bus? && (t.source == ExecutorOutput || t.source == TaskError)
  }

  lemma {:induction false} WeightAppend(a: seq<Token>, b: seq<Token>)
    ensures Weight(a + b) == Weight(a) + Weight(b)
  {
    if a == [] {
      assert a + b == b;
    } else {
      WeightAppend(a[1..], b);
      assert (a + b)[1..] == a[1..] + b;
    }
  }

  lemma WeightWithout(ts: seq<Token>, i: nat)
    requires i < |ts|
    ensures Weight(ts) == Weight(Without(ts, i)) + TokenWeight(ts[i])
  {
    assert ts == ts[..i] + ([ts[i]] + ts[i + 1..]);
    WeightAppend(ts[..i], [ts[i]] + ts[i + 1..]);
    WeightAppend([ts[i]], ts[i + 1..]);
    WeightAppend(ts[..i], ts[i + 1..]);
    assert [ts[i]][1..] == [];
  }

  /** Two different tokens weigh at most what all weigh together. */
  lemma WeightOfTwo(ts: seq<Token>, i: nat, j: nat)
    requires i < |ts| && j < |ts| && i != j
    ensures TokenWeight(ts[i]) + TokenWeight(ts[j]) <= Weight(ts)
  {
    WeightWithout(ts, i);
    var k := if j < i then j else j - 1;
    assert Without(ts, i)[k] == ts[j];
    WeightWithout(Without(ts, i), k);
  }

  lemma WeightOfShort(ts: seq<Token>)
    requires |ts| <= 2
    ensures Weight(ts) == (if |ts| > 0 then TokenWeight(ts[0]) else 0) + if |ts| > 1 then TokenWeight(ts[1]) else 0
  {
    if |ts| == 2 {
      assert ts[1..] == [ts[1]] && [ts[1]][1..] == [];
    }
  }

  /** No handler sends on more weight than the message it consumed. */
  lemma ReactNeverAdds(max: int, l: Local, beat: Option<Beat>, sink: SinkName, body: Body, tag: nat, c: Choice)
    ensures Weight(React(max, l, beat, sink, body, tag, c).sent) <= SinkWeight(sink)
  {
    WeightOfShort(React(max, l, beat, sink, body, tag, c).sent);
  }

  lemma {:induction false} FlushWeighs(ud: TaskData, ts: seq<Token>, now: Time, beat: Beat)
    requires ud.started.Some?
    ensures Weight(Flush(ud, ts, now, beat)) == Weight(ts)
  {
    if ts != [] {
      FlushWeighs(ud, ts[1..], now, beat);
      assert Flush(ud, ts, now, beat)[1..] == Flush(ud, ts[1..], now, beat);
    }
  }

  lemma StepNeverAdds(max: int, s: Task, a: Action)
    ensures Weight(Step(max, s, a).tokens) <= Weight(s.tokens)
  {
    var i := Consumes(s, a);
    if i.Some? {
      var t, e := s.tokens[i.value], EffectOf(max, s, a);
      WeightWithout(s.tokens, i.value);
      WeightAppend(Without(s.tokens, i.value), e.sent);
      if a.Handle? {
        ReactNeverAdds(max, s.local, s.beat, t.sink, t.body, t.tag, a.choice);
      } else {
        WeightOfShort(e.sent);
      }
    } else if a.BlockBeat? && s.local.ud.started.Some? {
      FlushWeighs(s.local.ud, s.tokens, a.now, a.beat);
    }
  }

  lemma {:induction false} RunNeverAdds(max: int, s: Task, actions: seq<Action>)
    ensures Weight(Run(max, s, actions).tokens) <= Weight(s.tokens)
    decreases |actions|
  {
    if actions != [] {
      StepNeverAdds(max, s, actions[0]);
      RunNeverAdds(max, Step(max, s, actions[0]), actions[1..]);
    }
  }

  /**
   Main theorem: one input, any user data, any interleaving. Of all the tokens that are not record
   copies, terminal events included, there is never a second one.
   */
  lemma OneControlToken(max: int, ud: TaskData, input: Input, actions: seq<Action>, i: nat, j: nat)
    requires var s := Run(max, Start(ud, input), actions);
             && i < |s.tokens| && j < |s.tokens|
             && TokenWeight(s.tokens[i]) == 1 && TokenWeight(s.tokens[j]) == 1
    ensures i == j
  {
    RunNeverAdds(max, Start(ud, input), actions);
    WeightOfShort(Start(ud, input).tokens);
    var s := Run(max, Start(ud, input), actions);
    if i != j {
      WeightOfTwo(s.tokens, i, j);
    }
  }

  /** Hence at most one terminal event, and none while the attempt is still under way. */
  lemma AtMostOneTerminalEvent(max: int, ud: TaskData, input: Input, actions: seq<Action>, i: nat, j: nat)
    requires var s := Run(max, Start(ud, input), actions);
             && i < |s.tokens| && j < |s.tokens| && i != j && IsTerminal(s.tokens[i])
    ensures var t := Run(max, Start(ud, input), actions).tokens[j];
            !IsTerminal(t) && !t.Timer? && !t.Pending? && !t.Queued?
            && (t.Bus? && Route(t.source).Some? ==> t.source == StoredFailure)
            && (t.Box? ==> t.sink == DispatcherFailure)
  {
    var s := Run(max, Start(ud, input), actions);
    if TokenWeight(s.tokens[j]) == 1 {
      OneControlToken(max, ud, input, actions, i, j);
    }
  }

  /** A terminal event that has been sent stays sent, so the final state shows all of them. */
  lemma {:induction false} TerminalEventsStay(max: int, s: Task, actions: seq<Action>, t: Token)
    requires IsTerminal(t) && t in s.tokens
    ensures t in Run(max, s, actions).tokens
    decreases |actions|
  {
    if actions != [] {
      var s1, i := Step(max, s, actions[0]), Consumes(s, actions[0]);
      var j :| 0 <= j < |s.tokens| && s.tokens[j] == t;
      if i.Some? {
        assert j != i.value;
        assert s1.tokens[if j < i.value then j else j - 1] == t;
      } else {
        assert s1.tokens[j] == t;
      }
      TerminalEventsStay(max, s1, actions[1..], t);
    }
  }
}
