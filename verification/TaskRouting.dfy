/**
 Routing within a task run: the attempts of a run are spread over the neurons as evenly as the
 round-robin counter spreads consecutive picks, whatever happens to the attempts.
 */
module TaskRouting {
  import opened Options
  import opened TaskProtocol
  import opened TaskTokens
  import opened TaskAttribution
  import RoundRobin

  type Neurons = seq<Neuron>

  /** The router's pick in this state. */
  function PickOf(s: Task, offer: Neurons): Option<Neuron> {
    RoundRobin.SelectAt(offer, s.local.ud.routing.shuffle, RoutedCount(s.local.ud))
  }

  /** The action is a call of the router that picks a neuron. */
  predicate Picks(s: Task, a: Action) {
    && a.Handle? && a.choice.Routes? && a.i < |s.tokens|
    && s.tokens[a.i].Box? && s.tokens[a.i].sink == RouterInput && s.tokens[a.i].body.PayloadBody?
    && PickOf(s, a.choice.offer).Some?
  }

  function OfferOf(s: Task, a: Action): Neurons
    requires Picks(s, a)
  {
    a.choice.offer
  }

  /** The lists of neurons that the run's picks were made from, pick by pick. */
  function Offers(max: int, s: Task, actions: seq<Action>): seq<Neurons>
    decreases |actions|
  {
    if actions == [] then []
    else
      (if Picks(s, actions[0]) then [OfferOf(s, actions[0])] else [])
      + Offers(max, Step(max, s, actions[0]), actions[1..])
  }

  /** The targets of the attempts that have been routed, in attempt order. */
  function Targets(trace: seq<Attempt>): seq<Option<Neuron>> {
    if trace == [] then []
    else
      var n := |trace| - 1;
      Targets(trace[..n]) + if trace[n].target.Some? then [trace[n].target] else []
  }

  lemma {:induction false} TargetsDependOnTargets(a: seq<Attempt>, b: seq<Attempt>)
    requires |a| == |b| && forall i :: 0 <= i < |a| ==> a[i].target == b[i].target
    ensures Targets(a) == Targets(b)
  {
    if a != [] {
      TargetsDependOnTargets(a[..|a| - 1], b[..|b| - 1]);
    }
  }

  ghost predicate SameTargets(a: seq<Attempt>, b: seq<Attempt>) {
    b == a + [Begun] || (|b| == |a| && forall i :: 0 <= i < |a| ==> a[i].target == b[i].target)
  }

  lemma SameTargetsSame(a: seq<Attempt>, b: seq<Attempt>)
    requires SameTargets(a, b)
    ensures Targets(b) == Targets(a)
  {
    if b == a + [Begun] {
      assert b[..|b| - 1] == a;
    } else {
      TargetsDependOnTargets(a, b);
    }
  }

  /** No pick: the targets and the router's key stay as they are. */
  ghost predicate KeepsRouting(l: Local, l1: Local) {
    SameTargets(l.trace, l1.trace) && l1.ud.routing == l.ud.routing
  }

  lemma InputsKeepTargets(max: int, l: Local, beat: Option<Beat>, t: Token, c: Choice)
    requires t.Box? && Input?(t.sink) && t.sink != RouterInput && !c.Raises?
    ensures KeepsRouting(l, React(max, l, beat, t.sink, t.body, t.tag, c).local)
  {
  }

  lemma RouterKeepsTargets(max: int, l: Local, beat: Option<Beat>, t: Token, c: Choice)
    requires t.Box? && t.sink == RouterInput && !c.Raises?
    requires c.Routes? && t.body.PayloadBody? ==>
               RoundRobin.SelectAt(c.offer, l.ud.routing.shuffle, RoutedCount(l.ud)).None?
    ensures KeepsRouting(l, React(max, l, beat, t.sink, t.body, t.tag, c).local)
  {
    hide RoundRobin.SelectAt;
  }

  lemma OthersKeepTargets(max: int, l: Local, beat: Option<Beat>, t: Token, c: Choice)
    requires t.Box? && !Input?(t.sink) && !c.Raises?
    ensures KeepsRouting(l, React(max, l, beat, t.sink, t.body, t.tag, c).local)
  {
  }

  lemma ReactKeepsTargets(max: int, l: Local, beat: Option<Beat>, t: Token, c: Choice)
    requires t.Box? && !c.Raises?
    requires t.sink == RouterInput && c.Routes? && t.body.PayloadBody? ==>
               RoundRobin.SelectAt(c.offer, l.ud.routing.shuffle, RoutedCount(l.ud)).None?
    ensures KeepsRouting(l, React(max, l, beat, t.sink, t.body, t.tag, c).local)
  {
    hide React;
    if t.sink == RouterInput {
      RouterKeepsTargets(max, l, beat, t, c);
    } else if Input?(t.sink) {
      InputsKeepTargets(max, l, beat, t, c);
    } else {
      OthersKeepTargets(max, l, beat, t, c);
    }
  }

  /** An exception may write any user data, but it loses the control token. */
  lemma RaiseStops(max: int, l: Local, beat: Option<Beat>, t: Token, c: Choice)
    requires t.Box? && c.Raises?
    ensures var e := React(max, l, beat, t.sink, t.body, t.tag, c);
            e.local.trace == l.trace && e.sent == [] && (TokenWeight(t) == 0 ==> e.local == l)
  {
  }

  /** As long as there is a control token, the router's key holds `count` in this context. */
  ghost predicate CountIs(s: Task, shuffle: Neurons -> Neurons, count: nat) {
    Weight(s.tokens) > 0 ==> s.local.ud.routing.shuffle == shuffle && RoutedCount(s.local.ud) == count
  }

  lemma EffectKeepsTargets(max: int, s: Task, a: Action, shuffle: Neurons -> Neurons, count: nat)
    requires Attributed(s) && Consumes(s, a).Some? && !Picks(s, a) && CountIs(s, shuffle, count)
    ensures SameTargets(s.local.trace, EffectOf(max, s, a).local.trace)
    ensures CountIs(Step(max, s, a), shuffle, count)
  {
    hide Attributed;
    StepNeverAdds(max, s, a);
    if a.Handle? && a.choice.Raises? {
      var t := s.tokens[a.i];
      RaiseStops(max, s.local, s.beat, t, a.choice);
      RaiseWeighs(max, s, a);
    } else if a.Handle? {
      ReactKeepsTargets(max, s.local, s.beat, s.tokens[a.i], a.choice);
    }
  }

  lemma RaiseWeighs(max: int, s: Task, a: Action)
    requires Attributed(s) && Consumes(s, a).Some? && a.Handle? && a.choice.Raises?
    ensures TokenWeight(s.tokens[a.i]) == 1 ==> Weight(Step(max, s, a).tokens) == 0
  {
    RaiseStops(max, s.local, s.beat, s.tokens[a.i], a.choice);
    WeightWithout(s.tokens, a.i);
    assert Without(s.tokens, a.i) + [] == Without(s.tokens, a.i);
  }

  lemma PickIsForLatest(s: Task, a: Action)
    requires Attributed(s) && Picks(s, a)
    ensures var n := |s.local.trace|;
            s.tokens[a.i].tag + 1 == n && s.local.trace[n - 1].target == None
  {
    hide RecordsOk;
    hide Unstored;
    assert Fits(s.tokens[a.i], s.local);
  }

  /** A pick is the target of the latest attempt, which had none, and the counter goes up by one. */
  lemma PickSetsTarget(max: int, s: Task, a: Action, shuffle: Neurons -> Neurons, count: nat)
    requires Attributed(s) && Picks(s, a) && CountIs(s, shuffle, count)
    ensures var picked := RoundRobin.SelectAt(a.choice.offer, shuffle, count);
            picked.Some? && Targets(Step(max, s, a).local.trace) == Targets(s.local.trace) + [picked]
    ensures CountIs(Step(max, s, a), shuffle, count + 1)
  {
    hide Attributed;
    hide RoundRobin.SelectAt;
    PickIsForLatest(s, a);
    WeightWithout(s.tokens, a.i);
    var trace, picked := s.local.trace, PickOf(s, a.choice.offer);
    var n := |trace| - 1;
    var trace1 := Step(max, s, a).local.trace;
    assert trace1 == trace[n := trace[n].(target := picked)];
    assert trace1[..n] == trace[..n];
  }

  lemma StepTargets(max: int, s: Task, a: Action, shuffle: Neurons -> Neurons, count: nat)
    requires Attributed(s) && CountIs(s, shuffle, count) && !Picks(s, a)
    ensures Targets(Step(max, s, a).local.trace) == Targets(s.local.trace)
    ensures CountIs(Step(max, s, a), shuffle, count)
  {
    hide Attributed;
    hide Picks;
    if Consumes(s, a).Some? {
      EffectKeepsTargets(max, s, a, shuffle, count);
      SameTargetsSame(s.local.trace, EffectOf(max, s, a).local.trace);
    } else {
      StepNeverAdds(max, s, a);
    }
  }

  lemma {:induction false} RunTargets(max: int, s: Task, actions: seq<Action>, shuffle: Neurons -> Neurons, count: nat)
    requires Attributed(s) && CountIs(s, shuffle, count) && RoundRobin.Shuffles(shuffle)
    ensures Targets(Run(max, s, actions).local.trace)
         == Targets(s.local.trace) + RoundRobin.Selections(Offers(max, s, actions), shuffle, count)
    decreases |actions|
  {
    hide Step;
    hide Picks;
    hide Targets;
    hide Attributed;
    hide CountIs;
    hide RoundRobin.SelectAt;
    hide RoundRobin.Shuffles;
    if actions != [] {
      var a, s1, rest := actions[0], Step(max, s, actions[0]), actions[1..];
      StepAttributes(max, s, a);
      if Picks(s, a) {
        PickSetsTarget(max, s, a, shuffle, count);
        RoundRobin.PickNeedsNeurons(OfferOf(s, a), shuffle, count);
        RunTargets(max, s1, rest, shuffle, count + 1);
        SelectionsCons(OfferOf(s, a), Offers(max, s1, rest), shuffle, count);
      } else {
        StepTargets(max, s, a, shuffle, count);
        RunTargets(max, s1, rest, shuffle, count);
        assert Offers(max, s, actions) == Offers(max, s1, rest);
      }
    }
  }

  lemma SelectionsCons(offer: Neurons, offers: seq<Neurons>, shuffle: Neurons -> Neurons, count: nat)
    requires offer != []
    ensures RoundRobin.Selections([offer] + offers, shuffle, count)
         == [RoundRobin.SelectAt(offer, shuffle, count)] + RoundRobin.Selections(offers, shuffle, count + 1)
  {
    assert ([offer] + offers)[1..] == offers;
  }

  /**
   Main theorem: whatever happens in a run, the targets of its attempts are the router's consecutive picks,
   from where the counter stood before.
   */
  lemma TargetsAreSelections(max: int, ud: TaskData, input: Input, actions: seq<Action>)
    requires RoundRobin.Shuffles(ud.routing.shuffle)
    ensures var s := Start(ud, input);
            Targets(Run(max, s, actions).local.trace)
            == RoundRobin.Selections(Offers(max, s, actions), ud.routing.shuffle, RoutedCount(ud))
  {
    StartAttributes(ud, input);
    RunTargets(max, Start(ud, input), actions, ud.routing.shuffle, RoutedCount(ud));
  }

  /**
   Main theorem: as long as the router is offered the same `n` neurons, in whatever order, any `n` routed
   attempts of a run in a row go to different neurons.
   */
  lemma AttemptsHitDistinctNeurons(max: int, ud: TaskData, input: Input, actions: seq<Action>, neurons: Neurons,
                                   i: nat, j: nat)
    requires RoundRobin.Shuffles(ud.routing.shuffle) && RoundRobin.DistinctHotkeys(neurons)
    requires RoundRobin.SameNeurons(Offers(max, Start(ud, input), actions), neurons)
    requires var targets := Targets(Run(max, Start(ud, input), actions).local.trace);
             i < j < |targets| && j - i < |neurons|
    ensures var targets := Targets(Run(max, Start(ud, input), actions).local.trace);
            targets[i] != targets[j]
  {
    TargetsAreSelections(max, ud, input, actions);
    var offers := Offers(max, Start(ud, input), actions);
    RoundRobin.NoRepeatWithinRound(offers, neurons, ud.routing.shuffle, RoutedCount(ud), i, j);
  }

  /** Main theorem: and over a whole run every neuron gets floor(k / n) or ceil(k / n) of the `k` routed attempts. */
  lemma AttemptsAreSpread(max: int, ud: TaskData, input: Input, actions: seq<Action>, neurons: Neurons, x: Neuron)
    requires RoundRobin.Shuffles(ud.routing.shuffle) && RoundRobin.DistinctHotkeys(neurons) && x in neurons
    requires RoundRobin.SameNeurons(Offers(max, Start(ud, input), actions), neurons)
    ensures var targets, n := Targets(Run(max, Start(ud, input), actions).local.trace), |neurons|;
            |targets| / n <= multiset(targets)[Some(x)] <= (|targets| + n - 1) / n
  {
    TargetsAreSelections(max, ud, input, actions);
    var offers := Offers(max, Start(ud, input), actions);
    RoundRobin.RoutingIsFair(offers, neurons, ud.routing.shuffle, RoutedCount(ud), x);
  }
}
