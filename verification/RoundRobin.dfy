/**
 Round-robin routing within one context. The neurons are sorted by hotkey and then shuffled in a way that
 depends on the context alone; a counter in the user data picks the next one.
 */
module RoundRobin {
  import opened Modular
  import opened Options
  import opened StableSort

  type Uid(==,!new)

  /** Hotkeys as numbers: only their order matters. */
  datatype Neuron = Neuron(hotkey: int, uid: Uid)

  function HotkeyOf(): Neuron -> int {
    (n: Neuron) => n.hotkey
  }

  /** A shuffle seeded by the context: some rearrangement, the same one for the same list. */
  ghost predicate Shuffles(shuffle: seq<Neuron> -> seq<Neuron>) {
    forall ns :: multiset(shuffle(ns)) == multiset(ns)
  }

  function Ordered(neurons: seq<Neuron>, shuffle: seq<Neuron> -> seq<Neuron>): seq<Neuron> {
    shuffle(Sort(neurons, HotkeyOf()))
  }

  ghost predicate DistinctHotkeys(neurons: seq<Neuron>) {
    forall i, j :: 0 <= i < j < |neurons| ==> neurons[i].hotkey != neurons[j].hotkey
  }

  lemma SameMultisetSameLength(a: seq<Neuron>, b: seq<Neuron>)
    requires multiset(a) == multiset(b)
    ensures |a| == |b|
  {
    assert |multiset(a)| == |multiset(b)|;
  }

  /** The pick at counter `count`; `None` is the exception for an empty list. */
  function SelectAt(neurons: seq<Neuron>, shuffle: seq<Neuron> -> seq<Neuron>, count: nat): Option<Neuron> {
    var ordered := Ordered(neurons, shuffle);
    if ordered == [] then None else Some(ordered[count % |ordered|])
  }

  class RoundRobinNeuronRouterActor {
    /** The routing state in the context's user data; absent before the first routing. */
    var routedCount: Option<nat>

    constructor ()
      ensures routedCount == None && Count() == 0
    {
      routedCount := None;
    }

    function Count(): nat
      reads this
    {
      if routedCount.Some? then routedCount.value else 0
    }

    /** `None` is the exception for an empty list; it leaves the counter alone. */
    method SelectNeuron(neurons: seq<Neuron>, shuffle: seq<Neuron> -> seq<Neuron>) returns (neuron: Option<Neuron>)
      requires Shuffles(shuffle)
      modifies this
      ensures neuron == SelectAt(neurons, shuffle, old(Count()))
      ensures neuron.None? <==> neurons == []
      ensures neuron.Some? ==> neuron.value in neurons
      ensures Count() == old(Count()) + if neurons == [] then 0 else 1
    {
      OrderedPermutes(neurons, shuffle);
      if |neurons| == 0 {
        return None;
      }
      var ordered := Ordered(neurons, shuffle);
      var count := if routedCount.Some? then routedCount.value else 0;
      neuron := Some(ordered[count % |ordered|]);
      assert neuron.value in multiset(ordered);
      routedCount := Some(count + 1);
    }
  }

  lemma OrderedPermutes(neurons: seq<Neuron>, shuffle: seq<Neuron> -> seq<Neuron>)
    requires Shuffles(shuffle)
    ensures multiset(Ordered(neurons, shuffle)) == multiset(neurons) && |Ordered(neurons, shuffle)| == |neurons|
  {
    SortPermutes(neurons, HotkeyOf());
    SameMultisetSameLength(Ordered(neurons, shuffle), neurons);
  }

  lemma PickNeedsNeurons(neurons: seq<Neuron>, shuffle: seq<Neuron> -> seq<Neuron>, count: nat)
    requires Shuffles(shuffle)
    ensures SelectAt(neurons, shuffle, count).None? <==> neurons == []
  {
    OrderedPermutes(neurons, shuffle);
  }

  /** A sorted list with distinct keys is determined by its elements. */
  lemma {:induction false} SortedIsUnique(a: seq<Neuron>, b: seq<Neuron>)
    requires Sorted(a, HotkeyOf()) && Sorted(b, HotkeyOf()) && multiset(a) == multiset(b) && DistinctHotkeys(a)
    ensures a == b
  {
    SameMultisetSameLength(a, b);
    if a != [] {
      HeadsAgree(a, b);
      TailOf(a);
      TailOf(b);
      assert multiset(a[1..]) == multiset(b[1..]);
      SortedIsUnique(a[1..], b[1..]);
      assert a == [a[0]] + a[1..] && b == [b[0]] + b[1..];
    }
  }

  lemma TailOf(a: seq<Neuron>)
    requires a != []
    ensures multiset(a[1..]) == multiset(a) - multiset{a[0]}
  {
    assert a == [a[0]] + a[1..];
  }

  /** Both start with the one neuron of the smallest hotkey. */
  lemma HeadsAgree(a: seq<Neuron>, b: seq<Neuron>)
    requires Sorted(a, HotkeyOf()) && Sorted(b, HotkeyOf()) && multiset(a) == multiset(b) && DistinctHotkeys(a)
    requires a != [] && b != []
    ensures a[0] == b[0]
  {
    assert a[0] in multiset(b) && b[0] in multiset(a);
    var i :| 0 <= i < |a| && a[i] == b[0];
    var j :| 0 <= j < |b| && b[j] == a[0];
    assert HotkeyOf()(a[0]) <= HotkeyOf()(a[i]) && HotkeyOf()(b[0]) <= HotkeyOf()(b[j]);
  }

  lemma {:induction false} InsertKeepsDistinct(x: Neuron, s: seq<Neuron>)
    requires DistinctHotkeys(s) && forall i :: 0 <= i < |s| ==> s[i].hotkey != x.hotkey
    ensures DistinctHotkeys(Insert(x, s, HotkeyOf()))
  {
    if s == [] || HotkeyOf()(x) <= HotkeyOf()(s[0]) {
    } else {
      InsertKeepsDistinct(x, s[1..]);
      InsertPermutes(x, s[1..], HotkeyOf());
      var r := Insert(x, s[1..], HotkeyOf());
      forall j | 0 <= j < |r| ensures r[j].hotkey != s[0].hotkey {
        assert r[j] in multiset(r);
        assert r[j] == x || r[j] in s[1..];
      }
    }
  }

  lemma {:induction false} SortKeepsDistinct(s: seq<Neuron>)
    requires DistinctHotkeys(s)
    ensures DistinctHotkeys(Sort(s, HotkeyOf()))
  {
    if s != [] {
      SortKeepsDistinct(s[1..]);
      SortPermutes(s[1..], HotkeyOf());
      var r := Sort(s[1..], HotkeyOf());
      forall i | 0 <= i < |r| ensures r[i].hotkey != s[0].hotkey {
        assert r[i] in multiset(r);
        assert r[i] in s[1..];
      }
      InsertKeepsDistinct(s[0], r);
    }
  }

  /** Main theorem: with distinct hotkeys the order of routing does not depend on how the neurons come. */
  lemma OrderIgnoresInputOrder(a: seq<Neuron>, b: seq<Neuron>, shuffle: seq<Neuron> -> seq<Neuron>)
    requires multiset(a) == multiset(b) && DistinctHotkeys(a)
    ensures Ordered(a, shuffle) == Ordered(b, shuffle)
  {
    SortPermutes(a, HotkeyOf());
    SortPermutes(b, HotkeyOf());
    SortSorts(a, HotkeyOf());
    SortSorts(b, HotkeyOf());
    SortKeepsDistinct(a);
    SortedIsUnique(Sort(a, HotkeyOf()), Sort(b, HotkeyOf()));
  }

  /******* Fairness *******/

  /** How many of the `k` picks from number `start` on fall on position `p` of `n`. */
  function Picks(start: nat, k: nat, n: nat, p: nat): nat
    requires n > 0
  {
    if k == 0 then 0 else Picks(start, k - 1, n, p) + if (start + k - 1) % n == p then 1 else 0
  }

  /** A whole round picks every position once. */
  lemma RoundPicksOnce(start: nat, n: nat, p: nat)
    requires n > 0 && p < n
    ensures Picks(start, n, n, p) == 1
  {
    PartialRound(start, n, n, p);
  }

  lemma ModOfSum(start: nat, k: nat, n: nat)
    requires n > 0 && k < n
    ensures (start + k) % n == if start % n + k < n then start % n + k else start % n + k - n
  {
    var q, r := start / n, start % n;
    assert start == q * n + r;
    if r + k < n {
      MultipleMod(q, n, r + k);
    } else {
      assert start + k == (q + 1) * n + (r + k - n);
      MultipleMod(q + 1, n, r + k - n);
    }
  }

  /** Within one round a position is picked once its turn has come, and not again. */
  lemma {:induction false} PartialRound(start: nat, k: nat, n: nat, p: nat)
    requires n > 0 && p < n && k <= n
    ensures Picks(start, k, n, p) == if (if p >= start % n then p - start % n else p - start % n + n) < k then 1 else 0
  {
    if k > 0 {
      PartialRound(start, k - 1, n, p);
      ModOfSum(start, k - 1, n);
    }
  }

  lemma {:induction false} PicksSplit(start: nat, j: nat, k: nat, n: nat, p: nat)
    requires n > 0
    ensures Picks(start, j + k, n, p) == Picks(start, j, n, p) + Picks(start + j, k, n, p)
  {
    if k > 0 {
      PicksSplit(start, j, k - 1, n, p);
    }
  }

  /** Main theorem: any `k` picks in a row fall on every position floor(k / n) or ceil(k / n) times. */
  lemma {:induction false} PicksAreFair(start: nat, k: nat, n: nat, p: nat)
    requires n > 0 && p < n
    ensures k / n <= Picks(start, k, n, p) <= (k + n - 1) / n
    decreases k
  {
    if k < n {
      PartialRound(start, k, n, p);
      MultipleMod(0, n, k);
      if k > 0 {
        MultipleMod(1, n, k - 1);
      } else {
        MultipleMod(0, n, n - 1);
      }
    } else {
      PicksSplit(start, n, k - n, n, p);
      RoundPicksOnce(start, n, p);
      PicksAreFair(start + n, k - n, n, p);
      DivideLess(k, n);
      DivideLess(k + n - 1, n);
    }
  }

  /** How often neuron `x` is routed to in `k` routings from number `start` on. */
  function RoutedTo(ordered: seq<Neuron>, start: nat, k: nat, x: Neuron): nat
    requires ordered != []
  {
    if k == 0 then 0
    else
      RoutedTo(ordered, start, k - 1, x)
      + if ordered[(start + k - 1) % |ordered|] == x then 1 else 0
  }

  lemma {:induction false} RoutedToPosition(ordered: seq<Neuron>, start: nat, k: nat, p: nat)
    requires p < |ordered| && DistinctNeurons(ordered)
    ensures RoutedTo(ordered, start, k, ordered[p]) == Picks(start, k, |ordered|, p)
  {
    if k > 0 {
      RoutedToPosition(ordered, start, k - 1, p);
    }
  }

  ghost predicate DistinctNeurons(neurons: seq<Neuron>) {
    forall i, j :: 0 <= i < j < |neurons| ==> neurons[i] != neurons[j]
  }

  lemma {:induction false} DistinctByMultiset(a: seq<Neuron>)
    ensures DistinctNeurons(a) <==> forall x :: multiset(a)[x] <= 1
  {
    if a != [] {
      DistinctByMultiset(a[1..]);
      assert a == [a[0]] + a[1..];
      if DistinctNeurons(a) {
        assert DistinctNeurons(a[1..]);
        assert a[0] !in a[1..];
        forall x ensures multiset(a)[x] <= 1 {
          assert multiset(a)[x] == multiset([a[0]])[x] + multiset(a[1..])[x];
          assert x == a[0] ==> x !in multiset(a[1..]);
        }
      }
      if forall x :: multiset(a)[x] <= 1 {
        forall x ensures multiset(a[1..])[x] <= 1 {
          assert multiset(a[1..])[x] <= multiset(a)[x];
        }
        assert multiset(a)[a[0]] == 1 + multiset(a[1..])[a[0]];
        assert a[0] !in multiset(a[1..]);
      }
    }
  }

  lemma OrderedIsDistinct(neurons: seq<Neuron>, shuffle: seq<Neuron> -> seq<Neuron>)
    requires Shuffles(shuffle) && DistinctHotkeys(neurons)
    ensures DistinctNeurons(Ordered(neurons, shuffle))
  {
    OrderedPermutes(neurons, shuffle);
    DistinctByMultiset(neurons);
    DistinctByMultiset(Ordered(neurons, shuffle));
  }

  /** The picks of calls in a row, call `i` being offered `inputs[i]`; a call that raises leaves the counter alone. */
  function Selections(inputs: seq<seq<Neuron>>, shuffle: seq<Neuron> -> seq<Neuron>,
                      count: nat): (r: seq<Option<Neuron>>)
    ensures |r| == |inputs|
  {
    if inputs == [] then []
    else
      [SelectAt(inputs[0], shuffle, count)]
      + Selections(inputs[1..], shuffle, count + if inputs[0] == [] then 0 else 1)
  }

  /** The calls are offered the same neurons, each call in an order of its own. */
  ghost predicate SameNeurons(inputs: seq<seq<Neuron>>, neurons: seq<Neuron>) {
    forall i :: 0 <= i < |inputs| ==> multiset(inputs[i]) == multiset(neurons)
  }

  lemma {:induction false} SelectionsFollowOrder(inputs: seq<seq<Neuron>>, neurons: seq<Neuron>,
                                                 shuffle: seq<Neuron> -> seq<Neuron>, count: nat)
    requires Shuffles(shuffle) && DistinctHotkeys(neurons) && neurons != [] && SameNeurons(inputs, neurons)
    ensures var ordered := Ordered(neurons, shuffle);
            ordered != [] && forall i :: 0 <= i < |inputs| ==>
              Selections(inputs, shuffle, count)[i] == Some(ordered[(count + i) % |ordered|])
  {
    hide Shuffles;
    OrderedPermutes(neurons, shuffle);
    if inputs != [] {
      assert multiset(inputs[0]) == multiset(neurons);
      OrderIgnoresInputOrder(neurons, inputs[0], shuffle);
      SameMultisetSameLength(neurons, inputs[0]);
      hide Ordered;
      hide DistinctHotkeys;
      SelectionsFollowOrder(inputs[1..], neurons, shuffle, count + 1);
      var r, rest, ordered := Selections(inputs, shuffle, count), Selections(inputs[1..], shuffle, count + 1),
        Ordered(neurons, shuffle);
      forall i | 0 <= i < |inputs| ensures r[i] == Some(ordered[(count + i) % |ordered|]) {
        if i > 0 {
          assert r[i] == rest[i - 1] && count + 1 + (i - 1) == count + i;
        }
      }
    }
  }

  lemma {:induction false} CountOfPicks(picks: seq<Option<Neuron>>, ordered: seq<Neuron>, start: nat, x: Neuron)
    requires ordered != [] && forall i :: 0 <= i < |picks| ==> picks[i] == Some(ordered[(start + i) % |ordered|])
    ensures multiset(picks)[Some(x)] == RoutedTo(ordered, start, |picks|, x)
  {
    if picks != [] {
      var k := |picks| - 1;
      CountOfPicks(picks[..k], ordered, start, x);
      assert picks == picks[..k] + [picks[k]];
    }
  }

  lemma PositionOf(neurons: seq<Neuron>, shuffle: seq<Neuron> -> seq<Neuron>, x: Neuron) returns (p: nat)
    requires Shuffles(shuffle) && x in neurons
    ensures p < |Ordered(neurons, shuffle)| == |neurons| && Ordered(neurons, shuffle)[p] == x
  {
    OrderedPermutes(neurons, shuffle);
    assert x in multiset(Ordered(neurons, shuffle));
    p :| 0 <= p < |Ordered(neurons, shuffle)| && Ordered(neurons, shuffle)[p] == x;
  }

  /**
   Main theorem: whatever the order in which each call is offered the `n` neurons, any `k` routings of a
   context in a row go to every neuron floor(k / n) or ceil(k / n) times.
   */
  lemma RoutingIsFair(inputs: seq<seq<Neuron>>, neurons: seq<Neuron>, shuffle: seq<Neuron> -> seq<Neuron>, count: nat,
                      x: Neuron)
    requires Shuffles(shuffle) && DistinctHotkeys(neurons) && x in neurons && SameNeurons(inputs, neurons)
    ensures var k, n := |inputs|, |neurons|;
            k / n <= multiset(Selections(inputs, shuffle, count))[Some(x)] <= (k + n - 1) / n
  {
    hide Ordered;
    SelectionsFollowOrder(inputs, neurons, shuffle, count);
    CountOfPicks(Selections(inputs, shuffle, count), Ordered(neurons, shuffle), count, x);
    OrderedIsDistinct(neurons, shuffle);
    var p := PositionOf(neurons, shuffle, x);
    RoutedToPosition(Ordered(neurons, shuffle), count, |inputs|, p);
    PicksAreFair(count, |inputs|, |neurons|, p);
  }

  /** Main theorem: nor does any of them come twice within `n` routings in a row. */
  lemma NoRepeatWithinRound(inputs: seq<seq<Neuron>>, neurons: seq<Neuron>, shuffle: seq<Neuron> -> seq<Neuron>,
                            count: nat, i: nat, j: nat)
    requires Shuffles(shuffle) && DistinctHotkeys(neurons) && SameNeurons(inputs, neurons)
    requires i < j < |inputs| && j - i < |neurons|
    ensures var picks := Selections(inputs, shuffle, count);
            picks[i].Some? && picks[j].Some? && picks[i] != picks[j]
  {
    var ordered := Ordered(neurons, shuffle);
    SelectionsFollowOrder(inputs, neurons, shuffle, count);
    OrderedPermutes(neurons, shuffle);
    OrderedIsDistinct(neurons, shuffle);
    ModOfSum(count + i, j - i, |ordered|);
  }
}
