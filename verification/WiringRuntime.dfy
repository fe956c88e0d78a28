/**
 The mutable wiring objects: `Pipes`, the flow builder and the aggregate of flows.
 */
module WiringRuntime {
  import opened Options
  import opened Wiring

  class Pipes<A(==,!new), B(==,!new)> {
    var targets: Graph<A, B>
    /** The sources in the order of their first declaration, which is the order of iteration. */
    var keys: seq<A>

    constructor ()
      ensures Valid() && targets == map[] && keys == []
    {
      targets, keys := map[], [];
    }

    ghost predicate Valid()
      reads this
    {
      Lists(keys, targets)
    }

    method Connect(source: A, primary: Option<B>, taps: set<B>) returns (ok: bool)
      modifies this
      ensures ok <==> Wiring.Connect(old(targets), source, Targets(primary, taps)).Some?
      ensures targets == if ok then Wiring.Connect(old(targets), source, Targets(primary, taps)).value else old(targets)
      ensures keys == old(keys) + if ok && source !in old(targets) then [source] else []
      ensures ok && WellFormed(old(targets)) ==> WellFormed(targets)
      ensures old(Valid()) ==> Valid()
    {
      var declared := Targets(primary, taps);
      if declared.primary.None? && declared.taps == {} {
        return false;
      }
      if source in targets {
        if !SamePrimary(targets[source], declared) {
          return false;
        }
        declared := MergeTargets(targets[source], declared);
      }
      if !ValidRoles(declared) {
        return false;
      }
      if source !in targets {
        keys := keys + [source];
      }
      targets := targets[source := declared];
      ok := true;
    }

    /** The sources come in the order of the other graph; a failure leaves those in place that came before it. */
    method Merge(other: Pipes<A, B>) returns (ok: bool)
      requires Valid() && other.Valid() && WellFormed(targets) && WellFormed(other.targets)
      modifies this
      ensures Valid() && WellFormed(targets)
      ensures ok <==> Wiring.Merge(old(targets), old(other.targets)).Some?
      ensures ok ==> targets == Wiring.Merge(old(targets), old(other.targets)).value
      ensures !ok ==> exists n :: StopsAt(old(targets), old(other.targets), old(other.keys), n, targets)
    {
      hide MergedUpTo;
      ghost var g := targets;
      var h, order := other.targets, other.keys;
      NothingMerged(g, h, order);
      for i := 0 to |order|
        invariant Valid() && WellFormed(targets)
        invariant MergedUpTo(g, h, order, i, targets)
      {
        OneMore(g, h, order, i, targets);
        var connected := Connect(order[i], h[order[i]].primary, h[order[i]].taps);
        if !connected {
          return false;
        }
      }
      AllMerged(g, h, order, targets);
      ok := true;
    }
  }

  /** The keys of a dict in some order. */
  ghost predicate Lists<A(!new), B>(keys: seq<A>, g: Graph<A, B>) {
    && (forall a :: a in keys <==> a in g)
    && (forall i, j :: 0 <= i < j < |keys| ==> keys[i] != keys[j])
  }

  /** `r` is `g` with the first `n` sources of `h` merged in, and nothing else. */
  ghost predicate MergedUpTo<A(!new), B>(g: Graph<A, B>, h: Graph<A, B>, order: seq<A>, n: int, r: Graph<A, B>) {
    && 0 <= n <= |order| && (forall i :: 0 <= i < |order| ==> order[i] in h)
    && (forall i :: 0 <= i < n && order[i] in g ==> Joinable(g[order[i]], h[order[i]]))
    && (forall a :: a in r <==> a in g || a in order[..n])
    && (forall a :: a in r ==> r[a] == if a in order[..n] then MergedAt(g, h, a) else g[a])
  }

  /** The merge of `g` and `h` came as far as the first `n` sources and raised at the next one. */
  ghost predicate StopsAt<A(!new), B>(g: Graph<A, B>, h: Graph<A, B>, order: seq<A>, n: int, r: Graph<A, B>) {
    && MergedUpTo(g, h, order, n, r)
    && n < |order| && order[n] in g && !Joinable(g[order[n]], h[order[n]])
  }

  lemma NothingMerged<A(!new), B(!new)>(g: Graph<A, B>, h: Graph<A, B>, order: seq<A>)
    requires Lists(order, h)
    ensures MergedUpTo(g, h, order, 0, g)
  {
    assert forall i :: 0 <= i < |order| ==> order[i] in order;
  }

  /** The next connect adds exactly the next source, or raises because it does not join. */
  lemma OneMore<A(!new), B(!new)>(g: Graph<A, B>, h: Graph<A, B>, order: seq<A>, n: int, r: Graph<A, B>)
    requires WellFormed(g) && WellFormed(h) && Lists(order, h) && MergedUpTo(g, h, order, n, r) && n < |order|
    ensures order[n] in h
    ensures var c := Connect(r, order[n], Targets(h[order[n]].primary, h[order[n]].taps));
            if c.Some? then MergedUpTo(g, h, order, n + 1, c.value)
            else StopsAt(g, h, order, n, r) && Merge(g, h).None?
  {
    NextJoins(g, h, order, n, r);
    var a := order[n];
    if a in g ==> Joinable(g[a], h[a]) {
      NextMerged(g, h, order, n, r);
    }
  }

  lemma NextJoins<A(!new), B(!new)>(g: Graph<A, B>, h: Graph<A, B>, order: seq<A>, n: int, r: Graph<A, B>)
    requires WellFormed(g) && WellFormed(h) && Lists(order, h) && MergedUpTo(g, h, order, n, r) && n < |order|
    ensures order[n] in h
    ensures var a := order[n];
            Connect(r, a, Targets(h[a].primary, h[a].taps))
            == if a in g && !Joinable(g[a], h[a]) then None else Some(r[a := MergedAt(g, h, a)])
  {
    var a := order[n];
    assert a !in order[..n];
    assert h[a] == Targets(h[a].primary, h[a].taps);
    if a in g {
      assert r[a] == g[a];
    }
  }

  lemma NextMerged<A(!new), B(!new)>(g: Graph<A, B>, h: Graph<A, B>, order: seq<A>, n: int, r: Graph<A, B>)
    requires Lists(order, h) && MergedUpTo(g, h, order, n, r) && n < |order|
    requires order[n] in h && (order[n] in g ==> Joinable(g[order[n]], h[order[n]]))
    ensures MergedUpTo(g, h, order, n + 1, r[order[n] := MergedAt(g, h, order[n])])
  {
    hide MergedAt;
    hide Joinable;
    assert order[..n + 1] == order[..n] + [order[n]];
  }

  lemma AllMerged<A(!new), B(!new)>(g: Graph<A, B>, h: Graph<A, B>, order: seq<A>, r: Graph<A, B>)
    requires Lists(order, h) && MergedUpTo(g, h, order, |order|, r)
    ensures Merge(g, h) == Some(r)
  {
    assert order[..|order|] == order;
    forall a | a in g && a in h ensures Joinable(g[a], h[a]) {
      var i :| 0 <= i < |order| && order[i] == a;
    }
    assert r == Merge(g, h).value;
  }

  ghost function MergedAt<A, B>(g: Graph<A, B>, h: Graph<A, B>, a: A): Targets<B>
    requires a in g || a in h
  {
    if a in g && a in h then MergeTargets(g[a], h[a]) else if a in g then g[a] else h[a]
  }

  /** Every pipe starts at one of `sources` and ends at some of `sinks`. */
  ghost predicate Closed<A(!new), B(!new)>(g: Graph<A, B>, sources: set<A>, sinks: set<B>) {
    forall a :: a in g ==> a in sources && g[a].taps <= sinks && (g[a].primary.Some? ==> g[a].primary.value in sinks)
  }

  /** The sources at the open end of a flow, by name, and the default one among them. */
  datatype Exits<A> = Exits(named: map<string, A>, default: Option<A>)

  function NoExits<A>(): Exits<A> {
    Exits(map[], None)
  }

  /** A route of `then`: the name of an exit, and what it is connected to. */
  datatype NamedRoute<A(!new), B(!new)> = NamedRoute(name: string, primary: Option<Flow<A, B>>, taps: seq<Flow<A, B>>)

  class Flow<A(==,!new), B(==,!new)> {
    var entrySink: Option<B>
    var exits: Exits<A>
    const pipes: Pipes<A, B>
    var sources: set<A>
    var sinks: set<B>

    /** `from_connectable`: a node, sink or source with all its endpoints, and nothing connected yet. */
    constructor (entrySink: Option<B>, exits: Exits<A>, sinks: set<B>)
      ensures Valid() && fresh(pipes)
      ensures Value() == FlowValue(entrySink, exits, map[], exits.named.Values, sinks)
    {
      this.entrySink, this.exits, this.sources, this.sinks := entrySink, exits, exits.named.Values, sinks;
      pipes := new Pipes();
    }

    ghost predicate Valid()
      reads this, pipes
    {
      pipes.Valid() && WellFormed(pipes.targets) && Closed(pipes.targets, sources, sinks)
    }

    ghost function Value(): FlowValue<A, B>
      reads this, pipes
    {
      FlowValue(entrySink, exits, pipes.targets, sources, sinks)
    }

    method Connect(source: A, primary: Option<B>, taps: set<B>) returns (ok: bool)
      requires Valid()
      modifies this`sources, this`sinks, pipes
      ensures Valid()
      ensures ok <==> Wiring.Connect(old(pipes.targets), source, Targets(primary, taps)).Some?
      ensures ok ==> Some(pipes.targets) == Wiring.Connect(old(pipes.targets), source, Targets(primary, taps))
      ensures !ok ==> pipes.targets == old(pipes.targets)
      ensures sources == old(sources) + if ok then {source} else {}
      ensures sinks == old(sinks) + if ok then taps + (if primary.Some? then {primary.value} else {}) else {}
    {
      ok := pipes.Connect(source, primary, taps);
      if ok {
        sources := sources + {source};
        if primary.Some? {
          sinks := sinks + {primary.value};
        }
        sinks := sinks + taps;
      }
    }

    /** On a failed merge the sets stay as they were, though the pipes may already reach beyond them. */
    method Absorb(target: Flow<A, B>) returns (ok: bool)
      requires Valid() && target.Valid()
      modifies this`sources, this`sinks, pipes
      ensures ok <==> Merge(old(pipes.targets), old(target.pipes.targets)).Some?
      ensures ok ==> Valid()
      ensures ok ==> Some(pipes.targets) == Merge(old(pipes.targets), old(target.pipes.targets))
      ensures ok ==> sources == old(sources + target.sources) && sinks == old(sinks + target.sinks)
      ensures Absorbed(old(Value()), old(target.Value())) == if ok then Some(Value()) else None
      ensures !ok ==> sources == old(sources) && sinks == old(sinks)
      ensures pipes.Valid() && WellFormed(pipes.targets)
      ensures Closed(pipes.targets, old(sources + target.sources), old(sinks + target.sinks))
    {
      ok := pipes.Merge(target.pipes);
      if ok {
        sources, sinks := sources + target.sources, sinks + target.sinks;
      }
    }

    /** One flow after the other. */
    method AbsorbAll(flows: seq<Flow<A, B>>, ghost values: seq<FlowValue<A, B>>) returns (ok: bool)
      requires Valid() && Hold(flows, values, this)
      modifies this`sources, this`sinks, pipes
      ensures ok ==> Valid()
      ensures AbsorbedAll(old(Value()), values) == if ok then Some(Value()) else None
    {
      ok := true;
      ghost var v := Value();
      for i := 0 to |flows|
        invariant Valid() && Hold(flows, values, this)
        invariant AbsorbedAll(v, values[..i]) == Some(Value())
      {
        assert values[..i + 1][..i] == values[..i];
        ok := Absorb(flows[i]);
        if !ok {
          AbsorbStops(v, values, i);
          return;
        }
      }
      assert values[..|flows|] == values;
    }

    /**
     Nothing is connected if a target has no default entry; otherwise the source is connected to the
     entries first, and the primary and then the taps are absorbed. `last` are the primary's exits.
     */
    method ConnectTargets(source: A, primary: Option<Flow<A, B>>, taps: seq<Flow<A, B>>,
                          ghost first: seq<FlowValue<A, B>>, ghost rest: seq<FlowValue<A, B>>)
      returns (ok: bool, last: Exits<A>)
      requires Valid() && Hold(if primary.Some? then [primary.value] else [], first, this) && Hold(taps, rest, this)
      modifies this`sources, this`sinks, pipes
      ensures ok ==> Valid()
      ensures ConnectedTo(old(Value()), source, first, rest) == if ok then Some(Value().(exits := last)) else None
    {
      last := NoExits();
      var primaries := if primary.Some? then [primary.value] else [];
      if exists f :: f in primaries + taps && f.entrySink.None? {
        SomeEntryMissing(primaries + taps, first + rest);
        ok := false;
        return;
      }
      EntriesAre(primaries + taps, first + rest);
      var primarySink := if primary.Some? then primary.value.entrySink else None;
      var tapSinks := set f | f in taps :: f.entrySink.value;
      TapEntriesAre(taps, rest);
      ok := Connect(source, primarySink, tapSinks);
      if !ok {
        return;
      }
      ok := AbsorbAll(primaries + taps, first + rest);
      if ok && primary.Some? {
        last := primary.value.exits;
      }
    }

    /**
     `then` on the default exit, with targets that are flows already. It raises, and changes nothing, without
     a target or without an exit; a raise further on leaves the exits as they were.
     */
    method Then(primary: Option<Flow<A, B>>, taps: seq<Flow<A, B>>, ghost first: seq<FlowValue<A, B>>,
                ghost rest: seq<FlowValue<A, B>>)
      returns (ok: bool)
      requires Valid() && Hold(if primary.Some? then [primary.value] else [], first, this) && Hold(taps, rest, this)
      modifies this`exits, this`sources, this`sinks, pipes
      ensures ok ==> Valid()
      ensures Continued(old(Value()), first, rest) == if ok then Some(Value()) else None
      ensures old(exits.default).None? || (primary.None? && taps == []) ==> !ok && Value() == old(Value())
      ensures !ok ==> exits == old(exits)
    {
      if primary.None? && |taps| == 0 {
        return false;
      }
      if exits.default.None? {
        return false;
      }
      var last;
      ok, last := ConnectTargets(exits.default.value, primary, taps, first, rest);
      if ok {
        exits := last;
      }
    }

    /** `then` on named exits: every route is connected in turn, and then the flow has no exit left. */
    method ThenRoutes(routes: seq<NamedRoute<A, B>>, ghost values: seq<RouteValue<A, B>>) returns (ok: bool)
      requires Valid() && HoldRoutes(routes, values, this)
      modifies this`exits, this`sources, this`sinks, pipes
      ensures ok ==> Valid()
      ensures Routed(old(Value()), values) == if ok then Some(Value()) else None
      ensures !ok ==> exits == old(exits)
    {
      hide OneRouted;
      hide Closed;
      hide WellFormed;
      ok := true;
      ghost var v := Value();
      for i := 0 to |routes|
        invariant Valid() && HoldRoutes(routes, values, this) && exits == v.exits
        invariant AllRouted(v, values[..i]) == Some(Value())
      {
        hide AllRouted;
        OneMoreRouted(v, values, i);
        ok := ConnectRoute(routes[i], values[i]);
        if !ok {
          RoutingStops(v, values, i);
          return;
        }
      }
      assert values[..|routes|] == values;
      exits := NoExits();
    }

    method ConnectRoute(route: NamedRoute<A, B>, ghost value: RouteValue<A, B>) returns (ok: bool)
      requires Valid() && HoldRoute(route, value, this)
      modifies this`sources, this`sinks, pipes
      ensures ok ==> Valid()
      ensures OneRouted(old(Value()), value) == if ok then Some(Value()) else None
    {
      if route.name !in exits.named {
        return false;
      }
      var last;
      ok, last := ConnectTargets(exits.named[route.name], route.primary, route.taps, value.first, value.rest);
    }
  }

  /** What a flow consists of at one moment. */
  datatype FlowValue<A(==), B(==)> = FlowValue(entry: Option<B>, exits: Exits<A>, graph: Graph<A, B>, sources: set<A>,
                                               sinks: set<B>)

  /** The flows are in order, share nothing with `other`, and have these values. */
  ghost predicate Hold<A(!new), B(!new)>(flows: seq<Flow<A, B>>, values: seq<FlowValue<A, B>>, other: Flow<A, B>)
    reads flows, set f | f in flows :: f.pipes
  {
    && |values| == |flows|
    && forall i :: 0 <= i < |flows| ==>
         flows[i].Valid() && flows[i] != other && flows[i].pipes != other.pipes && flows[i].Value() == values[i]
  }

  ghost function Absorbed<A(!new), B>(v: FlowValue<A, B>, w: FlowValue<A, B>): Option<FlowValue<A, B>> {
    var g := Merge(v.graph, w.graph);
    if g.None? then None else Some(v.(graph := g.value, sources := v.sources + w.sources, sinks := v.sinks + w.sinks))
  }

  ghost function AbsorbedAll<A(!new), B>(v: FlowValue<A, B>, ws: seq<FlowValue<A, B>>): Option<FlowValue<A, B>> {
    if ws == [] then Some(v)
    else
      var before := AbsorbedAll(v, ws[..|ws| - 1]);
      if before.None? then None else Absorbed(before.value, ws[|ws| - 1])
  }

  lemma {:induction false} AbsorbStops<A(!new), B>(v: FlowValue<A, B>, ws: seq<FlowValue<A, B>>, i: nat)
    requires i < |ws| && AbsorbedAll(v, ws[..i + 1]).None?
    ensures AbsorbedAll(v, ws).None?
    decreases |ws|
  {
    if i + 1 == |ws| {
      assert ws[..i + 1] == ws;
    } else {
      assert ws[..|ws| - 1][..i + 1] == ws[..i + 1];
      AbsorbStops(v, ws[..|ws| - 1], i);
    }
  }

  ghost predicate HaveEntries<A, B>(ws: seq<FlowValue<A, B>>) {
    forall i :: 0 <= i < |ws| ==> ws[i].entry.Some?
  }

  ghost function Entries<A, B>(ws: seq<FlowValue<A, B>>): set<B>
    requires HaveEntries(ws)
  {
    set i | 0 <= i < |ws| :: ws[i].entry.value
  }

  /** A flow after `source` has been connected to at most one primary, in `first`, and the taps in `rest`. */
  ghost function ConnectedTo<A(!new), B>(v: FlowValue<A, B>, source: A, first: seq<FlowValue<A, B>>,
                                         rest: seq<FlowValue<A, B>>): Option<FlowValue<A, B>> {
    if !HaveEntries(first + rest) then None
    else
      assert HaveEntries(rest) by { assert forall i :: 0 <= i < |rest| ==> rest[i] == (first + rest)[|first| + i]; }
      var primary := if first == [] then None else first[0].entry;
      var g := Wiring.Connect(v.graph, source, Targets(primary, Entries(rest)));
      if g.None? then None
      else
        var sinks := Entries(rest) + if primary.Some? then {primary.value} else {};
        var r := AbsorbedAll(v.(graph := g.value, sources := v.sources + {source}, sinks := v.sinks + sinks),
                             first + rest);
        if r.None? then None else Some(r.value.(exits := if first == [] then NoExits() else first[0].exits))
  }

  /** The flow after its default exit has been continued. */
  ghost function Continued<A(!new), B>(v: FlowValue<A, B>, first: seq<FlowValue<A, B>>,
                                       rest: seq<FlowValue<A, B>>): Option<FlowValue<A, B>> {
    if first + rest == [] || v.exits.default.None? then None else ConnectedTo(v, v.exits.default.value, first, rest)
  }

  /** The flows of a route at one moment. */
  datatype RouteValue<A(==), B(==)> = RouteValue(name: string, first: seq<FlowValue<A, B>>, rest: seq<FlowValue<A, B>>)

  function PrimaryOf<A(!new), B(!new)>(route: NamedRoute<A, B>): seq<Flow<A, B>> {
    if route.primary.Some? then [route.primary.value] else []
  }

  ghost function FlowsOf<A(!new), B(!new)>(route: NamedRoute<A, B>): set<Flow<A, B>> {
    set f | f in PrimaryOf(route) + route.taps
  }

  ghost function AllFlows<A(!new), B(!new)>(routes: seq<NamedRoute<A, B>>): (r: set<Flow<A, B>>)
    ensures forall i :: 0 <= i < |routes| ==> FlowsOf(routes[i]) <= r
  {
    set i, f | 0 <= i < |routes| && f in FlowsOf(routes[i]) :: f
  }

  ghost predicate HoldRoute<A(!new), B(!new)>(route: NamedRoute<A, B>, value: RouteValue<A, B>, other: Flow<A, B>)
    reads FlowsOf(route), set f | f in FlowsOf(route) :: f.pipes
  {
    value.name == route.name && Hold(PrimaryOf(route), value.first, other) && Hold(route.taps, value.rest, other)
  }

  ghost predicate HoldRoutes<A(!new), B(!new)>(routes: seq<NamedRoute<A, B>>, values: seq<RouteValue<A, B>>,
                                               other: Flow<A, B>)
    reads AllFlows(routes), set f | f in AllFlows(routes) :: f.pipes
  {
    |values| == |routes| && forall i :: 0 <= i < |routes| ==> HoldRoute(routes[i], values[i], other)
  }

  /** The flow after one named exit has been connected; the exits are as they were. */
  ghost function OneRouted<A(!new), B>(v: FlowValue<A, B>, route: RouteValue<A, B>): Option<FlowValue<A, B>> {
    if route.name !in v.exits.named then None
    else
      var r := ConnectedTo(v, v.exits.named[route.name], route.first, route.rest);
      if r.None? then None else Some(r.value.(exits := v.exits))
  }

  ghost function AllRouted<A(!new), B>(v: FlowValue<A, B>, routes: seq<RouteValue<A, B>>): Option<FlowValue<A, B>> {
    if routes == [] then Some(v)
    else
      var before := AllRouted(v, routes[..|routes| - 1]);
      if before.None? then None else OneRouted(before.value, routes[|routes| - 1])
  }

  ghost function Routed<A(!new), B>(v: FlowValue<A, B>, routes: seq<RouteValue<A, B>>): Option<FlowValue<A, B>> {
    var r := AllRouted(v, routes);
    if r.None? then None else Some(r.value.(exits := NoExits()))
  }

  lemma OneMoreRouted<A(!new), B(!new)>(v: FlowValue<A, B>, routes: seq<RouteValue<A, B>>, i: nat)
    requires i < |routes| && AllRouted(v, routes[..i]).Some?
    ensures AllRouted(v, routes[..i + 1]) == OneRouted(AllRouted(v, routes[..i]).value, routes[i])
  {
    assert routes[..i + 1][..i] == routes[..i];
  }

  lemma {:induction false} RoutingStops<A(!new), B>(v: FlowValue<A, B>, routes: seq<RouteValue<A, B>>, i: nat)
    requires i < |routes| && AllRouted(v, routes[..i + 1]).None?
    ensures AllRouted(v, routes).None?
    decreases |routes|
  {
    if i + 1 == |routes| {
      assert routes[..i + 1] == routes;
    } else {
      assert routes[..|routes| - 1][..i + 1] == routes[..i + 1];
      RoutingStops(v, routes[..|routes| - 1], i);
    }
  }

  lemma SomeEntryMissing<A(!new), B(!new)>(flows: seq<Flow<A, B>>, values: seq<FlowValue<A, B>>)
    requires |values| == |flows| && forall i :: 0 <= i < |flows| ==> flows[i].Value() == values[i]
    requires exists f :: f in flows && f.entrySink.None?
    ensures !HaveEntries(values)
  {
    var f :| f in flows && f.entrySink.None?;
    var i :| 0 <= i < |flows| && flows[i] == f;
    assert values[i].entry.None?;
  }

  lemma EntriesAre<A(!new), B(!new)>(flows: seq<Flow<A, B>>, values: seq<FlowValue<A, B>>)
    requires |values| == |flows| && forall i :: 0 <= i < |flows| ==> flows[i].Value() == values[i]
    requires forall f :: f in flows ==> f.entrySink.Some?
    ensures HaveEntries(values)
  {
  }

  lemma TapEntriesAre<A(!new), B(!new)>(flows: seq<Flow<A, B>>, values: seq<FlowValue<A, B>>)
    requires |values| == |flows| && forall i :: 0 <= i < |flows| ==> flows[i].Value() == values[i]
    requires forall f :: f in flows ==> f.entrySink.Some?
    ensures HaveEntries(values) && Entries(values) == set f | f in flows :: f.entrySink.value
  {
    var tapSinks := set f | f in flows :: f.entrySink.value;
    forall b ensures b in Entries(values) <==> b in tapSinks {
      if b in Entries(values) {
        var i :| 0 <= i < |values| && values[i].entry.value == b;
        assert flows[i] in flows && flows[i].entrySink.value == b;
      }
      if b in tapSinks {
        var f :| f in flows && f.entrySink.value == b;
        var i :| 0 <= i < |flows| && flows[i] == f;
        assert values[i].entry.value == b;
      }
    }
  }

  class Piping<A(==,!new), B(==,!new)> {
    const pipes: Pipes<A, B>
    var sources: set<A>
    var sinks: set<B>

    constructor ()
      ensures Valid() && fresh(pipes) && pipes.targets == map[] && sources == {} && sinks == {}
    {
      sources, sinks := {}, {};
      pipes := new Pipes();
    }

    ghost predicate Valid()
      reads this, pipes
    {
      pipes.Valid() && WellFormed(pipes.targets) && Closed(pipes.targets, sources, sinks)
    }

    method AddFlow(flow: Flow<A, B>) returns (ok: bool)
      requires Valid() && flow.Valid()
      modifies this, pipes
      ensures ok <==> Merge(old(pipes.targets), old(flow.pipes.targets)).Some?
      ensures ok ==> Valid() && Some(pipes.targets) == Merge(old(pipes.targets), old(flow.pipes.targets))
      ensures ok ==> sources == old(sources + flow.sources) && sinks == old(sinks + flow.sinks)
      ensures !ok ==> sources == old(sources) && sinks == old(sinks) && pipes.Valid()
    {
      ok := pipes.Merge(flow.pipes);
      if ok {
        sources, sinks := sources + flow.sources, sinks + flow.sinks;
      }
    }
  }

  /** A merge that fails can leave part of the other graph in place: the source that comes before the conflict. */
  method FailedMergeLeavesPart() returns (pipes: Pipes<int, int>, other: Pipes<int, int>, before: Graph<int, int>)
    ensures Merge(before, other.targets).None?
    ensures before == map[1 := Targets(Some(10), {})]
    ensures other.targets == map[0 := Targets(Some(10), {}), 1 := Targets(Some(11), {})]
    ensures pipes.targets == map[0 := Targets(Some(10), {}), 1 := Targets(Some(10), {})]
  {
    pipes := new Pipes();
    other := new Pipes();
    var ok := pipes.Connect(1, Some(10), {});
    ok := other.Connect(0, Some(10), {});
    ok := other.Connect(1, Some(11), {});
    before := pipes.targets;
    assert other.keys == [0, 1];
    hide StopsAt;
    assert !Joinable(before[1], other.targets[1]);
    ok := pipes.Merge(other);
    ghost var n :| StopsAt(before, other.targets, other.keys, n, pipes.targets);
    OnlyZeroMerged(n, pipes.targets);
  }

  lemma OnlyZeroMerged(n: int, r: Graph<int, int>)
    requires StopsAt(map[1 := Targets(Some(10), {})], map[0 := Targets(Some(10), {}), 1 := Targets(Some(11), {})],
                     [0, 1], n, r)
    ensures r == map[0 := Targets(Some(10), {}), 1 := Targets(Some(10), {})]
  {
    assert n == 1 && [0, 1][..1] == [0];
  }
}
