/**
 What continuing a flow comes to, in terms of declarations: connecting and absorbing flows succeeds iff all that
 was declared in any of them is consistent as a whole, and the graph is then the union of it all.
 */
module FlowUnions {
  import opened Options
  import opened Wiring
  import opened WiringRuntime

  /** The declarations are consistent and the graph is their union. */
  ghost predicate Stands<A(!new), B(!new)>(ds: seq<Declaration<A, B>>, g: Graph<A, B>) {
    Consistent(ds) && Builds(ds, g)
  }

  lemma UnionOfTwo<A, B>(ds: seq<Declaration<A, B>>, es: seq<Declaration<A, B>>, a: A, b: B)
    ensures Declared(ds + es, a) <==> Declared(ds, a) || Declared(es, a)
    ensures IsPrimary(ds + es, a, b) <==> IsPrimary(ds, a, b) || IsPrimary(es, a, b)
    ensures IsTap(ds + es, a, b) <==> IsTap(ds, a, b) || IsTap(es, a, b)
  {
    assert forall d :: d in ds + es <==> d in ds || d in es;
  }

  lemma ConsistentParts<A(!new), B(!new)>(ds: seq<Declaration<A, B>>, es: seq<Declaration<A, B>>)
    requires Consistent(ds + es)
    ensures Consistent(ds) && Consistent(es)
  {
    forall a, b
      ensures IsPrimary(ds, a, b) || IsPrimary(es, a, b) ==> IsPrimary(ds + es, a, b)
      ensures IsTap(ds, a, b) || IsTap(es, a, b) ==> IsTap(ds + es, a, b)
    {
      UnionOfTwo(ds, es, a, b);
    }
    assert forall d :: d in ds || d in es ==> d in ds + es;
  }

  lemma MergeBuilds<A(!new), B(!new)>(ds: seq<Declaration<A, B>>, g: Graph<A, B>, es: seq<Declaration<A, B>>,
                                      h: Graph<A, B>)
    requires Builds(ds, g) && Builds(es, h) && Merge(g, h).Some?
    requires forall a, b, c :: IsPrimary(ds + es, a, b) && IsPrimary(ds + es, a, c) ==> b == c
    ensures Builds(ds + es, Merge(g, h).value)
  {
    var m := Merge(g, h).value;
    forall a ensures a in m <==> Declared(ds + es, a) {
      assert forall d :: d in ds + es <==> d in ds || d in es;
      assert a in g <==> Declared(ds, a);
      assert a in h <==> Declared(es, a);
    }
    forall a, b
      ensures IsPrimary(ds + es, a, b) <==> a in m && m[a].primary == Some(b)
      ensures IsTap(ds + es, a, b) <==> a in m && b in m[a].taps
    {
      UnionOfTwo(ds, es, a, b);
    }
  }

  lemma MergedIsConsistent<A(!new), B(!new)>(ds: seq<Declaration<A, B>>, g: Graph<A, B>, es: seq<Declaration<A, B>>,
                                             h: Graph<A, B>)
    requires Stands(ds, g) && Stands(es, h) && Merge(g, h).Some?
    ensures Consistent(ds + es)
  {
    assert forall d :: d in ds + es <==> d in ds || d in es;
    forall a, b, c | IsPrimary(ds + es, a, b) && IsPrimary(ds + es, a, c) ensures b == c {
      UnionOfTwo(ds, es, a, b);
      UnionOfTwo(ds, es, a, c);
    }
    forall a, b | IsPrimary(ds + es, a, b) ensures !IsTap(ds + es, a, b) {
      UnionOfTwo(ds, es, a, b);
      if a in g && a in h {
        assert Joinable(g[a], h[a]);
      }
    }
  }

  lemma ConflictIsInconsistent<A(!new), B(!new)>(ds: seq<Declaration<A, B>>, g: Graph<A, B>,
                                                 es: seq<Declaration<A, B>>, h: Graph<A, B>)
    requires Stands(ds, g) && Stands(es, h) && Merge(g, h).None?
    ensures !Consistent(ds + es)
  {
    var a :| a in g && a in h && !Joinable(g[a], h[a]);
    if SamePrimary(g[a], h[a]) {
      var b := MergeTargets(g[a], h[a]).primary.value;
      UnionOfTwo(ds, es, a, b);
      assert IsPrimary(ds + es, a, b) && IsTap(ds + es, a, b);
    } else {
      UnionOfTwo(ds, es, a, g[a].primary.value);
      UnionOfTwo(ds, es, a, h[a].primary.value);
    }
  }

  /** Main theorem: two graphs merge iff the declarations of both are consistent together, into their union. */
  lemma MergeIff<A(!new), B(!new)>(ds: seq<Declaration<A, B>>, g: Graph<A, B>, es: seq<Declaration<A, B>>,
                                   h: Graph<A, B>)
    requires Stands(ds, g) && Stands(es, h)
    ensures Merge(g, h).Some? <==> Consistent(ds + es)
    ensures Merge(g, h).Some? ==> Builds(ds + es, Merge(g, h).value)
  {
    hide Merge;
    hide Builds;
    if Merge(g, h).Some? {
      MergedIsConsistent(ds, g, es, h);
      MergeBuilds(ds, g, es, h);
    } else {
      ConflictIsInconsistent(ds, g, es, h);
    }
  }

  /** Every graph that a flow can have is built by the declarations of its own sources. */
  lemma {:induction false} Declares<A(!new), B(!new)>(g: Graph<A, B>) returns (ds: seq<Declaration<A, B>>)
    requires WellFormed(g)
    ensures Stands(ds, g)
    decreases |g|
  {
    ds := [];
    if g != map[] {
      var a :| a in g;
      var rest := g - {a};
      var before := Declares(rest);
      ds := before + [Declaration(a, g[a])];
      assert rest[a := g[a]] == g;
      assert Wiring.Connect(rest, a, g[a]) == Some(g);
      ConsistentIffConnects(before, Declaration(a, g[a]), rest);
      ConnectBuilds(before, Declaration(a, g[a]), rest);
    }
  }

  function Concat<T>(parts: seq<seq<T>>): seq<T> {
    if parts == [] then [] else Concat(parts[..|parts| - 1]) + parts[|parts| - 1]
  }

  /** The flows' graphs are built by these declarations. */
  ghost predicate AllStand<A(!new), B(!new)>(ws: seq<FlowValue<A, B>>, dss: seq<seq<Declaration<A, B>>>) {
    |dss| == |ws| && forall i :: 0 <= i < |ws| ==> Stands(dss[i], ws[i].graph)
  }

  /** Everything of `v` and of the flows `ws`, and the exits and the entry of `v`. */
  ghost predicate HoldsAll<A(!new), B(!new)>(r: FlowValue<A, B>, v: FlowValue<A, B>, ws: seq<FlowValue<A, B>>) {
    && r.entry == v.entry && r.exits == v.exits
    && (forall a :: a in r.sources <==> a in v.sources || exists i :: 0 <= i < |ws| && a in ws[i].sources)
    && (forall b :: b in r.sinks <==> b in v.sinks || exists i :: 0 <= i < |ws| && b in ws[i].sinks)
  }

  lemma HoldsOneMore<A(!new), B(!new)>(r: FlowValue<A, B>, v: FlowValue<A, B>, ws: seq<FlowValue<A, B>>,
                                       r1: FlowValue<A, B>)
    requires ws != [] && HoldsAll(r, v, ws[..|ws| - 1]) && r1.entry == r.entry && r1.exits == r.exits
    requires r1.sources == r.sources + ws[|ws| - 1].sources && r1.sinks == r.sinks + ws[|ws| - 1].sinks
    ensures HoldsAll(r1, v, ws)
  {
    var n := |ws| - 1;
    forall a
      ensures a in r1.sources <==> a in v.sources || exists i :: 0 <= i < |ws| && a in ws[i].sources
    {
      if i :| 0 <= i < n && a in ws[i].sources {
        assert a in ws[..n][i].sources;
      }
    }
    forall b
      ensures b in r1.sinks <==> b in v.sinks || exists i :: 0 <= i < |ws| && b in ws[i].sinks
    {
      if i :| 0 <= i < n && b in ws[i].sinks {
        assert b in ws[..n][i].sinks;
      }
    }
  }

  lemma {:induction false} AbsorbedIff<A(!new), B(!new)>(
    v: FlowValue<A, B>, ds: seq<Declaration<A, B>>, ws: seq<FlowValue<A, B>>, dss: seq<seq<Declaration<A, B>>>)
    requires Stands(ds, v.graph) && AllStand(ws, dss)
    ensures var r := AbsorbedAll(v, ws);
            && (r.Some? <==> Consistent(ds + Concat(dss)))
            && (r.Some? ==> Builds(ds + Concat(dss), r.value.graph) && HoldsAll(r.value, v, ws))
    decreases |ws|
  {
    if ws == [] {
      assert ds + Concat(dss) == ds;
    } else {
      hide Merge;
      hide Builds;
      hide Consistent;
      hide HoldsAll;
      var n := |ws| - 1;
      AbsorbedIff(v, ds, ws[..n], dss[..n]);
      var before, all := AbsorbedAll(v, ws[..n]), ds + Concat(dss[..n]);
      assert ds + Concat(dss) == all + dss[n];
      if before.Some? {
        MergeIff(all, before.value.graph, dss[n], ws[n].graph);
        if AbsorbedAll(v, ws).Some? {
          HoldsOneMore(before.value, v, ws, AbsorbedAll(v, ws).value);
        }
      } else if Consistent(ds + Concat(dss)) {
        ConsistentParts(all, dss[n]);
      }
    }
  }

  /** A flow is connected to targets that all have an entry, and to at least one. */
  ghost predicate Connectable<A, B>(first: seq<FlowValue<A, B>>, rest: seq<FlowValue<A, B>>) {
    && first + rest != []
    && (forall w :: w in first ==> w.entry.Some?)
    && (forall w :: w in rest ==> w.entry.Some?)
  }

  /** The declaration that connects a source to the entry of the primary, if any, and to those of the taps. */
  ghost function Connection<A, B>(source: A, first: seq<FlowValue<A, B>>,
                                  rest: seq<FlowValue<A, B>>): Declaration<A, B>
    requires Connectable(first, rest)
  {
    Declaration(source, Targets(if first == [] then None else first[0].entry,
                                set i | 0 <= i < |rest| :: rest[i].entry.value))
  }

  /** Everything that is declared once the source is connected and the targets are absorbed. */
  ghost function Together<A, B>(ds: seq<Declaration<A, B>>, source: A, first: seq<FlowValue<A, B>>,
                                rest: seq<FlowValue<A, B>>,
                                dss: seq<seq<Declaration<A, B>>>): seq<Declaration<A, B>>
    requires Connectable(first, rest)
  {
    ds + [Connection(source, first, rest)] + Concat(dss)
  }

  /** `v` with the source, and the entries of the targets, among its endpoints. */
  ghost function WithEnds<A, B>(v: FlowValue<A, B>, source: A, first: seq<FlowValue<A, B>>,
                                rest: seq<FlowValue<A, B>>): FlowValue<A, B>
    requires Connectable(first, rest)
  {
    var t := Connection(source, first, rest).targets;
    v.(sources := v.sources + {source}, sinks := v.sinks + t.taps + if t.primary.Some? then {t.primary.value} else {})
  }

  lemma EntriesIff<A(!new), B(!new)>(first: seq<FlowValue<A, B>>, rest: seq<FlowValue<A, B>>)
    ensures HaveEntries(first + rest) && first + rest != [] <==> Connectable(first, rest)
  {
    if HaveEntries(first + rest) && first + rest != [] {
      forall w | w in first ensures w.entry.Some? {
        var i :| 0 <= i < |first| && first[i] == w;
        assert (first + rest)[i] == w;
      }
      forall w | w in rest ensures w.entry.Some? {
        var i :| 0 <= i < |rest| && rest[i] == w;
        assert (first + rest)[|first| + i] == w;
      }
    }
  }

  lemma ConnectStands<A(!new), B(!new)>(ds: seq<Declaration<A, B>>, g: Graph<A, B>, d: Declaration<A, B>)
    requires Stands(ds, g)
    ensures var r := Wiring.Connect(g, d.source, d.targets);
            && (r.Some? <==> Consistent(ds + [d])) && (r.Some? ==> Stands(ds + [d], r.value))
  {
    ConsistentIffConnects(ds, d, g);
    if Wiring.Connect(g, d.source, d.targets).Some? {
      ConnectBuilds(ds, d, g);
    }
  }

  /**
   Main theorem: connecting a source of a flow to at most one primary and to taps succeeds iff there is a target,
   every target has an entry, and all that is declared in any of the flows is consistent with the connection. The
   flow then holds the graphs and the endpoints of all of them, taps included, and has the exits of the primary.
   */
  lemma ConnectedIff<A(!new), B(!new)>(v: FlowValue<A, B>, ds: seq<Declaration<A, B>>, source: A,
                                       first: seq<FlowValue<A, B>>, rest: seq<FlowValue<A, B>>,
                                       dss: seq<seq<Declaration<A, B>>>)
    requires |first| <= 1 && Stands(ds, v.graph) && AllStand(first + rest, dss)
    ensures var r := ConnectedTo(v, source, first, rest);
            && (r.Some? <==> Connectable(first, rest) && Consistent(Together(ds, source, first, rest, dss)))
            && (r.Some? ==>
                  && Stands(Together(ds, source, first, rest, dss), r.value.graph)
                  && r.value.exits == (if first == [] then NoExits() else first[0].exits)
                  && HoldsAll(r.value.(exits := v.exits), WithEnds(v, source, first, rest), first + rest))
  {
    if Connectable(first, rest) {
      ConnectedToTargets(v, ds, source, first, rest, dss);
    } else {
      NoTarget(v, source, first, rest);
    }
    hide *;
  }

  lemma ConnectedToTargets<A(!new), B(!new)>(v: FlowValue<A, B>, ds: seq<Declaration<A, B>>, source: A,
                                             first: seq<FlowValue<A, B>>, rest: seq<FlowValue<A, B>>,
                                             dss: seq<seq<Declaration<A, B>>>)
    requires |first| <= 1 && Stands(ds, v.graph) && AllStand(first + rest, dss) && Connectable(first, rest)
    ensures var r := ConnectedTo(v, source, first, rest);
            && (r.Some? <==> Consistent(Together(ds, source, first, rest, dss)))
            && (r.Some? ==>
                  && Stands(Together(ds, source, first, rest, dss), r.value.graph)
                  && r.value.exits == (if first == [] then NoExits() else first[0].exits)
                  && HoldsAll(r.value.(exits := v.exits), WithEnds(v, source, first, rest), first + rest))
  {
    hide Consistent;
    hide Builds;
    hide HoldsAll;
    hide AbsorbedAll;
    hide Wiring.Connect;
    hide ConnectedTo;
    var d := Connection(source, first, rest);
    ConnectStands(ds, v.graph, d);
    var g := Wiring.Connect(v.graph, source, d.targets);
    if g.Some? {
      var v1 := WithEnds(v, source, first, rest).(graph := g.value);
      AbsorbedIff(v1, ds + [d], first + rest, dss);
      SameEnds(v, source, first, rest, g.value);
      var r := AbsorbedAll(v1, first + rest);
      if r.Some? {
        EndsOnly(r.value, v1, WithEnds(v, source, first, rest), first + rest,
                 if first == [] then NoExits() else first[0].exits);
      }
    } else {
      Unconnected(v, source, first, rest);
      if Consistent(ds + [d] + Concat(dss)) {
        ConsistentParts(ds + [d], Concat(dss));
      }
    }
  }

  /** The exits and the graph of the flow that absorbs play no part. */
  lemma EndsOnly<A(!new), B(!new)>(r: FlowValue<A, B>, v1: FlowValue<A, B>, w: FlowValue<A, B>,
                                   ws: seq<FlowValue<A, B>>, exits: Exits<A>)
    requires HoldsAll(r, v1, ws) && v1 == w.(graph := v1.graph)
    ensures HoldsAll(r.(exits := exits).(exits := w.exits), w, ws)
  {
  }

  lemma Unconnected<A(!new), B(!new)>(v: FlowValue<A, B>, source: A, first: seq<FlowValue<A, B>>,
                                      rest: seq<FlowValue<A, B>>)
    requires Connectable(first, rest)
    requires Wiring.Connect(v.graph, source, Connection(source, first, rest).targets) == None
    ensures ConnectedTo(v, source, first, rest).None?
  {
    EntriesIff(first, rest);
    EntriesAgree(rest);
  }

  lemma EntriesAgree<A(!new), B(!new)>(rest: seq<FlowValue<A, B>>)
    requires forall w :: w in rest ==> w.entry.Some?
    ensures HaveEntries(rest) && Entries(rest) == set i | 0 <= i < |rest| :: rest[i].entry.value
  {
  }

  lemma SameEnds<A(!new), B(!new)>(v: FlowValue<A, B>, source: A, first: seq<FlowValue<A, B>>,
                                   rest: seq<FlowValue<A, B>>, g: Graph<A, B>)
    requires Connectable(first, rest) && HaveEntries(rest)
    requires Wiring.Connect(v.graph, source, Connection(source, first, rest).targets) == Some(g)
    ensures var r := AbsorbedAll(WithEnds(v, source, first, rest).(graph := g), first + rest);
            ConnectedTo(v, source, first, rest)
            == if r.None? then None else Some(r.value.(exits := if first == [] then NoExits() else first[0].exits))
  {
    EntriesIff(first, rest);
    EntriesAgree(rest);
    var primary := if first == [] then None else first[0].entry;
    var sinks := Entries(rest) + if primary.Some? then {primary.value} else {};
    assert v.sinks + sinks == WithEnds(v, source, first, rest).sinks;
    assert WithEnds(v, source, first, rest).(graph := g)
           == v.(graph := g, sources := v.sources + {source}, sinks := v.sinks + sinks);
  }

  lemma NoTarget<A(!new), B(!new)>(v: FlowValue<A, B>, source: A, first: seq<FlowValue<A, B>>,
                                   rest: seq<FlowValue<A, B>>)
    requires !Connectable(first, rest)
    ensures ConnectedTo(v, source, first, rest).None?
  {
    EntriesIff(first, rest);
    if HaveEntries(first + rest) {
      assert first == [] && rest == [];
      assert Entries(rest) == {};
    }
  }

  /** The same for `then` on the default exit: there must be one, and what it is connected to takes its place. */
  lemma ContinuedIff<A(!new), B(!new)>(v: FlowValue<A, B>, ds: seq<Declaration<A, B>>, first: seq<FlowValue<A, B>>,
                                       rest: seq<FlowValue<A, B>>, dss: seq<seq<Declaration<A, B>>>)
    requires |first| <= 1 && Stands(ds, v.graph) && AllStand(first + rest, dss)
    ensures var r, exit := Continued(v, first, rest), v.exits.default;
            && (r.Some? <==>
                  exit.Some? && Connectable(first, rest) && Consistent(Together(ds, exit.value, first, rest, dss)))
            && (r.Some? ==>
                  && Stands(Together(ds, exit.value, first, rest, dss), r.value.graph)
                  && r.value.exits == (if first == [] then NoExits() else first[0].exits)
                  && HoldsAll(r.value.(exits := v.exits), WithEnds(v, exit.value, first, rest), first + rest))
  {
    if v.exits.default.Some? {
      ConnectedIff(v, ds, v.exits.default.value, first, rest, dss);
    }
    hide ConnectedTo;
    hide Consistent;
    hide HoldsAll;
    hide Stands;
  }

  /******* Routes *******/

  /** The route names an exit of the flow and can be connected. */
  ghost predicate Routable<A, B>(v: FlowValue<A, B>, route: RouteValue<A, B>) {
    route.name in v.exits.named && |route.first| <= 1 && Connectable(route.first, route.rest)
  }

  ghost predicate AllRoutable<A(!new), B(!new)>(v: FlowValue<A, B>, routes: seq<RouteValue<A, B>>) {
    forall i :: 0 <= i < |routes| ==> Routable(v, routes[i])
  }

  /** Everything that is declared once the routes are connected, one after the other. */
  ghost function AllTogether<A(!new), B(!new)>(v: FlowValue<A, B>, ds: seq<Declaration<A, B>>,
                                               routes: seq<RouteValue<A, B>>,
                                               parts: seq<seq<seq<Declaration<A, B>>>>): seq<Declaration<A, B>>
    requires |parts| == |routes| && AllRoutable(v, routes)
  {
    if routes == [] then ds
    else
      var n := |routes| - 1;
      assert Routable(v, routes[n]);
      Together(AllTogether(v, ds, routes[..n], parts[..n]), v.exits.named[routes[n].name], routes[n].first,
               routes[n].rest, parts[n])
  }

  ghost predicate RoutesStand<A(!new), B(!new)>(routes: seq<RouteValue<A, B>>,
                                                parts: seq<seq<seq<Declaration<A, B>>>>) {
    && |parts| == |routes|
    && forall i :: 0 <= i < |routes| ==>
         |routes[i].first| <= 1 && AllStand(routes[i].first + routes[i].rest, parts[i])
  }

  lemma {:induction false} AllRoutedIff<A(!new), B(!new)>(v: FlowValue<A, B>, ds: seq<Declaration<A, B>>,
                                                          routes: seq<RouteValue<A, B>>,
                                                          parts: seq<seq<seq<Declaration<A, B>>>>)
    requires Stands(ds, v.graph) && RoutesStand(routes, parts)
    ensures var r := AllRouted(v, routes);
            && (r.Some? <==> AllRoutable(v, routes) && Consistent(AllTogether(v, ds, routes, parts)))
            && (r.Some? ==>
                  && Stands(AllTogether(v, ds, routes, parts), r.value.graph)
                  && r.value.exits == v.exits && r.value.entry == v.entry)
    decreases |routes|
  {
    if routes != [] {
      var n := |routes| - 1;
      AllRoutedIff(v, ds, routes[..n], parts[..n]);
      var before := AllRouted(v, routes[..n]);
      LastRoute(v, ds, routes, parts);
      if before.Some? && Routable(v, routes[n]) {
        ConnectedIff(before.value, AllTogether(v, ds, routes[..n], parts[..n]), v.exits.named[routes[n].name],
                     routes[n].first, routes[n].rest, parts[n]);
      } else if before.Some? && routes[n].name in v.exits.named {
        NoTarget(before.value, v.exits.named[routes[n].name], routes[n].first, routes[n].rest);
      }
    }
    hide *;
  }

  /** What the last route adds to the others. */
  lemma LastRoute<A(!new), B(!new)>(v: FlowValue<A, B>, ds: seq<Declaration<A, B>>, routes: seq<RouteValue<A, B>>,
                                    parts: seq<seq<seq<Declaration<A, B>>>>)
    requires routes != [] && RoutesStand(routes, parts)
    requires AllRouted(v, routes[..|routes| - 1]).Some? ==> AllRouted(v, routes[..|routes| - 1]).value.exits == v.exits
    ensures var n := |routes| - 1;
            var before, route := AllRouted(v, routes[..n]), routes[n];
            && RoutesStand(routes[..n], parts[..n])
            && (AllRoutable(v, routes) <==> AllRoutable(v, routes[..n]) && Routable(v, route))
            && (Routable(v, route) <==> route.name in v.exits.named && Connectable(route.first, route.rest))
            && |route.first| <= 1 && AllStand(route.first + route.rest, parts[n])
            && (AllRoutable(v, routes) ==>
                  var all := AllTogether(v, ds, routes[..n], parts[..n]);
                  && AllTogether(v, ds, routes, parts)
                     == Together(all, v.exits.named[route.name], route.first, route.rest, parts[n])
                  && (Consistent(AllTogether(v, ds, routes, parts)) ==> Consistent(all)))
            && AllRouted(v, routes) == if before.None? || route.name !in v.exits.named then None
              else
                var r := ConnectedTo(before.value, v.exits.named[route.name], route.first, route.rest);
                if r.None? then None else Some(r.value.(exits := v.exits))
  {
    var n := |routes| - 1;
    assert forall i :: 0 <= i < n ==> routes[..n][i] == routes[i] && parts[..n][i] == parts[i];
    if AllRoutable(v, routes) {
      assert forall i :: 0 <= i < n ==> Routable(v, routes[..n][i]);
      assert Routable(v, routes[n]);
      if Consistent(AllTogether(v, ds, routes, parts)) {
        PrefixTogether(AllTogether(v, ds, routes[..n], parts[..n]), v.exits.named[routes[n].name], routes[n].first,
                       routes[n].rest, parts[n]);
      }
    }
    hide ConnectedTo;
    hide Connectable;
    hide Consistent;
  }

  lemma PrefixTogether<A(!new), B(!new)>(ds: seq<Declaration<A, B>>, source: A, first: seq<FlowValue<A, B>>,
                                         rest: seq<FlowValue<A, B>>, dss: seq<seq<Declaration<A, B>>>)
    requires Connectable(first, rest) && Consistent(Together(ds, source, first, rest, dss))
    ensures Consistent(ds)
  {
    assert Together(ds, source, first, rest, dss) == ds + ([Connection(source, first, rest)] + Concat(dss));
    ConsistentParts(ds, [Connection(source, first, rest)] + Concat(dss));
  }

  /**
   Main theorem: `then` on named exits succeeds iff every route names an exit and can be connected and all that is
   declared in any of the flows is consistent together; the flow's graph is the union, and it has no exit left.
   */
  lemma RoutedIff<A(!new), B(!new)>(v: FlowValue<A, B>, ds: seq<Declaration<A, B>>, routes: seq<RouteValue<A, B>>,
                                    parts: seq<seq<seq<Declaration<A, B>>>>)
    requires Stands(ds, v.graph) && RoutesStand(routes, parts)
    ensures var r := Routed(v, routes);
            && (r.Some? <==> AllRoutable(v, routes) && Consistent(AllTogether(v, ds, routes, parts)))
            && (r.Some? ==>
                  && Stands(AllTogether(v, ds, routes, parts), r.value.graph)
                  && r.value.exits == Exits(map[], None) && r.value.entry == v.entry)
  {
    AllRoutedIff(v, ds, routes, parts);
    hide AllRouted;
    hide AllTogether;
    hide Consistent;
    hide Builds;
  }
}
