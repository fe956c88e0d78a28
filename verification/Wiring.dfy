/**
 The connection graph: `Pipes.connect` and `merge` are a validated join. A list of declarations is
 accepted iff it is consistent as a whole, and the graph it builds does not depend on its order.
 */
module Wiring {
  import opened Options

  datatype Targets<B(==)> = Targets(primary: Option<B>, taps: set<B>)

  type Graph<A(==), B(==)> = map<A, Targets<B>>

  predicate Nonempty<B(==)>(t: Targets<B>) {
    t.primary.Some? || t.taps != {}
  }

  /** No sink is both primary and tap. */
  predicate ValidRoles<B(==)>(t: Targets<B>) {
    t.primary.Some? ==> t.primary.value !in t.taps
  }

  predicate SamePrimary<B(==)>(t: Targets<B>, u: Targets<B>) {
    t.primary.Some? && u.primary.Some? ==> t.primary == u.primary
  }

  function MergeTargets<B(==)>(t: Targets<B>, u: Targets<B>): Targets<B> {
    Targets(if t.primary.Some? then t.primary else u.primary, t.taps + u.taps)
  }

  /** `None` is the raised `FlowMisconfiguredException`. */
  function Connect<A(==), B(==)>(g: Graph<A, B>, source: A, t: Targets<B>): Option<Graph<A, B>> {
    if !Nonempty(t) then None
    else if source in g && !SamePrimary(g[source], t) then None
    else
      var merged := if source in g then MergeTargets(g[source], t) else t;
      if !ValidRoles(merged) then None else Some(g[source := merged])
  }

  /******* Declarations *******/

  datatype Declaration<A, B(==)> = Declaration(source: A, targets: Targets<B>)

  function ConnectAll<A(==), B(==)>(g: Graph<A, B>, ds: seq<Declaration<A, B>>): Option<Graph<A, B>> {
    if ds == [] then Some(g)
    else
      var before := ConnectAll(g, ds[..|ds| - 1]);
      if before.None? then None else Connect(before.value, ds[|ds| - 1].source, ds[|ds| - 1].targets)
  }

  ghost predicate IsPrimary<A, B>(ds: seq<Declaration<A, B>>, a: A, b: B) {
    exists d :: d in ds && d.source == a && d.targets.primary == Some(b)
  }

  ghost predicate IsTap<A, B>(ds: seq<Declaration<A, B>>, a: A, b: B) {
    exists d :: d in ds && d.source == a && b in d.targets.taps
  }

  /** Nothing in here depends on the order or the number of repetitions. */
  ghost predicate Consistent<A(!new), B(!new)>(ds: seq<Declaration<A, B>>) {
    && (forall d :: d in ds ==> Nonempty(d.targets))
    && (forall a, b, c :: IsPrimary(ds, a, b) && IsPrimary(ds, a, c) ==> b == c)
    && (forall a, b :: IsPrimary(ds, a, b) ==> !IsTap(ds, a, b))
  }

  ghost predicate Declared<A, B>(ds: seq<Declaration<A, B>>, a: A) {
    exists d :: d in ds && d.source == a
  }

  /** `g` is exactly the union of the declarations. */
  ghost predicate Builds<A(!new), B(!new)>(ds: seq<Declaration<A, B>>, g: Graph<A, B>) {
    && (forall a :: a in g <==> Declared(ds, a))
    && (forall a, b :: IsPrimary(ds, a, b) <==> a in g && g[a].primary == Some(b))
    && (forall a, b :: IsTap(ds, a, b) <==> a in g && b in g[a].taps)
  }

  lemma UnionSnoc<A, B>(ds: seq<Declaration<A, B>>, d: Declaration<A, B>, a: A, b: B)
    ensures Declared(ds + [d], a) <==> Declared(ds, a) || d.source == a
    ensures IsPrimary(ds + [d], a, b) <==> IsPrimary(ds, a, b) || (d.source == a && d.targets.primary == Some(b))
    ensures IsTap(ds + [d], a, b) <==> IsTap(ds, a, b) || (d.source == a && b in d.targets.taps)
  {
    assert forall e :: e in ds + [d] <==> e in ds || e == d;
  }

  lemma DeclaredSnoc<A, B>(ds: seq<Declaration<A, B>>, d: Declaration<A, B>, a: A)
    ensures Declared(ds + [d], a) <==> Declared(ds, a) || d.source == a
  {
    assert forall e :: e in ds + [d] <==> e in ds || e == d;
  }

  lemma ConsistentPrefix<A(!new), B(!new)>(ds: seq<Declaration<A, B>>, d: Declaration<A, B>)
    requires Consistent(ds + [d])
    ensures Consistent(ds)
  {
    forall a, b
      ensures IsPrimary(ds, a, b) ==> IsPrimary(ds + [d], a, b)
      ensures IsTap(ds, a, b) ==> IsTap(ds + [d], a, b)
    {
      UnionSnoc(ds, d, a, b);
    }
    assert forall e :: e in ds ==> e in ds + [d];
  }

  /** The graph after one accepted declaration is the larger union. */
  lemma ConnectBuilds<A(!new), B(!new)>(ds: seq<Declaration<A, B>>, d: Declaration<A, B>, g: Graph<A, B>)
    requires Builds(ds, g) && Connect(g, d.source, d.targets).Some?
    ensures Builds(ds + [d], Connect(g, d.source, d.targets).value)
  {
    var h := Connect(g, d.source, d.targets).value;
    forall a ensures a in h <==> Declared(ds + [d], a) {
      DeclaredSnoc(ds, d, a);
    }
    forall a, b
      ensures IsPrimary(ds + [d], a, b) <==> a in h && h[a].primary == Some(b)
      ensures IsTap(ds + [d], a, b) <==> a in h && b in h[a].taps
    {
      UnionSnoc(ds, d, a, b);
    }
  }

  lemma ConsistentIffConnects<A(!new), B(!new)>(ds: seq<Declaration<A, B>>, d: Declaration<A, B>, g: Graph<A, B>)
    requires Consistent(ds) && Builds(ds, g)
    ensures Connect(g, d.source, d.targets).Some? <==> Consistent(ds + [d])
  {
    var a, t := d.source, d.targets;
    assert d in ds + [d];
    if Connect(g, a, t).Some? {
      ConnectBuilds(ds, d, g);
      assert forall e :: e in ds + [d] <==> e in ds || e == d;
      var h := Connect(g, a, t).value;
      forall x, b, c | IsPrimary(ds + [d], x, b) && IsPrimary(ds + [d], x, c) ensures b == c {
        assert h[x].primary == Some(b) && h[x].primary == Some(c);
      }
      forall x, b | IsPrimary(ds + [d], x, b) ensures !IsTap(ds + [d], x, b) {
        if x == a {
          assert ValidRoles(h[a]);
        } else {
          UnionSnoc(ds, d, x, b);
        }
      }
    } else if a in g && !SamePrimary(g[a], t) {
      UnionSnoc(ds, d, a, g[a].primary.value);
      UnionSnoc(ds, d, a, t.primary.value);
    } else if Nonempty(t) {
      var merged := if a in g then MergeTargets(g[a], t) else t;
      UnionSnoc(ds, d, a, merged.primary.value);
      assert IsPrimary(ds + [d], a, merged.primary.value) && IsTap(ds + [d], a, merged.primary.value);
    }
  }

  /**
   Main theorem: a list of declarations is accepted iff it is consistent as a whole, and then the
   graph is the union of the declarations.
   */
  lemma {:induction false} AcceptedIffConsistent<A(!new), B(!new)>(ds: seq<Declaration<A, B>>)
    ensures ConnectAll(map[], ds).Some? <==> Consistent(ds)
    ensures ConnectAll(map[], ds).Some? ==> Builds(ds, ConnectAll(map[], ds).value)
  {
    if ds != [] {
      var init, d := ds[..|ds| - 1], ds[|ds| - 1];
      assert ds == init + [d];
      AcceptedIffConsistent(init);
      if Consistent(init) {
        var g := ConnectAll(map[], init).value;
        ConsistentIffConnects(init, d, g);
        if Consistent(ds) {
          ConnectBuilds(init, d, g);
        }
      } else if Consistent(ds) {
        ConsistentPrefix(init, d);
      }
    }
  }

  lemma BuildsUnique<A(!new), B(!new)>(ds: seq<Declaration<A, B>>, g: Graph<A, B>, h: Graph<A, B>)
    requires Builds(ds, g) && Builds(ds, h)
    ensures g == h
  {
    assert forall a :: a in g <==> Declared(ds, a);
    assert forall a :: a in h <==> Declared(ds, a);
    forall a | a in g ensures a in h && g[a] == h[a] {
      assert g[a].taps == h[a].taps by {
        forall b ensures b in g[a].taps <==> b in h[a].taps {
          assert b in g[a].taps <==> IsTap(ds, a, b);
        }
      }
      assert g[a].primary == h[a].primary by {
        forall b ensures g[a].primary == Some(b) <==> h[a].primary == Some(b) {
          assert g[a].primary == Some(b) <==> IsPrimary(ds, a, b);
        }
        assert g[a].primary.Some? ==> h[a].primary == Some(g[a].primary.value);
      }
    }
  }

  /** Main theorem: the order of the declarations does not matter, nor does repeating one. */
  lemma OrderInsensitive<A(!new), B(!new)>(ds: seq<Declaration<A, B>>, es: seq<Declaration<A, B>>)
    requires forall d :: d in ds <==> d in es
    ensures ConnectAll(map[], ds) == ConnectAll(map[], es)
  {
    AcceptedIffConsistent(ds);
    AcceptedIffConsistent(es);
    forall a, b
      ensures IsPrimary(ds, a, b) <==> IsPrimary(es, a, b)
      ensures IsTap(ds, a, b) <==> IsTap(es, a, b)
    {
    }
    forall a ensures Declared(ds, a) <==> Declared(es, a) {
    }
    if Consistent(ds) {
      BuildsUnique(ds, ConnectAll(map[], ds).value, ConnectAll(map[], es).value);
    }
  }

  /******* Merging graphs *******/

  ghost predicate WellFormed<A, B>(g: Graph<A, B>) {
    forall a :: a in g ==> Nonempty(g[a]) && ValidRoles(g[a])
  }

  predicate Joinable<B(==)>(t: Targets<B>, u: Targets<B>) {
    SamePrimary(t, u) && ValidRoles(MergeTargets(t, u))
  }

  ghost function Merge<A(!new), B>(g: Graph<A, B>, h: Graph<A, B>): Option<Graph<A, B>> {
    if forall a :: a in g && a in h ==> Joinable(g[a], h[a]) then
      Some(map a | a in g.Keys + h.Keys ::
             if a in g && a in h then MergeTargets(g[a], h[a]) else if a in g then g[a] else h[a])
    else None
  }

  lemma MergeCommutes<A(!new), B>(g: Graph<A, B>, h: Graph<A, B>)
    requires WellFormed(g) && WellFormed(h)
    ensures Merge(g, h) == Merge(h, g)
  {
    assert forall a :: a in g && a in h ==> (Joinable(g[a], h[a]) <==> Joinable(h[a], g[a]));
    if Merge(g, h).Some? {
      var m, n := Merge(g, h).value, Merge(h, g).value;
      forall a | a in m ensures a in n && m[a] == n[a] {
        if a in g && a in h {
          assert g[a].taps + h[a].taps == h[a].taps + g[a].taps;
        }
      }
      assert m == n;
    }
  }

  lemma MergeIdempotent<A(!new), B>(g: Graph<A, B>)
    requires WellFormed(g)
    ensures Merge(g, g) == Some(g)
  {
    forall a | a in g ensures MergeTargets(g[a], g[a]) == g[a] {
      assert g[a].taps + g[a].taps == g[a].taps;
    }
    assert Merge(g, g).Some?;
    assert Merge(g, g).value == g;
  }

  ghost function MergeOption<A(!new), B>(g: Option<Graph<A, B>>, h: Option<Graph<A, B>>): Option<Graph<A, B>> {
    if g.None? || h.None? then None else Merge(g.value, h.value)
  }

  /** All three pairwise joins and the threefold join, at one source. */
  lemma JoinAssociates<B>(t: Targets<B>, u: Targets<B>, v: Targets<B>)
    ensures Joinable(t, u) && Joinable(MergeTargets(t, u), v) <==> Joinable(u, v) && Joinable(t, MergeTargets(u, v))
    ensures MergeTargets(MergeTargets(t, u), v) == MergeTargets(t, MergeTargets(u, v))
  {
    assert t.taps + u.taps + v.taps == t.taps + (u.taps + v.taps);
  }

  ghost predicate JoinableAt<A, B>(g: Graph<A, B>, h: Graph<A, B>, a: A) {
    a in g && a in h ==> Joinable(g[a], h[a])
  }

  lemma MergeAt<A(!new), B>(g: Graph<A, B>, h: Graph<A, B>)
    ensures Merge(g, h).Some? <==> forall a :: JoinableAt(g, h, a)
  {
    if forall a :: JoinableAt(g, h, a) {
      forall a | a in g && a in h ensures Joinable(g[a], h[a]) {
        assert JoinableAt(g, h, a);
      }
    }
  }

  lemma MergeAssociates<A(!new), B>(g: Graph<A, B>, h: Graph<A, B>, k: Graph<A, B>)
    requires WellFormed(g) && WellFormed(h) && WellFormed(k)
    ensures MergeOption(Merge(g, h), Some(k)) == MergeOption(Some(g), Merge(h, k))
  {
    MergeAt(g, h);
    MergeAt(h, k);
    if Merge(g, h).Some? && Merge(h, k).Some? {
      var gh, hk := Merge(g, h).value, Merge(h, k).value;
      MergeAt(gh, k);
      MergeAt(g, hk);
      forall a ensures JoinableAt(gh, k, a) <==> JoinableAt(g, hk, a) {
        assert JoinableAt(g, h, a) && JoinableAt(h, k, a);
        if a in g && a in h && a in k {
          JoinAssociates(g[a], h[a], k[a]);
        }
      }
      if Merge(gh, k).Some? {
        var m, n := Merge(gh, k).value, Merge(g, hk).value;
        forall a | a in m ensures a in n && m[a] == n[a] {
          if a in g && a in h && a in k {
            JoinAssociates(g[a], h[a], k[a]);
          }
        }
        assert m.Keys == n.Keys;
        assert m == n;
      }
    } else if Merge(g, h).Some? {
      OuterFailureMatches(g, h, k);
    } else if Merge(h, k).Some? {
      InnerFailureMatches(g, h, k);
    }
  }

  lemma OuterFailureMatches<A(!new), B>(g: Graph<A, B>, h: Graph<A, B>, k: Graph<A, B>)
    requires Merge(g, h).Some? && Merge(h, k).None?
    ensures Merge(Merge(g, h).value, k).None?
  {
    var gh := Merge(g, h).value;
    var a :| a in h && a in k && !Joinable(h[a], k[a]);
    if a in g {
      JoinAssociates(g[a], h[a], k[a]);
      assert JoinableAt(g, h, a);
    }
    assert !Joinable(gh[a], k[a]);
  }

  lemma InnerFailureMatches<A(!new), B>(g: Graph<A, B>, h: Graph<A, B>, k: Graph<A, B>)
    requires Merge(g, h).None? && Merge(h, k).Some?
    ensures Merge(g, Merge(h, k).value).None?
  {
    var hk := Merge(h, k).value;
    var a :| a in g && a in h && !Joinable(g[a], h[a]);
    if a in k {
      JoinAssociates(g[a], h[a], k[a]);
    }
    assert !Joinable(g[a], hk[a]);
  }
}
