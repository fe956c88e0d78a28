/**
 Locking of the parents in `create_context`: any number of threads, each taking the locks of its
 own parent list in sorted, duplicate-free order, one atomic acquire or release at a time. A thread may
 come with locks that it holds already, as a handler does with its own context's; locks are re-entrant.
 */
module ContextLocks {
  import opened StableSort
  import opened ContextLog

  type ThreadId = nat

  /**
   Beside `held`, the first `taken` locks of `wanted` are taken; a thread acquires in order, runs its body,
   then releases in reverse, and in the end what it came with.
   */
  datatype Thread = Thread(held: seq<ContextId>, wanted: seq<ContextId>, taken: nat, releasing: bool)

  datatype Locks = Locks(threads: map<ThreadId, Thread>, owner: map<ContextId, ThreadId>)

  function Itself(): ContextId -> int {
    (c: ContextId) => c
  }

  /** `sorted(set(context_ids))` */
  function LockOrder(ids: seq<ContextId>): seq<ContextId> {
    Sort(Dedup(ids), Itself())
  }

  ghost predicate StrictlySorted(ids: seq<ContextId>) {
    forall i, j :: 0 <= i < j < |ids| ==> ids[i] < ids[j]
  }

  lemma LockOrderIsStrict(ids: seq<ContextId>)
    ensures StrictlySorted(LockOrder(ids))
    ensures forall c :: c in LockOrder(ids) <==> c in ids
  {
    var u, r := Dedup(ids), LockOrder(ids);
    SortSorts(u, Itself());
    SortPermutes(u, Itself());
    forall c ensures c in r <==> c in u {
      assert c in multiset(r) <==> c in multiset(u);
    }
    forall i, j | 0 <= i < j < |r| ensures r[i] < r[j] {
      if r[i] == r[j] {
        TwicePresent(r, i, j);
        OncePresent(u, r[i]);
      }
    }
  }

  lemma TwicePresent(s: seq<ContextId>, i: int, j: int)
    requires 0 <= i < j < |s| && s[i] == s[j]
    ensures multiset(s)[s[i]] >= 2
  {
    assert s == s[..i] + [s[i]] + s[i + 1..j] + [s[j]] + s[j + 1..];
  }

  lemma {:induction false} OncePresent(s: seq<ContextId>, c: ContextId)
    requires forall i, j :: 0 <= i < j < |s| ==> s[i] != s[j]
    ensures multiset(s)[c] <= 1
  {
    if s != [] {
      OncePresent(s[1..], c);
      assert s == [s[0]] + s[1..];
      if c == s[0] {
        assert c !in s[1..];
        assert c !in multiset(s[1..]);
      }
    }
  }

  predicate Finished(t: Thread) {
    t.releasing && t.taken == 0 && t.held == []
  }

  predicate WellFormed(s: Locks) {
    forall t :: t in s.threads ==> s.threads[t].taken <= |s.threads[t].wanted|
  }

  predicate Free(s: Locks, t: ThreadId, c: ContextId) {
    c in s.owner ==> s.owner[c] == t
  }

  /** A thread waits only for a lock that another thread owns. */
  predicate CanStep(s: Locks, t: ThreadId)
    requires WellFormed(s)
  {
    && t in s.threads
    && var x := s.threads[t];
       && !Finished(x)
       && (!x.releasing && x.taken < |x.wanted| ==> Free(s, t, x.wanted[x.taken]))
  }

  /** The next atomic action of `t`; a thread that finds a lock or a parent missing (`aborts`) starts to release. */
  function Step(s: Locks, t: ThreadId, aborts: bool): (r: Locks)
    requires WellFormed(s) && CanStep(s, t)
  {
    var x := s.threads[t];
    if x.releasing && x.taken > 0 then
      var c := x.wanted[x.taken - 1];
      Locks(s.threads[t := x.(taken := x.taken - 1)], if c in x.held then s.owner else s.owner - {c})
    else if x.releasing then
      var n := |x.held| - 1;
      Locks(s.threads[t := x.(held := x.held[..n])], s.owner - {x.held[n]})
    else if aborts || x.taken == |x.wanted| then
      s.(threads := s.threads[t := x.(releasing := true)])
    else
      Locks(s.threads[t := x.(taken := x.taken + 1)], s.owner[x.wanted[x.taken] := t])
  }

  ghost predicate Holds(s: Locks, t: ThreadId, c: ContextId) {
    && t in s.threads && s.threads[t].taken <= |s.threads[t].wanted|
    && (c in s.threads[t].held || c in s.threads[t].wanted[..s.threads[t].taken])
  }

  ghost predicate Distinct(ids: seq<ContextId>) {
    forall i, j :: 0 <= i < j < |ids| ==> ids[i] != ids[j]
  }

  /** No lock that is held already is above a wanted one, except for those that are held as well. */
  ghost predicate InOrder(held: seq<ContextId>, wanted: seq<ContextId>) {
    forall h, w :: h in held && w in wanted && w !in held ==> h < w
  }

  /** Owners are exactly the holders, so no lock has two. */
  ghost predicate Owned(s: Locks) {
    && WellFormed(s)
    && (forall t :: t in s.threads ==> StrictlySorted(s.threads[t].wanted) && Distinct(s.threads[t].held))
    && (forall t, c :: Holds(s, t, c) <==> c in s.owner && s.owner[c] == t)
  }

  ghost predicate Inv(s: Locks) {
    Owned(s) && forall t :: t in s.threads && !s.threads[t].releasing ==>
      InOrder(s.threads[t].held, s.threads[t].wanted)
  }

  lemma StepHolds(s: Locks, t: ThreadId, aborts: bool, c: ContextId)
    requires Owned(s) && CanStep(s, t)
    ensures var s1 := Step(s, t, aborts);
            WellFormed(s1) && (Holds(s1, t, c) <==> c in s1.owner && s1.owner[c] == t)
  {
    var s1 := Step(s, t, aborts);
    var x, y := s.threads[t], s1.threads[t];
    assert Holds(s, t, c) <==> c in s.owner && s.owner[c] == t;
    if y.taken > x.taken {
      assert y.wanted[..y.taken] == x.wanted[..x.taken] + [x.wanted[x.taken]];
    } else if y.taken < x.taken {
      assert x.wanted[..x.taken] == y.wanted[..y.taken] + [x.wanted[y.taken]];
      assert Holds(s, t, x.wanted[y.taken]);
    } else if |y.held| < |x.held| {
      assert x.held == y.held + [x.held[|y.held|]];
      assert Holds(s, t, x.held[|y.held|]);
    }
  }

  lemma StepOwns(s: Locks, t: ThreadId, aborts: bool)
    requires Owned(s) && CanStep(s, t)
    ensures Owned(Step(s, t, aborts))
  {
    var s1 := Step(s, t, aborts);
    forall u, c ensures Holds(s1, u, c) <==> c in s1.owner && s1.owner[c] == u {
      StepHolds(s, t, aborts, c);
      if u != t {
        OthersKeepLocks(s, t, aborts, u, c);
      }
    }
  }

  lemma OthersKeepLocks(s: Locks, t: ThreadId, aborts: bool, u: ThreadId, c: ContextId)
    requires Owned(s) && CanStep(s, t) && u != t
    ensures var s1 := Step(s, t, aborts);
            Holds(s1, u, c) <==> c in s1.owner && s1.owner[c] == u
  {
    var s1 := Step(s, t, aborts);
    var x := s.threads[t];
    assert Holds(s1, u, c) <==> Holds(s, u, c);
    assert Holds(s, u, c) <==> c in s.owner && s.owner[c] == u;
    if x.releasing && x.taken > 0 {
      assert Holds(s, t, x.wanted[x.taken - 1]);
    } else if x.releasing {
      assert Holds(s, t, x.held[|x.held| - 1]);
    }
  }

  lemma StepKeeps(s: Locks, t: ThreadId, aborts: bool)
    requires Inv(s) && CanStep(s, t)
    ensures Inv(Step(s, t, aborts))
  {
    StepOwns(s, t, aborts);
  }

  ghost predicate Run(s: Locks, schedule: seq<(ThreadId, bool)>, s': Locks)
    decreases |schedule|
  {
    if schedule == [] then s' == s
    else WellFormed(s) && CanStep(s, schedule[0].0) && Run(Step(s, schedule[0].0, schedule[0].1), schedule[1..], s')
  }

  lemma {:induction false} RunKeeps(s: Locks, schedule: seq<(ThreadId, bool)>, s': Locks)
    requires Inv(s) && Run(s, schedule, s')
    ensures Inv(s')
    decreases |schedule|
  {
    if schedule != [] {
      StepKeeps(s, schedule[0].0, schedule[0].1);
      RunKeeps(Step(s, schedule[0].0, schedule[0].1), schedule[1..], s');
    }
  }

  /** Every thread enters with its own parent list and the locks it holds already. */
  ghost predicate Entering(s: Locks, held: map<ThreadId, seq<ContextId>>, parents: map<ThreadId, seq<ContextId>>) {
    && s.threads.Keys == held.Keys == parents.Keys
    && (forall t :: t in held ==> Distinct(held[t]))
    && (forall t :: t in s.threads ==> s.threads[t] == Thread(held[t], LockOrder(parents[t]), 0, false))
    && (forall t, c :: t in held && c in held[t] ==> c in s.owner && s.owner[c] == t)
    && (forall c :: c in s.owner ==> s.owner[c] in held && c in held[s.owner[c]])
  }

  ghost predicate AllInOrder(held: map<ThreadId, seq<ContextId>>, parents: map<ThreadId, seq<ContextId>>) {
    forall t :: t in held && t in parents ==> InOrder(held[t], parents[t])
  }

  lemma EnteringHolds(s: Locks, held: map<ThreadId, seq<ContextId>>, parents: map<ThreadId, seq<ContextId>>,
                      t: ThreadId, c: ContextId)
    requires Entering(s, held, parents)
    ensures Holds(s, t, c) <==> c in s.owner && s.owner[c] == t
  {
    hide LockOrder;
    if t in s.threads {
      assert s.threads[t].wanted[..0] == [];
    }
  }

  lemma EnteringInv(s: Locks, held: map<ThreadId, seq<ContextId>>, parents: map<ThreadId, seq<ContextId>>)
    requires Entering(s, held, parents) && AllInOrder(held, parents)
    ensures Inv(s)
  {
    forall t | t in s.threads
      ensures StrictlySorted(s.threads[t].wanted) && InOrder(s.threads[t].held, s.threads[t].wanted)
    {
      LockOrderIsStrict(parents[t]);
    }
    forall t, c ensures Holds(s, t, c) <==> c in s.owner && s.owner[c] == t {
      EnteringHolds(s, held, parents, t, c);
    }
    hide Entering;
    hide Holds;
  }

  ghost function Next(s: Locks, t: ThreadId): nat
    requires t in s.threads
  {
    var x := s.threads[t];
    if x.taken < |x.wanted| then x.wanted[x.taken] else 0
  }

  /** A waiting thread waits for a lock above all those it holds. */
  lemma OwnerWaitsAbove(s: Locks, o: ThreadId, c: ContextId)
    requires Inv(s) && Holds(s, o, c) && !CanStep(s, o)
    ensures !Finished(s.threads[o]) && c < Next(s, o)
  {
    var x := s.threads[o];
    if !Finished(x) {
      var w := x.wanted[x.taken];
      assert !Holds(s, o, w);
      if c !in x.held {
        var i :| 0 <= i < x.taken && x.wanted[i] == c;
      }
    }
  }

  /** From a waiting thread to the owner it waits for: the owner waits for a larger lock, or can run. */
  lemma {:induction false} FollowOwners(s: Locks, t: ThreadId, bound: nat) returns (u: ThreadId)
    requires Inv(s) && t in s.threads && !Finished(s.threads[t])
    requires forall t :: t in s.threads ==> Next(s, t) <= bound
    ensures CanStep(s, u)
    decreases bound - Next(s, t)
  {
    if CanStep(s, t) {
      u := t;
    } else {
      var c := Next(s, t);
      var o := s.owner[c];
      assert Holds(s, o, c);
      if CanStep(s, o) {
        u := o;
      } else {
        OwnerWaitsAbove(s, o, c);
        u := FollowOwners(s, o, bound);
      }
    }
  }

  lemma {:induction false} Bounded(s: Locks, ts: set<ThreadId>) returns (bound: nat)
    requires ts <= s.threads.Keys
    ensures forall t :: t in ts ==> Next(s, t) <= bound
  {
    if ts == {} {
      bound := 0;
    } else {
      var t :| t in ts;
      bound := Bounded(s, ts - {t});
      bound := if Next(s, t) > bound then Next(s, t) else bound;
    }
  }

  ghost predicate AllFinished(s: Locks) {
    forall t :: t in s.threads ==> Finished(s.threads[t])
  }

  ghost predicate Stuck(s: Locks) {
    WellFormed(s) && !AllFinished(s) && forall u :: !CanStep(s, u)
  }

  /** Main theorem: while a thread is unfinished, some thread can take its next step. */
  lemma DeadlockFree(s0: Locks, held: map<ThreadId, seq<ContextId>>, parents: map<ThreadId, seq<ContextId>>,
                     schedule: seq<(ThreadId, bool)>, s: Locks)
    requires Entering(s0, held, parents) && AllInOrder(held, parents) && Run(s0, schedule, s)
    ensures WellFormed(s)
    ensures forall t, u, c :: Holds(s, t, c) && Holds(s, u, c) ==> t == u
    ensures AllFinished(s) || exists u :: CanStep(s, u)
  {
    EnteringInv(s0, held, parents);
    RunKeeps(s0, schedule, s);
    if t :| t in s.threads && !Finished(s.threads[t]) {
      var bound := Bounded(s, s.threads.Keys);
      var u := FollowOwners(s, t, bound);
    }
  }

  /** The threads still want what they came for, and a thread that releases without aborting had taken all of it. */
  ghost predicate WantedStays(s: Locks, parents: map<ThreadId, seq<ContextId>>) {
    s.threads.Keys == parents.Keys && forall t :: t in s.threads ==> s.threads[t].wanted == LockOrder(parents[t])
  }

  lemma {:induction false} RunOwns(s: Locks, schedule: seq<(ThreadId, bool)>, s': Locks,
                                   parents: map<ThreadId, seq<ContextId>>)
    requires Owned(s) && WantedStays(s, parents) && Run(s, schedule, s')
    ensures Owned(s') && WantedStays(s', parents)
    decreases |schedule|
  {
    hide LockOrder;
    hide Owned;
    if schedule != [] {
      StepOwns(s, schedule[0].0, schedule[0].1);
      RunOwns(Step(s, schedule[0].0, schedule[0].1), schedule[1..], s', parents);
    }
  }

  lemma EnteringOwned(s: Locks, held: map<ThreadId, seq<ContextId>>, parents: map<ThreadId, seq<ContextId>>)
    requires Entering(s, held, parents)
    ensures Owned(s) && WantedStays(s, parents)
  {
    forall t | t in s.threads ensures StrictlySorted(s.threads[t].wanted) {
      LockOrderIsStrict(parents[t]);
    }
    forall t, c ensures Holds(s, t, c) <==> c in s.owner && s.owner[c] == t {
      EnteringHolds(s, held, parents, t, c);
    }
    hide LockOrder;
    hide Holds;
  }

  /**
   Main theorem: a thread that gets through to the end of its body, where it starts to release, holds the locks of
   all its parents then, and nobody else holds any of them, whatever order the locks are in that it came with.
   */
  lemma BodyHoldsAllParents(s0: Locks, held: map<ThreadId, seq<ContextId>>, parents: map<ThreadId, seq<ContextId>>,
                            schedule: seq<(ThreadId, bool)>, s: Locks, t: ThreadId, c: ContextId)
    requires Entering(s0, held, parents) && Run(s0, schedule, s)
    requires WellFormed(s) && CanStep(s, t) && t in parents && c in parents[t]
    requires !s.threads[t].releasing && Step(s, t, false).threads[t].releasing
    ensures Holds(s, t, c) && forall u :: Holds(s, u, c) ==> u == t
  {
    EnteringOwned(s0, held, parents);
    RunOwns(s0, schedule, s, parents);
    LockOrderIsStrict(parents[t]);
    assert s.threads[t].taken == |s.threads[t].wanted|;
    assert s.threads[t].wanted == LockOrder(parents[t]);
    hide *;
    AllTaken(s, t, c);
  }

  lemma AllTaken(s: Locks, t: ThreadId, c: ContextId)
    requires Owned(s) && t in s.threads && s.threads[t].taken == |s.threads[t].wanted| && c in s.threads[t].wanted
    ensures Holds(s, t, c) && forall u :: Holds(s, u, c) ==> u == t
  {
    var wanted := s.threads[t].wanted;
    assert wanted[..|wanted|] == wanted;
    assert Holds(s, t, c);
    assert forall u :: Holds(s, u, c) ==> s.owner[c] == u;
  }

  /** How many steps a thread still has: waiting costs nothing, and every step of it is one less. */
  function StepsLeft(x: Thread): nat
    requires x.taken <= |x.wanted|
  {
    |x.held| + if x.releasing then x.taken else 2 * |x.wanted| - x.taken + 1
  }

  function TotalLeft(s: Locks, ts: set<ThreadId>): nat
    requires WellFormed(s) && ts <= s.threads.Keys
  {
    if ts == {} then 0
    else
      var t := Least(ts);
      StepsLeft(s.threads[t]) + TotalLeft(s, ts - {t})
  }

  predicate IsLeast(ts: set<ThreadId>, t: ThreadId) {
    t in ts && forall u :: u in ts ==> t <= u
  }

  function Least(ts: set<ThreadId>): (t: ThreadId)
    requires ts != {}
    ensures IsLeast(ts, t)
  {
    LeastExists(ts);
    var t :| IsLeast(ts, t);
    t
  }

  lemma LeastExists(ts: set<ThreadId>)
    requires ts != {}
    ensures exists t :: IsLeast(ts, t)
  {
    var t := LeastOf(ts);
  }

  lemma {:induction false} LeastOf(ts: set<ThreadId>) returns (t: ThreadId)
    requires ts != {}
    ensures IsLeast(ts, t)
  {
    var x :| x in ts;
    var rest := ts - {x};
    if rest == {} {
      t := x;
    } else {
      var m := LeastOf(rest);
      t := if m < x then m else x;
    }
    forall u | u in ts ensures t <= u {
      assert u == x || u in rest;
    }
  }

  lemma {:induction false} TotalLeftDrops(s: Locks, s1: Locks, ts: set<ThreadId>, t: ThreadId)
    requires WellFormed(s) && WellFormed(s1) && s1.threads.Keys == s.threads.Keys && ts <= s.threads.Keys
    requires t in s.threads && forall u :: u in s.threads && u != t ==> s1.threads[u] == s.threads[u]
    requires StepsLeft(s1.threads[t]) < StepsLeft(s.threads[t])
    ensures if t in ts then TotalLeft(s1, ts) < TotalLeft(s, ts) else TotalLeft(s1, ts) == TotalLeft(s, ts)
  {
    if ts != {} {
      TotalLeftDrops(s, s1, ts - {Least(ts)}, t);
    }
  }

  /** No schedule runs for ever, so with `DeadlockFree` every schedule ends with every thread finished. */
  lemma {:induction false} SchedulesEnd(s: Locks, schedule: seq<(ThreadId, bool)>, s': Locks)
    requires Inv(s) && Run(s, schedule, s')
    ensures |schedule| <= TotalLeft(s, s.threads.Keys)
    decreases |schedule|
  {
    if schedule != [] {
      var t := schedule[0].0;
      var s1 := Step(s, t, schedule[0].1);
      StepKeeps(s, t, schedule[0].1);
      assert s1.threads.Keys == s.threads.Keys;
      TotalLeftDrops(s, s1, s.threads.Keys, t);
      SchedulesEnd(s1, schedule[1..], s');
    }
  }

  /** The sorting is what does it: two threads that take the same two locks in opposite orders get stuck. */
  lemma OppositeOrdersDeadlock()
    ensures var s0 := Locks(map[0 := Thread([], [1, 2], 0, false), 1 := Thread([], [2, 1], 0, false)], map[]);
            exists schedule, s :: Run(s0, schedule, s) && WellFormed(s)
              && (forall u :: !CanStep(s, u)) && exists t :: t in s.threads && !Finished(s.threads[t])
  {
    var s0 := Locks(map[0 := Thread([], [1, 2], 0, false), 1 := Thread([], [2, 1], 0, false)], map[]);
    var s1 := Step(s0, 0, false);
    var s2 := Step(s1, 1, false);
    assert Run(s2, [], s2);
    assert [(1, false)][1..] == [] && [(0, false), (1, false)][1..] == [(1, false)];
    assert Run(s1, [(1, false)], s2);
    assert Run(s0, [(0, false), (1, false)], s2);
    assert s2 == Locks(map[0 := Thread([], [1, 2], 1, false), 1 := Thread([], [2, 1], 1, false)], map[1 := 0, 2 := 1]);
    assert 0 in s2.threads && !Finished(s2.threads[0]);
  }

  /******* Exactly which locks a thread may come with *******/

  /** A thread with these locks and parents can never be part of a deadlock with threads that are in order. */
  ghost predicate Safe(held: seq<ContextId>, parents: seq<ContextId>) {
    forall s0, helds: map<ThreadId, seq<ContextId>>, lists: map<ThreadId, seq<ContextId>>, t, schedule, s ::
      Entering(s0, helds, lists) && t in helds && helds[t] == held && lists[t] == parents
      && AllInOrder(helds - {t}, lists) && Run(s0, schedule, s)
      ==> !Stuck(s)
  }

  lemma OrderIsSafe(held: seq<ContextId>, parents: seq<ContextId>)
    requires InOrder(held, parents)
    ensures Safe(held, parents)
  {
    forall s0, helds: map<ThreadId, seq<ContextId>>, lists: map<ThreadId, seq<ContextId>>, t, schedule, s |
      Entering(s0, helds, lists) && t in helds && helds[t] == held && lists[t] == parents
      && AllInOrder(helds - {t}, lists) && Run(s0, schedule, s)
      ensures !Stuck(s)
    {
      assert AllInOrder(helds, lists) by {
        forall u | u in helds && u in lists ensures InOrder(helds[u], lists[u]) {
          assert u != t ==> u in helds - {t};
        }
      }
      DeadlockFree(s0, helds, lists, schedule, s);
    }
  }

  /** A thread takes locks that it holds already without waiting, and nobody's ownership changes. */
  lemma {:induction false} Reenter(s: Locks, t: ThreadId, n: nat) returns (schedule: seq<(ThreadId, bool)>)
    requires WellFormed(s) && t in s.threads && !s.threads[t].releasing
    requires s.threads[t].taken <= n <= |s.threads[t].wanted|
    requires forall i :: s.threads[t].taken <= i < n ==>
               s.threads[t].wanted[i] in s.owner && s.owner[s.threads[t].wanted[i]] == t
    ensures Run(s, schedule, s.(threads := s.threads[t := s.threads[t].(taken := n)]))
    decreases n - s.threads[t].taken
  {
    var x := s.threads[t];
    if x.taken == n {
      schedule := [];
      assert s.threads[t := x] == s.threads;
    } else {
      var s1 := Step(s, t, false);
      assert s.owner[x.wanted[x.taken] := t] == s.owner;
      var rest := Reenter(s1, t, n);
      schedule := [(t, false)] + rest;
      assert schedule[1..] == rest;
      assert s1.threads[t := x.(taken := n)] == s.threads[t := x.(taken := n)];
    }
  }

  /** The first wanted lock that is not held, and a held one above it. */
  lemma FirstOutOfOrder(held: seq<ContextId>, parents: seq<ContextId>) returns (k: nat, h: ContextId)
    requires !InOrder(held, parents)
    ensures var wanted := LockOrder(parents);
            && k < |wanted| && wanted[k] !in held && h in held && wanted[k] < h
            && forall i :: 0 <= i < k ==> wanted[i] in held
  {
    var w: ContextId;
    h, w :| h in held && w in parents && w !in held && h >= w;
    LockOrderIsStrict(parents);
    var wanted := LockOrder(parents);
    var m: nat :| m < |wanted| && wanted[m] == w;
    k := 0;
    while wanted[k] in held
      invariant k <= m && forall i :: 0 <= i < k ==> wanted[i] in held
      decreases m - k
    {
      k := k + 1;
    }
  }

  lemma PairOrder(w: ContextId, h: ContextId)
    requires w < h
    ensures LockOrder([w, h]) == [w, h]
  {
    LockOrderIsStrict([w, h]);
    var r := LockOrder([w, h]);
    assert w in r && h in r;
    forall k | 0 <= k < |r| ensures r[k] == w || r[k] == h {
      assert r[k] in r;
      assert r[k] in [w, h];
    }
    var i :| 0 <= i < |r| && r[i] == w;
    var j :| 0 <= j < |r| && r[j] == h;
    assert r[0] == w && r[1] == h == r[|r| - 1];
  }

  /** The thread that comes with `held`, and one that comes with nothing and wants `w` and `h`. */
  function Against(held: seq<ContextId>, parents: seq<ContextId>, w: ContextId, h: ContextId): Locks {
    Locks(map[0 := Thread(held, LockOrder(parents), 0, false), 1 := Thread([], LockOrder([w, h]), 0, false)],
          map c | c in held :: 0)
  }

  lemma AgainstGetsStuck(held: seq<ContextId>, parents: seq<ContextId>, k: nat, h: ContextId)
    returns (schedule: seq<(ThreadId, bool)>, s: Locks)
    requires var wanted := LockOrder(parents);
             && k < |wanted| && wanted[k] !in held && h in held && wanted[k] < h
             && forall i :: 0 <= i < k ==> wanted[i] in held
    ensures Run(Against(held, parents, LockOrder(parents)[k], h), schedule, s) && Stuck(s)
  {
    var w := LockOrder(parents)[k];
    PairOrder(w, h);
    var s0 := Against(held, parents, w, h);
    var s1 := Step(s0, 1, false);
    var rest := Reenter(s1, 0, k);
    schedule := [(1, false)] + rest;
    assert schedule[1..] == rest;
    s := s1.(threads := s1.threads[0 := s1.threads[0].(taken := k)]);
    forall u ensures !CanStep(s, u) {
    }
    assert 0 in s.threads && !Finished(s.threads[0]);
  }

  /**
   Main theorem: the locks a thread comes with are safe iff none of them is above a parent that it does not
   hold itself; otherwise a second thread, in order and with no lock, is enough for a deadlock.
   */
  lemma SafeIffInOrder(held: seq<ContextId>, parents: seq<ContextId>)
    requires Distinct(held)
    ensures Safe(held, parents) <==> InOrder(held, parents)
  {
    if InOrder(held, parents) {
      OrderIsSafe(held, parents);
    } else {
      var k, h := FirstOutOfOrder(held, parents);
      var schedule, s := AgainstGetsStuck(held, parents, k, h);
      StuckIsUnsafe(held, parents, LockOrder(parents)[k], h, schedule, s);
    }
  }

  lemma StuckIsUnsafe(held: seq<ContextId>, parents: seq<ContextId>, w: ContextId, h: ContextId,
                      schedule: seq<(ThreadId, bool)>, s: Locks)
    requires Distinct(held) && Run(Against(held, parents, w, h), schedule, s) && Stuck(s)
    ensures !Safe(held, parents)
  {
    hide Run;
    hide Stuck;
    hide LockOrder;
    var s0 := Against(held, parents, w, h);
    var helds: map<ThreadId, seq<ContextId>> := map[0 := held, 1 := []];
    var lists: map<ThreadId, seq<ContextId>> := map[0 := parents, 1 := [w, h]];
    assert Entering(s0, helds, lists);
    assert AllInOrder(helds - {0}, lists);
    assert helds[0] == held && lists[0] == parents;
  }

  /** A handler that makes children of its own context only is always in order. */
  lemma OwnContextIsSafe(ctx: ContextId)
    ensures Safe([ctx], [ctx])
  {
    OrderIsSafe([ctx], [ctx]);
  }
}
